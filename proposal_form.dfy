/**
  The governance proposal form (quantumfuse_dapp/src/Governance.js).

  The component holds the submitted proposals and a draft.  Editing a field
  replaces one field of the draft; submitting appends the draft when both of
  its fields are non-empty and then clears the draft.
*/
module ProposalForm {

  /** A proposal as the form collects it. */
  datatype Proposal = Proposal(title: string, description: string)

  /** The draft the form starts from and returns to after a submit. */
  const EmptyDraft := Proposal("", "")

  /** JavaScript truthiness of both fields: neither string is empty. */
  predicate Complete(p: Proposal)
  {
    p.title != "" && p.description != ""
  }

  /** The form after a submit, as a pair (proposals, draft). */
  function Submit(proposals: seq<Proposal>, draft: Proposal): (r: (seq<Proposal>, Proposal))
    ensures Complete(draft) ==> r.0 == proposals + [draft] && r.1 == EmptyDraft
    ensures !Complete(draft) ==> r.0 == proposals && r.1 == draft
  {
    if Complete(draft) then (proposals + [draft], EmptyDraft) else (proposals, draft)
  }

  /** Every stored proposal has both fields filled in. */
  predicate AllComplete(proposals: seq<Proposal>)
  {
    forall i :: 0 <= i < |proposals| ==> Complete(proposals[i])
  }

  /** A submit keeps the list of proposals made of complete proposals, never loses or
      reorders an earlier one, and grows it by at most one. */
  lemma SubmitKeepsProposalsComplete(proposals: seq<Proposal>, draft: Proposal)
    requires AllComplete(proposals)
    ensures AllComplete(Submit(proposals, draft).0)
    ensures |proposals| <= |Submit(proposals, draft).0| <= |proposals| + 1
    ensures Submit(proposals, draft).0[..|proposals|] == proposals
  {
  }

  /** Submitting twice in a row adds the draft once: the second submit sees the empty draft. */
  lemma {:induction false} SubmitTwiceAddsOnce(proposals: seq<Proposal>, draft: Proposal)
    ensures var once := Submit(proposals, draft); Submit(once.0, once.1) == once
  {
    var once := Submit(proposals, draft);
    if Complete(draft) {
      assert once.1 == EmptyDraft && !Complete(EmptyDraft);
    }
  }

  /** The form component: the submitted proposals and the draft being edited. */
  class GovernanceForm {
    var proposals: seq<Proposal>
    var newProposal: Proposal

    /** Only complete proposals are ever stored. */
    ghost predicate Valid()
      reads this
    {
      AllComplete(proposals)
    }

    constructor ()
      ensures Valid()
      ensures proposals == [] && newProposal == EmptyDraft
    {
      proposals := [];
      newProposal := EmptyDraft;
    }

    /** `handleSubmit`: append the draft and reset it when both fields are non-empty;
        otherwise change nothing. */
    method HandleSubmit()
      requires Valid()
      modifies this
      ensures Valid()
      ensures (proposals, newProposal) == Submit(old(proposals), old(newProposal))
      ensures Complete(old(newProposal)) ==>
        proposals == old(proposals) + [old(newProposal)] && newProposal == EmptyDraft
      ensures !Complete(old(newProposal)) ==>
        proposals == old(proposals) && newProposal == old(newProposal)
    {
      if newProposal.title != "" && newProposal.description != "" {
        proposals := proposals + [newProposal];
        newProposal := Proposal("", "");
      }
    }

    /** The title input's `onChange`: the description is kept. */
    method EditTitle(title: string)
      modifies this`newProposal
      ensures newProposal == Proposal(title, old(newProposal).description)
    {
      newProposal := newProposal.(title := title);
    }

    /** The description input's `onChange`: the title is kept. */
    method EditDescription(description: string)
      modifies this`newProposal
      ensures newProposal == Proposal(old(newProposal).title, description)
    {
      newProposal := newProposal.(description := description);
    }
  }
}
