/**
  The Go node prototype (node/src/main.go): sharded chains, load-driven shard
  adjustment, weighted governance with expiry, a quorum-checked cross-chain
  bridge and threshold multi-signature collection.

  Go structs that the code updates through pointers are classes here; the
  shards, blocks and proposals that it copies by value are datatypes.  The
  block hash is the blockchain's `hash` function, left uninterpreted; the
  clock (`time.Now().Unix()`) and the oracles' random verdicts are parameters.
*/
module NodeChain {
  import opened Common

  /** The fields `CalculateHash` formats into the hashed record (the shard id is not one). */
  datatype HashInput = HashInput(timestamp: int, transactions: seq<string>, previousHash: string, nonce: int)

  datatype Block = Block(
    timestamp: int, transactions: seq<string>, previousHash: string,
    hash: string, nonce: int, shardId: int)

  datatype Shard = Shard(shardId: int, chain: seq<Block>, pendingTxns: seq<string>)

  datatype Proposal = Proposal(description: string, expiry: int, executed: bool)

  function HashInputOf(b: Block): HashInput
  {
    HashInput(b.timestamp, b.transactions, b.previousHash, b.nonce)
  }

  /** `NewBlock`: nonce 0 and the hash of the block's own fields. */
  function NewBlock(hash: HashInput -> string, transactions: seq<string>, previousHash: string,
                    shardId: int, now: int): (b: Block)
    ensures b.timestamp == now && b.transactions == transactions && b.previousHash == previousHash
    ensures b.shardId == shardId && b.nonce == 0
    ensures b.hash == hash(HashInputOf(b))
  {
    Block(now, transactions, previousHash, hash(HashInput(now, transactions, previousHash, 0)), 0, shardId)
  }

  /** `CreateGenesisBlock`: no transactions, predecessor "0". */
  function CreateGenesisBlock(hash: HashInput -> string, shardId: int, now: int): (b: Block)
    ensures b.transactions == [] && b.previousHash == "0" && b.shardId == shardId
    ensures b.hash == hash(HashInputOf(b))
  {
    NewBlock(hash, [], "0", shardId, now)
  }

  /** `NewShard`: a one-block chain holding the genesis block and no pending transactions. */
  function NewShard(hash: HashInput -> string, shardId: int, now: int): (s: Shard)
    ensures s.shardId == shardId && s.pendingTxns == []
    ensures |s.chain| == 1 && s.chain[0].previousHash == "0" && s.chain[0].transactions == []
    ensures s.chain[0].shardId == shardId && s.chain[0].hash == hash(HashInputOf(s.chain[0]))
  {
    Shard(shardId, [CreateGenesisBlock(hash, shardId, now)], [])
  }

  /** Shard i carries id i. */
  predicate IdsArePositions(shards: seq<Shard>)
  {
    forall i :: 0 <= i < |shards| ==> shards[i].shardId == i
  }

  // ---------------------------------------------------------------------------
  // Shard adjustment
  // ---------------------------------------------------------------------------

  /** The number of pending transactions over all shards. */
  function TotalPending(shards: seq<Shard>): nat
  {
    if shards == [] then 0 else |shards[0].pendingTxns| + TotalPending(shards[1..])
  }

  /** The shards after `AdjustShards`: one new shard when the load exceeds
      threshold x shards, one shard fewer when it is below threshold x (shards - 1)
      and more than one shard exists, otherwise the same shards. */
  function Adjusted(hash: HashInput -> string, shards: seq<Shard>, threshold: int, now: int): seq<Shard>
  {
    var total := TotalPending(shards);
    if total > threshold * |shards| then shards + [NewShard(hash, |shards|, now)]
    else if total < threshold * (|shards| - 1) && |shards| > 1 then shards[..|shards| - 1]
    else shards
  }

  /** An adjustment adds a shard exactly when the load is above threshold x shards and
      drops the last one exactly when it is below threshold x (shards - 1) with more
      than one shard left; it keeps every surviving shard as it was, never removes the
      last shard and keeps ids equal to positions. */
  lemma AdjustedInvariants(hash: HashInput -> string, shards: seq<Shard>, threshold: int, now: int)
    ensures var r := Adjusted(hash, shards, threshold, now);
      && (|r| == |shards| + 1 <==> TotalPending(shards) > threshold * |shards|)
      && (|r| == |shards| - 1 <==>
          TotalPending(shards) <= threshold * |shards| && TotalPending(shards) < threshold * (|shards| - 1) && |shards| > 1)
      && |shards| - 1 <= |r| <= |shards| + 1
      && (|shards| >= 1 ==> |r| >= 1)
      && (|r| <= |shards| ==> r == shards[..|r|])
      && (|r| > |shards| ==> r[..|shards|] == shards && r[|shards|] == NewShard(hash, |shards|, now))
      && (IdsArePositions(shards) ==> IdsArePositions(r))
  {
  }

  // ---------------------------------------------------------------------------
  // Governance
  // ---------------------------------------------------------------------------

  /** The sum of the recorded weights, whatever order a range loop visits them in. */
  ghost function SumWeights(ballots: map<string, real>): real
    decreases |ballots|
  {
    if ballots == map[] then 0.0
    else
      var k :| k in ballots;
      ballots[k] + SumWeights(ballots - {k})
  }

  lemma RemoveKeyCard(ballots: map<string, real>, k: string)
    requires k in ballots
    ensures |ballots - {k}| == |ballots| - 1
  {
    assert (ballots - {k}).Keys == ballots.Keys - {k};
  }

  /** Taking any one weight out first gives the same sum. */
  lemma {:induction false} SumWeightsRemove(ballots: map<string, real>, k: string)
    requires k in ballots
    ensures SumWeights(ballots) == ballots[k] + SumWeights(ballots - {k})
    decreases |ballots|
  {
    var k' :| k' in ballots && SumWeights(ballots) == ballots[k'] + SumWeights(ballots - {k'});
    if k' != k {
      RemoveKeyCard(ballots, k);
      RemoveKeyCard(ballots, k');
      SumWeightsRemove(ballots - {k'}, k);
      SumWeightsRemove(ballots - {k}, k');
      assert ballots - {k'} - {k} == ballots - {k} - {k'};
    }
  }

  class Governance {
    var proposals: map<string, Proposal>
    var votes: map<string, map<string, real>>

    /** Every proposal has a vote map and every vote map a proposal. */
    ghost predicate Valid()
      reads this
    {
      proposals.Keys == votes.Keys
    }

    constructor ()
      ensures Valid() && proposals == map[] && votes == map[]
    {
      proposals := map[];
      votes := map[];
    }

    /** `Propose`: store an unexecuted proposal and a fresh empty vote map, replacing
        any earlier proposal with that id. */
    method Propose(proposalId: string, description: string, expiry: int)
      requires Valid()
      modifies this
      ensures Valid()
      ensures proposals == old(proposals)[proposalId := Proposal(description, expiry, false)]
      ensures votes == old(votes)[proposalId := map[]]
    {
      proposals := proposals[proposalId := Proposal(description, expiry, false)];
      votes := votes[proposalId := map[]];
    }

    /** `Vote`: "Proposal not found" for an unknown id, "Proposal expired" after the
        expiry; otherwise the weight is recorded, replacing the voter's earlier one.
        The direction of the vote is only logged. */
    method Vote(proposalId: string, address: string, voteFor: bool, weight: real, now: int)
      returns (err: Option<string>)
      requires Valid()
      modifies this`votes
      ensures Valid()
      ensures proposalId !in proposals ==> err == Some("Proposal not found") && votes == old(votes)
      ensures proposalId in proposals && now > proposals[proposalId].expiry ==>
        err == Some("Proposal expired") && votes == old(votes)
      ensures proposalId in proposals && now <= proposals[proposalId].expiry ==>
        err == None && votes == old(votes)[proposalId := old(votes)[proposalId][address := weight]]
    {
      if proposalId in proposals {
        var proposal := proposals[proposalId];
        if now > proposal.expiry {
          return Some("Proposal expired");
        }
        votes := votes[proposalId := votes[proposalId][address := weight]];
        return None;
      }
      return Some("Proposal not found");
    }

    /** `TallyVotes`: every recorded weight counts in favour; the proposal passes when
        their sum is positive, and `ExecuteProposal` then runs. */
    method TallyVotes(proposalId: string) returns (passed: bool)
      requires Valid()
      ensures passed <==> SumWeights(if proposalId in votes then votes[proposalId] else map[]) > 0.0
    {
      var ballots := if proposalId in votes then votes[proposalId] else map[];
      var votesFor := 0.0;
      var rest := ballots;
      while rest != map[]
        invariant votesFor + SumWeights(rest) == SumWeights(ballots)
        decreases |rest|
      {
        var address :| address in rest;
        SumWeightsRemove(rest, address);
        RemoveKeyCard(rest, address);
        votesFor := votesFor + rest[address];
        rest := rest - {address};
      }
      passed := votesFor > 0.0;
      if passed {
        var _ := ExecuteProposal(proposalId);
      }
    }

    /** `ExecuteProposal` as written: the branch runs for a known, unexecuted proposal,
        but it sets `Executed` on a copy, so the stored proposals do not change. */
    method ExecuteProposal(proposalId: string) returns (executedCopy: Option<Proposal>)
      ensures executedCopy.Some? <==> proposalId in proposals && !proposals[proposalId].executed
      ensures executedCopy.Some? ==> executedCopy.value == proposals[proposalId].(executed := true)
    {
      if proposalId in proposals && !proposals[proposalId].executed {
        var proposal := proposals[proposalId];
        proposal := proposal.(executed := true);
        return Some(proposal);
      }
      return None;
    }

    /** `ExecuteProposal` as evidently intended: the stored proposal is marked executed,
        so it runs at most once. */
    method ExecuteProposalIntended(proposalId: string) returns (executed: bool)
      requires Valid()
      modifies this`proposals
      ensures Valid()
      ensures executed <==> proposalId in old(proposals) && !old(proposals)[proposalId].executed
      ensures executed ==> proposals == old(proposals)[proposalId := old(proposals)[proposalId].(executed := true)]
      ensures !executed ==> proposals == old(proposals)
      ensures proposalId in proposals ==> proposals[proposalId].executed
    {
      if proposalId in proposals && !proposals[proposalId].executed {
        proposals := proposals[proposalId := proposals[proposalId].(executed := true)];
        return true;
      }
      return false;
    }
  }

  /** As written, a passed proposal stays unexecuted: executing it twice runs it twice. */
  method ExecuteProposalRunsTwice() returns (first: bool, second: bool)
    ensures first && second
  {
    var g := new Governance();
    g.Propose("1", "Change consensus mechanism to PoA", 100);
    var a := g.ExecuteProposal("1");
    var b := g.ExecuteProposal("1");
    first, second := a.Some?, b.Some?;
  }

  /** As intended, the second execution of the same proposal does nothing. */
  method ExecuteProposalIntendedRunsOnce() returns (first: bool, second: bool)
    ensures first && !second
  {
    var g := new Governance();
    g.Propose("1", "Change consensus mechanism to PoA", 100);
    first := g.ExecuteProposalIntended("1");
    second := g.ExecuteProposalIntended("1");
  }

  // ---------------------------------------------------------------------------
  // Cross-chain bridge
  // ---------------------------------------------------------------------------

  /** The number of true verdicts. */
  function CountTrue(verdicts: seq<bool>): (n: nat)
    ensures n <= |verdicts|
  {
    if verdicts == [] then 0
    else CountTrue(verdicts[..|verdicts| - 1]) + (if verdicts[|verdicts| - 1] then 1 else 0)
  }

  function Max(a: int, b: int): int
  {
    if a >= b then a else b
  }

  class CrossChainBridge {
    var oracles: seq<string>
    var quorum: int

    constructor (oracles: seq<string>, quorum: int)
      ensures this.oracles == oracles && this.quorum == quorum
    {
      this.oracles := oracles;
      this.quorum := quorum;
    }

    /** `TransferAssets`: consult the oracles in order (`verdicts[i]` is oracle i's
        random answer) and succeed as soon as the successes reach the quorum; a
        check only follows a success, so at least one success is always needed.
        `consulted` is how many oracles were asked. */
    method TransferAssets(fromChain: string, toChain: string, sender: string, receiver: string,
                          amount: real, verdicts: seq<bool>)
      returns (err: Option<string>, consulted: nat)
      requires |verdicts| == |oracles|
      ensures err.None? <==> CountTrue(verdicts) >= Max(quorum, 1)
      ensures err.Some? ==> err.value == "Failed to verify cross-chain transaction" && consulted == |oracles|
      ensures err.None? ==>
        && 1 <= consulted <= |oracles|
        && verdicts[consulted - 1]
        && CountTrue(verdicts[..consulted]) == Max(quorum, 1)
    {
      var successCount := 0;
      var i := 0;
      while i < |oracles|
        invariant 0 <= i <= |oracles|
        invariant successCount == CountTrue(verdicts[..i])
        invariant successCount < Max(quorum, 1)
      {
        assert verdicts[..i + 1][..i] == verdicts[..i];
        if verdicts[i] {
          successCount := successCount + 1;
          if successCount >= quorum {
            CountTrueMonotone(verdicts, i + 1);
            return None, i + 1;
          }
        }
        i := i + 1;
      }
      assert verdicts[..i] == verdicts;
      return Some("Failed to verify cross-chain transaction"), i;
    }
  }

  /** Counting over a prefix never exceeds counting over the whole. */
  lemma {:induction false} CountTrueMonotone(verdicts: seq<bool>, k: nat)
    requires k <= |verdicts|
    ensures CountTrue(verdicts[..k]) <= CountTrue(verdicts)
    decreases |verdicts| - k
  {
    if k < |verdicts| {
      CountTrueMonotone(verdicts, k + 1);
      assert verdicts[..k + 1][..k] == verdicts[..k];
    } else {
      assert verdicts[..k] == verdicts;
    }
  }

  // ---------------------------------------------------------------------------
  // Secure enclave
  // ---------------------------------------------------------------------------

  /** The signature store after `address` signs `transactionId`: the transaction's
      signer map is created when missing and the address's signature replaced. */
  function Signed(signatures: map<string, map<string, seq<bv8>>>, transactionId: string,
                  address: string, signature: seq<bv8>): map<string, map<string, seq<bv8>>>
  {
    var signers := if transactionId in signatures then signatures[transactionId] else map[];
    signatures[transactionId := signers[address := signature]]
  }

  /** The number of distinct addresses that signed a transaction. */
  function SignerCount(signatures: map<string, map<string, seq<bv8>>>, transactionId: string): nat
  {
    if transactionId in signatures then |signatures[transactionId]| else 0
  }

  /** Signing raises the signer count by one for a new signer and not at all for an
      address that already signed; other transactions are untouched. */
  lemma SignedCount(signatures: map<string, map<string, seq<bv8>>>, transactionId: string,
                    address: string, signature: seq<bv8>)
    ensures var r := Signed(signatures, transactionId, address, signature);
      && SignerCount(r, transactionId) ==
         SignerCount(signatures, transactionId)
         + (if transactionId in signatures && address in signatures[transactionId] then 0 else 1)
      && r[transactionId][address] == signature
      && forall t :: t in signatures && t != transactionId ==> t in r && r[t] == signatures[t]
  {
  }

  class SecureEnclave {
    var signatures: map<string, map<string, seq<bv8>>>

    constructor ()
      ensures signatures == map[]
    {
      signatures := map[];
    }

    /** `SignTransaction`: store the signature, then report whether the transaction
        has at least `threshold` distinct signers. */
    method SignTransaction(transactionId: string, address: string, signature: seq<bv8>, threshold: int)
      returns (complete: bool)
      modifies this
      ensures signatures == Signed(old(signatures), transactionId, address, signature)
      ensures complete <==> SignerCount(signatures, transactionId) >= threshold
    {
      if transactionId !in signatures {
        signatures := signatures[transactionId := map[]];
      }
      signatures := signatures[transactionId := signatures[transactionId][address := signature]];
      complete := |signatures[transactionId]| >= threshold;
    }
  }

  // ---------------------------------------------------------------------------
  // The blockchain
  // ---------------------------------------------------------------------------

  class ShardedBlockchain {
    var shards: seq<Shard>
    const difficulty: int
    const bridge: CrossChainBridge
    const enclave: SecureEnclave
    const governance: Governance
    const hash: HashInput -> string

    /** `NewBlockchain`: shard i has id i and a one-block chain whose genesis block
        names "0" as its predecessor; difficulty 4; two oracles with quorum 2;
        empty signature, proposal and vote maps. */
    constructor (numShards: nat, hash: HashInput -> string, now: int)
      ensures |shards| == numShards && IdsArePositions(shards)
      ensures forall i :: 0 <= i < numShards ==> shards[i] == NewShard(hash, i, now)
      ensures forall i :: 0 <= i < numShards ==>
        |shards[i].chain| == 1 && shards[i].chain[0].previousHash == "0"
      ensures difficulty == 4 && this.hash == hash
      ensures fresh(bridge) && bridge.oracles == ["Oracle1", "Oracle2"] && bridge.quorum == 2
      ensures fresh(enclave) && enclave.signatures == map[]
      ensures fresh(governance) && governance.Valid() && governance.proposals == map[]
    {
      var slots := new Shard[numShards];
      for i := 0 to numShards
        invariant forall j :: 0 <= j < i ==> slots[j] == NewShard(hash, j, now)
      {
        slots[i] := NewShard(hash, i, now);
      }
      shards := slots[..];
      difficulty := 4;
      bridge := new CrossChainBridge(["Oracle1", "Oracle2"], 2);
      enclave := new SecureEnclave();
      governance := new Governance();
      this.hash := hash;
    }
  }

  class ShardManager {
    const blockchain: ShardedBlockchain
    var thresholdTxCount: int

    constructor (blockchain: ShardedBlockchain, thresholdTxCount: int)
      ensures this.blockchain == blockchain && this.thresholdTxCount == thresholdTxCount
    {
      this.blockchain := blockchain;
      this.thresholdTxCount := thresholdTxCount;
    }

    /** The loop of `AdjustShards` that adds up the pending transactions. */
    static method CountPending(shards: seq<Shard>) returns (totalTx: nat)
      ensures totalTx == TotalPending(shards)
    {
      totalTx := 0;
      var i := 0;
      while i < |shards|
        invariant 0 <= i <= |shards|
        invariant totalTx + TotalPending(shards[i..]) == TotalPending(shards)
      {
        assert shards[i..][1..] == shards[i + 1..];
        totalTx := totalTx + |shards[i].pendingTxns|;
        i := i + 1;
      }
    }

    /** `AdjustShards`: grow or shrink the shard list by one according to the load. */
    method AdjustShards(now: int)
      modifies blockchain`shards
      ensures blockchain.shards == Adjusted(blockchain.hash, old(blockchain.shards), thresholdTxCount, now)
    {
      var shards := blockchain.shards;
      var totalTx := CountPending(shards);
      if totalTx > thresholdTxCount * |shards| {
        var newShardId := |shards|;
        var newShard := NewShard(blockchain.hash, newShardId, now);
        blockchain.shards := shards + [newShard];
      } else if totalTx < thresholdTxCount * (|shards| - 1) && |shards| > 1 {
        blockchain.shards := shards[..|shards| - 1];
      }
    }
  }
}
