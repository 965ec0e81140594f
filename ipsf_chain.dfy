/**
  The single-chain prototype with multisig transactions, one-vote-per-voter
  governance and smart contracts (core/src/ipsf.py).

  `QuantumFuseBlockchain` keeps the chain, the pending pool and the multisig
  pool and mutates them in place; `Governance` keeps a list of proposals whose
  vote maps it updates; `SmartContract` keeps a state map.  The block hash is
  the blockchain's `hash` function, left uninterpreted; the clock and the nonce
  that the proof-of-work search stops at are parameters.
*/
module IpsfChain {
  import opened Common

  datatype Transaction = Transaction(sender: string, receiver: string, amount: int, signature: string)

  datatype MultiSigTransaction =
    MultiSigTransaction(sender: string, receivers: seq<string>, amount: int, signatures: seq<string>)

  /** `is_valid`: at least `len(receivers) // 2 + 1` signatures, i.e. signatures from a
      strict majority of the receivers. */
  function IsValid(t: MultiSigTransaction): (r: bool)
    ensures r <==> 2 * |t.signatures| > |t.receivers|
  {
    |t.signatures| >= |t.receivers| / 2 + 1
  }

  /** The fields `calculate_hash` formats into the hashed string. */
  datatype HashInput =
    HashInput(index: int, timestamp: real, transactions: seq<Transaction>, previousHash: string, nonce: nat)

  datatype Block = Block(
    index: int, timestamp: real, transactions: seq<Transaction>,
    previousHash: string, nonce: nat, hash: string)

  function HashInputOf(b: Block): HashInput
  {
    HashInput(b.index, b.timestamp, b.transactions, b.previousHash, b.nonce)
  }

  /** A block whose stored hash is the hash of its own fields, as `Block.__init__`
      and `mine_block` leave it. */
  function MakeBlock(hash: HashInput -> string, index: int, timestamp: real,
                     transactions: seq<Transaction>, previousHash: string, nonce: nat): (b: Block)
    ensures b.index == index && b.timestamp == timestamp && b.transactions == transactions
    ensures b.previousHash == previousHash && b.nonce == nonce
    ensures b.hash == hash(HashInputOf(b))
  {
    Block(index, timestamp, transactions, previousHash, nonce,
          hash(HashInput(index, timestamp, transactions, previousHash, nonce)))
  }

  /** Every block sits at its own index, carries its own hash and names its
      predecessor's hash. */
  ghost predicate Linked(hash: HashInput -> string, blocks: seq<Block>)
  {
    forall i :: 0 <= i < |blocks| ==>
      && blocks[i].index == i
      && blocks[i].hash == hash(HashInputOf(blocks[i]))
      && (i > 0 ==> blocks[i].previousHash == blocks[i - 1].hash)
  }

  // ---------------------------------------------------------------------------
  // Balances
  // ---------------------------------------------------------------------------

  /** What one transaction does to an address's balance: minus the amount when it
      sends, plus the amount when it receives. */
  function TxDelta(t: Transaction, address: string): int
  {
    (if t.receiver == address then t.amount else 0) - (if t.sender == address then t.amount else 0)
  }

  function TxsDelta(txs: seq<Transaction>, address: string): int
  {
    if txs == [] then 0 else TxDelta(txs[0], address) + TxsDelta(txs[1..], address)
  }

  /** Total received minus total sent across the chain. */
  function Balance(blocks: seq<Block>, address: string): int
  {
    if blocks == [] then 0 else TxsDelta(blocks[0].transactions, address) + Balance(blocks[1..], address)
  }

  lemma {:induction false} TxsDeltaAppend(xs: seq<Transaction>, ys: seq<Transaction>, address: string)
    ensures TxsDelta(xs + ys, address) == TxsDelta(xs, address) + TxsDelta(ys, address)
  {
    if xs == [] {
      assert xs + ys == ys;
    } else {
      assert (xs + ys)[0] == xs[0] && (xs + ys)[1..] == xs[1..] + ys;
      TxsDeltaAppend(xs[1..], ys, address);
    }
  }

  /** The balance over a chain is the sum of the balances over its parts. */
  lemma {:induction false} BalanceAppend(xs: seq<Block>, ys: seq<Block>, address: string)
    ensures Balance(xs + ys, address) == Balance(xs, address) + Balance(ys, address)
  {
    if xs == [] {
      assert xs + ys == ys;
    } else {
      assert (xs + ys)[0] == xs[0] && (xs + ys)[1..] == xs[1..] + ys;
      BalanceAppend(xs[1..], ys, address);
    }
  }

  /** A block that holds a self-transfer leaves the sender's balance as it was. */
  lemma SelfTransferNetsZero(blocks: seq<Block>, b: Block, address: string, amount: int, signature: string)
    requires b.transactions == [Transaction(address, address, amount, signature)]
    ensures Balance(blocks + [b], address) == Balance(blocks, address)
  {
    BalanceAppend(blocks, [b], address);
    assert [b][1..] == [];
    var t := Transaction(address, address, amount, signature);
    assert [t][1..] == [];
    assert TxsDelta(b.transactions, address) == TxDelta(t, address) == 0;
  }

  /** A mined block moves every balance by what the mined pending transactions move
      plus what the reward transaction from "0" moves: any address other than "0"
      gains the reward exactly when it is the reward address. */
  lemma MinedBlockBalance(blocks: seq<Block>, b: Block, pending: seq<Transaction>,
                          rewardAddress: string, reward: int, address: string)
    requires b.transactions == pending + [Transaction("0", rewardAddress, reward, "")]
    ensures Balance(blocks + [b], address) ==
      Balance(blocks, address) + TxsDelta(pending, address) + TxDelta(Transaction("0", rewardAddress, reward, ""), address)
    ensures address != "0" ==>
      Balance(blocks + [b], address) ==
      Balance(blocks, address) + TxsDelta(pending, address) + (if address == rewardAddress then reward else 0)
  {
    BalanceAppend(blocks, [b], address);
    assert [b][1..] == [];
    TxsDeltaAppend(pending, [Transaction("0", rewardAddress, reward, "")], address);
    assert [Transaction("0", rewardAddress, reward, "")][1..] == [];
  }

  // ---------------------------------------------------------------------------
  // Governance
  // ---------------------------------------------------------------------------

  /** A proposal; `votes` maps each option to its count and each voter to 1, in one map. */
  datatype Proposal = Proposal(
    id: int, title: string, description: string, options: seq<string>,
    votes: map<string, int>, deadline: real)

  /** How `vote` ended: the two refusals only print a message. */
  datatype VoteStatus = Counted | AlreadyVoted | ProposalNotFound

  /** The vote map after one accepted vote: the option's count goes up by one
      (from 0 when absent), then the voter is marked with 1. */
  function Tallied(votes: map<string, int>, option: string, voter: string): (r: map<string, int>)
    ensures r.Keys == votes.Keys + {option, voter}
    ensures r[voter] == 1
    ensures option != voter ==> r[option] == (if option in votes then votes[option] else 0) + 1
    ensures forall k :: k in votes && k != option && k != voter ==> r[k] == votes[k]
  {
    votes[option := (if option in votes then votes[option] else 0) + 1][voter := 1]
  }

  /** Position j holds the first proposal with that id. */
  predicate FirstWithId(proposals: seq<Proposal>, proposalId: int, j: int)
  {
    && 0 <= j < |proposals|
    && proposals[j].id == proposalId
    && forall j' :: 0 <= j' < j ==> proposals[j'].id != proposalId
  }

  class Governance {
    var proposals: seq<Proposal>
    var proposalCount: int

    /** Ids are 0, 1, 2, ... in append order, and the counter is the next id. */
    ghost predicate Valid()
      reads this
    {
      && proposalCount == |proposals|
      && forall i :: 0 <= i < |proposals| ==> proposals[i].id == i
    }

    constructor ()
      ensures Valid() && proposals == []
    {
      proposals := [];
      proposalCount := 0;
    }

    /** `create_proposal`: append a proposal with id `proposal_count` and no votes,
        then increment the counter. */
    method CreateProposal(title: string, description: string, options: seq<string>, deadline: real)
      requires Valid()
      modifies this
      ensures Valid()
      ensures proposals == old(proposals) + [Proposal(old(proposalCount), title, description, options, map[], deadline)]
      ensures proposalCount == old(proposalCount) + 1
    {
      var proposal := Proposal(proposalCount, title, description, options, map[], deadline);
      proposals := proposals + [proposal];
      proposalCount := proposalCount + 1;
    }

    /** `next((p for p in self.proposals if p.id == proposal_id), None)`: the position
        of the first proposal with that id. */
    method FindProposal(proposalId: int) returns (found: Option<nat>)
      ensures found.Some? ==> found.value < |proposals| && proposals[found.value].id == proposalId
      ensures found.Some? ==> forall j :: 0 <= j < found.value ==> proposals[j].id != proposalId
      ensures found.None? <==> forall j :: 0 <= j < |proposals| ==> proposals[j].id != proposalId
    {
      var i := 0;
      while i < |proposals|
        invariant 0 <= i <= |proposals|
        invariant forall j :: 0 <= j < i ==> proposals[j].id != proposalId
      {
        if proposals[i].id == proposalId {
          return Some(i);
        }
        i := i + 1;
      }
      return None;
    }

    /** With ids 0, 1, 2, ... the proposal with id k is found exactly when k is a
        position of the list, and it is found there. */
    method FindProposalById(proposalId: int) returns (found: Option<nat>)
      requires Valid()
      ensures found.Some? <==> 0 <= proposalId < |proposals|
      ensures found.Some? ==> found.value == proposalId
    {
      found := FindProposal(proposalId);
      if 0 <= proposalId < |proposals| {
        assert proposals[proposalId].id == proposalId;
      }
    }

    /** `vote`: an unknown id and a voter already present in the proposal's vote map
        change nothing; otherwise the option's count goes up by one and the voter
        is recorded. */
    method Vote(proposalId: int, option: string, voter: string) returns (status: VoteStatus)
      requires Valid()
      modifies this
      ensures Valid() && proposalCount == old(proposalCount) && |proposals| == |old(proposals)|
      ensures status == ProposalNotFound <==> !(0 <= proposalId < |old(proposals)|)
      ensures status == ProposalNotFound ==> proposals == old(proposals)
      ensures status == AlreadyVoted <==>
        0 <= proposalId < |old(proposals)| && voter in old(proposals)[proposalId].votes
      ensures status == AlreadyVoted ==> proposals == old(proposals)
      ensures status == Counted ==>
        proposals == old(proposals)[proposalId := old(proposals)[proposalId].(
          votes := Tallied(old(proposals)[proposalId].votes, option, voter))]
    {
      var found := FindProposalById(proposalId);
      match found {
        case None =>
          status := ProposalNotFound;
        case Some(i) =>
          var proposal := proposals[i];
          if voter in proposal.votes {
            status := AlreadyVoted;
          } else {
            var count := if option in proposal.votes then proposal.votes[option] else 0;
            var votes := proposal.votes[option := count + 1];
            votes := votes[voter := 1];
            proposals := proposals[i := proposal.(votes := votes)];
            status := Counted;
          }
      }
    }

    /** `get_results`: the vote map of the first proposal with that id, None if none. */
    method GetResults(proposalId: int) returns (results: Option<map<string, int>>)
      ensures results.None? <==> forall j :: 0 <= j < |proposals| ==> proposals[j].id != proposalId
      ensures results.Some? ==>
        exists j :: FirstWithId(proposals, proposalId, j) && results.value == proposals[j].votes
    {
      var found := FindProposal(proposalId);
      match found {
        case None =>
          results := None;
        case Some(i) =>
          results := Some(proposals[i].votes);
      }
    }
  }

  // ---------------------------------------------------------------------------
  // Smart contracts
  // ---------------------------------------------------------------------------

  class SmartContract {
    const id: string
    const code: string
    const owner: string
    var state: map<string, string>

    constructor (id: string, code: string, owner: string)
      ensures this.id == id && this.code == code && this.owner == owner && state == map[]
    {
      this.id := id;
      this.code := code;
      this.owner := owner;
      state := map[];
    }

    /** `execute`: remember the input under "last_input" and report it. */
    method Execute(inputData: string) returns (output: string)
      modifies this`state
      ensures state == old(state)["last_input" := inputData]
      ensures output == "Executed with input: " + inputData
    {
      state := state["last_input" := inputData];
      output := "Executed with input: " + inputData;
    }
  }

  // ---------------------------------------------------------------------------
  // The blockchain
  // ---------------------------------------------------------------------------

  /** The genesis block: index 0, no transactions, predecessor "0", nonce 0. */
  function GenesisBlock(hash: HashInput -> string, now: real): (b: Block)
    ensures b.index == 0 && b.transactions == [] && b.previousHash == "0" && b.nonce == 0
    ensures Linked(hash, [b])
  {
    MakeBlock(hash, 0, now, [], "0", 0)
  }

  class QuantumFuseBlockchain {
    var blocks: seq<Block>
    const difficulty: int
    var pendingTransactions: seq<Transaction>
    var multisigTransactions: seq<MultiSigTransaction>
    const miningReward: int
    var stakingPool: map<string, int>
    const governance: Governance
    var smartContracts: map<string, SmartContract>
    const hash: HashInput -> string

    /** `blocks[-1]` always exists: the constructor adds the genesis block and
        nothing removes blocks. */
    ghost predicate Valid()
      reads this
    {
      |blocks| >= 1
    }

    /** `__init__`: empty pools and maps, then `add_genesis_block`. */
    constructor (difficulty: int, miningReward: int, hash: HashInput -> string, now: real)
      ensures Valid() && Linked(hash, blocks)
      ensures blocks == [GenesisBlock(hash, now)]
      ensures pendingTransactions == [] && multisigTransactions == [] && smartContracts == map[]
      ensures this.difficulty == difficulty && this.miningReward == miningReward && this.hash == hash
      ensures fresh(governance) && governance.Valid() && governance.proposals == []
    {
      blocks := [];
      this.difficulty := difficulty;
      pendingTransactions := [];
      multisigTransactions := [];
      this.miningReward := miningReward;
      stakingPool := map[];
      governance := new Governance();
      smartContracts := map[];
      this.hash := hash;
      new;
      AddGenesisBlock(now);
    }

    /** `add_genesis_block`: append a genesis block (index 0, predecessor "0"). */
    method AddGenesisBlock(now: real)
      modifies this`blocks
      ensures blocks == old(blocks) + [GenesisBlock(hash, now)]
    {
      var genesisBlock := MakeBlock(hash, 0, now, [], "0", 0);
      blocks := blocks + [genesisBlock];
    }

    /** `add_transaction`: append to the pending pool, unchecked. */
    method AddTransaction(transaction: Transaction)
      modifies this`pendingTransactions
      ensures pendingTransactions == old(pendingTransactions) + [transaction]
    {
      pendingTransactions := pendingTransactions + [transaction];
    }

    /** `add_multisig_transaction`: append a valid transaction; drop an invalid one. */
    method AddMultisigTransaction(transaction: MultiSigTransaction)
      modifies this`multisigTransactions
      ensures IsValid(transaction) ==> multisigTransactions == old(multisigTransactions) + [transaction]
      ensures !IsValid(transaction) ==> multisigTransactions == old(multisigTransactions)
    {
      if IsValid(transaction) {
        multisigTransactions := multisigTransactions + [transaction];
      }
    }

    /** `mine_pending_transactions`: add the reward transaction to the pool, seal the
        pool into a block that follows the last one, append it and empty the pool.
        `nonce` is where the proof-of-work search stops. */
    method MinePendingTransactions(rewardAddress: string, now: real, nonce: nat)
      requires Valid()
      modifies this`blocks, this`pendingTransactions
      ensures Valid()
      ensures |blocks| == |old(blocks)| + 1 && blocks[..|old(blocks)|] == old(blocks)
      ensures var b := blocks[|blocks| - 1];
        && b.index == |old(blocks)|
        && b.transactions == old(pendingTransactions) + [Transaction("0", rewardAddress, miningReward, "")]
        && b.previousHash == old(blocks)[|old(blocks)| - 1].hash
        && b.hash == hash(HashInputOf(b))
      ensures pendingTransactions == []
      ensures old(Linked(hash, blocks)) ==> Linked(hash, blocks)
    {
      var rewardTransaction := Transaction("0", rewardAddress, miningReward, "");
      pendingTransactions := pendingTransactions + [rewardTransaction];
      var previousBlock := blocks[|blocks| - 1];
      var newBlock := MakeBlock(hash, |blocks|, now, pendingTransactions, previousBlock.hash, nonce);
      blocks := blocks + [newBlock];
      pendingTransactions := [];
    }

    /** `get_balance`: total received minus total sent, block by block. */
    method GetBalance(address: string) returns (balance: int)
      ensures balance == Balance(blocks, address)
    {
      balance := 0;
      var b := 0;
      while b < |blocks|
        invariant 0 <= b <= |blocks|
        invariant balance + Balance(blocks[b..], address) == Balance(blocks, address)
      {
        var transactions := blocks[b].transactions;
        assert blocks[b..][1..] == blocks[b + 1..];
        var t := 0;
        while t < |transactions|
          invariant 0 <= t <= |transactions|
          invariant balance + TxsDelta(transactions[t..], address) + Balance(blocks[b + 1..], address)
                    == Balance(blocks, address)
        {
          assert transactions[t..][1..] == transactions[t + 1..];
          var transaction := transactions[t];
          if transaction.sender == address {
            balance := balance - transaction.amount;
          }
          if transaction.receiver == address {
            balance := balance + transaction.amount;
          }
          t := t + 1;
        }
        b := b + 1;
      }
    }

    /** `deploy_smart_contract`: register the contract under its id, replacing any other. */
    method DeploySmartContract(contract: SmartContract)
      modifies this`smartContracts
      ensures smartContracts == old(smartContracts)[contract.id := contract]
    {
      smartContracts := smartContracts[contract.id := contract];
    }

    /** `execute_smart_contract`: run the registered contract, or report it missing. */
    method ExecuteSmartContract(contractId: string, inputData: string) returns (output: string)
      modifies if contractId in smartContracts then {smartContracts[contractId]} else {}
      ensures contractId in smartContracts ==>
        && output == "Executed with input: " + inputData
        && smartContracts[contractId].state == old(smartContracts[contractId].state)["last_input" := inputData]
      ensures contractId !in smartContracts ==> output == "Smart contract not found"
    {
      if contractId in smartContracts {
        var contract := smartContracts[contractId];
        output := contract.Execute(inputData);
      } else {
        output := "Smart contract not found";
      }
    }
  }
}
