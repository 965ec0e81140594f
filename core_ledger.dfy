/**
  The objects of quantumfuse_core.py that update their state in place: the staking
  pool, the treasury, the sharded blockchain, the shard manager, governance and the
  cross-shard transaction.  Methods that raise return the exception (`Some(e)`, or
  `Raised(e)` for methods with a value) and then leave the state as the source leaves
  it at the raise.
*/
module CoreLedger {
  import opened Common
  import opened CoreChain

  class StakingPool {
    var stakers: map<string, real>

    constructor ()
      ensures stakers == map[]
    {
      stakers := map[];
    }

    /** `stake` */
    method Stake(address: string, amount: real)
      modifies this
      ensures stakers == Staked(old(stakers), address, amount)
      ensures old(NonNegativeStakes(stakers)) && amount >= 0.0 ==> NonNegativeStakes(stakers)
    {
      if NonNegativeStakes(stakers) {
        StakesStayNonNegative(stakers, address, amount);
      }
      if address in stakers {
        stakers := stakers[address := stakers[address] + amount];
      } else {
        stakers := stakers[address := amount];
      }
    }

    /** `withdraw_stake`: on success the address's stake drops by the amount; on a
        raise the stakers are unchanged. */
    method WithdrawStake(address: string, amount: real) returns (raised: Option<Error>)
      modifies this
      ensures var w := Withdrawn(old(stakers), address, amount);
        && (w.Ok? ==> raised == None && stakers == w.value)
        && (w.Raised? ==> raised == Some(w.error) && stakers == old(stakers))
      ensures raised.None? <==> StakeOf(old(stakers), address) >= amount && address in old(stakers)
      ensures old(NonNegativeStakes(stakers)) ==> NonNegativeStakes(stakers)
    {
      if NonNegativeStakes(stakers) {
        StakesStayNonNegative(stakers, address, amount);
      }
      var current := if address in stakers then stakers[address] else 0.0;
      if current >= amount {
        if address !in stakers {
          return Some(KeyError);
        }
        stakers := stakers[address := stakers[address] - amount];
        raised := None;
      } else {
        raised := Some(ValueError("Insufficient stake for withdrawal."));
      }
    }
  }

  class Treasury {
    var funds: real

    constructor ()
      ensures funds == 0.0
    {
      funds := 0.0;
    }

    /** `deposit` */
    method Deposit(amount: real)
      modifies this
      ensures funds == old(funds) + amount
    {
      funds := funds + amount;
    }

    /** `withdraw`: funds never go negative from a non-negative start. */
    method Withdraw(amount: real) returns (raised: Option<Error>)
      modifies this
      ensures var w := TreasuryWithdrawn(old(funds), amount);
        && (w.Ok? ==> raised == None && funds == w.value)
        && (w.Raised? ==> raised == Some(w.error) && funds == old(funds))
      ensures old(funds) >= 0.0 ==> funds >= 0.0
    {
      if funds >= amount {
        funds := funds - amount;
        raised := None;
      } else {
        raised := Some(ValueError("Insufficient treasury funds for withdrawal."));
      }
    }
  }

  class ShardedBlockchain {
    var shards: seq<Shard>
    const qfcMiningReward: real
    const qetMiningReward: real
    const qfcTransactionFee: real
    const qetTransactionFee: real
    const difficulty: int
    const stakingPool: StakingPool
    const treasury: Treasury
    /** `calculate_hash`, left uninterpreted. */
    const hash: HashInput -> string

    /** Shard i has id i and a non-empty chain. */
    ghost predicate Valid()
      reads this
    {
      WellFormed(shards)
    }

    /** `ShardedBlockchain(num_shards)`; the configuration read from the environment
        arrives as parameters and the clock reading as `now`. */
    constructor (numShards: int, now: real, hash: HashInput -> string, qfcMiningReward: real, qetMiningReward: real,
                 qfcTransactionFee: real, qetTransactionFee: real, difficulty: int)
      ensures Valid() && AllChainsValid(hash, shards)
      ensures |shards| == (if numShards > 0 then numShards else 0)
      ensures forall i :: 0 <= i < |shards| ==> shards[i] == NewShard(hash, i, now)
      ensures this.hash == hash && this.qfcMiningReward == qfcMiningReward && this.qetMiningReward == qetMiningReward
      ensures this.qfcTransactionFee == qfcTransactionFee && this.qetTransactionFee == qetTransactionFee
      ensures this.difficulty == difficulty
      ensures fresh(stakingPool) && fresh(treasury) && stakingPool.stakers == map[] && treasury.funds == 0.0
    {
      shards := seq(if numShards > 0 then numShards else 0, i => NewShard(hash, i, now));
      this.hash := hash;
      this.qfcMiningReward := qfcMiningReward;
      this.qetMiningReward := qetMiningReward;
      this.qfcTransactionFee := qfcTransactionFee;
      this.qetTransactionFee := qetTransactionFee;
      this.difficulty := difficulty;
      stakingPool := new StakingPool();
      treasury := new Treasury();
    }

    /** `add_qfc_transaction`: IndexError for a bad shard id, ValueError for another
        token, KeyError when the sender's balance raises one, ValueError when the
        balance does not cover amount plus fee; otherwise the transaction, with the
        configured fee set, joins that shard's pool. */
    method AddQfcTransaction(tx: Tx, shardId: int) returns (raised: Option<Error>)
      requires Valid()
      modifies this`shards
      ensures Valid()
      ensures var k := PyIndex(|old(shards)|, shardId);
        var balance := QfcBalance(old(shards), tx.sender);
        if k.None? then raised == Some(IndexError) && shards == old(shards)
        else if tx.token != "QFC" then raised == Some(ValueError("Invalid QFC transaction")) && shards == old(shards)
        else if balance.None? then raised == Some(KeyError) && shards == old(shards)
        else if balance.value < tx.amount + qfcTransactionFee then
          raised == Some(ValueError("Insufficient QFC balance")) && shards == old(shards)
        else raised == None && shards == WithPending(old(shards), k.value, tx.(fee := Some(qfcTransactionFee)))
      ensures old(AllChainsValid(hash, shards)) ==> AllChainsValid(hash, shards)
      ensures forall a, t :: ShardsBalance(shards, a, t) == old(ShardsBalance(shards, a, t))
    {
      var k := PyIndex(|shards|, shardId);
      if k.None? {
        return Some(IndexError);
      }
      if tx.token != "QFC" {
        return Some(ValueError("Invalid QFC transaction"));
      }
      var balance := GetQfcBalance(tx.sender);
      if balance.None? {
        return Some(KeyError);
      }
      if balance.value < tx.amount + qfcTransactionFee {
        return Some(ValueError("Insufficient QFC balance"));
      }
      var withFee := tx.(fee := Some(qfcTransactionFee));
      forall a, t
        ensures ShardsBalance(WithPending(shards, k.value, withFee), a, t) == ShardsBalance(shards, a, t)
        ensures AllChainsValid(hash, shards) ==> AllChainsValid(hash, WithPending(shards, k.value, withFee))
      {
        WithPendingKeeps(hash, shards, k.value, withFee, a, t);
      }
      WithPendingKeeps(hash, shards, k.value, withFee, "", "");
      shards := shards[k.value := shards[k.value].(pendingTransactions := shards[k.value].pendingTransactions + [withFee])];
      raised := None;
    }

    /** `get_qfc_balance` */
    method GetQfcBalance(address: string) returns (result: Option<real>)
      ensures result == QfcBalance(shards, address)
    {
      result := GetBalance(address, "QFC");
    }

    /** The loops of `get_qfc_balance` for a given token, over shards, then blocks,
        then transactions, with one running balance; None where one of the address's
        debits lacks a fee and the loop raises KeyError. */
    method GetBalance(address: string, token: string) returns (result: Option<real>)
      ensures result == ShardsBalance(shards, address, token)
    {
      var balance := 0.0;
      var s := 0;
      while s < |shards|
        invariant 0 <= s <= |shards|
        invariant ShardsBalance(shards, address, token) == Plus(Some(balance), ShardsBalance(shards[s..], address, token))
      {
        ShardsBalanceAt(shards, s, address, token);
        var afterChain := ChainBalance(shards[s].chain, address, token, balance);
        if afterChain.None? {
          return None;
        }
        balance := afterChain.value;
        s := s + 1;
      }
      result := Some(balance);
    }

    /** The loop over one chain's blocks, continuing from `balance`. */
    static method ChainBalance(chain: seq<Block>, address: string, token: string, balance: real) returns (result: Option<real>)
      ensures result == Plus(Some(balance), BlocksBalance(chain, address, token))
    {
      var running := balance;
      var b := 0;
      while b < |chain|
        invariant 0 <= b <= |chain|
        invariant Plus(Some(balance), BlocksBalance(chain, address, token)) ==
          Plus(Some(running), BlocksBalance(chain[b..], address, token))
      {
        BlocksBalanceAt(chain, b, address, token);
        var afterBlock := TransactionsBalance(chain[b].transactions, address, token, running);
        if afterBlock.None? {
          return None;
        }
        running := afterBlock.value;
        b := b + 1;
      }
      result := Some(running);
    }

    /** The loop over one block's transactions, continuing from `balance`: a debit of
        the address subtracts amount and fee, a credit adds the amount. */
    static method TransactionsBalance(txs: seq<Tx>, address: string, token: string, balance: real)
      returns (result: Option<real>)
      ensures result == Plus(Some(balance), TxsBalance(txs, address, token))
    {
      var running := balance;
      var t := 0;
      while t < |txs|
        invariant 0 <= t <= |txs|
        invariant Plus(Some(balance), TxsBalance(txs, address, token)) == Plus(Some(running), TxsBalance(txs[t..], address, token))
      {
        TxsBalanceAt(txs, t, address, token);
        var tx := txs[t];
        ghost var before := running;
        if tx.sender == address && tx.token == token {
          if tx.fee.None? {
            return None;
          }
          running := running - (tx.amount + tx.fee.value);
        }
        if tx.receiver == address && tx.token == token {
          running := running + tx.amount;
        }
        assert TxBalance(tx, address, token) == Some(running - before);
        t := t + 1;
      }
      result := Some(running);
    }

    /** `mine_pending_transactions`: IndexError for a bad shard id; otherwise the
        shard's chain gains a block of its whole pool, linked to its last block, and
        the pool becomes the two rewards.  The proof-of-work nonce is a parameter. */
    method MinePendingTransactions(miningRewardAddress: string, shardId: int, now: real, nonce: nat)
      returns (raised: Option<Error>)
      requires Valid()
      modifies this`shards
      ensures Valid()
      ensures var k := PyIndex(|old(shards)|, shardId);
        (k.None? ==> raised == Some(IndexError) && shards == old(shards)) &&
        (k.Some? ==>
          raised == None &&
          shards == Mine(hash, old(shards), k.value, shardId, miningRewardAddress, qfcMiningReward, qetMiningReward, now, nonce))
      ensures old(AllChainsValid(hash, shards)) ==> AllChainsValid(hash, shards)
    {
      var k := PyIndex(|shards|, shardId);
      if k.None? {
        return Some(IndexError);
      }
      var shard := shards[k.value];
      var block := MakeBlock(hash, now, shard.pendingTransactions, shard.chain[|shard.chain| - 1].hash, nonce, shardId);
      MineKeeps(hash, shards, k.value, shardId, miningRewardAddress, qfcMiningReward, qetMiningReward, now, nonce, "", "");
      shards := shards[k.value := shard.(chain := shard.chain + [block])];
      shards := shards[k.value := shards[k.value].(pendingTransactions := RewardTxs(miningRewardAddress, qfcMiningReward, qetMiningReward))];
      raised := None;
    }

    /** `is_chain_valid`: every block after the first of every shard carries the hash of
        its own fields and names its predecessor's hash. */
    method IsChainValid() returns (valid: bool)
      ensures valid == AllChainsValid(hash, shards)
    {
      var s := 0;
      while s < |shards|
        invariant 0 <= s <= |shards|
        invariant forall j :: 0 <= j < s ==> ChainValid(hash, shards[j].chain)
      {
        var chain := shards[s].chain;
        var i := 1;
        while i < |chain|
          invariant 1 <= i && (|chain| >= 1 ==> i <= |chain|)
          invariant forall j :: 0 < j < i ==> LinkedAt(hash, chain, j)
        {
          if chain[i].hash != hash(HashInputOf(chain[i])) {
            assert !LinkedAt(hash, chain, i);
            return false;
          }
          if chain[i].previousHash != chain[i - 1].hash {
            assert !LinkedAt(hash, chain, i);
            return false;
          }
          i := i + 1;
        }
        s := s + 1;
      }
      valid := true;
    }
  }

  class ShardManager {
    const blockchain: ShardedBlockchain
    const thresholdTxCount: int

    constructor (blockchain: ShardedBlockchain)
      ensures this.blockchain == blockchain && thresholdTxCount == 100
    {
      this.blockchain := blockchain;
      thresholdTxCount := 100;
    }

    /** `adjust_shards` */
    method AdjustShards(now: real)
      requires blockchain.Valid()
      modifies blockchain`shards
      ensures blockchain.Valid()
      ensures blockchain.shards == Adjusted(blockchain.hash, old(blockchain.shards), thresholdTxCount, now)
      ensures old(AllChainsValid(blockchain.hash, blockchain.shards)) ==> AllChainsValid(blockchain.hash, blockchain.shards)
    {
      AdjustedShape(blockchain.hash, blockchain.shards, thresholdTxCount, now);
      var totalTx := TotalPending(blockchain.shards);
      if totalTx > thresholdTxCount * |blockchain.shards| {
        var newShardId := |blockchain.shards|;
        blockchain.shards := blockchain.shards + [NewShard(blockchain.hash, newShardId, now)];
      } else if totalTx < thresholdTxCount * (|blockchain.shards| - 1) {
        if |blockchain.shards| > 1 {
          blockchain.shards := blockchain.shards[..|blockchain.shards| - 1];
        }
      }
    }
  }

  /** A proposal dict; only its "type" key is read (None when absent). */
  datatype ProposalData = ProposalData(kind: Option<string>)

  /** The `{"for": ..., "against": ...}` tally of one proposal. */
  datatype Tally = Tally(votesFor: real, against: real)

  /** What executing a proposal did. */
  datatype Effect = ShardAdded(shardId: nat) | ConsensusChange | NoEffect

  /** The tally after a vote of weight `stake`: exactly one side grows, by the stake. */
  function Cast(t: Tally, stake: real, voteFor: bool): (r: Tally)
    ensures r.votesFor + r.against == t.votesFor + t.against + stake
    ensures if voteFor then r.against == t.against else r.votesFor == t.votesFor
  {
    if voteFor then t.(votesFor := t.votesFor + stake) else t.(against := t.against + stake)
  }

  /** A proposal passes on a strict majority of stake: a tie fails. */
  predicate Passes(t: Tally)
  {
    t.votesFor > t.against
  }

  class Governance {
    const blockchain: ShardedBlockchain
    var proposals: map<string, ProposalData>
    var votes: map<string, Tally>

    /** Every proposal has a tally and every tally a proposal. */
    ghost predicate Valid()
      reads this
    {
      proposals.Keys == votes.Keys
    }

    constructor (blockchain: ShardedBlockchain)
      ensures Valid() && this.blockchain == blockchain && proposals == map[] && votes == map[]
    {
      this.blockchain := blockchain;
      proposals := map[];
      votes := map[];
    }

    /** `propose`: stores the data and starts both tallies at 0, replacing any earlier
        proposal and tally with this id. */
    method Propose(proposalId: string, data: ProposalData)
      requires Valid()
      modifies this
      ensures Valid()
      ensures proposals == old(proposals)[proposalId := data]
      ensures votes == old(votes)[proposalId := Tally(0.0, 0.0)]
    {
      proposals := proposals[proposalId := data];
      votes := votes[proposalId := Tally(0.0, 0.0)];
    }

    /** `vote`: the voter's stake (0 when not staking) is added to one side; KeyError and
        no change for an unknown proposal. */
    method Vote(proposalId: string, address: string, voteFor: bool) returns (raised: Option<Error>)
      modifies this`votes
      ensures proposalId !in old(votes) ==> raised == Some(KeyError) && votes == old(votes)
      ensures proposalId in old(votes) ==>
        raised == None &&
        votes == old(votes)[proposalId := Cast(old(votes)[proposalId], StakeOf(blockchain.stakingPool.stakers, address), voteFor)]
    {
      var stake := if address in blockchain.stakingPool.stakers then blockchain.stakingPool.stakers[address] else 0.0;
      if proposalId !in votes {
        return Some(KeyError);
      }
      if voteFor {
        votes := votes[proposalId := votes[proposalId].(votesFor := votes[proposalId].votesFor + stake)];
      } else {
        votes := votes[proposalId := votes[proposalId].(against := votes[proposalId].against + stake)];
      }
      raised := None;
    }

    /** `tally_votes`: KeyError for an unknown proposal; Ok(false) and no change unless
        "for" strictly exceeds "against"; otherwise the proposal is executed and
        Ok(true) reports it, or its raise is passed on. */
    method TallyVotes(proposalId: string, now: real) returns (result: Result<bool>)
      requires Valid() && blockchain.Valid()
      modifies blockchain`shards
      ensures blockchain.Valid()
      ensures old(AllChainsValid(blockchain.hash, blockchain.shards)) ==> AllChainsValid(blockchain.hash, blockchain.shards)
      ensures proposalId !in votes ==> result == Raised(KeyError) && blockchain.shards == old(blockchain.shards)
      ensures proposalId in votes && !Passes(votes[proposalId]) ==>
        result == Ok(false) && blockchain.shards == old(blockchain.shards)
      ensures result == Ok(true) <==> proposalId in votes && Passes(votes[proposalId]) && proposals[proposalId].kind.Some?
      ensures result.Raised? && proposalId in votes ==> result == Raised(KeyError) && blockchain.shards == old(blockchain.shards)
      ensures result == Ok(true) ==>
        proposalId in proposals &&
        if proposals[proposalId].kind == Some("shard_creation") then
          blockchain.shards == old(blockchain.shards) + [NewShard(blockchain.hash, |old(blockchain.shards)|, now)]
        else blockchain.shards == old(blockchain.shards)
    {
      if proposalId !in votes {
        return Raised(KeyError);
      }
      var tally := votes[proposalId];
      if tally.votesFor > tally.against {
        var executed := ExecuteProposal(proposalId, now);
        if executed.Raised? {
          return Raised(executed.error);
        }
        result := Ok(true);
      } else {
        result := Ok(false);
      }
    }

    /** `execute_proposal`: KeyError for an unknown proposal or one without a "type";
        a "shard_creation" proposal appends shard n to n shards; "consensus_change"
        changes nothing modelled here; any other type does nothing. */
    method ExecuteProposal(proposalId: string, now: real) returns (result: Result<Effect>)
      requires blockchain.Valid()
      modifies blockchain`shards
      ensures blockchain.Valid()
      ensures old(AllChainsValid(blockchain.hash, blockchain.shards)) ==> AllChainsValid(blockchain.hash, blockchain.shards)
      ensures proposalId !in proposals || proposals[proposalId].kind.None? ==>
        result == Raised(KeyError) && blockchain.shards == old(blockchain.shards)
      ensures proposalId in proposals && proposals[proposalId].kind == Some("shard_creation") ==>
        result == Ok(ShardAdded(|old(blockchain.shards)|)) &&
        blockchain.shards == old(blockchain.shards) + [NewShard(blockchain.hash, |old(blockchain.shards)|, now)]
      ensures proposalId in proposals && proposals[proposalId].kind == Some("consensus_change") ==>
        result == Ok(ConsensusChange) && blockchain.shards == old(blockchain.shards)
      ensures proposalId in proposals && proposals[proposalId].kind.Some? && proposals[proposalId].kind.value !in {"shard_creation", "consensus_change"} ==>
        result == Ok(NoEffect) && blockchain.shards == old(blockchain.shards)
    {
      if proposalId !in proposals {
        return Raised(KeyError);
      }
      var proposal := proposals[proposalId];
      if proposal.kind.None? {
        return Raised(KeyError);
      }
      if proposal.kind.value == "consensus_change" {
        result := Ok(ConsensusChange);
      } else if proposal.kind.value == "shard_creation" {
        var newShardId := |blockchain.shards|;
        NewShardValid(blockchain.hash, newShardId, now);
        blockchain.shards := blockchain.shards + [NewShard(blockchain.hash, newShardId, now)];
        result := Ok(ShardAdded(newShardId));
      } else {
        result := Ok(NoEffect);
      }
    }
  }

  /** The check `execute` makes before appending anything: proceed, or raise and say
      whether the status becomes "failed". */
  datatype Verdict = Proceed | Refuse(error: Error, markFailed: bool)

  /** The check as written: a QFC transfer compares the sender's QFC balance with the
      amount; a QET transfer calls `get_qet_balance`, which `ShardedBlockchain` does not
      define, so it raises AttributeError; any other token is not checked. */
  function CheckAsWritten(shards: seq<Shard>, address: string, amount: real, token: string): (v: Verdict)
    ensures token == "QET" ==> v == Refuse(AttributeError, false)
    ensures token != "QFC" && token != "QET" ==> v == Proceed
    ensures token == "QFC" ==> (v == Proceed <==> QfcBalance(shards, address).Some? && QfcBalance(shards, address).value >= amount)
  {
    if token == "QFC" then
      match QfcBalance(shards, address)
      case None => Refuse(KeyError, false)
      case Some(balance) => if balance < amount then Refuse(ValueError("Insufficient QFC balance"), true) else Proceed
    else if token == "QET" then Refuse(AttributeError, false)
    else Proceed
  }

  /** The check as evidently intended: a QET transfer compares the sender's QET balance,
      computed like the QFC one, with the amount. */
  function CheckIntended(shards: seq<Shard>, address: string, amount: real, token: string): (v: Verdict)
    ensures token == "QFC" ==> v == CheckAsWritten(shards, address, amount, token)
    ensures token == "QFC" || token == "QET" ==>
      (v == Proceed <==> ShardsBalance(shards, address, token).Some? && ShardsBalance(shards, address, token).value >= amount)
    ensures token != "QFC" && token != "QET" ==> v == Proceed
  {
    if token == "QFC" || token == "QET" then
      match ShardsBalance(shards, address, token)
      case None => Refuse(KeyError, false)
      case Some(balance) =>
        if balance < amount then Refuse(ValueError(if token == "QFC" then "Insufficient QFC balance" else "Insufficient QET balance"), true)
        else Proceed
    else Proceed
  }

  class CrossShardTransaction {
    const fromShard: int
    const toShard: int
    const fromAddress: string
    const toAddress: string
    const amount: real
    const token: string
    var status: string

    constructor (fromShard: int, toShard: int, fromAddress: string, toAddress: string, amount: real, token: string)
      ensures this.fromShard == fromShard && this.toShard == toShard
      ensures this.fromAddress == fromAddress && this.toAddress == toAddress
      ensures this.amount == amount && this.token == token && status == "pending"
    {
      this.fromShard := fromShard;
      this.toShard := toShard;
      this.fromAddress := fromAddress;
      this.toAddress := toAddress;
      this.amount := amount;
      this.token := token;
      status := "pending";
    }

    /** The fee-less leg into "SYSTEM" from the sender. */
    function Debit(): Tx
    {
      Tx(fromAddress, "SYSTEM", amount, token, None)
    }

    /** The fee-less leg out of "SYSTEM" to the receiver. */
    function Credit(): Tx
    {
      Tx("SYSTEM", toAddress, amount, token, None)
    }

    /** `execute` as written.  IndexError for either bad shard id; a refused check
        raises, appends nothing and sets "failed" only for an insufficient balance;
        otherwise one debit joins the source pool, one credit the target pool, and the
        status becomes "completed". */
    method Execute(blockchain: ShardedBlockchain) returns (raised: Option<Error>)
      requires blockchain.Valid()
      modifies this`status, blockchain`shards
      ensures blockchain.Valid()
      ensures var n := |old(blockchain.shards)|;
        var fi := PyIndex(n, fromShard);
        var ti := PyIndex(n, toShard);
        var v := CheckAsWritten(old(blockchain.shards), fromAddress, amount, token);
        if fi.None? || ti.None? then
          raised == Some(IndexError) && blockchain.shards == old(blockchain.shards) && status == old(status)
        else if v.Refuse? then
          raised == Some(v.error) && blockchain.shards == old(blockchain.shards) &&
          status == (if v.markFailed then "failed" else old(status))
        else
          raised == None && status == "completed" &&
          blockchain.shards == Transferred(old(blockchain.shards), fi.value, ti.value, Debit(), Credit())
      ensures forall a, t :: ShardsBalance(blockchain.shards, a, t) == old(ShardsBalance(blockchain.shards, a, t))
    {
      var fi := PyIndex(|blockchain.shards|, fromShard);
      if fi.None? {
        return Some(IndexError);
      }
      var ti := PyIndex(|blockchain.shards|, toShard);
      if ti.None? {
        return Some(IndexError);
      }
      if token == "QFC" {
        var balance := blockchain.GetQfcBalance(fromAddress);
        if balance.None? {
          return Some(KeyError);
        }
        if balance.value < amount {
          status := "failed";
          return Some(ValueError("Insufficient QFC balance"));
        }
      } else if token == "QET" {
        return Some(AttributeError);
      }
      Append(blockchain, fi.value, ti.value);
      raised := None;
    }

    /** `execute` with the QET balance checked like the QFC one. */
    method ExecuteIntended(blockchain: ShardedBlockchain) returns (raised: Option<Error>)
      requires blockchain.Valid()
      modifies this`status, blockchain`shards
      ensures blockchain.Valid()
      ensures var n := |old(blockchain.shards)|;
        var fi := PyIndex(n, fromShard);
        var ti := PyIndex(n, toShard);
        var v := CheckIntended(old(blockchain.shards), fromAddress, amount, token);
        if fi.None? || ti.None? then
          raised == Some(IndexError) && blockchain.shards == old(blockchain.shards) && status == old(status)
        else if v.Refuse? then
          raised == Some(v.error) && blockchain.shards == old(blockchain.shards) &&
          status == (if v.markFailed then "failed" else old(status))
        else
          raised == None && status == "completed" &&
          blockchain.shards == Transferred(old(blockchain.shards), fi.value, ti.value, Debit(), Credit())
      ensures forall a, t :: ShardsBalance(blockchain.shards, a, t) == old(ShardsBalance(blockchain.shards, a, t))
    {
      var fi := PyIndex(|blockchain.shards|, fromShard);
      if fi.None? {
        return Some(IndexError);
      }
      var ti := PyIndex(|blockchain.shards|, toShard);
      if ti.None? {
        return Some(IndexError);
      }
      if token == "QFC" || token == "QET" {
        var balance := blockchain.GetBalance(fromAddress, token);
        if balance.None? {
          return Some(KeyError);
        }
        if balance.value < amount {
          status := "failed";
          return Some(ValueError(if token == "QFC" then "Insufficient QFC balance" else "Insufficient QET balance"));
        }
      }
      Append(blockchain, fi.value, ti.value);
      raised := None;
    }

    /** Both legs of the transfer joined their pools and the status is "completed". */
    method Append(blockchain: ShardedBlockchain, fi: nat, ti: nat)
      requires blockchain.Valid() && fi < |blockchain.shards| && ti < |blockchain.shards|
      modifies this`status, blockchain`shards
      ensures blockchain.Valid() && status == "completed"
      ensures blockchain.shards == Transferred(old(blockchain.shards), fi, ti, Debit(), Credit())
      ensures forall a, t :: ShardsBalance(blockchain.shards, a, t) == old(ShardsBalance(blockchain.shards, a, t))
    {
      forall a, t
        ensures ShardsBalance(Transferred(blockchain.shards, fi, ti, Debit(), Credit()), a, t) == ShardsBalance(blockchain.shards, a, t)
      {
        TransferredKeeps(blockchain.hash, blockchain.shards, fi, ti, Debit(), Credit(), a, t);
      }
      TransferredKeeps(blockchain.hash, blockchain.shards, fi, ti, Debit(), Credit(), "", "");
      blockchain.shards := Transferred(blockchain.shards, fi, ti, Debit(), Credit());
      status := "completed";
    }
  }

  /** A 5 QET transfer from "Alice", who holds no QET, between two fresh shards: as
      written, `execute` raises AttributeError and the status stays "pending". */
  method QetTransferAsWritten() returns (raised: Option<Error>, status: string)
    ensures raised == Some(AttributeError) && status == "pending"
  {
    var blockchain := new ShardedBlockchain(2, 0.0, (h: HashInput) => "h", 10.0, 1.0, 0.1, 0.01, 4);
    var transfer := new CrossShardTransaction(0, 1, "Alice", "Bob", 5.0, "QET");
    raised := transfer.Execute(blockchain);
    status := transfer.status;
  }

  /** The same transfer with the QET balance checked: it fails for want of balance. */
  method QetTransferIntended() returns (raised: Option<Error>, status: string)
    ensures raised == Some(ValueError("Insufficient QET balance")) && status == "failed"
  {
    var blockchain := new ShardedBlockchain(2, 0.0, (h: HashInput) => "h", 10.0, 1.0, 0.1, 0.01, 4);
    FreshShardsBalance(blockchain.shards, 0, blockchain.hash, 0.0, "Alice", "QET");
    var transfer := new CrossShardTransaction(0, 1, "Alice", "Bob", 5.0, "QET");
    raised := transfer.ExecuteIntended(blockchain);
    status := transfer.status;
  }
}
