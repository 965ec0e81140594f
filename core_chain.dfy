/**
  Values and specification functions of the sharded ledger in quantumfuse_core.py.

  A transaction is the source's dict with keys "from", "to", "amount", "token"
  and, once `add_qfc_transaction` has set it, "fee".  Blocks and shards are
  values here; the classes that update them live in module CoreLedger.
*/
module CoreChain {
  import opened Common

  /** A transaction dict.  `fee` is None when the dict has no "fee" key, as for
      cross-shard legs and mining rewards. */
  datatype Tx = Tx(sender: string, receiver: string, amount: real, token: string, fee: Option<real>)

  /** The fields `calculate_hash` formats into the hashed string. */
  datatype HashInput =
    HashInput(timestamp: real, transactions: seq<Tx>, previousHash: string, nonce: nat, shardId: int)

  datatype Block = Block(
    timestamp: real, transactions: seq<Tx>, previousHash: string,
    nonce: nat, shardId: int, hash: string)

  datatype Shard = Shard(shardId: int, chain: seq<Block>, pendingTransactions: seq<Tx>)

  /** The exceptions the modelled code raises. */
  datatype Error = IndexError | KeyError | ValueError(message: string) | AttributeError

  /** A call that returns normally (with a value) or raises. */
  datatype Result<T> = Ok(value: T) | Raised(error: Error)

  function HashInputOf(b: Block): HashInput
  {
    HashInput(b.timestamp, b.transactions, b.previousHash, b.nonce, b.shardId)
  }

  /** A block whose stored hash is the hash of its own fields, as `Block.__init__`
      leaves it and `mine_block` leaves it again for the nonce it stops at. */
  function MakeBlock(hash: HashInput -> string, timestamp: real, transactions: seq<Tx>,
                     previousHash: string, nonce: nat, shardId: int): (b: Block)
    ensures b.timestamp == timestamp && b.transactions == transactions
    ensures b.previousHash == previousHash && b.nonce == nonce && b.shardId == shardId
    ensures b.hash == hash(HashInputOf(b))
  {
    Block(timestamp, transactions, previousHash, nonce, shardId,
          hash(HashInput(timestamp, transactions, previousHash, nonce, shardId)))
  }

  /** `Shard(shard_id)`: a chain holding only the genesis block (no transactions,
      predecessor "0", nonce 0) and an empty pending pool. */
  function NewShard(hash: HashInput -> string, shardId: int, now: real): (s: Shard)
    ensures s.shardId == shardId && s.pendingTransactions == [] && |s.chain| == 1
    ensures s.chain[0].transactions == [] && s.chain[0].previousHash == "0"
    ensures s.chain[0].timestamp == now && s.chain[0].nonce == 0 && s.chain[0].shardId == shardId
    ensures s.chain[0].hash == hash(HashInputOf(s.chain[0]))
  {
    Shard(shardId, [MakeBlock(hash, now, [], "0", 0, shardId)], [])
  }

  /** Python list indexing: `shards[i]` for -n <= i < n, negative indices counting
      from the end; IndexError (None) otherwise. */
  function PyIndex(n: nat, i: int): (r: Option<nat>)
    ensures r.Some? <==> -(n as int) <= i < n
    ensures r.Some? ==> r.value < n && (if i >= 0 then r.value == i else r.value == i + n)
  {
    if 0 <= i < n then Some(i) else if -(n as int) <= i < 0 then Some(i + n) else None
  }

  /** Shard i carries id i and every chain has a last block. */
  predicate WellFormed(shards: seq<Shard>)
  {
    forall i :: 0 <= i < |shards| ==> shards[i].shardId == i && |shards[i].chain| >= 1
  }

  // ---------------------------------------------------------------------------
  // Balances
  // ---------------------------------------------------------------------------

  /** Addition in which a raised KeyError (None) wins. */
  function Plus(a: Option<real>, b: Option<real>): Option<real>
  {
    if a.Some? && b.Some? then Some(a.value + b.value) else None
  }

  /** The balance loop's step for one transaction and one token: minus amount and
      fee when the address sends (KeyError when the fee is missing), plus the
      amount when it receives; other tokens count nothing. */
  function TxBalance(tx: Tx, address: string, token: string): Option<real>
  {
    var debit :=
      if tx.sender == address && tx.token == token then
        (match tx.fee case None => None case Some(fee) => Some(-(tx.amount + fee)))
      else Some(0.0);
    var credit := if tx.receiver == address && tx.token == token then tx.amount else 0.0;
    Plus(debit, Some(credit))
  }

  function TxsBalance(txs: seq<Tx>, address: string, token: string): Option<real>
  {
    if txs == [] then Some(0.0) else Plus(TxBalance(txs[0], address, token), TxsBalance(txs[1..], address, token))
  }

  function BlocksBalance(blocks: seq<Block>, address: string, token: string): Option<real>
  {
    if blocks == [] then Some(0.0)
    else Plus(TxsBalance(blocks[0].transactions, address, token), BlocksBalance(blocks[1..], address, token))
  }

  /** The balance of `address` in `token` over every block of every shard's chain
      (pending pools do not count); None when the loop would raise KeyError. */
  function ShardsBalance(shards: seq<Shard>, address: string, token: string): Option<real>
  {
    if shards == [] then Some(0.0)
    else Plus(BlocksBalance(shards[0].chain, address, token), ShardsBalance(shards[1..], address, token))
  }

  /** `get_qfc_balance`. */
  function QfcBalance(shards: seq<Shard>, address: string): Option<real>
  {
    ShardsBalance(shards, address, "QFC")
  }

  /** One step of the balance loop at position t of a list of transactions. */
  lemma TxsBalanceAt(txs: seq<Tx>, t: nat, address: string, token: string)
    requires t < |txs|
    ensures TxsBalance(txs[t..], address, token) == Plus(TxBalance(txs[t], address, token), TxsBalance(txs[t + 1..], address, token))
  {
    assert txs[t..][1..] == txs[t + 1..];
  }

  /** One step of the balance loop at block b of a chain. */
  lemma BlocksBalanceAt(blocks: seq<Block>, b: nat, address: string, token: string)
    requires b < |blocks|
    ensures BlocksBalance(blocks[b..], address, token) ==
      Plus(TxsBalance(blocks[b].transactions, address, token), BlocksBalance(blocks[b + 1..], address, token))
  {
    assert blocks[b..][1..] == blocks[b + 1..];
  }

  /** One step of the balance loop at shard s. */
  lemma ShardsBalanceAt(shards: seq<Shard>, s: nat, address: string, token: string)
    requires s < |shards|
    ensures ShardsBalance(shards[s..], address, token) ==
      Plus(BlocksBalance(shards[s].chain, address, token), ShardsBalance(shards[s + 1..], address, token))
  {
    assert shards[s..][1..] == shards[s + 1..];
  }

  /** Blocks without transactions contribute nothing to any balance. */
  lemma {:induction false} EmptyBlocksBalance(blocks: seq<Block>, address: string, token: string)
    requires forall b :: 0 <= b < |blocks| ==> blocks[b].transactions == []
    ensures BlocksBalance(blocks, address, token) == Some(0.0)
  {
    if blocks != [] {
      EmptyBlocksBalance(blocks[1..], address, token);
    }
  }

  /** Freshly created shards (ids from `first` on) hold only genesis blocks, so every
      balance over them is 0. */
  lemma {:induction false} FreshShardsBalance(shards: seq<Shard>, first: int, hash: HashInput -> string, now: real,
                                              address: string, token: string)
    requires forall i :: 0 <= i < |shards| ==> shards[i] == NewShard(hash, first + i, now)
    ensures ShardsBalance(shards, address, token) == Some(0.0)
  {
    if shards != [] {
      EmptyBlocksBalance(shards[0].chain, address, token);
      FreshShardsBalance(shards[1..], first + 1, hash, now, address, token);
    }
  }

  /** The transaction makes the balance loop look up a "fee" key that is not there. */
  predicate FeeMissing(tx: Tx, address: string, token: string)
  {
    tx.sender == address && tx.token == token && tx.fee.None?
  }

  /** The balance over a list of transactions raises exactly when one of them is a
      fee-less debit of the address; otherwise it is a number. */
  lemma {:induction false} TxsBalanceRaisesIff(txs: seq<Tx>, address: string, token: string)
    ensures TxsBalance(txs, address, token).None? <==> exists k :: 0 <= k < |txs| && FeeMissing(txs[k], address, token)
  {
    if txs != [] {
      TxsBalanceRaisesIff(txs[1..], address, token);
      if exists k :: 0 <= k < |txs[1..]| && FeeMissing(txs[1..][k], address, token) {
        var k :| 0 <= k < |txs[1..]| && FeeMissing(txs[1..][k], address, token);
        assert FeeMissing(txs[k + 1], address, token);
      }
      if k :| 0 <= k < |txs| && FeeMissing(txs[k], address, token) {
        if k > 0 {
          assert FeeMissing(txs[1..][k - 1], address, token);
        }
      }
    }
  }

  /** A transaction in another token leaves every balance in `token` as it was. */
  lemma OtherTokenIgnored(tx: Tx, address: string, token: string)
    requires tx.token != token
    ensures TxBalance(tx, address, token) == Some(0.0)
  {
  }

  lemma {:induction false} TxsBalanceAppend(xs: seq<Tx>, ys: seq<Tx>, address: string, token: string)
    ensures TxsBalance(xs + ys, address, token) == Plus(TxsBalance(xs, address, token), TxsBalance(ys, address, token))
  {
    if xs == [] {
      assert xs + ys == ys;
    } else {
      assert (xs + ys)[0] == xs[0] && (xs + ys)[1..] == xs[1..] + ys;
      TxsBalanceAppend(xs[1..], ys, address, token);
    }
  }

  /** Appending a block to a chain adds that block's transactions to the balance. */
  lemma {:induction false} BlocksBalanceAppend(blocks: seq<Block>, b: Block, address: string, token: string)
    ensures BlocksBalance(blocks + [b], address, token) ==
      Plus(BlocksBalance(blocks, address, token), TxsBalance(b.transactions, address, token))
  {
    if blocks == [] {
      assert [] + [b] == [b];
      assert [b][1..] == [];
    } else {
      assert (blocks + [b])[0] == blocks[0] && (blocks + [b])[1..] == blocks[1..] + [b];
      BlocksBalanceAppend(blocks[1..], b, address, token);
    }
  }

  /** The balance over shards whose chains agree except that shard k gained block b. */
  lemma {:induction false} ShardsBalanceExtend(shards: seq<Shard>, k: nat, b: Block, address: string, token: string)
    requires k < |shards|
    ensures ShardsBalance(shards[k := shards[k].(chain := shards[k].chain + [b])], address, token) ==
      Plus(ShardsBalance(shards, address, token), TxsBalance(b.transactions, address, token))
  {
    var updated := shards[k := shards[k].(chain := shards[k].chain + [b])];
    if k == 0 {
      BlocksBalanceAppend(shards[0].chain, b, address, token);
      assert updated[1..] == shards[1..];
    } else {
      ShardsBalanceExtend(shards[1..], k - 1, b, address, token);
      assert updated[1..] == shards[1..][k - 1 := shards[1..][k - 1].(chain := shards[1..][k - 1].chain + [b])];
    }
  }

  /** Changing only pending pools changes no balance: balances read chains only. */
  lemma {:induction false} ShardsBalancePendingIrrelevant(shards: seq<Shard>, k: nat, pending: seq<Tx>,
                                                          address: string, token: string)
    requires k < |shards|
    ensures ShardsBalance(shards[k := shards[k].(pendingTransactions := pending)], address, token) ==
      ShardsBalance(shards, address, token)
  {
    var updated := shards[k := shards[k].(pendingTransactions := pending)];
    if k == 0 {
      assert updated[1..] == shards[1..];
    } else {
      ShardsBalancePendingIrrelevant(shards[1..], k - 1, pending, address, token);
      assert updated[1..] == shards[1..][k - 1 := shards[1..][k - 1].(pendingTransactions := pending)];
    }
  }

  // ---------------------------------------------------------------------------
  // Chain validity
  // ---------------------------------------------------------------------------

  /** Block i (i >= 1) carries the hash of its own fields and names block i - 1's hash. */
  predicate LinkedAt(hash: HashInput -> string, chain: seq<Block>, i: int)
  {
    0 < i < |chain| && chain[i].hash == hash(HashInputOf(chain[i])) && chain[i].previousHash == chain[i - 1].hash
  }

  predicate ChainValid(hash: HashInput -> string, chain: seq<Block>)
  {
    forall i :: 0 < i < |chain| ==> LinkedAt(hash, chain, i)
  }

  /** What `is_chain_valid` checks: every shard's chain is valid. */
  predicate AllChainsValid(hash: HashInput -> string, shards: seq<Shard>)
  {
    forall s :: 0 <= s < |shards| ==> ChainValid(hash, shards[s].chain)
  }

  /** A block that carries its own hash and names the last block's hash keeps a valid
      chain valid. */
  lemma ChainValidExtend(hash: HashInput -> string, chain: seq<Block>, b: Block)
    requires chain != [] && ChainValid(hash, chain)
    requires b.hash == hash(HashInputOf(b)) && b.previousHash == chain[|chain| - 1].hash
    ensures ChainValid(hash, chain + [b])
  {
    var extended := chain + [b];
    forall i | 0 < i < |extended|
      ensures LinkedAt(hash, extended, i)
    {
      if i < |chain| {
        assert LinkedAt(hash, chain, i);
      }
    }
  }

  /** A fresh shard's one-block chain is valid: there is no link to check. */
  lemma NewShardValid(hash: HashInput -> string, shardId: int, now: real)
    ensures ChainValid(hash, NewShard(hash, shardId, now).chain)
  {
  }

  // ---------------------------------------------------------------------------
  // Shard adjustment
  // ---------------------------------------------------------------------------

  /** `sum(len(shard.pending_transactions) for shard in shards)` */
  function TotalPending(shards: seq<Shard>): nat
  {
    if shards == [] then 0 else |shards[0].pendingTransactions| + TotalPending(shards[1..])
  }

  /** The shards after `adjust_shards` with threshold 100 per shard. */
  function Adjusted(hash: HashInput -> string, shards: seq<Shard>, threshold: int, now: real): seq<Shard>
  {
    var total := TotalPending(shards);
    if total > threshold * |shards| then shards + [NewShard(hash, |shards|, now)]
    else if total < threshold * (|shards| - 1) then (if |shards| > 1 then shards[..|shards| - 1] else shards)
    else shards
  }

  /** An adjustment adds shard n exactly when the load exceeds threshold x n, drops the
      last shard exactly when the load is below threshold x (n - 1) and n > 1, keeps
      the other shards as they were and never drops the only shard. */
  lemma {:induction false} AdjustedShape(hash: HashInput -> string, shards: seq<Shard>, threshold: int, now: real)
    requires WellFormed(shards)
    ensures var r := Adjusted(hash, shards, threshold, now);
      && WellFormed(r) && (AllChainsValid(hash, shards) ==> AllChainsValid(hash, r))
      && (|r| == |shards| + 1 <==> TotalPending(shards) > threshold * |shards|)
      && (|r| == |shards| - 1 <==>
           TotalPending(shards) <= threshold * |shards| && TotalPending(shards) < threshold * (|shards| - 1) && |shards| > 1)
      && (|r| > |shards| ==> r[..|shards|] == shards && r[|shards|].shardId == |shards|)
      && (|r| <= |shards| ==> r == shards[..|r|])
      && (|shards| >= 1 ==> |r| >= 1)
  {
    var r := Adjusted(hash, shards, threshold, now);
    NewShardValid(hash, |shards|, now);
    if AllChainsValid(hash, shards) {
      forall s | 0 <= s < |r|
        ensures ChainValid(hash, r[s].chain)
      {
        if s < |shards| {
          assert r[s] == shards[s];
        }
      }
    }
  }

  // ---------------------------------------------------------------------------
  // Pending pools and mining
  // ---------------------------------------------------------------------------

  /** Shard k's pending pool with `tx` appended; every chain and every other pool
      as it was. */
  function WithPending(shards: seq<Shard>, k: nat, tx: Tx): (r: seq<Shard>)
    requires k < |shards|
    ensures |r| == |shards|
    ensures forall j :: 0 <= j < |r| ==> r[j].shardId == shards[j].shardId && r[j].chain == shards[j].chain
    ensures forall j :: 0 <= j < |r| ==>
      r[j].pendingTransactions == shards[j].pendingTransactions + (if j == k then [tx] else [])
  {
    shards[k := shards[k].(pendingTransactions := shards[k].pendingTransactions + [tx])]
  }

  /** Appending to a pool keeps the shards well formed, their chains valid and every
      balance as it was. */
  lemma WithPendingKeeps(hash: HashInput -> string, shards: seq<Shard>, k: nat, tx: Tx, address: string, token: string)
    requires k < |shards|
    ensures WellFormed(shards) ==> WellFormed(WithPending(shards, k, tx))
    ensures AllChainsValid(hash, shards) ==> AllChainsValid(hash, WithPending(shards, k, tx))
    ensures ShardsBalance(WithPending(shards, k, tx), address, token) == ShardsBalance(shards, address, token)
  {
    ShardsBalancePendingIrrelevant(shards, k, shards[k].pendingTransactions + [tx], address, token);
  }

  /** The pools after both legs of a cross-shard transfer: the debit in shard `fi`'s
      pool, then the credit in shard `ti`'s pool.  Each pool gains exactly the legs
      addressed to it, in that order, and nothing else changes. */
  function Transferred(shards: seq<Shard>, fi: nat, ti: nat, debit: Tx, credit: Tx): (r: seq<Shard>)
    requires fi < |shards| && ti < |shards|
    ensures |r| == |shards|
    ensures forall j :: 0 <= j < |r| ==> r[j].shardId == shards[j].shardId && r[j].chain == shards[j].chain
    ensures forall j :: 0 <= j < |r| ==>
      r[j].pendingTransactions ==
        shards[j].pendingTransactions + (if j == fi then [debit] else []) + (if j == ti then [credit] else [])
  {
    var afterDebit := WithPending(shards, fi, debit);
    var r := WithPending(afterDebit, ti, credit);
    assert forall j :: 0 <= j < |r| ==>
      r[j].pendingTransactions == afterDebit[j].pendingTransactions + (if j == ti then [credit] else []);
    r
  }

  /** A transfer keeps the shards well formed, their chains valid and every balance
      as it was: the legs sit in pools until mined. */
  lemma TransferredKeeps(hash: HashInput -> string, shards: seq<Shard>, fi: nat, ti: nat, debit: Tx, credit: Tx,
                         address: string, token: string)
    requires fi < |shards| && ti < |shards|
    ensures WellFormed(shards) ==> WellFormed(Transferred(shards, fi, ti, debit, credit))
    ensures AllChainsValid(hash, shards) ==> AllChainsValid(hash, Transferred(shards, fi, ti, debit, credit))
    ensures ShardsBalance(Transferred(shards, fi, ti, debit, credit), address, token) == ShardsBalance(shards, address, token)
  {
    WithPendingKeeps(hash, shards, fi, debit, address, token);
    WithPendingKeeps(hash, WithPending(shards, fi, debit), ti, credit, address, token);
  }

  /** The pool `mine_pending_transactions` leaves behind: a QFC and a QET reward from
      "SYSTEM" to the miner, neither with a fee. */
  function RewardTxs(address: string, qfcReward: real, qetReward: real): (r: seq<Tx>)
    ensures |r| == 2 && r[0].token == "QFC" && r[1].token == "QET"
    ensures forall i :: 0 <= i < 2 ==> r[i].sender == "SYSTEM" && r[i].receiver == address && r[i].fee.None?
  {
    [Tx("SYSTEM", address, qfcReward, "QFC", None), Tx("SYSTEM", address, qetReward, "QET", None)]
  }

  /** Shard k after mining: its chain gains one block holding the whole pending pool and
      naming the previous last block's hash, and its pool becomes the two rewards. */
  function Mine(hash: HashInput -> string, shards: seq<Shard>, k: nat, blockShardId: int, rewardAddress: string,
                qfcReward: real, qetReward: real, now: real, nonce: nat): (r: seq<Shard>)
    requires k < |shards| && |shards[k].chain| >= 1
    ensures |r| == |shards|
    ensures forall j :: 0 <= j < |r| && j != k ==> r[j] == shards[j]
    ensures r[k].shardId == shards[k].shardId && |r[k].chain| == |shards[k].chain| + 1
    ensures r[k].chain[..|shards[k].chain|] == shards[k].chain
    ensures var b := r[k].chain[|shards[k].chain|];
      && b.transactions == shards[k].pendingTransactions
      && b.previousHash == shards[k].chain[|shards[k].chain| - 1].hash
      && b.timestamp == now && b.shardId == blockShardId
      && b.hash == hash(HashInputOf(b))
    ensures r[k].pendingTransactions == RewardTxs(rewardAddress, qfcReward, qetReward)
  {
    var shard := shards[k];
    var block := MakeBlock(hash, now, shard.pendingTransactions, shard.chain[|shard.chain| - 1].hash, nonce, blockShardId);
    shards[k := Shard(shard.shardId, shard.chain + [block], RewardTxs(rewardAddress, qfcReward, qetReward))]
  }

  /** Mining keeps the shards well formed and their chains valid, and every balance
      gains exactly the mined pool's transactions. */
  lemma MineKeeps(hash: HashInput -> string, shards: seq<Shard>, k: nat, blockShardId: int, rewardAddress: string,
                  qfcReward: real, qetReward: real, now: real, nonce: nat, address: string, token: string)
    requires k < |shards| && |shards[k].chain| >= 1
    ensures var r := Mine(hash, shards, k, blockShardId, rewardAddress, qfcReward, qetReward, now, nonce);
      && (WellFormed(shards) ==> WellFormed(r))
      && (AllChainsValid(hash, shards) ==> AllChainsValid(hash, r))
      && ShardsBalance(r, address, token) ==
           Plus(ShardsBalance(shards, address, token), TxsBalance(shards[k].pendingTransactions, address, token))
  {
    var r := Mine(hash, shards, k, blockShardId, rewardAddress, qfcReward, qetReward, now, nonce);
    var shard := shards[k];
    var block := r[k].chain[|shard.chain|];
    assert r[k].chain == shard.chain + [block];
    var extended := shards[k := shard.(chain := shard.chain + [block])];
    ShardsBalanceExtend(shards, k, block, address, token);
    assert r == extended[k := extended[k].(pendingTransactions := r[k].pendingTransactions)];
    ShardsBalancePendingIrrelevant(extended, k, r[k].pendingTransactions, address, token);
    if AllChainsValid(hash, shards) {
      ChainValidExtend(hash, shard.chain, block);
      forall s | 0 <= s < |r|
        ensures ChainValid(hash, r[s].chain)
      {
        if s != k {
          assert r[s] == shards[s];
        }
      }
    }
  }

  // ---------------------------------------------------------------------------
  // Staking pool and treasury
  // ---------------------------------------------------------------------------

  /** `stakers.get(address, 0)` */
  function StakeOf(stakers: map<string, real>, address: string): real
  {
    if address in stakers then stakers[address] else 0.0
  }

  /** `stake`: add to an existing entry or create one; no other entry changes. */
  function Staked(stakers: map<string, real>, address: string, amount: real): (r: map<string, real>)
    ensures r.Keys == stakers.Keys + {address}
    ensures r[address] == StakeOf(stakers, address) + amount
    ensures forall a :: a in stakers && a != address ==> r[a] == stakers[a]
  {
    if address in stakers then stakers[address := stakers[address] + amount] else stakers[address := amount]
  }

  /** `withdraw_stake`: the stakers decreased by the amount when the stake (0 when
      absent) covers it; ValueError otherwise; KeyError when the address holds no
      entry although the default 0 covers a non-positive amount. */
  function Withdrawn(stakers: map<string, real>, address: string, amount: real): (r: Result<map<string, real>>)
    ensures r.Ok? <==> address in stakers && stakers[address] >= amount
    ensures StakeOf(stakers, address) < amount ==> r == Raised(ValueError("Insufficient stake for withdrawal."))
    ensures address !in stakers && amount <= 0.0 ==> r == Raised(KeyError)
    ensures r.Ok? ==> r.value.Keys == stakers.Keys && r.value[address] == stakers[address] - amount
    ensures r.Ok? ==> forall a :: a in stakers && a != address ==> r.value[a] == stakers[a]
  {
    if StakeOf(stakers, address) >= amount then
      (if address in stakers then Ok(stakers[address := stakers[address] - amount]) else Raised(KeyError))
    else Raised(ValueError("Insufficient stake for withdrawal."))
  }

  predicate NonNegativeStakes(stakers: map<string, real>)
  {
    forall a :: a in stakers ==> stakers[a] >= 0.0
  }

  /** Withdrawing what was just staked restores the address's earlier stake (0 when it
      had none), provided that stake was not negative. */
  lemma StakeThenWithdraw(stakers: map<string, real>, address: string, amount: real)
    requires StakeOf(stakers, address) >= 0.0
    ensures Withdrawn(Staked(stakers, address, amount), address, amount) == Ok(stakers[address := StakeOf(stakers, address)])
  {
    var staked := Staked(stakers, address, amount);
    var restored := stakers[address := StakeOf(stakers, address)];
    var r := Withdrawn(staked, address, amount);
    assert r.Ok?;
    assert r.value.Keys == restored.Keys;
    assert forall a :: a in restored ==> r.value[a] == restored[a];
    assert r.value == restored;
  }

  /** Non-negative stakes stay non-negative under a non-negative stake and under any
      withdrawal that succeeds. */
  lemma StakesStayNonNegative(stakers: map<string, real>, address: string, amount: real)
    requires NonNegativeStakes(stakers)
    ensures amount >= 0.0 ==> NonNegativeStakes(Staked(stakers, address, amount))
    ensures Withdrawn(stakers, address, amount).Ok? ==> NonNegativeStakes(Withdrawn(stakers, address, amount).value)
  {
  }

  /** `Treasury.withdraw`: the funds less the amount when they cover it; ValueError
      otherwise. */
  function TreasuryWithdrawn(funds: real, amount: real): (r: Result<real>)
    ensures r.Ok? <==> funds >= amount
    ensures r.Raised? ==> r.error == ValueError("Insufficient treasury funds for withdrawal.")
    ensures r.Ok? ==> r.value + amount == funds && (funds >= 0.0 ==> r.value >= 0.0) && (amount >= 0.0 ==> r.value >= 0.0)
  {
    if funds >= amount then Ok(funds - amount) else Raised(ValueError("Insufficient treasury funds for withdrawal."))
  }

  /** Withdrawing a deposit just made gives back the earlier funds. */
  lemma DepositThenWithdraw(funds: real, amount: real)
    ensures TreasuryWithdrawn(funds + amount, amount) == Ok(funds) <==> funds >= 0.0
  {
    if funds >= 0.0 {
      assert (funds + amount) - amount == funds;
    } else {
      assert TreasuryWithdrawn(funds + amount, amount).Raised?;
    }
  }
}
