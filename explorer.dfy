/**
  The QuantumFuse explorer view model (src/quantumfuse_blockchain_react.js).

  The component keeps a newest-first log of blocks received from a live feed
  and derives three views from it: a line-chart series (timestamp -> block
  index), a flat per-transaction series (sender -> amount) and the blocks
  whose transactions mention a search term.  The log and the derived state
  are fields of `ExplorerView`; the derivations are the functions below.
*/
module Explorer {
  import opened Common

  /** One transfer inside a block, as the feed delivers it. */
  datatype Transaction = Transaction(sender: string, recipient: string, amount: real)

  /** One decoded feed message. */
  datatype Block = Block(index: int, timestamp: string, transactions: seq<Transaction>)

  /** The line chart: one label (the block's timestamp) and one point (its index) per block. */
  datatype ChartSeries = ChartSeries(labels: seq<string>, data: seq<int>)

  /** The bar chart: one label (the sender) and one bar (the amount) per transaction. */
  datatype TransactionSeries = TransactionSeries(labels: seq<string>, data: seq<real>)

  // ---------------------------------------------------------------------------
  // Feed ingestion
  // ---------------------------------------------------------------------------

  /** The log after one feed message: a decoded block becomes the new head, a
      message that fails to decode leaves the log as it was. */
  function Receive(log: seq<Block>, decoded: Option<Block>): (r: seq<Block>)
    ensures decoded.None? ==> r == log
    ensures decoded.Some? ==> |r| == |log| + 1 && r[0] == decoded.value && r[1..] == log
  {
    match decoded
    case None => log
    case Some(b) => [b] + log
  }

  /** The log after a whole stream of messages, delivered in order. */
  function ReceiveAll(log: seq<Block>, msgs: seq<Option<Block>>): seq<Block>
    decreases |msgs|
  {
    if msgs == [] then log else ReceiveAll(Receive(log, msgs[0]), msgs[1..])
  }

  /** The blocks of a message stream that decoded, in arrival order. */
  function Decoded(msgs: seq<Option<Block>>): (r: seq<Block>)
    ensures |r| <= |msgs|
  {
    if msgs == [] then []
    else (match msgs[0] case None => [] case Some(b) => [b]) + Decoded(msgs[1..])
  }

  function Reversed<T>(s: seq<T>): (r: seq<T>)
    ensures |r| == |s|
  {
    if s == [] then [] else Reversed(s[1..]) + [s[0]]
  }

  /** A stream of messages puts its decoded blocks in front of the log, newest first;
      failed decodes leave no trace. */
  lemma {:induction false} ReceiveAllNewestFirst(log: seq<Block>, msgs: seq<Option<Block>>)
    ensures ReceiveAll(log, msgs) == Reversed(Decoded(msgs)) + log
    decreases |msgs|
  {
    if msgs == [] {
      assert Reversed(Decoded(msgs)) + log == log;
    } else {
      ReceiveAllNewestFirst(Receive(log, msgs[0]), msgs[1..]);
      match msgs[0]
      case None =>
        assert Decoded(msgs) == [] + Decoded(msgs[1..]) == Decoded(msgs[1..]);
        assert ReceiveAll(log, msgs) == ReceiveAll(log, msgs[1..]);
      case Some(b) =>
        calc {
          Reversed(Decoded(msgs)) + log;
          Reversed([b] + Decoded(msgs[1..])) + log;
          { assert ([b] + Decoded(msgs[1..]))[1..] == Decoded(msgs[1..]); }
          Reversed(Decoded(msgs[1..])) + [b] + log;
          Reversed(Decoded(msgs[1..])) + Receive(log, msgs[0]);
        }
    }
  }

  /** When every message decodes, the stream contributes exactly its blocks. */
  lemma {:induction false} DecodedAll(msgs: seq<Option<Block>>)
    requires forall i :: 0 <= i < |msgs| ==> msgs[i].Some?
    ensures |Decoded(msgs)| == |msgs|
    ensures forall i :: 0 <= i < |msgs| ==> Decoded(msgs)[i] == msgs[i].value
  {
    if msgs != [] {
      DecodedAll(msgs[1..]);
    }
  }

  /** Reversal sends the last element to the front. */
  lemma {:induction false} ReversedHead<T>(s: seq<T>)
    requires s != []
    ensures Reversed(s)[0] == s[|s| - 1]
  {
    if |s| > 1 {
      ReversedHead(s[1..]);
    }
  }

  /** N messages that all decode, starting from an empty log, give a log of length N
      whose head is the last message received. */
  lemma ReceiveAllValid(msgs: seq<Option<Block>>)
    requires msgs != []
    requires forall i :: 0 <= i < |msgs| ==> msgs[i].Some?
    ensures |ReceiveAll([], msgs)| == |msgs|
    ensures ReceiveAll([], msgs)[0] == msgs[|msgs| - 1].value
  {
    ReceiveAllNewestFirst([], msgs);
    DecodedAll(msgs);
    ReversedHead(Decoded(msgs));
    assert Reversed(Decoded(msgs)) + [] == Reversed(Decoded(msgs));
  }

  // ---------------------------------------------------------------------------
  // The line chart
  // ---------------------------------------------------------------------------

  /** `blocks.map(block => block.index)` */
  function IndexSeries(blocks: seq<Block>): (r: seq<int>)
    ensures |r| == |blocks|
    ensures forall i :: 0 <= i < |blocks| ==> r[i] == blocks[i].index
  {
    if blocks == [] then [] else [blocks[0].index] + IndexSeries(blocks[1..])
  }

  /** `blocks.map(block => new Date(block.timestamp))`, the date kept as the feed's text. */
  function TimestampSeries(blocks: seq<Block>): (r: seq<string>)
    ensures |r| == |blocks|
    ensures forall i :: 0 <= i < |blocks| ==> r[i] == blocks[i].timestamp
  {
    if blocks == [] then [] else [blocks[0].timestamp] + TimestampSeries(blocks[1..])
  }

  /** The chart series: as long as the log and aligned with it position by position. */
  function Chart(blocks: seq<Block>): (r: ChartSeries)
    ensures |r.labels| == |r.data| == |blocks|
    ensures forall i :: 0 <= i < |blocks| ==>
      r.labels[i] == blocks[i].timestamp && r.data[i] == blocks[i].index
  {
    ChartSeries(TimestampSeries(blocks), IndexSeries(blocks))
  }

  // ---------------------------------------------------------------------------
  // The transaction series
  // ---------------------------------------------------------------------------

  /** The number of transactions across the log. */
  function TransactionCount(blocks: seq<Block>): nat
  {
    if blocks == [] then 0 else |blocks[0].transactions| + TransactionCount(blocks[1..])
  }

  /** `blocks.flatMap(block => block.transactions)` */
  function Flatten(blocks: seq<Block>): (r: seq<Transaction>)
    ensures |r| == TransactionCount(blocks)
  {
    if blocks == [] then [] else blocks[0].transactions + Flatten(blocks[1..])
  }

  /** Flattening distributes over concatenation of logs. */
  lemma {:induction false} FlattenAppend(xs: seq<Block>, ys: seq<Block>)
    ensures Flatten(xs + ys) == Flatten(xs) + Flatten(ys)
    ensures TransactionCount(xs + ys) == TransactionCount(xs) + TransactionCount(ys)
  {
    if xs != [] {
      assert (xs + ys)[0] == xs[0] && (xs + ys)[1..] == xs[1..] + ys;
      FlattenAppend(xs[1..], ys);
      assert Flatten(xs + ys) == xs[0].transactions + Flatten(xs[1..] + ys);
    } else {
      assert xs + ys == ys;
    }
  }

  /** Transaction t of block j sits at position (transactions of blocks before j) + t:
      block order first, then order within the block. */
  lemma FlattenAt(blocks: seq<Block>, j: nat, t: nat)
    requires j < |blocks| && t < |blocks[j].transactions|
    ensures TransactionCount(blocks[..j]) + t < TransactionCount(blocks)
    ensures Flatten(blocks)[TransactionCount(blocks[..j]) + t] == blocks[j].transactions[t]
  {
    assert blocks == blocks[..j] + ([blocks[j]] + blocks[j + 1..]);
    FlattenAppend(blocks[..j], [blocks[j]] + blocks[j + 1..]);
    assert Flatten([blocks[j]] + blocks[j + 1..]) == blocks[j].transactions + Flatten(blocks[j + 1..]);
  }

  /** `transactions.map(tx => tx.sender)` */
  function Senders(txs: seq<Transaction>): (r: seq<string>)
    ensures |r| == |txs|
    ensures forall k :: 0 <= k < |txs| ==> r[k] == txs[k].sender
  {
    if txs == [] then [] else [txs[0].sender] + Senders(txs[1..])
  }

  /** `transactions.map(tx => tx.amount)` */
  function Amounts(txs: seq<Transaction>): (r: seq<real>)
    ensures |r| == |txs|
    ensures forall k :: 0 <= k < |txs| ==> r[k] == txs[k].amount
  {
    if txs == [] then [] else [txs[0].amount] + Amounts(txs[1..])
  }

  /** The bar-chart series: one entry per transaction (no grouping by sender), the
      label and the bar of entry k coming from the same k-th transaction. */
  function TxSeries(blocks: seq<Block>): (r: TransactionSeries)
    ensures |r.labels| == |r.data| == TransactionCount(blocks)
    ensures forall k :: 0 <= k < TransactionCount(blocks) ==>
      r.labels[k] == Flatten(blocks)[k].sender && r.data[k] == Flatten(blocks)[k].amount
  {
    var transactions := Flatten(blocks);
    TransactionSeries(Senders(transactions), Amounts(transactions))
  }

  // ---------------------------------------------------------------------------
  // The search filter
  // ---------------------------------------------------------------------------

  /** `q` occurs in `s` starting at position `i`. */
  predicate OccursAt(s: string, q: string, i: int)
  {
    0 <= i && i + |q| <= |s| && s[i..i + |q|] == q
  }

  /** `s.includes(q)`: case-sensitive, unanchored substring test. */
  predicate Includes(s: string, q: string)
    decreases |s|
  {
    if |q| > |s| then false
    else if s[..|q|] == q then true
    else Includes(s[1..], q)
  }

  /** `Includes` holds exactly when the query occurs somewhere in the string. */
  lemma {:induction false} IncludesIff(s: string, q: string)
    ensures Includes(s, q) <==> exists i :: OccursAt(s, q, i)
    decreases |s|
  {
    if |q| > |s| {
    } else if s[..|q|] == q {
      assert OccursAt(s, q, 0);
    } else {
      IncludesIff(s[1..], q);
      if Includes(s, q) {
        var j :| OccursAt(s[1..], q, j);
        assert s[1..][j..j + |q|] == s[j + 1..j + 1 + |q|];
        assert OccursAt(s, q, j + 1);
      }
      if i :| OccursAt(s, q, i) {
        assert i != 0;
        assert s[1..][i - 1..i - 1 + |q|] == s[i..i + |q|];
        assert OccursAt(s[1..], q, i - 1);
      }
    }
  }

  /** The empty query is contained in every string. */
  lemma IncludesEmpty(s: string)
    ensures Includes(s, "")
  {
  }

  /** A transaction matches when its sender or its recipient contains the query. */
  predicate TxMatches(t: Transaction, q: string)
  {
    Includes(t.sender, q) || Includes(t.recipient, q)
  }

  /** `block.transactions.some(...)`: some transaction of the block matches. */
  predicate AnyMatches(txs: seq<Transaction>, q: string)
    ensures AnyMatches(txs, q) <==> exists k :: 0 <= k < |txs| && TxMatches(txs[k], q)
  {
    if txs == [] then false else TxMatches(txs[0], q) || AnyMatches(txs[1..], q)
  }

  /** `xs` is `ys` with some elements left out and the rest in their order. */
  predicate SubsequenceOf<T(==)>(xs: seq<T>, ys: seq<T>)
    decreases |ys|
  {
    if xs == [] then true
    else if ys == [] then false
    else (xs[0] == ys[0] && SubsequenceOf(xs[1..], ys[1..])) || SubsequenceOf(xs, ys[1..])
  }

  /** `blocks.filter(block => block.transactions.some(...))`: an order-preserving
      subsequence of the log that keeps a block exactly when it matches. */
  function FilterBlocks(blocks: seq<Block>, q: string): (r: seq<Block>)
    ensures SubsequenceOf(r, blocks)
    ensures forall b :: b in r <==> b in blocks && AnyMatches(b.transactions, q)
  {
    if blocks == [] then []
    else if AnyMatches(blocks[0].transactions, q) then [blocks[0]] + FilterBlocks(blocks[1..], q)
    else FilterBlocks(blocks[1..], q)
  }

  /** Filtering distributes over concatenation of logs: the view is exactly the
      matching blocks, each kept in place, duplicates included. */
  lemma {:induction false} FilterAppend(xs: seq<Block>, ys: seq<Block>, q: string)
    ensures FilterBlocks(xs + ys, q) == FilterBlocks(xs, q) + FilterBlocks(ys, q)
  {
    if xs != [] {
      assert (xs + ys)[0] == xs[0] && (xs + ys)[1..] == xs[1..] + ys;
      FilterAppend(xs[1..], ys, q);
    } else {
      assert xs + ys == ys;
    }
  }

  /** The blocks that carry at least one transaction, in log order. */
  function NonEmptyBlocks(blocks: seq<Block>): (r: seq<Block>)
    ensures |r| <= |blocks|
  {
    if blocks == [] then []
    else if blocks[0].transactions != [] then [blocks[0]] + NonEmptyBlocks(blocks[1..])
    else NonEmptyBlocks(blocks[1..])
  }

  /** With the empty query the filtered view is exactly the blocks that have a transaction. */
  lemma {:induction false} EmptyQueryKeepsNonEmpty(blocks: seq<Block>)
    ensures FilterBlocks(blocks, "") == NonEmptyBlocks(blocks)
  {
    if blocks != [] {
      var txs := blocks[0].transactions;
      if txs != [] {
        IncludesEmpty(txs[0].sender);
        assert TxMatches(txs[0], "");
      }
      EmptyQueryKeepsNonEmpty(blocks[1..]);
    }
  }

  /** An empty log gives empty chart, transaction and filtered views. */
  lemma EmptyLogViews(q: string)
    ensures Chart([]) == ChartSeries([], [])
    ensures TxSeries([]) == TransactionSeries([], [])
    ensures FilterBlocks([], q) == []
  {
  }

  // ---------------------------------------------------------------------------
  // The component state
  // ---------------------------------------------------------------------------

  /** The explorer component: its five pieces of state and the handlers that replace them. */
  class ExplorerView {
    var blocks: seq<Block>
    var searchTerm: string
    var filteredBlocks: seq<Block>
    var chartData: ChartSeries
    var transactionData: TransactionSeries

    /** The derived state is what the effect computes from the log and the query. */
    ghost predicate ViewsCurrent()
      reads this
    {
      && chartData == Chart(blocks)
      && transactionData == TxSeries(blocks)
      && filteredBlocks == FilterBlocks(blocks, searchTerm)
    }

    /** Mount: empty log, empty query, empty views. */
    constructor ()
      ensures blocks == [] && searchTerm == "" && filteredBlocks == []
      ensures chartData == ChartSeries([], []) && transactionData == TransactionSeries([], [])
      ensures ViewsCurrent()
    {
      blocks := [];
      searchTerm := "";
      filteredBlocks := [];
      chartData := ChartSeries([], []);
      transactionData := TransactionSeries([], []);
    }

    /** `client.onmessage`: prepend the decoded block; a decode failure (None) never
        reaches `setBlocks`. */
    method OnMessage(decoded: Option<Block>)
      modifies this`blocks
      ensures blocks == Receive(old(blocks), decoded)
      ensures decoded.Some? ==> |blocks| == |old(blocks)| + 1 && blocks[0] == decoded.value && blocks[1..] == old(blocks)
      ensures decoded.None? ==> blocks == old(blocks)
    {
      match decoded {
        case None =>
        case Some(block) =>
          blocks := [block] + blocks;
      }
    }

    /** The effect body that runs after the log or the query changes: recompute all
        three derived views. */
    method RecomputeViews()
      modifies this`chartData, this`transactionData, this`filteredBlocks
      ensures ViewsCurrent()
      ensures blocks == old(blocks) && searchTerm == old(searchTerm)
    {
      var blockIndexes := IndexSeries(blocks);
      var blockTimestamps := TimestampSeries(blocks);
      chartData := ChartSeries(blockTimestamps, blockIndexes);
      var transactions := Flatten(blocks);
      transactionData := TransactionSeries(Senders(transactions), Amounts(transactions));
      filteredBlocks := FilterBlocks(blocks, searchTerm);
    }

    /** The search box's `onChange`. */
    method SetSearchTerm(q: string)
      modifies this`searchTerm
      ensures searchTerm == q
    {
      searchTerm := q;
    }

    /** `handleSearch`: the same filter the effect applies, over the current log and
        query; calling it again with nothing changed gives the same view. */
    method HandleSearch()
      modifies this`filteredBlocks
      ensures filteredBlocks == FilterBlocks(blocks, searchTerm)
      ensures old(ViewsCurrent()) ==> filteredBlocks == old(filteredBlocks) && ViewsCurrent()
    {
      filteredBlocks := FilterBlocks(blocks, searchTerm);
    }
  }
}
