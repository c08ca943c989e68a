/** Rollup blocks, their logs as RPC clients see them, and the events the node broadcasts about them. */
module Rollup {
  import opened Host

  datatype RawLog = RawLog(address: nat, payload: nat)

  datatype Log = Log(
    inner: RawLog,
    blockHash: Hash,
    blockNumber: nat,
    timestamp: nat,
    txHash: Hash,
    txIndex: nat,
    logIndex: nat,
    removed: bool
  )

  /** `receipts[t]` are the logs of transaction `t`. */
  datatype RuBlock = RuBlock(number: nat, hash: Hash, timestamp: nat, transactions: seq<Hash>, receipts: seq<seq<RawLog>>)

  datatype RemovedBlock = RemovedBlock(number: nat, hash: Hash, timestamp: nat, logs: seq<Log>)

  datatype ReorgNotification = ReorgNotification(commonAncestor: nat, removedBlocks: seq<RemovedBlock>)

  datatype ChainEvent = NewBlock(block: RuBlock) | Reorg(reorg: ReorgNotification)

  type LogFilter = RawLog -> bool

  /** Every transaction with a receipt is in the block. */
  predicate WellFormedBlock(b: RuBlock) {
    |b.receipts| <= |b.transactions|
  }

  /** The logs of a list of blocks that match, in block order. */
  function MatchingLogs(f: LogFilter, blocks: seq<RuBlock>): seq<Log>
    requires forall i :: 0 <= i < |blocks| ==> WellFormedBlock(blocks[i])
    decreases |blocks|
  {
    if blocks == [] then [] else MatchingLogs(f, blocks[..|blocks| - 1]) + Keep(f, LogsOf(blocks[|blocks| - 1]))
  }

  function Keep(f: LogFilter, logs: seq<Log>): seq<Log>
    decreases |logs|
  {
    if logs == [] then [] else (if f(logs[0].inner) then [logs[0]] else []) + Keep(f, logs[1..])
  }

  // ---- The logs of one block, as cold storage indexes them ----

  /** A log with the position it was emitted at. */
  datatype Emitted = Emitted(txIndex: nat, txHash: Hash, log: RawLog)

  function EmittedBy(txIndex: nat, txHash: Hash, logs: seq<RawLog>): (r: seq<Emitted>)
    ensures |r| == |logs|
  {
    seq(|logs|, i requires 0 <= i < |logs| => Emitted(txIndex, txHash, logs[i]))
  }

  /** The logs of the first `txs` receipts, one receipt after the other. */
  function Flatten(b: RuBlock, txs: nat): seq<Emitted>
    requires WellFormedBlock(b) && txs <= |b.receipts|
    decreases txs
  {
    if txs == 0 then [] else Flatten(b, txs - 1) + EmittedBy(txs - 1, b.transactions[txs - 1], b.receipts[txs - 1])
  }

  function Annotate(b: RuBlock, e: Emitted, logIndex: nat): Log {
    Log(e.log, b.hash, b.number, b.timestamp, e.txHash, e.txIndex, logIndex, false)
  }

  function LogsOf(b: RuBlock): seq<Log>
    requires WellFormedBlock(b)
  {
    var flat := Flatten(b, |b.receipts|);
    seq(|flat|, i requires 0 <= i < |flat| => Annotate(b, flat[i], i))
  }

  function RemovedFrom(b: RuBlock): RemovedBlock
    requires WellFormedBlock(b)
  {
    RemovedBlock(b.number, b.hash, b.timestamp, LogsOf(b))
  }

  function AllRemoved(blocks: seq<RuBlock>): (r: seq<RemovedBlock>)
    requires forall i :: 0 <= i < |blocks| ==> WellFormedBlock(blocks[i])
    ensures |r| == |blocks|
  {
    seq(|blocks|, i requires 0 <= i < |blocks| => RemovedFrom(blocks[i]))
  }

  function MarkRemoved(logs: seq<Log>): (r: seq<Log>)
    ensures |r| == |logs|
  {
    seq(|logs|, i requires 0 <= i < |logs| => logs[i].(removed := true))
  }

  // ---- Facts ----

  lemma Associative<T>(a: seq<T>, b: seq<T>, c: seq<T>)
    ensures a + (b + c) == a + b + c
  {
  }

  lemma ConsParts<T>(a: seq<T>, b: seq<T>)
    requires a != []
    ensures (a + b)[1..] == a[1..] + b && (a + b)[0] == a[0]
  {
  }

  lemma SnocParts<T>(a: seq<T>, b: seq<T>)
    requires b != []
    ensures (a + b)[..|a + b| - 1] == a + b[..|b| - 1] && (a + b)[|a + b| - 1] == b[|b| - 1]
  {
  }

  lemma {:induction false} KeepAppend(f: LogFilter, a: seq<Log>, b: seq<Log>)
    ensures Keep(f, a + b) == Keep(f, a) + Keep(f, b)
    decreases |a|
  {
    if a == [] {
      assert a + b == b;
    } else {
      KeepAppend(f, a[1..], b);
      ConsParts(a, b);
      var head := if f(a[0].inner) then [a[0]] else [];
      Associative(head, Keep(f, a[1..]), Keep(f, b));
    }
  }

  lemma {:induction false} MatchingLogsAppend(f: LogFilter, a: seq<RuBlock>, b: seq<RuBlock>)
    requires forall i :: 0 <= i < |a| ==> WellFormedBlock(a[i])
    requires forall i :: 0 <= i < |b| ==> WellFormedBlock(b[i])
    ensures MatchingLogs(f, a + b) == MatchingLogs(f, a) + MatchingLogs(f, b)
    decreases |b|
  {
    if b == [] {
      assert a + b == a;
    } else {
      var init := b[..|b| - 1];
      MatchingLogsAppend(f, a, init);
      SnocParts(a, b);
      Associative(MatchingLogs(f, a), MatchingLogs(f, init), Keep(f, LogsOf(b[|b| - 1])));
    }
  }

  // ---- Event histories ----

  /** The chain after one more event. */
  function ApplyEvent(chain: seq<RuBlock>, e: ChainEvent): seq<RuBlock> {
    match e
    case NewBlock(b) => chain + [b]
    case Reorg(n) => if n.commonAncestor + 1 < |chain| then chain[..n.commonAncestor + 1] else chain
  }

  function ApplyEvents(chain: seq<RuBlock>, events: seq<ChainEvent>): seq<RuBlock>
    decreases |events|
  {
    if events == [] then chain else ApplyEvent(ApplyEvents(chain, events[..|events| - 1]), events[|events| - 1])
  }

  /** Blocks numbered by position. */
  ghost predicate IsRuChain(chain: seq<RuBlock>) {
    forall n :: 0 <= n < |chain| ==> chain[n].number == n && WellFormedBlock(chain[n])
  }

  /** An event that fits the chain it happens on: the next block, or a cut that reports exactly what it removes. */
  ghost predicate Fits(chain: seq<RuBlock>, e: ChainEvent) {
    && IsRuChain(chain)
    && match e
       case NewBlock(b) => b.number == |chain| && WellFormedBlock(b)
       case Reorg(n) => n.commonAncestor + 1 < |chain| && n.removedBlocks == AllRemoved(chain[n.commonAncestor + 1..])
  }

  ghost predicate History(chain: seq<RuBlock>, events: seq<ChainEvent>)
    decreases |events|
  {
    IsRuChain(chain) &&
    (events != [] ==>
      && History(chain, events[..|events| - 1])
      && Fits(ApplyEvents(chain, events[..|events| - 1]), events[|events| - 1]))
  }

  lemma {:induction false} HistoryChain(chain: seq<RuBlock>, events: seq<ChainEvent>)
    requires History(chain, events)
    ensures IsRuChain(ApplyEvents(chain, events))
    decreases |events|
  {
    if events != [] {
      HistoryChain(chain, events[..|events| - 1]);
    }
  }

  lemma {:induction false} HistoryAppend(chain: seq<RuBlock>, a: seq<ChainEvent>, b: seq<ChainEvent>)
    requires History(chain, a) && History(ApplyEvents(chain, a), b)
    ensures History(chain, a + b) && ApplyEvents(chain, a + b) == ApplyEvents(ApplyEvents(chain, a), b)
    decreases |b|
  {
    if b == [] {
      assert a + b == a;
    } else {
      HistoryAppend(chain, a, b[..|b| - 1]);
      assert (a + b)[..|a + b| - 1] == a + b[..|b| - 1];
    }
  }

  function ReorgOf(e: ChainEvent): seq<ReorgNotification> {
    if e.Reorg? then [e.reorg] else []
  }

  function ReorgsOf(events: seq<ChainEvent>): seq<ReorgNotification>
    decreases |events|
  {
    if events == [] then []
    else
      var n := |events| - 1;
      ReorgsOf(events[..n]) + ReorgOf(events[n])
  }

  lemma {:induction false} ReorgsOfAppend(a: seq<ChainEvent>, b: seq<ChainEvent>)
    ensures ReorgsOf(a + b) == ReorgsOf(a) + ReorgsOf(b)
    decreases |b|
  {
    if b == [] {
      assert a + b == a;
    } else {
      ReorgsOfAppend(a, b[..|b| - 1]);
      SnocParts(a, b);
      Associative(ReorgsOf(a), ReorgsOf(b[..|b| - 1]), ReorgOf(b[|b| - 1]));
    }
  }
}
