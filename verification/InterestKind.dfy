/** What a log filter or a subscription makes of one event. */
module InterestKind {
  import opened Rollup

  datatype InterestKind = LogInterest(filter: LogFilter) | BlockInterest

  datatype EventBuffer<B> = LogBuffer(logs: seq<Log>) | BlockBuffer(blocks: seq<B>) {
    function Length(): nat {
      if LogBuffer? then |logs| else |blocks|
    }
  }

  function EmptyBuffer<B>(kind: InterestKind): EventBuffer<B> {
    if kind.LogInterest? then LogBuffer([]) else BlockBuffer([])
  }

  ghost predicate SameKind<B>(a: EventBuffer<B>, b: EventBuffer<B>) {
    a.LogBuffer? == b.LogBuffer?
  }

  /** Keep the matching logs of a flattened block, each annotated with its position before filtering. */
  function SelectFrom(f: LogFilter, b: RuBlock, flat: seq<Emitted>, logIndex: nat): seq<Log>
    decreases |flat|
  {
    if flat == [] then [] else
    (if f(flat[0].log) then [Annotate(b, flat[0], logIndex)] else []) + SelectFrom(f, b, flat[1..], logIndex + 1)
  }

  /** Flatten the receipts, enumerate, filter, annotate. */
  function ApplyFilter(f: LogFilter, b: RuBlock): seq<Log>
    requires WellFormedBlock(b)
  {
    SelectFrom(f, b, Flatten(b, |b.receipts|), 0)
  }

  function FilterNotificationForSub(kind: InterestKind, b: RuBlock): EventBuffer<RuBlock>
    requires WellFormedBlock(b)
  {
    if kind.BlockInterest? then BlockBuffer([b]) else LogBuffer(ApplyFilter(kind.filter, b))
  }

  function ReorgLogs(removed: seq<RemovedBlock>): seq<Log>
    decreases |removed|
  {
    if removed == [] then [] else ReorgLogs(removed[..|removed| - 1]) + removed[|removed| - 1].logs
  }

  function FilterReorgForSub(kind: InterestKind, reorg: ReorgNotification): EventBuffer<RuBlock> {
    if kind.BlockInterest? then BlockBuffer([])
    else LogBuffer(MarkRemoved(Keep(kind.filter, ReorgLogs(reorg.removedBlocks))))
  }

  // ---- What the pipeline delivers ----

  lemma {:induction false} SelectIsKeep(f: LogFilter, b: RuBlock, flat: seq<Emitted>, logIndex: nat)
    ensures SelectFrom(f, b, flat, logIndex) ==
            Keep(f, seq(|flat|, i requires 0 <= i < |flat| => Annotate(b, flat[i], logIndex + i)))
    decreases |flat|
  {
    if flat != [] {
      SelectIsKeep(f, b, flat[1..], logIndex + 1);
      var all := seq(|flat|, i requires 0 <= i < |flat| => Annotate(b, flat[i], logIndex + i));
      var rest := seq(|flat| - 1, i requires 0 <= i < |flat| - 1 => Annotate(b, flat[1..][i], logIndex + 1 + i));
      assert all[1..] == rest;
    }
  }

  /** Filtering while streaming gives the matching ones of the block's indexed logs. */
  lemma ApplyFilterIsKeep(f: LogFilter, b: RuBlock)
    requires WellFormedBlock(b)
    ensures ApplyFilter(f, b) == Keep(f, LogsOf(b))
  {
    SelectIsKeep(f, b, Flatten(b, |b.receipts|), 0);
    var flat := Flatten(b, |b.receipts|);
    assert LogsOf(b) == seq(|flat|, i requires 0 <= i < |flat| => Annotate(b, flat[i], 0 + i));
  }

  /** The number of logs in the first `txs` receipts. */
  function LogsBefore(b: RuBlock, txs: nat): nat
    requires txs <= |b.receipts|
    decreases txs
  {
    if txs == 0 then 0 else LogsBefore(b, txs - 1) + |b.receipts[txs - 1]|
  }

  /** Log `k` of receipt `t` sits at position `LogsBefore(t) + k` of the block. */
  lemma {:induction false} FlattenPosition(b: RuBlock, txs: nat, t: nat, k: nat)
    requires WellFormedBlock(b) && t < txs <= |b.receipts| && k < |b.receipts[t]|
    ensures |Flatten(b, txs)| == LogsBefore(b, txs) && LogsBefore(b, t) + k < LogsBefore(b, txs)
    ensures Flatten(b, txs)[LogsBefore(b, t) + k] == Emitted(t, b.transactions[t], b.receipts[t][k])
    decreases txs
  {
    FlattenLength(b, txs);
    FlattenLength(b, txs - 1);
    if t < txs - 1 {
      FlattenPosition(b, txs - 1, t, k);
    }
  }

  lemma {:induction false} FlattenLength(b: RuBlock, txs: nat)
    requires WellFormedBlock(b) && txs <= |b.receipts|
    ensures |Flatten(b, txs)| == LogsBefore(b, txs)
    decreases txs
  {
    if txs > 0 {
      FlattenLength(b, txs - 1);
    }
  }

  /** Every position of the block belongs to exactly one receipt. */
  lemma {:induction false} PositionHasReceipt(b: RuBlock, txs: nat, i: nat) returns (t: nat, k: nat)
    requires WellFormedBlock(b) && txs <= |b.receipts| && i < LogsBefore(b, txs)
    ensures t < txs && k < |b.receipts[t]| && i == LogsBefore(b, t) + k
    decreases txs
  {
    if i >= LogsBefore(b, txs - 1) {
      t, k := txs - 1, i - LogsBefore(b, txs - 1);
    } else {
      t, k := PositionHasReceipt(b, txs - 1, i);
    }
  }

  /** The positions of the matching logs, counted from `base`. */
  function Positions(f: LogFilter, logs: seq<Log>, base: nat): seq<nat>
    decreases |logs|
  {
    if logs == [] then [] else (if f(logs[0].inner) then [base] else []) + Positions(f, logs[1..], base + 1)
  }

  ghost predicate Increasing(positions: seq<nat>) {
    forall i, j :: 0 <= i < j < |positions| ==> positions[i] < positions[j]
  }

  lemma {:induction false} PositionsIncrease(f: LogFilter, logs: seq<Log>, base: nat)
    ensures Increasing(Positions(f, logs, base))
    ensures forall i :: 0 <= i < |Positions(f, logs, base)| ==> base <= Positions(f, logs, base)[i] < base + |logs|
    decreases |logs|
  {
    if logs != [] {
      PositionsIncrease(f, logs[1..], base + 1);
    }
  }

  lemma {:induction false} PositionsPick(f: LogFilter, logs: seq<Log>, base: nat, i: nat)
    requires i < |Positions(f, logs, base)|
    ensures var n := Positions(f, logs, base)[i] - base;
            0 <= n < |logs| && i < |Keep(f, logs)| && Keep(f, logs)[i] == logs[n] && f(logs[n].inner)
    decreases |logs|
  {
    var d := if f(logs[0].inner) then 1 else 0;
    if i >= d {
      PositionsPick(f, logs[1..], base + 1, i - d);
    }
  }

  lemma {:induction false} PositionsComplete(f: LogFilter, logs: seq<Log>, base: nat, n: nat)
    requires n < |logs| && f(logs[n].inner)
    ensures base + n in Positions(f, logs, base)
    decreases |logs|
  {
    if n > 0 {
      PositionsComplete(f, logs[1..], base + 1, n - 1);
    }
  }

  lemma {:induction false} PositionsCount(f: LogFilter, logs: seq<Log>, base: nat)
    ensures |Positions(f, logs, base)| == |Keep(f, logs)|
    decreases |logs|
  {
    if logs != [] {
      PositionsCount(f, logs[1..], base + 1);
    }
  }

  /** `log` says truly where in block `b` it was emitted. */
  ghost predicate EmittedAt(b: RuBlock, log: Log, t: nat, k: nat)
    requires WellFormedBlock(b) && t < |b.receipts| && k < |b.receipts[t]|
  {
    && log.blockHash == b.hash && log.blockNumber == b.number && log.timestamp == b.timestamp && !log.removed
    && log.txIndex == t && log.txHash == b.transactions[t]
    && log.logIndex == LogsBefore(b, t) + k && log.inner == b.receipts[t][k]
  }

  lemma LogAtPosition(b: RuBlock, n: nat) returns (t: nat, k: nat)
    requires WellFormedBlock(b) && n < |LogsOf(b)|
    ensures t < |b.receipts| && k < |b.receipts[t]| && n == LogsBefore(b, t) + k && EmittedAt(b, LogsOf(b)[n], t, k)
  {
    FlattenLength(b, |b.receipts|);
    t, k := PositionHasReceipt(b, |b.receipts|, n);
    FlattenPosition(b, |b.receipts|, t, k);
  }

  /** Each delivered log is a matching one, and says which transaction emitted it and where in the block. */
  lemma DeliveredLogIsExact(f: LogFilter, b: RuBlock, i: nat) returns (t: nat, k: nat)
    requires WellFormedBlock(b) && i < |ApplyFilter(f, b)|
    ensures t < |b.receipts| && k < |b.receipts[t]| && f(b.receipts[t][k]) && EmittedAt(b, ApplyFilter(f, b)[i], t, k)
  {
    ApplyFilterIsKeep(f, b);
    PositionsCount(f, LogsOf(b), 0);
    PositionsPick(f, LogsOf(b), 0, i);
    t, k := LogAtPosition(b, Positions(f, LogsOf(b), 0)[i]);
  }

  /** Every matching log is delivered, and the deliveries are in block order. */
  lemma MatchingLogIsDelivered(f: LogFilter, b: RuBlock, t: nat, k: nat) returns (i: nat)
    requires WellFormedBlock(b) && t < |b.receipts| && k < |b.receipts[t]| && f(b.receipts[t][k])
    ensures i < |ApplyFilter(f, b)| && EmittedAt(b, ApplyFilter(f, b)[i], t, k)
  {
    var n := LogsBefore(b, t) + k;
    FlattenPosition(b, |b.receipts|, t, k);
    ApplyFilterIsKeep(f, b);
    PositionsCount(f, LogsOf(b), 0);
    PositionsComplete(f, LogsOf(b), 0, n);
    i :| i < |Positions(f, LogsOf(b), 0)| && Positions(f, LogsOf(b), 0)[i] == n;
    PositionsPick(f, LogsOf(b), 0, i);
  }

  lemma DeliveriesAreInBlockOrder(f: LogFilter, b: RuBlock, i: nat, j: nat)
    requires WellFormedBlock(b) && i < j < |ApplyFilter(f, b)|
    ensures ApplyFilter(f, b)[i].logIndex < ApplyFilter(f, b)[j].logIndex
  {
    ApplyFilterIsKeep(f, b);
    PositionsCount(f, LogsOf(b), 0);
    PositionsIncrease(f, LogsOf(b), 0);
    PositionsPick(f, LogsOf(b), 0, i);
    PositionsPick(f, LogsOf(b), 0, j);
  }
}
