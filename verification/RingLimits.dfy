/** What the 25-entry ring forgets, and exactly when forgetting it does not matter to a polling client. */
module RingLimits {
  import opened Wrappers
  import opened Host
  import opened Rollup
  import opened Node
  import opened FilterPolls

  // ---- What is forgotten ----

  /** The number of events before the `keep`-th last reorg; 0 if there are fewer reorgs. */
  function EarlyLength(events: seq<ChainEvent>, keep: nat): (n: nat)
    ensures n <= |events|
    decreases |events|
  {
    if keep == 0 then |events|
    else if events == [] then 0
    else EarlyLength(events[..|events| - 1], if events[|events| - 1].Reorg? then keep - 1 else keep)
  }

  /** Everything up to the oldest reorg the ring still holds. */
  function ForgottenEvents(events: seq<ChainEvent>): seq<ChainEvent> {
    events[..EarlyLength(events, MAX_REORG_ENTRIES)]
  }

  function RememberedEvents(events: seq<ChainEvent>): seq<ChainEvent> {
    events[EarlyLength(events, MAX_REORG_ENTRIES)..]
  }

  lemma OneMoreEvent(events: seq<ChainEvent>, e: ChainEvent)
    ensures ReorgsOf(events + [e]) == ReorgsOf(events) + ReorgOf(e)
  {
    assert (events + [e])[..|events|] == events;
  }

  lemma EarlyUnfolds(events: seq<ChainEvent>, keep: nat)
    requires keep > 0 && events != []
    ensures var m := |events| - 1;
            var less := if events[m].Reorg? then keep - 1 else keep;
            var n := EarlyLength(events[..m], less);
            && EarlyLength(events, keep) == n && events[..n] == events[..m][..n]
            && ReorgsOf(events) == ReorgsOf(events[..m]) + ReorgOf(events[m])
            && ReorgsOf(events[n..]) == ReorgsOf(events[..m][n..]) + ReorgOf(events[m])
  {
    var m := |events| - 1;
    var n := EarlyLength(events, keep);
    assert events[n..] == events[..m][n..] + [events[m]];
    OneMoreEvent(events[..m][n..], events[m]);
  }

  /** What is remembered are the newest `keep` reorgs, from the oldest of them on. */
  lemma {:induction false} EarlySplit(events: seq<ChainEvent>, keep: nat)
    ensures var n := EarlyLength(events, keep);
            && ReorgsOf(events[n..]) == LastN(ReorgsOf(events), keep)
            && (keep > 0 && n > 0 ==> n < |events| && events[n].Reorg?)
            && (|ReorgsOf(events)| < keep ==> n == 0)
            && (|ReorgsOf(events)| == keep ==> ReorgsOf(events[..n]) == [])
    decreases |events|
  {
    if keep == 0 || events == [] {
      EarlyEnds(events, keep);
    } else {
      var m := |events| - 1;
      var less := if events[m].Reorg? then keep - 1 else keep;
      hide ReorgsOf, EarlyLength;
      EarlySplit(events[..m], less);
      EarlyUnfolds(events, keep);
      if events[m].Reorg? {
        LastNSnoc(ReorgsOf(events[..m]), events[m].reorg, keep);
      } else {
        assert ReorgsOf(events[..m]) + [] == ReorgsOf(events[..m]);
      }
    }
  }

  lemma EarlyEnds(events: seq<ChainEvent>, keep: nat)
    requires keep == 0 || events == []
    ensures var n := EarlyLength(events, keep);
            && n == |events| && ReorgsOf(events[n..]) == [] == LastN(ReorgsOf(events), keep)
            && (|ReorgsOf(events)| == keep ==> ReorgsOf(events[..n]) == [])
  {
    assert events[..|events|] == events && events[|events|..] == [];
  }

  lemma LastNSnoc<T>(s: seq<T>, x: T, n: nat)
    requires n > 0
    ensures LastN(s, n - 1) + [x] == LastN(s + [x], n)
  {
  }

  lemma {:induction false} HistorySplit(chain: seq<RuBlock>, a: seq<ChainEvent>, b: seq<ChainEvent>)
    requires History(chain, a + b)
    ensures History(chain, a) && History(ApplyEvents(chain, a), b)
    ensures ApplyEvents(chain, a + b) == ApplyEvents(ApplyEvents(chain, a), b)
    decreases |b|
  {
    if b == [] {
      assert a + b == a;
      HistoryChain(chain, a);
    } else {
      assert (a + b)[..|a + b| - 1] == a + b[..|b| - 1];
      HistorySplit(chain, a, b[..|b| - 1]);
    }
  }

  // ---- What the remembered reorgs take back ----

  lemma {:induction false} ReceiveMarked(client: multiset<Log>, logs: seq<Log>)
    requires Live(logs)
    ensures Receive(client, MarkRemoved(logs)) == client - multiset(logs)
    decreases |logs|
  {
    if logs != [] {
      var n := |logs| - 1;
      ReceiveMarked(client, logs[..n]);
      assert MarkRemoved(logs)[..n] == MarkRemoved(logs[..n]) && logs == logs[..n] + [logs[n]];
      assert Restored(MarkRemoved(logs)[n]) == logs[n];
      MinusBoth(client, multiset(logs[..n]), multiset{logs[n]});
    }
  }

  lemma MinusBoth(a: multiset<Log>, b: multiset<Log>, c: multiset<Log>)
    ensures a - b - c == a - (b + c)
  {
  }

  /** `logs` are what a filter takes back that goes from `start` down to `p` on the chain `mid`. */
  ghost predicate TakesBack(f: LogFilter, mid: seq<RuBlock>, start: nat, p: nat, removed: seq<Log>, logs: seq<Log>) {
    && IsRuChain(mid) && p <= start && p <= |mid| && Live(logs)
    && removed == MarkRemoved(logs) && multiset(logs) == multiset(MatchingLogs(f, mid[p..Min(start, |mid|)]))
  }

  lemma NoLogs(f: LogFilter)
    ensures MatchingLogs(f, []) == [] && MarkRemoved([]) == []
  {
  }

  /** One reorg from a filter that may stand above the tip. */
  lemma FirstReorgTakesBack(f: LogFilter, mid: seq<RuBlock>, start: nat, cut: nat) returns (logs: seq<Log>)
    requires IsRuChain(mid) && cut <= |mid|
    ensures TakesBack(f, mid, start, Min(start, cut), RemovedBelow(f, start, AllRemoved(mid[cut..])), logs)
  {
    hide MatchingLogs, MarkRemoved, RemovedBelow;
    var removed := mid[cut..];
    RemovedBelowIsMatching(f, removed, cut, start);
    NoLogs(f);
    if start <= cut {
      logs := [];
      assert removed[..0] == [] && mid[start..Min(start, |mid|)] == [];
    } else {
      var from := Min(start, |mid|);
      logs := MatchingLogs(f, mid[cut..from]);
      assert removed[..Min(start - cut, |removed|)] == mid[cut..from];
      MatchingIsLive(f, mid[cut..from]);
    }
  }

  lemma NextReorgTakesBack(f: LogFilter, mid: seq<RuBlock>, start: nat, p: nat, removed: seq<Log>, logs: seq<Log>,
                           chain: seq<RuBlock>, cut: nat)
    returns (more: seq<Log>)
    requires TakesBack(f, mid, start, p, removed, logs) && IsRuChain(chain) && p <= |chain| && cut <= |chain| && chain[..p] == mid[..p]
    ensures TakesBack(f, mid, start, Min(p, cut), removed + RemovedBelow(f, p, AllRemoved(chain[cut..])), more)
  {
    hide MatchingLogs, MarkRemoved, RemovedBelow;
    ReorgTakesBack(f, chain, p, cut);
    if p <= cut {
      more := logs;
      assert removed + [] == removed;
    } else {
      var from := Min(start, |mid|);
      var extra := MatchingLogs(f, chain[cut..p]);
      assert chain[cut..p] == chain[..p][cut..p] == mid[cut..p];
      MatchingIsLive(f, chain[cut..p]);
      MarkRemovedAppend(logs, extra);
      assert mid[cut..from] == mid[cut..p] + mid[p..from];
      MatchingLogsAppend(f, mid[cut..p], mid[p..from]);
      more := logs + extra;
    }
  }

  /** The filter's position before and after, and what happened below it. */
  ghost predicate Standing(mid: seq<RuBlock>, start: nat, late: seq<ChainEvent>) {
    History(mid, late) && (start <= |mid| || (late != [] && late[0].Reorg?))
  }

  lemma LateUnfolds(mid: seq<RuBlock>, start: nat, late: seq<ChainEvent>)
    requires Standing(mid, start, late) && late != []
    ensures var n := |late| - 1;
            && History(mid, late[..n]) && Fits(ApplyEvents(mid, late[..n]), late[n])
            && (Standing(mid, start, late[..n]) || (n == 0 && late[0].Reorg?))
            && ReorgsOf(late) == ReorgsOf(late[..n]) + ReorgOf(late[n])
            && ApplyEvents(mid, late) == ApplyEvent(ApplyEvents(mid, late[..n]), late[n])
  {
    var n := |late| - 1;
    if n > 0 {
      assert late[..n][0] == late[0];
    }
  }

  /** All of what the remembered reorgs take back: the matching logs from the rewound position up, of the chain they start from. */
  lemma {:induction false} RememberedTakeBack(f: LogFilter, mid: seq<RuBlock>, start: nat, late: seq<ChainEvent>) returns (logs: seq<Log>)
    requires Standing(mid, start, late)
    ensures var p := Rewound(start, ReorgsOf(late));
            && TakesBack(f, mid, start, p, RemovedLogs(f, start, ReorgsOf(late)), logs)
            && p <= |ApplyEvents(mid, late)| && ApplyEvents(mid, late)[..p] == mid[..p]
    decreases |late|
  {
    if late == [] {
      logs := [];
      assert mid[start..start] == [];
    } else {
      var n := |late| - 1;
      var e := late[n];
      var reorgs := ReorgsOf(late[..n]);
      var chain := ApplyEvents(mid, late[..n]);
      LateUnfolds(mid, start, late);
      hide History, ApplyEvents, ReorgsOf, RemovedLogs, Rewound, TakesBack, RemovedBelow;
      if Standing(mid, start, late[..n]) {
        logs := RememberedTakeBack(f, mid, start, late[..n]);
        logs := StepTakesBack(f, mid, start, reorgs, logs, chain, e);
      } else {
        logs := FirstTakesBack(f, mid, start, late);
      }
    }
  }

  lemma FirstTakesBack(f: LogFilter, mid: seq<RuBlock>, start: nat, late: seq<ChainEvent>) returns (logs: seq<Log>)
    requires |late| == 1 && late[0].Reorg? && Fits(ApplyEvents(mid, late[..0]), late[0]) && start > |mid|
    requires ReorgsOf(late) == ReorgsOf(late[..0]) + ReorgOf(late[0])
    requires ApplyEvents(mid, late) == ApplyEvent(ApplyEvents(mid, late[..0]), late[0])
    ensures var p := Rewound(start, ReorgsOf(late));
            && TakesBack(f, mid, start, p, RemovedLogs(f, start, ReorgsOf(late)), logs)
            && p <= |ApplyEvents(mid, late)| && ApplyEvents(mid, late)[..p] == mid[..p]
  {
    hide TakesBack, MatchingLogs, RemovedBelow, MarkRemoved, AllRemoved;
    var r := late[0].reorg;
    assert late[..0] == [] && ApplyEvents(mid, []) == mid && ReorgsOf([]) == [] && [] + [r] == [r];
    logs := FirstReorgTakesBack(f, mid, start, r.commonAncestor + 1);
    assert [r][..0] == [] && Rewound(start, []) == start && RemovedLogs(f, start, []) == [];
    assert RemovedLogs(f, start, [r]) == [] + RemovedBelow(f, start, r.removedBlocks);
    assert [] + RemovedBelow(f, start, r.removedBlocks) == RemovedBelow(f, start, r.removedBlocks);
  }

  lemma StepTakesBack(f: LogFilter, mid: seq<RuBlock>, start: nat, reorgs: seq<ReorgNotification>, logs: seq<Log>,
                      chain: seq<RuBlock>, e: ChainEvent)
    returns (more: seq<Log>)
    requires Fits(chain, e) && TakesBack(f, mid, start, Rewound(start, reorgs), RemovedLogs(f, start, reorgs), logs)
    requires Rewound(start, reorgs) <= |chain| && chain[..Rewound(start, reorgs)] == mid[..Rewound(start, reorgs)]
    ensures var p := Rewound(start, reorgs + ReorgOf(e));
            && TakesBack(f, mid, start, p, RemovedLogs(f, start, reorgs + ReorgOf(e)), more)
            && p <= |ApplyEvent(chain, e)| && ApplyEvent(chain, e)[..p] == mid[..p]
  {
    var p := Rewound(start, reorgs);
    assert p <= |mid|;
    hide TakesBack, RemovedLogs, RemovedBelow;
    RewoundByOne(start, reorgs, e);
    EventKeepsPrefix(chain, p, e);
    if e.Reorg? {
      more := NextReorgTakesBack(f, mid, start, p, RemovedLogs(f, start, reorgs), logs, chain, e.reorg.commonAncestor + 1);
      RemovedByOne(f, start, reorgs, e.reorg);
      ShorterPrefix(chain, mid, p, Rewound(start, reorgs + ReorgOf(e)));
    } else {
      more := logs;
      assert reorgs + [] == reorgs;
    }
  }

  lemma RemovedByOne(f: LogFilter, start: nat, reorgs: seq<ReorgNotification>, r: ReorgNotification)
    ensures RemovedLogs(f, start, reorgs + [r]) ==
            RemovedLogs(f, start, reorgs) + RemovedBelow(f, Rewound(start, reorgs), r.removedBlocks)
  {
    assert (reorgs + [r])[..|reorgs|] == reorgs;
  }

  // ---- Logs know their block ----

  lemma {:induction false} KeptLogsAreOfBlock(f: LogFilter, logs: seq<Log>, number: nat)
    requires forall i :: 0 <= i < |logs| ==> logs[i].blockNumber == number
    ensures forall log :: log in Keep(f, logs) ==> log.blockNumber == number
    decreases |logs|
  {
    if logs != [] {
      KeptLogsAreOfBlock(f, logs[1..], number);
    }
  }

  lemma {:induction false} MatchingNumbers(f: LogFilter, blocks: seq<RuBlock>, low: nat, high: nat)
    requires forall i :: 0 <= i < |blocks| ==> WellFormedBlock(blocks[i]) && low <= blocks[i].number < high
    ensures forall log :: log in MatchingLogs(f, blocks) ==> low <= log.blockNumber < high
    decreases |blocks|
  {
    if blocks != [] {
      var n := |blocks| - 1;
      MatchingNumbers(f, blocks[..n], low, high);
      KeptLogsAreOfBlock(f, LogsOf(blocks[n]), blocks[n].number);
    }
  }

  ghost predicate Below(logs: multiset<Log>, n: nat) {
    forall log :: log in logs ==> log.blockNumber < n
  }

  ghost predicate AtOrAbove(logs: multiset<Log>, n: nat) {
    forall log :: log in logs ==> log.blockNumber >= n
  }

  lemma SliceNumbers(f: LogFilter, chain: seq<RuBlock>, low: nat, high: nat)
    requires IsRuChain(chain) && low <= high <= |chain|
    ensures Below(multiset(MatchingLogs(f, chain[low..high])), high) && AtOrAbove(multiset(MatchingLogs(f, chain[low..high])), low)
  {
    MatchingNumbers(f, chain[low..high], low, high);
  }

  lemma SeparateBelow(low: multiset<Log>, high: multiset<Log>, kept: multiset<Log>, taken: multiset<Log>, n: nat)
    requires Below(low, n) && Below(kept, n) && AtOrAbove(high, n) && AtOrAbove(taken, n)
    ensures (low + high) - taken == kept <==> low == kept && high <= taken
  {
    forall log: Log
      ensures log.blockNumber < n ==> high[log] == 0 && taken[log] == 0
      ensures log.blockNumber >= n ==> low[log] == 0 && kept[log] == 0
    {
    }
    if (low + high) - taken == kept {
      forall log: Log
        ensures low[log] == kept[log] && high[log] <= taken[log]
      {
        assert ((low + high) - taken)[log] == kept[log];
      }
    }
  }

  // ---- The exact condition ----

  /**
   * Between the last poll and the oldest remembered reorg the chain went from `chain` to `mid`: below the position `p`
   * the matching logs are the same, and what the client holds from `p` on was still there to be taken back.
   */
  ghost predicate SameLogs(f: LogFilter, chain: seq<RuBlock>, mid: seq<RuBlock>, start: nat, p: nat) {
    && IsRuChain(chain) && IsRuChain(mid) && p <= start <= |chain| && p <= |mid|
    && multiset(MatchingLogs(f, chain[..p])) == multiset(MatchingLogs(f, mid[..p]))
    && multiset(MatchingLogs(f, chain[p..start])) <= multiset(MatchingLogs(f, mid[p..Min(start, |mid|)]))
  }

  /** The remembered reorgs are enough for a filter that stands at `start`. */
  ghost predicate RingSuffices(f: LogFilter, start: nat, chain: seq<RuBlock>, events: seq<ChainEvent>) {
    SameLogs(f, chain, ApplyEvents(chain, ForgottenEvents(events)), start, Rewound(start, ReorgsOf(RememberedEvents(events))))
  }

  /** Taking back leaves the right logs exactly when the forgotten part did not touch them. */
  lemma TakingBackIsExactIff(f: LogFilter, chain: seq<RuBlock>, mid: seq<RuBlock>, start: nat, p: nat, removed: seq<Log>, logs: seq<Log>)
    requires IsRuChain(chain) && start <= |chain| && TakesBack(f, mid, start, p, removed, logs)
    ensures Receive(multiset(MatchingLogs(f, chain[..start])), removed) == multiset(MatchingLogs(f, mid[..p])) <==>
            SameLogs(f, chain, mid, start, p)
  {
    hide MatchingLogs, Receive, MarkRemoved;
    ReceiveMarked(multiset(MatchingLogs(f, chain[..start])), logs);
    MatchingSplits(f, chain, p, start);
    assert chain[0..p] == chain[..p] && mid[0..p] == mid[..p];
    SliceNumbers(f, chain, 0, p);
    SliceNumbers(f, mid, 0, p);
    SliceNumbers(f, chain, p, start);
    SliceNumbers(f, mid, p, Min(start, |mid|));
    hide MatchingLogs, Receive;
    SeparateBelow(multiset(MatchingLogs(f, chain[..p])), multiset(MatchingLogs(f, chain[p..start])),
                  multiset(MatchingLogs(f, mid[..p])), multiset(logs), p);
  }

  /** Reading forward neither repairs nor breaks anything. */
  lemma ScanKeepsExactIff(f: LogFilter, client: multiset<Log>, removed: seq<Log>, chain: seq<RuBlock>, start: nat, now: nat, latest: nat)
    requires IsRuChain(chain) && start <= |chain| && latest < |chain|
    ensures var (fs1, delivered) := ScanLogs(f, start, removed, now, chain, latest);
            && fs1.lastPoll == now && fs1.nextStart > latest
            && (Exact(f, Receive(client, delivered), chain, fs1.nextStart) <==> Exact(f, Receive(client, removed), chain, start))
  {
    hide MatchingLogs, Receive;
    if start <= latest {
      ReceiveAppend(client, removed, MatchingLogs(f, chain[start..latest + 1]));
      ForwardIff(f, Receive(client, removed), chain, start, latest + 1);
    }
  }

  lemma ForwardIff(f: LogFilter, held: multiset<Log>, chain: seq<RuBlock>, start: nat, end: nat)
    requires IsRuChain(chain) && start <= end <= |chain|
    ensures Receive(held, MatchingLogs(f, chain[start..end])) == multiset(MatchingLogs(f, chain[..end])) <==>
            held == multiset(MatchingLogs(f, chain[..start]))
  {
    hide MatchingLogs, Receive;
    MatchingSplits(f, chain, start, end);
    ReceiveLive(held, MatchingLogs(f, chain[start..end]));
    Cancels(held, multiset(MatchingLogs(f, chain[..start])), multiset(MatchingLogs(f, chain[start..end])));
  }

  lemma Cancels(a: multiset<Log>, b: multiset<Log>, both: multiset<Log>)
    ensures a + both == b + both <==> a == b
  {
    if a + both == b + both {
      forall log: Log
        ensures a[log] == b[log]
      {
        assert (a + both)[log] == (b + both)[log];
      }
    }
  }

  lemma SplitEvents(chain: seq<RuBlock>, start: nat, events: seq<ChainEvent>)
    requires History(chain, events) && start <= |chain|
    ensures var mid := ApplyEvents(chain, ForgottenEvents(events));
            && History(chain, ForgottenEvents(events)) && Standing(mid, start, RememberedEvents(events))
            && ApplyEvents(mid, RememberedEvents(events)) == ApplyEvents(chain, events)
            && ReorgsOf(RememberedEvents(events)) == LastN(ReorgsOf(events), MAX_REORG_ENTRIES)
  {
    hide ReorgsOf, EarlyLength, History, ApplyEvents;
    var n := EarlyLength(events, MAX_REORG_ENTRIES);
    EarlySplit(events, MAX_REORG_ENTRIES);
    assert events[..n] + events[n..] == events;
    HistorySplit(chain, events[..n], events[n..]);
    if n == 0 {
      NothingForgotten(chain, events);
    } else {
      assert events[n..][0] == events[n];
    }
  }

  lemma NothingForgotten(chain: seq<RuBlock>, events: seq<ChainEvent>)
    ensures ApplyEvents(chain, events[..0]) == chain
  {
  }

  lemma RewoundExactIff(f: LogFilter, client: multiset<Log>, chain: seq<RuBlock>, start: nat, events: seq<ChainEvent>)
    requires History(chain, events) && Exact(f, client, chain, start)
    ensures var recent := LastN(ReorgsOf(events), MAX_REORG_ENTRIES);
            && Rewound(start, recent) <= |ApplyEvents(chain, events)| && IsRuChain(ApplyEvents(chain, events))
            && (Exact(f, Receive(client, RemovedLogs(f, start, recent)), ApplyEvents(chain, events), Rewound(start, recent)) <==>
                RingSuffices(f, start, chain, events))
  {
    var mid, late := ApplyEvents(chain, ForgottenEvents(events)), RememberedEvents(events);
    var recent := LastN(ReorgsOf(events), MAX_REORG_ENTRIES);
    HistoryChain(chain, events);
    SplitEvents(chain, start, events);
    HistoryChain(chain, ForgottenEvents(events));
    var logs := RememberedTakeBack(f, mid, start, late);
    hide History, ApplyEvents, ReorgsOf, RemovedLogs, Rewound, Receive, MatchingLogs, ForgottenEvents, RememberedEvents, SameLogs;
    TakingBackIsExactIff(f, chain, mid, start, Rewound(start, recent), RemovedLogs(f, start, recent), logs);
  }

  /**
   * For every history, with any number of reorgs: one poll makes the client exact again if and only if the ring
   * suffices. The filter's cursor and the ring are in order in any case.
   */
  lemma PollIsExactIff(f: LogFilter, fs: FilterState, feed: Feed, chain: seq<RuBlock>, client: multiset<Log>, round: Round)
    requires UpToDate(f, fs, feed, chain, client) && History(chain, round.events)
    requires round.latest < |ApplyEvents(chain, round.events)| && IsRuChain(ApplyEvents(chain, round.events))
    ensures var after := ApplyEvents(chain, round.events);
            var feed1 := SendEvents(feed, round.events);
            var (fs1, delivered) := PollLogs(f, fs, feed1, after, round.latest);
            && fs1.nextStart > round.latest
            && (UpToDate(f, fs1, feed1.(now := feed1.now + 1), after, Receive(client, delivered)) <==>
                RingSuffices(f, fs.nextStart, chain, round.events))
  {
    hide Receive, RemovedLogs, Rewound, MatchingLogs, ReorgsSince, ApplyEvents, SendEvents, History, ReorgsOf, RingSuffices;
    var after := ApplyEvents(chain, round.events);
    var feed1 := SendEvents(feed, round.events);
    var recent := LastN(ReorgsOf(round.events), MAX_REORG_ENTRIES);
    RingKeepsNewest(feed, fs.lastPoll, round.events);
    RewoundExactIff(f, client, chain, fs.nextStart, round.events);
    ScanKeepsExactIff(f, client, RemovedLogs(f, fs.nextStart, recent), after, Rewound(fs.nextStart, recent), feed1.now + 1, round.latest);
    NothingNewerThanNow(feed1);
  }

  // ---- Conditions that are easier to check ----

  lemma SameChainSameLogs(f: LogFilter, chain: seq<RuBlock>, mid: seq<RuBlock>, start: nat, p: nat)
    requires IsRuChain(chain) && IsRuChain(mid) && p <= start <= |chain| && start <= |mid|
    requires multiset(MatchingLogs(f, chain[..start])) == multiset(MatchingLogs(f, mid[..start]))
    ensures SameLogs(f, chain, mid, start, p)
  {
    hide MatchingLogs;
    MatchingSplits(f, chain, p, start);
    MatchingSplits(f, mid, p, start);
    assert chain[0..p] == chain[..p] && mid[0..p] == mid[..p];
    SliceNumbers(f, chain, 0, p);
    SliceNumbers(f, mid, 0, p);
    SliceNumbers(f, chain, p, start);
    SliceNumbers(f, mid, p, start);
    EqualParts(multiset(MatchingLogs(f, chain[..p])), multiset(MatchingLogs(f, chain[p..start])),
               multiset(MatchingLogs(f, mid[..p])), multiset(MatchingLogs(f, mid[p..start])), p);
  }

  lemma EqualParts(low: multiset<Log>, high: multiset<Log>, low1: multiset<Log>, high1: multiset<Log>, n: nat)
    requires Below(low, n) && Below(low1, n) && AtOrAbove(high, n) && AtOrAbove(high1, n) && low + high == low1 + high1
    ensures low == low1 && high == high1
  {
    forall log: Log
      ensures low[log] == low1[log] && high[log] == high1[log]
    {
      assert (low + high)[log] == (low1 + high1)[log];
    }
  }

  /** Nothing the filter had delivered was removed while the ring was forgetting: any number of reorgs is harmless. */
  lemma HarmlessReorgsSuffice(f: LogFilter, start: nat, chain: seq<RuBlock>, events: seq<ChainEvent>)
    requires History(chain, events) && start <= |chain|
    requires var forgotten := ReorgsOf(ForgottenEvents(events));
             Rewound(start, forgotten) == start && RemovedLogs(f, start, forgotten) == []
    ensures RingSuffices(f, start, chain, events)
  {
    var early := ForgottenEvents(events);
    var mid := ApplyEvents(chain, early);
    var client := multiset(MatchingLogs(f, chain[..start]));
    SplitEvents(chain, start, events);
    HistoryChain(chain, early);
    LazyRemovalIsExact(f, client, chain, start, early);
    var logs := RememberedTakeBack(f, mid, start, RememberedEvents(events));
    assert Receive(client, []) == client;
    hide History, ApplyEvents, ReorgsOf, RemovedLogs, Rewound, Receive, MatchingLogs, ForgottenEvents, RememberedEvents, SameLogs;
    SameChainSameLogs(f, chain, mid, start, Rewound(start, ReorgsOf(RememberedEvents(events))));
  }

  /** In particular, at most 25 reorgs always suffice. */
  lemma FewReorgsSuffice(f: LogFilter, start: nat, chain: seq<RuBlock>, events: seq<ChainEvent>)
    requires History(chain, events) && start <= |chain| && |ReorgsOf(events)| <= MAX_REORG_ENTRIES
    ensures RingSuffices(f, start, chain, events)
  {
    var n := EarlyLength(events, MAX_REORG_ENTRIES);
    EarlySplit(events, MAX_REORG_ENTRIES);
    if n == 0 {
      assert events[..0] == [];
    }
    assert ReorgsOf(ForgottenEvents(events)) == [];
    HarmlessReorgsSuffice(f, start, chain, events);
  }

  /** A round a poll can follow and be exact after: the events fit, the ring suffices, and `latest` names a stored block. */
  ghost predicate GoodRound(f: LogFilter, start: nat, chain: seq<RuBlock>, round: Round) {
    && History(chain, round.events) && round.latest < |ApplyEvents(chain, round.events)|
    && RingSuffices(f, start, chain, round.events)
  }

  /** After a good round the client is exact, for the whole chain if the poll read the tip. */
  lemma PollIsExact(f: LogFilter, fs: FilterState, feed: Feed, chain: seq<RuBlock>, client: multiset<Log>, round: Round)
    requires UpToDate(f, fs, feed, chain, client) && GoodRound(f, fs.nextStart, chain, round)
    requires IsRuChain(ApplyEvents(chain, round.events))
    ensures var after := ApplyEvents(chain, round.events);
            var feed1 := SendEvents(feed, round.events);
            var (fs1, delivered) := PollLogs(f, fs, feed1, after, round.latest);
            && UpToDate(f, fs1, feed1.(now := feed1.now + 1), after, Receive(client, delivered))
            && fs1.nextStart > round.latest
            && (round.latest + 1 == |after| ==>
                 Receive(client, delivered) == multiset(MatchingLogs(f, after)) && fs1.nextStart == |after|)
  {
    hide Receive, RemovedLogs, Rewound, MatchingLogs, ReorgsSince, ApplyEvents, SendEvents, History, ReorgsOf, RingSuffices;
    var after := ApplyEvents(chain, round.events);
    PollIsExactIff(f, fs, feed, chain, client, round);
    var (fs1, delivered) := PollLogs(f, fs, SendEvents(feed, round.events), after, round.latest);
    if round.latest + 1 == |after| {
      ExactAtTip(f, Receive(client, delivered), after, fs1.nextStart);
    }
  }

  // ---- Block filters ----

  /** The blocks from `first` to below `start` are the same on both chains. */
  ghost predicate SameBlocks(chain: seq<RuBlock>, after: seq<RuBlock>, first: nat, start: nat) {
    start <= |chain| && start <= |after| && forall n :: first <= n < start ==> after[n].hash == chain[n].hash
  }

  lemma BlockScanIsExactIff(chain: seq<RuBlock>, after: seq<RuBlock>, known: map<nat, Hash>, first: nat,
                            nextStart: nat, start: nat, now: nat, latest: nat)
    requires KnowsBlocks(known, chain, first, nextStart) && latest < |after|
    requires start <= nextStart && start <= |after|
    ensures var (fs1, hashes) := ScanBlocks(start, now, after, latest);
            && fs1.lastPoll == now && fs1.nextStart == Max(start, latest + 1) && |hashes| == fs1.nextStart - start
            && (KnowsBlocks(Learn(known, hashes, fs1.nextStart - |hashes|), after, first, fs1.nextStart) <==>
                SameBlocks(chain, after, first, start))
  {
    hide Learn;
    var (fs1, hashes) := ScanBlocks(start, now, after, latest);
    var learnt := Learn(known, hashes, fs1.nextStart - |hashes|);
    forall n | first <= n < fs1.nextStart
      ensures n in learnt && learnt[n] == if n < start then chain[n].hash else after[n].hash
    {
      LearnAt(known, hashes, fs1.nextStart - |hashes|, n);
      assert n >= start ==> hashes[n - start] == after[start..latest + 1][n - start].hash;
    }
    if KnowsBlocks(learnt, after, first, fs1.nextStart) {
      forall n | first <= n < start
        ensures after[n].hash == chain[n].hash
      {
        assert learnt[n] == after[n].hash;
      }
    }
  }

  lemma RewoundStaysBelow(chain: seq<RuBlock>, start: nat, events: seq<ChainEvent>)
    requires History(chain, events) && start <= |chain|
    ensures var p := Rewound(start, LastN(ReorgsOf(events), MAX_REORG_ENTRIES));
            p <= start && p <= |ApplyEvents(chain, events)|
  {
    SplitEvents(chain, start, events);
    hide Rewound, ApplyEvents, History, ReorgsOf, RemovedLogs, MatchingLogs, ForgottenEvents, RememberedEvents;
    var logs := RememberedTakeBack(_ => true, ApplyEvents(chain, ForgottenEvents(events)), start, RememberedEvents(events));
  }

  /** Between polls of a block filter: the client knows the hashes below `nextStart`, and the ring holds nothing unseen. */
  ghost predicate BlocksUpToDate(fs: FilterState, feed: Feed, chain: seq<RuBlock>, known: map<nat, Hash>, first: nat) {
    && KnowsBlocks(known, chain, first, fs.nextStart)
    && RingOk(feed) && fs.lastPoll <= feed.now && SplitAt(feed.ring, fs.lastPoll, [])
  }

  /**
   * For every history: a poll delivers the hashes from the position that the remembered reorgs rewind to, up to `latest`,
   * and leaves a block-filter client up to date if and only if the blocks below that position are the ones it was
   * told about.
   */
  lemma BlockPollIsExactIff(fs: FilterState, feed: Feed, chain: seq<RuBlock>, known: map<nat, Hash>, first: nat, round: Round)
    requires BlocksUpToDate(fs, feed, chain, known, first) && History(chain, round.events)
    requires round.latest < |ApplyEvents(chain, round.events)|
    ensures IsRuChain(ApplyEvents(chain, round.events))
    ensures var after := ApplyEvents(chain, round.events);
            var feed1 := SendEvents(feed, round.events);
            var start := Rewound(fs.nextStart, LastN(ReorgsOf(round.events), MAX_REORG_ENTRIES));
            var (fs1, hashes) := PollBlocks(fs, feed1, after, round.latest);
            && fs1.nextStart == Max(start, round.latest + 1) && |hashes| == fs1.nextStart - start
            && (BlocksUpToDate(fs1, feed1.(now := feed1.now + 1), after, Learn(known, hashes, start), first) <==>
                SameBlocks(chain, after, first, start))
  {
    hide Rewound, ReorgsSince, ApplyEvents, SendEvents, History, ReorgsOf, Learn;
    var events := round.events;
    var recent := LastN(ReorgsOf(events), MAX_REORG_ENTRIES);
    HistoryChain(chain, events);
    RewoundStaysBelow(chain, fs.nextStart, events);
    RingKeepsNewest(feed, fs.lastPoll, events);
    NothingNewerThanNow(SendEvents(feed, events));
    BlockScanIsExactIff(chain, ApplyEvents(chain, events), known, first, fs.nextStart, Rewound(fs.nextStart, recent),
                        SendEvents(feed, events).now + 1, round.latest);
  }

  /** In particular after at most 25 reorgs. */
  lemma BlockPollIsExact(fs: FilterState, feed: Feed, chain: seq<RuBlock>, known: map<nat, Hash>, first: nat, round: Round)
    requires BlocksUpToDate(fs, feed, chain, known, first) && History(chain, round.events)
    requires round.latest < |ApplyEvents(chain, round.events)| && |ReorgsOf(round.events)| <= MAX_REORG_ENTRIES
    ensures IsRuChain(ApplyEvents(chain, round.events))
    ensures var after := ApplyEvents(chain, round.events);
            var feed1 := SendEvents(feed, round.events);
            var (fs1, hashes) := PollBlocks(fs, feed1, after, round.latest);
            && |hashes| <= fs1.nextStart && fs1.nextStart > round.latest
            && BlocksUpToDate(fs1, feed1.(now := feed1.now + 1), after, Learn(known, hashes, fs1.nextStart - |hashes|), first)
  {
    hide Rewound, ReorgsSince, ApplyEvents, SendEvents, History, ReorgsOf, Learn;
    var after := ApplyEvents(chain, round.events);
    var kept := Rewound(fs.nextStart, ReorgsOf(round.events));
    BlockPollIsExactIff(fs, feed, chain, known, first, round);
    PrefixSurvives(chain, fs.nextStart, round.events);
    forall n | first <= n < kept
      ensures after[n].hash == chain[n].hash
    {
      assert after[n] == after[..kept][n] == chain[..kept][n];
    }
  }
}
