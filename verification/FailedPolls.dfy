/** What a poll delivers first, and polls that fail: what the client never gets told, and exactly when that matters. */
module FailedPolls {
  import opened Wrappers
  import opened Rollup
  import opened InterestKind
  import opened Node
  import opened FilterPolls
  import opened RingLimits

  // ---- Going over the same reorgs twice ----

  lemma {:induction false} RewoundAppend(f: LogFilter, start: nat, a: seq<ReorgNotification>, b: seq<ReorgNotification>)
    ensures Rewound(start, a + b) == Rewound(Rewound(start, a), b)
    ensures RemovedLogs(f, start, a + b) == RemovedLogs(f, start, a) + RemovedLogs(f, Rewound(start, a), b)
    decreases |b|
  {
    hide RemovedBelow;
    if b == [] {
      assert a + b == a && RemovedLogs(f, start, a) + [] == RemovedLogs(f, start, a);
    } else {
      var n := |b| - 1;
      RewoundAppend(f, start, a, b[..n]);
      SnocParts(a, b);
      Associative(RemovedLogs(f, start, a), RemovedLogs(f, Rewound(start, a), b[..n]),
                  RemovedBelow(f, Rewound(start, a + b[..n]), b[n].removedBlocks));
    }
  }

  /** A reorg that removes only blocks numbered `q` and above. */
  ghost predicate OutOfReach(q: nat, r: ReorgNotification) {
    r.commonAncestor + 1 >= q && forall j :: 0 <= j < |r.removedBlocks| ==> r.removedBlocks[j].number >= q
  }

  ghost predicate AllOutOfReach(q: nat, reorgs: seq<ReorgNotification>) {
    forall i :: 0 <= i < |reorgs| ==> OutOfReach(q, reorgs[i])
  }

  lemma {:induction false} RemovedAbove(f: LogFilter, q: nat, blocks: seq<RemovedBlock>)
    requires forall j :: 0 <= j < |blocks| ==> blocks[j].number >= q
    ensures RemovedBelow(f, q, blocks) == []
    decreases |blocks|
  {
    if blocks != [] {
      RemovedAbove(f, q, blocks[..|blocks| - 1]);
    }
  }

  /** From where they have rewound the filter to, the same reorgs rewind and take back nothing. */
  lemma {:induction false} OutOfReachIsSilent(f: LogFilter, q: nat, reorgs: seq<ReorgNotification>)
    requires AllOutOfReach(q, reorgs)
    ensures Rewound(q, reorgs) == q && RemovedLogs(f, q, reorgs) == []
    decreases |reorgs|
  {
    if reorgs != [] {
      var n := |reorgs| - 1;
      OutOfReachIsSilent(f, q, reorgs[..n]);
      assert OutOfReach(q, reorgs[n]);
      RemovedAbove(f, q, reorgs[n].removedBlocks);
    }
  }

  lemma FittingReorg(chain: seq<RuBlock>, e: ChainEvent, q: nat)
    requires Fits(chain, e) && e.Reorg? && q <= e.reorg.commonAncestor + 1
    ensures OutOfReach(q, e.reorg)
  {
  }

  lemma {:induction false} RewoundIsBelow(chain: seq<RuBlock>, start: nat, events: seq<ChainEvent>, q: nat)
    requires History(chain, events) && q <= Rewound(start, ReorgsOf(events))
    ensures AllOutOfReach(q, ReorgsOf(events))
    decreases |events|
  {
    if events != [] {
      var n := |events| - 1;
      RewoundByOne(start, ReorgsOf(events[..n]), events[n]);
      RewoundIsBelow(chain, start, events[..n], q);
      if events[n].Reorg? {
        FittingReorg(ApplyEvents(chain, events[..n]), events[n], q);
      }
    }
  }

  // ---- The retry ----

  /** What the ring returns to a filter that failed after `early` and tries again after `late`. */
  lemma RingAgain(fs: FilterState, feed: Feed, early: seq<ChainEvent>, late: seq<ChainEvent>)
    requires RingOk(feed) && fs.lastPoll <= feed.now && SplitAt(feed.ring, fs.lastPoll, [])
    requires |ReorgsOf(early + late)| <= MAX_REORG_ENTRIES
    ensures ReorgsSince(SendEvents(feed, early).ring, fs.lastPoll) == ReorgsOf(early)
    ensures ReorgsSince(SendEvents(feed, early + late).ring, fs.lastPoll) == ReorgsOf(early) + ReorgsOf(late)
  {
    hide ReorgsSince, SendEvents, SplitAt, RingOk;
    ReorgsOfAppend(early, late);
    RingKeepsNewest(feed, fs.lastPoll, early);
    RingKeepsNewest(feed, fs.lastPoll, early + late);
  }

  /** The retry rewinds to where a poll that had not failed before would; it takes back only what is reorged away since. */
  lemma RetryRewinds(f: LogFilter, start: nat, chain: seq<RuBlock>, early: seq<ChainEvent>, late: seq<ChainEvent>)
    requires History(chain, early)
    ensures var q := Rewound(start, ReorgsOf(early));
            var all := ReorgsOf(early) + ReorgsOf(late);
            && Rewound(q, all) == Rewound(start, all) == Rewound(q, ReorgsOf(late))
            && RemovedLogs(f, q, all) == RemovedLogs(f, q, ReorgsOf(late))
  {
    hide Rewound, RemovedLogs, ReorgsOf, History;
    var q := Rewound(start, ReorgsOf(early));
    RewoundIsBelow(chain, start, early, q);
    OutOfReachIsSilent(f, q, ReorgsOf(early));
    RewoundAppend(f, q, ReorgsOf(early), ReorgsOf(late));
    RewoundAppend(f, start, ReorgsOf(early), ReorgsOf(late));
    assert [] + RemovedLogs(f, q, ReorgsOf(late)) == RemovedLogs(f, q, ReorgsOf(late));
  }

  /** Failing again and again is like failing once, the last time. */
  lemma FailingAgain(f: LogFilter, fs: FilterState, feed: Feed, chain: seq<RuBlock>, early: seq<ChainEvent>, late: seq<ChainEvent>)
    requires RingOk(feed) && fs.lastPoll <= feed.now && SplitAt(feed.ring, fs.lastPoll, [])
    requires History(chain, early + late) && |ReorgsOf(early + late)| <= MAX_REORG_ENTRIES
    ensures FailPoll(FailPoll(fs, SendEvents(feed, early)), SendEvents(feed, early + late)) == FailPoll(fs, SendEvents(feed, early + late))
  {
    hide ReorgsSince, SendEvents, SplitAt, RingOk, Rewound, ReorgsOf, History;
    HistorySplit(chain, early, late);
    RingAgain(fs, feed, early, late);
    RetryRewinds(f, fs.nextStart, chain, early, late);
  }

  /** A block filter loses nothing: the retry returns what a first poll would have. */
  lemma FailedBlockPollIsHarmless(fs: FilterState, feed: Feed, chain: seq<RuBlock>, early: seq<ChainEvent>, late: seq<ChainEvent>, latest: nat)
    requires RingOk(feed) && fs.lastPoll <= feed.now && SplitAt(feed.ring, fs.lastPoll, [])
    requires History(chain, early + late) && |ReorgsOf(early + late)| <= MAX_REORG_ENTRIES
    requires latest < |ApplyEvents(chain, early + late)|
    ensures IsRuChain(ApplyEvents(chain, early + late))
    ensures var feed1 := SendEvents(feed, early + late);
            PollBlocks(FailPoll(fs, SendEvents(feed, early)), feed1, ApplyEvents(chain, early + late), latest) ==
            PollBlocks(fs, feed1, ApplyEvents(chain, early + late), latest)
  {
    hide ReorgsSince, SendEvents, SplitAt, RingOk, Rewound, ReorgsOf, History, ApplyEvents, ScanBlocks;
    HistoryChain(chain, early + late);
    HistorySplit(chain, early, late);
    RingAgain(fs, feed, early, late);
    RetryRewinds(_ => true, fs.nextStart, chain, early, late);
  }

  // ---- Removals first ----

  lemma {:induction false} RemovedAreMarked(f: LogFilter, start: nat, reorgs: seq<ReorgNotification>)
    ensures forall i :: 0 <= i < |RemovedLogs(f, start, reorgs)| ==> RemovedLogs(f, start, reorgs)[i].removed
    decreases |reorgs|
  {
    if reorgs != [] {
      var n := |reorgs| - 1;
      RemovedAreMarked(f, start, reorgs[..n]);
      BelowAreMarked(f, Rewound(start, reorgs[..n]), reorgs[n].removedBlocks);
    }
  }

  lemma {:induction false} BelowAreMarked(f: LogFilter, snapshot: nat, blocks: seq<RemovedBlock>)
    ensures forall i :: 0 <= i < |RemovedBelow(f, snapshot, blocks)| ==> RemovedBelow(f, snapshot, blocks)[i].removed
    decreases |blocks|
  {
    if blocks != [] {
      BelowAreMarked(f, snapshot, blocks[..|blocks| - 1]);
    }
  }

  /** What a poll delivers: first every removed log, then the logs that were read forward. */
  lemma RemovedComeFirst(f: LogFilter, fs: FilterState, feed: Feed, chain: seq<RuBlock>, latest: nat) returns (k: nat)
    requires IsRuChain(chain) && latest < |chain|
    ensures var logs := TryPoll(LogInterest(f), fs, feed, chain, latest, None).1.value.logs;
            && k <= |logs| && (forall i :: 0 <= i < |logs| ==> (logs[i].removed <==> i < k))
            && logs[..k] == RemovedLogs(f, fs.nextStart, ReorgsSince(feed.ring, fs.lastPoll))
  {
    var reorgs := ReorgsSince(feed.ring, fs.lastPoll);
    var start, removed := Rewound(fs.nextStart, reorgs), RemovedLogs(f, fs.nextStart, reorgs);
    RemovedAreMarked(f, fs.nextStart, reorgs);
    if start <= latest {
      MatchingIsLive(f, chain[start..latest + 1]);
    }
    k := |removed|;
    assert removed[..k] == removed;
    hide MatchingLogs, RemovedLogs, Rewound, ReorgsSince;
  }

  // ---- Which polls fail ----

  /**
   * A poll fails exactly when cold storage does and there is something to read: the filter, rewound to the lowest common
   * ancestor, is not past `latest`. Then only that rewinding is kept; otherwise cold storage makes no difference.
   */
  lemma PollFailsIff(kind: InterestKind, fs: FilterState, feed: Feed, chain: seq<RuBlock>, latest: nat, cold: Option<ColdError>)
    requires IsRuChain(chain) && latest < |chain|
    ensures var (fs1, output) := TryPoll(kind, fs, feed, chain, latest, cold);
            var q := Rewound(fs.nextStart, ReorgsSince(feed.ring, fs.lastPoll));
            && (output.Err? <==> cold.Some? && q <= latest)
            && (output.Err? ==> output.error == cold.value && fs1 == FilterState(q, fs.lastPoll))
            && (output.Ok? ==> (fs1, output) == TryPoll(kind, fs, feed, chain, latest, None))
  {
  }

  // ---- What the client is left with ----

  lemma TakeMiddle(all: multiset<Log>, low: multiset<Log>, middle: multiset<Log>, high: multiset<Log>)
    requires all == low + middle + high
    ensures all - middle == low + high
    ensures low + high == low <==> high == multiset{}
  {
    if low + high == low {
      forall log: Log
        ensures high[log] == 0
      {
        assert (low + high)[log] == low[log];
      }
    }
  }

  lemma NoLogsIff(logs: seq<Log>)
    ensures multiset(logs) == multiset{} <==> logs == []
  {
    if logs != [] {
      assert logs[0] in multiset(logs);
    }
  }

  lemma ThreeParts(f: LogFilter, chain: seq<RuBlock>, low: nat, high: nat, start: nat)
    requires IsRuChain(chain) && low <= high <= start <= |chain|
    ensures multiset(MatchingLogs(f, chain[..start])) ==
            multiset(MatchingLogs(f, chain[..low])) + multiset(MatchingLogs(f, chain[low..high])) + multiset(MatchingLogs(f, chain[high..start]))
  {
    hide MatchingLogs;
    MatchingSplits(f, chain, low, high);
    MatchingSplits(f, chain, high, start);
  }

  /** The rewound retry takes back what is between the two positions; what lies above the first one stays with the client. */
  lemma RetryTakesBack(f: LogFilter, start: nat, chain: seq<RuBlock>, early: seq<ChainEvent>, late: seq<ChainEvent>)
    requires IsRuChain(chain) && start <= |chain| && History(chain, early) && History(ApplyEvents(chain, early), late)
    ensures var failed := Rewound(start, ReorgsOf(early));
            var q := Rewound(failed, ReorgsOf(late));
            var after := ApplyEvents(ApplyEvents(chain, early), late);
            && q <= failed <= start && q <= |after| && IsRuChain(after)
            && (Exact(f, Receive(multiset(MatchingLogs(f, chain[..start])), RemovedLogs(f, failed, ReorgsOf(late))), after, q) <==>
                MatchingLogs(f, chain[failed..start]) == [])
  {
    var mid, failed := ApplyEvents(chain, early), Rewound(start, ReorgsOf(early));
    hide MatchingLogs, Receive, RemovedLogs, Rewound, ReorgsOf, History, ApplyEvents, MarkRemoved;
    PrefixSurvives(chain, start, early);
    HistoryChain(mid, late);
    var logs := RememberedTakeBack(f, mid, failed, late);
    var after, q := ApplyEvents(mid, late), Rewound(failed, ReorgsOf(late));
    ReceiveMarked(multiset(MatchingLogs(f, chain[..start])), logs);
    SamePrefixes(chain, mid, after, q, failed);
    LeftOver(f, chain, q, failed, start, multiset(logs));
  }

  lemma SamePrefixes(chain: seq<RuBlock>, mid: seq<RuBlock>, after: seq<RuBlock>, q: nat, failed: nat)
    requires q <= failed <= |chain| && failed <= |mid| && q <= |after|
    requires after[..q] == mid[..q] && mid[..failed] == chain[..failed]
    ensures after[..q] == chain[..q] && mid[q..failed] == chain[q..failed]
  {
    ShorterPrefix(mid, chain, failed, q);
    assert mid[q..failed] == mid[..failed][q..] && chain[q..failed] == chain[..failed][q..];
  }

  lemma LeftOver(f: LogFilter, chain: seq<RuBlock>, q: nat, failed: nat, start: nat, taken: multiset<Log>)
    requires IsRuChain(chain) && q <= failed <= start <= |chain| && taken == multiset(MatchingLogs(f, chain[q..failed]))
    ensures multiset(MatchingLogs(f, chain[..start])) - taken == multiset(MatchingLogs(f, chain[..q])) <==>
            MatchingLogs(f, chain[failed..start]) == []
  {
    hide MatchingLogs;
    ThreeParts(f, chain, q, failed, start);
    TakeMiddle(multiset(MatchingLogs(f, chain[..start])), multiset(MatchingLogs(f, chain[..q])), taken,
               multiset(MatchingLogs(f, chain[failed..start])));
    NoLogsIff(MatchingLogs(f, chain[failed..start]));
  }

  /**
   * A poll that failed, however often, and is tried again: the client is exact after the retry if and only if no
   * matching log lay between the position the last failure left and where the filter had stood. Any such log is
   * taken back by nobody.
   */
  lemma RetryIsExactIff(f: LogFilter, fs: FilterState, feed: Feed, chain: seq<RuBlock>, client: multiset<Log>,
                        early: seq<ChainEvent>, visible: nat, error: ColdError, late: seq<ChainEvent>, latest: nat)
    requires UpToDate(f, fs, feed, chain, client)
    requires History(chain, early + late) && |ReorgsOf(early + late)| <= MAX_REORG_ENTRIES
    requires visible < |ApplyEvents(chain, early)| && IsRuChain(ApplyEvents(chain, early))
    requires TryPoll(LogInterest(f), fs, SendEvents(feed, early), ApplyEvents(chain, early), visible, Some(error)).1.Err?
    requires latest < |ApplyEvents(chain, early + late)| && IsRuChain(ApplyEvents(chain, early + late))
    ensures var failed := TryPoll(LogInterest(f), fs, SendEvents(feed, early), ApplyEvents(chain, early), visible, Some(error)).0;
            var after := ApplyEvents(chain, early + late);
            var feed1 := SendEvents(feed, early + late);
            var (fs1, delivered) := PollLogs(f, failed, feed1, after, latest);
            && failed.nextStart <= fs.nextStart && fs1.nextStart > latest
            && (UpToDate(f, fs1, feed1.(now := feed1.now + 1), after, Receive(client, delivered)) <==>
                MatchingLogs(f, chain[failed.nextStart..fs.nextStart]) == [])
  {
    hide Receive, RemovedLogs, Rewound, MatchingLogs, ReorgsSince, ApplyEvents, SendEvents, History, ReorgsOf;
    var failed := FailPoll(fs, SendEvents(feed, early));
    var after, feed1 := ApplyEvents(chain, early + late), SendEvents(feed, early + late);
    HistorySplit(chain, early, late);
    RingAgain(fs, feed, early, late);
    RingKeepsNewest(feed, fs.lastPoll, early + late);
    RetryRewinds(f, fs.nextStart, chain, early, late);
    RetryTakesBack(f, fs.nextStart, chain, early, late);
    var q, removed := Rewound(failed.nextStart, ReorgsOf(late)), RemovedLogs(f, failed.nextStart, ReorgsOf(late));
    ScanKeepsExactIff(f, client, removed, after, q, feed1.now + 1, latest);
    NothingNewerThanNow(feed1);
  }
}
