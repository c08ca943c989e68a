/** Polling a filter: removed logs are reconstructed lazily from the reorg ring, then new logs are read forward. */
module FilterPolls {
  import opened Wrappers
  import opened Host
  import opened Rollup
  import opened InterestKind
  import opened Node

  /** `nextStart` is the first block not yet delivered; `lastPoll` is the filter's cursor into the reorg ring. */
  datatype FilterState = FilterState(nextStart: nat, lastPoll: nat)

  function ReorgsSince(ring: seq<Stamped>, since: nat): seq<ReorgNotification>
    decreases |ring|
  {
    if ring == [] then []
    else
      var n := |ring| - 1;
      ReorgsSince(ring[..n], since) + (if ring[n].receivedAt > since then [ring[n].reorg] else [])
  }

  /** The matching logs of the removed blocks numbered below `snapshot`, marked as removed. */
  function RemovedBelow(f: LogFilter, snapshot: nat, blocks: seq<RemovedBlock>): seq<Log>
    decreases |blocks|
  {
    if blocks == [] then []
    else
      var n := |blocks| - 1;
      RemovedBelow(f, snapshot, blocks[..n])
      + (if blocks[n].number >= snapshot then [] else MarkRemoved(Keep(f, blocks[n].logs)))
  }

  /** Where the filter stands after a list of reorgs. */
  function Rewound(start: nat, reorgs: seq<ReorgNotification>): nat
    decreases |reorgs|
  {
    if reorgs == [] then start
    else Min(Rewound(start, reorgs[..|reorgs| - 1]), reorgs[|reorgs| - 1].commonAncestor + 1)
  }

  /** That is the lowest of where it stood and of what follows the common ancestors. */
  lemma {:induction false} RewoundIsLeast(start: nat, reorgs: seq<ReorgNotification>)
    ensures var q := Rewound(start, reorgs);
            && q <= start && (forall i :: 0 <= i < |reorgs| ==> q <= reorgs[i].commonAncestor + 1)
            && (q == start || exists i :: 0 <= i < |reorgs| && q == reorgs[i].commonAncestor + 1)
    decreases |reorgs|
  {
    if reorgs != [] {
      var n := |reorgs| - 1;
      RewoundIsLeast(start, reorgs[..n]);
      forall i | 0 <= i < n
        ensures reorgs[..n][i] == reorgs[i]
      {
      }
    }
  }

  /** Each reorg takes back what was delivered below the position the filter had just before it. */
  function RemovedLogs(f: LogFilter, start: nat, reorgs: seq<ReorgNotification>): seq<Log>
    decreases |reorgs|
  {
    if reorgs == [] then []
    else
      var n := |reorgs| - 1;
      RemovedLogs(f, start, reorgs[..n]) + RemovedBelow(f, Rewound(start, reorgs[..n]), reorgs[n].removedBlocks)
  }

  function ComputeRemovedLogs(kind: InterestKind, start: nat, reorgs: seq<ReorgNotification>): seq<Log> {
    if kind.BlockInterest? then [] else RemovedLogs(kind.filter, start, reorgs)
  }

  /** The forward scan of a log filter that stands at `start` and takes back `removed`. */
  function ScanLogs(f: LogFilter, start: nat, removed: seq<Log>, now: nat, chain: seq<RuBlock>, latest: nat): (FilterState, seq<Log>)
    requires IsRuChain(chain) && latest < |chain|
  {
    if start > latest then (FilterState(start, now), removed)
    else (FilterState(latest + 1, now), removed + MatchingLogs(f, chain[start..latest + 1]))
  }

  function HashesOf(blocks: seq<RuBlock>): (r: seq<Hash>)
    ensures |r| == |blocks|
  {
    seq(|blocks|, i requires 0 <= i < |blocks| => blocks[i].hash)
  }

  function ScanBlocks(start: nat, now: nat, chain: seq<RuBlock>, latest: nat): (FilterState, seq<Hash>)
    requires latest < |chain|
  {
    if start > latest then (FilterState(start, now), [])
    else (FilterState(latest + 1, now), HashesOf(chain[start..latest + 1]))
  }

  /** One poll of a filter of either kind, against the stored chain and the `latest` tag: rewind, then read forward. */
  function PollFilter(kind: InterestKind, fs: FilterState, feed: Feed, chain: seq<RuBlock>, latest: nat)
    : (r: (FilterState, EventBuffer<Hash>))
    requires IsRuChain(chain) && latest < |chain|
    ensures r.1.LogBuffer? <==> kind.LogInterest?
  {
    var reorgs := ReorgsSince(feed.ring, fs.lastPoll);
    var start := Rewound(fs.nextStart, reorgs);
    match kind
    case BlockInterest =>
      var (fs1, hashes) := ScanBlocks(start, feed.now + 1, chain, latest);
      (fs1, BlockBuffer(hashes))
    case LogInterest(f) =>
      var (fs1, logs) := ScanLogs(f, start, RemovedLogs(f, fs.nextStart, reorgs), feed.now + 1, chain, latest);
      (fs1, LogBuffer(logs))
  }

  /** Why cold storage did not answer: it broke, or the query was too large or too slow. */
  datatype ColdError = ColdError(code: nat)

  /** A poll that fails has rewound the filter, and its cursor into the ring is where it was. */
  function FailPoll(fs: FilterState, feed: Feed): FilterState {
    fs.(nextStart := Rewound(fs.nextStart, ReorgsSince(feed.ring, fs.lastPoll)))
  }

  /** One poll, when cold storage fails with `cold`; a poll that has nothing to read does not ask it. */
  function TryPoll(kind: InterestKind, fs: FilterState, feed: Feed, chain: seq<RuBlock>, latest: nat, cold: Option<ColdError>)
    : (r: (FilterState, Result<EventBuffer<Hash>, ColdError>))
    requires IsRuChain(chain) && latest < |chain|
    ensures cold.None? ==> r.1.Ok?
    ensures r.1.Ok? ==> (r.1.value.LogBuffer? <==> kind.LogInterest?)
  {
    if cold.Some? && FailPoll(fs, feed).nextStart <= latest then (FailPoll(fs, feed), Err(cold.value))
    else
      var (fs1, output) := PollFilter(kind, fs, feed, chain, latest);
      (fs1, Ok(output))
  }

  /** What the client of a log filter gets from a poll while cold storage answers. */
  function PollLogs(f: LogFilter, fs: FilterState, feed: Feed, chain: seq<RuBlock>, latest: nat): (FilterState, seq<Log>)
    requires IsRuChain(chain) && latest < |chain|
  {
    var (fs1, output) := TryPoll(LogInterest(f), fs, feed, chain, latest, None);
    (fs1, output.value.logs)
  }

  /** The same for a block filter. */
  function PollBlocks(fs: FilterState, feed: Feed, chain: seq<RuBlock>, latest: nat): (FilterState, seq<Hash>)
    requires IsRuChain(chain) && latest < |chain|
  {
    var (fs1, output) := TryPoll(BlockInterest, fs, feed, chain, latest, None);
    (fs1, output.value.blocks)
  }

  // ---- The client ----

  function Restored(log: Log): Log {
    log.(removed := false)
  }

  /** What a client holds after one delivery: removed logs are deleted, the others added. */
  function Receive(client: multiset<Log>, delivered: seq<Log>): multiset<Log>
    decreases |delivered|
  {
    if delivered == [] then client
    else
      var n := |delivered| - 1;
      var before := Receive(client, delivered[..n]);
      if delivered[n].removed then before - multiset{Restored(delivered[n])} else before + multiset{delivered[n]}
  }

  lemma {:induction false} ReceiveAppend(client: multiset<Log>, a: seq<Log>, b: seq<Log>)
    ensures Receive(client, a + b) == Receive(Receive(client, a), b)
    decreases |b|
  {
    if b == [] {
      assert a + b == a;
    } else {
      var n := |b| - 1;
      ReceiveAppend(client, a, b[..n]);
      assert (a + b)[..|a + b| - 1] == a + b[..n];
    }
  }

  ghost predicate Live(logs: seq<Log>) {
    forall i :: 0 <= i < |logs| ==> !logs[i].removed
  }

  lemma {:induction false} ReceiveLive(client: multiset<Log>, logs: seq<Log>)
    requires Live(logs)
    ensures Receive(client, logs) == client + multiset(logs)
    decreases |logs|
  {
    if logs != [] {
      var n := |logs| - 1;
      ReceiveLive(client, logs[..n]);
      assert logs == logs[..n] + [logs[n]];
    }
  }

  /** Deleting what is there leaves the rest. */
  lemma {:induction false} ReceiveRemoved(rest: multiset<Log>, logs: seq<Log>)
    requires Live(logs)
    ensures Receive(rest + multiset(logs), MarkRemoved(logs)) == rest
    decreases |logs|
  {
    if logs != [] {
      var n := |logs| - 1;
      var marked := MarkRemoved(logs);
      assert marked[..n] == MarkRemoved(logs[..n]);
      assert logs == logs[..n] + [logs[n]];
      assert rest + multiset(logs) == rest + multiset{logs[n]} + multiset(logs[..n]);
      assert Restored(marked[n]) == logs[n];
      ReceiveRemoved(rest + multiset{logs[n]}, logs[..n]);
    }
  }

  lemma {:induction false} KeepIsLive(f: LogFilter, logs: seq<Log>)
    requires Live(logs)
    ensures Live(Keep(f, logs))
    decreases |logs|
  {
    if logs != [] {
      KeepIsLive(f, logs[1..]);
    }
  }

  lemma {:induction false} MatchingIsLive(f: LogFilter, blocks: seq<RuBlock>)
    requires forall i :: 0 <= i < |blocks| ==> WellFormedBlock(blocks[i])
    ensures Live(MatchingLogs(f, blocks))
    decreases |blocks|
  {
    if blocks != [] {
      var n := |blocks| - 1;
      MatchingIsLive(f, blocks[..n]);
      KeepIsLive(f, LogsOf(blocks[n]));
    }
  }

  // ---- Taking back a stretch of the chain ----

  lemma MarkRemovedAppend(a: seq<Log>, b: seq<Log>)
    ensures MarkRemoved(a + b) == MarkRemoved(a) + MarkRemoved(b)
  {
  }

  /** Of the blocks a reorg removes from `first` on, exactly those below the snapshot are taken back. */
  lemma {:induction false} RemovedBelowIsMatching(f: LogFilter, blocks: seq<RuBlock>, first: nat, snapshot: nat)
    requires forall i :: 0 <= i < |blocks| ==> WellFormedBlock(blocks[i]) && blocks[i].number == first + i
    ensures var delivered := if snapshot < first then 0 else Min(snapshot - first, |blocks|);
            RemovedBelow(f, snapshot, AllRemoved(blocks)) == MarkRemoved(MatchingLogs(f, blocks[..delivered]))
    decreases |blocks|
  {
    hide LogsOf, Keep;
    if blocks != [] {
      var n := |blocks| - 1;
      RemovedBelowIsMatching(f, blocks[..n], first, snapshot);
      assert AllRemoved(blocks)[..n] == AllRemoved(blocks[..n]);
      if snapshot > first + n {
        assert blocks[..n + 1] == blocks;
        MarkRemovedAppend(MatchingLogs(f, blocks[..n]), Keep(f, LogsOf(blocks[n])));
        assert blocks[..n][..n] == blocks[..n];
      } else {
        var delivered := if snapshot < first then 0 else Min(snapshot - first, |blocks|);
        assert blocks[..n][..delivered] == blocks[..delivered];
      }
    }
  }

  /** The client holds exactly the matching logs of the blocks below `start`. */
  ghost predicate Exact(f: LogFilter, client: multiset<Log>, chain: seq<RuBlock>, start: nat) {
    IsRuChain(chain) && start <= |chain| && client == multiset(MatchingLogs(f, chain[..start]))
  }

  lemma MatchingSplits(f: LogFilter, chain: seq<RuBlock>, cut: nat, start: nat)
    requires IsRuChain(chain) && cut <= start <= |chain|
    ensures MatchingLogs(f, chain[..start]) == MatchingLogs(f, chain[..cut]) + MatchingLogs(f, chain[cut..start])
    ensures Live(MatchingLogs(f, chain[cut..start]))
  {
    assert chain[..start] == chain[..cut] + chain[cut..start];
    MatchingLogsAppend(f, chain[..cut], chain[cut..start]);
    MatchingIsLive(f, chain[cut..start]);
  }

  /** What a reorg takes back from a filter that stood at `start`. */
  lemma ReorgTakesBack(f: LogFilter, chain: seq<RuBlock>, start: nat, cut: nat)
    requires IsRuChain(chain) && cut <= |chain| && start <= |chain|
    ensures RemovedBelow(f, start, AllRemoved(chain[cut..]))
            == (if start <= cut then [] else MarkRemoved(MatchingLogs(f, chain[cut..start])))
  {
    var removed := chain[cut..];
    RemovedBelowIsMatching(f, removed, cut, start);
    if start <= cut {
      assert removed[..0] == [];
    } else {
      assert removed[..start - cut] == chain[cut..start];
    }
  }

  lemma PrefixOfPrefix<T>(s: seq<T>, long: nat, short: nat)
    requires short <= long <= |s|
    ensures s[..long][..short] == s[..short]
  {
  }

  lemma TakingBackIsExact(f: LogFilter, chain: seq<RuBlock>, start: nat, cut: nat)
    requires IsRuChain(chain) && cut < start <= |chain|
    ensures Receive(multiset(MatchingLogs(f, chain[..start])), MarkRemoved(MatchingLogs(f, chain[cut..start]))) ==
            multiset(MatchingLogs(f, chain[..cut]))
  {
    MatchingSplits(f, chain, cut, start);
    ReceiveRemoved(multiset(MatchingLogs(f, chain[..cut])), MatchingLogs(f, chain[cut..start]));
  }

  lemma CutKeepsExact(f: LogFilter, client: multiset<Log>, chain: seq<RuBlock>, start: nat, cut: nat)
    requires Exact(f, client, chain, start) && cut <= |chain|
    ensures Exact(f, Receive(client, RemovedBelow(f, start, AllRemoved(chain[cut..]))), chain[..cut], Min(start, cut))
  {
    hide MatchingLogs, RemovedBelow, MarkRemoved, AllRemoved;
    ReorgTakesBack(f, chain, start, cut);
    if start > cut {
      TakingBackIsExact(f, chain, start, cut);
    }
    PrefixOfPrefix(chain, cut, Min(start, cut));
  }

  /** One reorg: what is taken back is what the client holds above the common ancestor. */
  lemma ReorgKeepsExact(f: LogFilter, client: multiset<Log>, chain: seq<RuBlock>, start: nat, n: ReorgNotification)
    requires Exact(f, client, chain, start) && Fits(chain, Reorg(n))
    ensures Exact(f, Receive(client, RemovedBelow(f, start, n.removedBlocks)),
                  ApplyEvent(chain, Reorg(n)), Min(start, n.commonAncestor + 1))
  {
    hide Exact, Receive, RemovedBelow, AllRemoved;
    CutKeepsExact(f, client, chain, start, n.commonAncestor + 1);
  }

  lemma NewBlockKeepsExact(f: LogFilter, client: multiset<Log>, chain: seq<RuBlock>, start: nat, b: RuBlock)
    requires Exact(f, client, chain, start) && Fits(chain, NewBlock(b))
    ensures Exact(f, client, ApplyEvent(chain, NewBlock(b)), start)
  {
    assert (chain + [b])[..start] == chain[..start];
  }

  // ---- Histories between two polls ----

  lemma OneMoreReorg(f: LogFilter, client: multiset<Log>, start: nat, reorgs: seq<ReorgNotification>, r: ReorgNotification)
    ensures Rewound(start, reorgs + [r]) == Min(Rewound(start, reorgs), r.commonAncestor + 1)
    ensures Receive(client, RemovedLogs(f, start, reorgs + [r])) ==
            Receive(Receive(client, RemovedLogs(f, start, reorgs)), RemovedBelow(f, Rewound(start, reorgs), r.removedBlocks))
  {
    assert (reorgs + [r])[..|reorgs|] == reorgs;
    ReceiveAppend(client, RemovedLogs(f, start, reorgs), RemovedBelow(f, Rewound(start, reorgs), r.removedBlocks));
  }

  lemma EventKeepsExact(f: LogFilter, client: multiset<Log>, start: nat, reorgs: seq<ReorgNotification>, chain: seq<RuBlock>, e: ChainEvent)
    requires Exact(f, Receive(client, RemovedLogs(f, start, reorgs)), chain, Rewound(start, reorgs)) && Fits(chain, e)
    ensures Exact(f, Receive(client, RemovedLogs(f, start, reorgs + ReorgOf(e))), ApplyEvent(chain, e), Rewound(start, reorgs + ReorgOf(e)))
  {
    hide Exact, Receive, RemovedLogs, RemovedBelow, Rewound;
    var held := Receive(client, RemovedLogs(f, start, reorgs));
    if e.NewBlock? {
      NewBlockKeepsExact(f, held, chain, Rewound(start, reorgs), e.block);
      assert reorgs + ReorgOf(e) == reorgs;
    } else {
      ReorgKeepsExact(f, held, chain, Rewound(start, reorgs), e.reorg);
      OneMoreReorg(f, client, start, reorgs, e.reorg);
    }
  }

  /** Lazily computed removals keep the client exact up to the rewound position, through any cascade of reorgs. */
  lemma {:induction false} LazyRemovalIsExact(f: LogFilter, client: multiset<Log>, chain: seq<RuBlock>, start: nat, events: seq<ChainEvent>)
    requires History(chain, events) && Exact(f, client, chain, start)
    ensures Exact(f, Receive(client, RemovedLogs(f, start, ReorgsOf(events))),
                  ApplyEvents(chain, events), Rewound(start, ReorgsOf(events)))
    decreases |events|
  {
    if events != [] {
      var n := |events| - 1;
      LazyRemovalIsExact(f, client, chain, start, events[..n]);
      EventKeepsExact(f, client, start, ReorgsOf(events[..n]), ApplyEvents(chain, events[..n]), events[n]);
    }
  }

  // ---- The ring ----

  /** Ring entries carry past instants, oldest first. */
  ghost predicate RingOk(feed: Feed) {
    && |feed.ring| <= MAX_REORG_ENTRIES
    && forall i :: 0 <= i < |feed.ring| ==> feed.ring[i].receivedAt <= feed.now
  }

  /** The last entries of the ring are the `recent` reorgs, newer than `since`; all others are not newer. */
  ghost predicate SplitAt(ring: seq<Stamped>, since: nat, recent: seq<ReorgNotification>) {
    && |recent| <= |ring|
    && (forall i :: 0 <= i < |ring| - |recent| ==> ring[i].receivedAt <= since)
    && (forall i :: |ring| - |recent| <= i < |ring| ==> ring[i].receivedAt > since && ring[i].reorg == recent[i - (|ring| - |recent|)])
  }

  lemma SplitShrinks(ring: seq<Stamped>, since: nat, recent: seq<ReorgNotification>, init: seq<ReorgNotification>)
    requires SplitAt(ring, since, recent) && ring != []
    requires init == if recent == [] then [] else recent[..|recent| - 1]
    ensures SplitAt(ring[..|ring| - 1], since, init)
    ensures if recent == [] then ring[|ring| - 1].receivedAt <= since
            else ring[|ring| - 1].receivedAt > since && ring[|ring| - 1].reorg == recent[|recent| - 1]
  {
  }

  lemma {:induction false} SinceIsRecent(ring: seq<Stamped>, since: nat, recent: seq<ReorgNotification>)
    requires SplitAt(ring, since, recent)
    ensures ReorgsSince(ring, since) == recent
    decreases |ring|
  {
    if ring != [] {
      var n := |ring| - 1;
      var init := if recent == [] then [] else recent[..|recent| - 1];
      SplitShrinks(ring, since, recent, init);
      SinceIsRecent(ring[..n], since, init);
      assert recent == init + (if recent == [] then [] else [recent[|recent| - 1]]);
    }
  }

  /**
   * What a filter finds in the ring: the reorgs since its last poll, but only the newest 25 of them.
   */
  lemma {:induction false} RingKeepsNewest(feed: Feed, since: nat, events: seq<ChainEvent>)
    requires RingOk(feed) && since <= feed.now && SplitAt(feed.ring, since, [])
    ensures var after := SendEvents(feed, events);
            && RingOk(after) && feed.now <= after.now
            && SplitAt(after.ring, since, LastN(ReorgsOf(events), MAX_REORG_ENTRIES))
            && ReorgsSince(after.ring, since) == LastN(ReorgsOf(events), MAX_REORG_ENTRIES)
    decreases |events|
  {
    hide SplitAt, ReorgsSince;
    var after := SendEvents(feed, events);
    if events != [] {
      var n := |events| - 1;
      var before := SendEvents(feed, events[..n]);
      var reorgs := ReorgsOf(events[..n]);
      RingKeepsNewest(feed, since, events[..n]);
      if events[n].Reorg? {
        PushKeepsSplit(before, since, LastN(reorgs, MAX_REORG_ENTRIES), events[n].reorg);
        LastNOfLastN(reorgs, [events[n].reorg], MAX_REORG_ENTRIES);
      } else {
        assert ReorgsOf(events) == reorgs + [] == reorgs;
      }
    }
    SinceIsRecent(after.ring, since, LastN(ReorgsOf(events), MAX_REORG_ENTRIES));
  }

  lemma PushKeepsSplit(feed: Feed, since: nat, recent: seq<ReorgNotification>, r: ReorgNotification)
    requires RingOk(feed) && since <= feed.now && SplitAt(feed.ring, since, recent)
    ensures RingOk(SendReorg(feed, r))
    ensures SplitAt(SendReorg(feed, r).ring, since, LastN(recent + [r], MAX_REORG_ENTRIES))
  {
    PushSplits(feed.ring, since, recent, Stamped(feed.now + 1, r));
    if |feed.ring| == MAX_REORG_ENTRIES {
      EvictSplits(feed.ring + [Stamped(feed.now + 1, r)], since, recent + [r]);
    }
  }

  lemma PushSplits(ring: seq<Stamped>, since: nat, recent: seq<ReorgNotification>, newest: Stamped)
    requires SplitAt(ring, since, recent) && newest.receivedAt > since
    ensures SplitAt(ring + [newest], since, recent + [newest.reorg])
  {
  }

  lemma EvictSplits(ring: seq<Stamped>, since: nat, recent: seq<ReorgNotification>)
    requires SplitAt(ring, since, recent) && |ring| == MAX_REORG_ENTRIES + 1
    ensures SplitAt(LastN(ring, MAX_REORG_ENTRIES), since, LastN(recent, MAX_REORG_ENTRIES))
  {
  }

  // ---- Polls ----

  /** Between polls: the client is exact below `nextStart`, and the ring holds nothing the filter has not seen. */
  ghost predicate UpToDate(f: LogFilter, fs: FilterState, feed: Feed, chain: seq<RuBlock>, client: multiset<Log>) {
    && Exact(f, client, chain, fs.nextStart)
    && RingOk(feed) && fs.lastPoll <= feed.now && SplitAt(feed.ring, fs.lastPoll, [])
  }

  /** The events since the last poll, then a poll that reads `latest`. */
  datatype Round = Round(events: seq<ChainEvent>, latest: nat)

  lemma NothingNewerThanNow(feed: Feed)
    requires RingOk(feed)
    ensures RingOk(feed.(now := feed.now + 1)) && SplitAt(feed.ring, feed.now + 1, [])
  {
  }

  lemma ExactAtTip(f: LogFilter, client: multiset<Log>, chain: seq<RuBlock>, start: nat)
    requires Exact(f, client, chain, start) && start >= |chain|
    ensures start == |chain| && client == multiset(MatchingLogs(f, chain))
  {
    assert chain[..|chain|] == chain;
  }

  // ---- Block filters ----

  lemma EventKeepsPrefix(chain: seq<RuBlock>, kept: nat, e: ChainEvent)
    requires kept <= |chain| && Fits(chain, e)
    ensures var kept1 := if e.Reorg? then Min(kept, e.reorg.commonAncestor + 1) else kept;
            kept1 <= |ApplyEvent(chain, e)| && ApplyEvent(chain, e)[..kept1] == chain[..kept1]
  {
  }

  lemma ShorterPrefix<T>(a: seq<T>, b: seq<T>, long: nat, short: nat)
    requires short <= long <= |a| && long <= |b| && a[..long] == b[..long]
    ensures a[..short] == b[..short]
  {
    PrefixOfPrefix(a, long, short);
    PrefixOfPrefix(b, long, short);
  }

  lemma RewoundByOne(start: nat, reorgs: seq<ReorgNotification>, e: ChainEvent)
    ensures Rewound(start, reorgs + ReorgOf(e)) ==
            if e.Reorg? then Min(Rewound(start, reorgs), e.reorg.commonAncestor + 1) else Rewound(start, reorgs)
  {
    if e.Reorg? {
      assert (reorgs + [e.reorg])[..|reorgs|] == reorgs;
    } else {
      assert reorgs + [] == reorgs;
    }
  }

  /** Blocks below the rewound position are untouched by everything that happened. */
  lemma {:induction false} PrefixSurvives(chain: seq<RuBlock>, start: nat, events: seq<ChainEvent>)
    requires History(chain, events) && start <= |chain|
    ensures var kept := Rewound(start, ReorgsOf(events));
            && kept <= start && kept <= |ApplyEvents(chain, events)|
            && ApplyEvents(chain, events)[..kept] == chain[..kept]
    decreases |events|
  {
    if events != [] {
      var n := |events| - 1;
      PrefixSurvives(chain, start, events[..n]);
      var before, kept := ApplyEvents(chain, events[..n]), Rewound(start, ReorgsOf(events[..n]));
      EventKeepsPrefix(before, kept, events[n]);
      RewoundByOne(start, ReorgsOf(events[..n]), events[n]);
      ShorterPrefix(before, chain, kept, Rewound(start, ReorgsOf(events)));
    }
  }

  /** What a block-filter client knows: for each number, the hash it was told last. */
  function Learn(known: map<nat, Hash>, hashes: seq<Hash>, first: nat): map<nat, Hash>
    decreases |hashes|
  {
    if hashes == [] then known
    else Learn(known, hashes[..|hashes| - 1], first)[first + |hashes| - 1 := hashes[|hashes| - 1]]
  }

  lemma {:induction false} LearnAt(known: map<nat, Hash>, hashes: seq<Hash>, first: nat, n: nat)
    ensures n in Learn(known, hashes, first) <==> n in known || first <= n < first + |hashes|
    ensures n in Learn(known, hashes, first) ==>
              Learn(known, hashes, first)[n] == if first <= n < first + |hashes| then hashes[n - first] else known[n]
    decreases |hashes|
  {
    if hashes != [] {
      LearnAt(known, hashes[..|hashes| - 1], first, n);
    }
  }

  /** From block `first` on, the client knows the hashes of the canonical blocks below `start`. */
  ghost predicate KnowsBlocks(known: map<nat, Hash>, chain: seq<RuBlock>, first: nat, start: nat) {
    start <= |chain| && forall n :: first <= n < start ==> n in known && known[n] == chain[n].hash
  }
}
