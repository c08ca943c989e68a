/** Where the safe and finalized numbers of a notification come from, over every run and whatever fails. */
module TagRuns {
  import opened Wrappers
  import opened Host
  import opened HostProvider
  import opened Follower
  import opened FollowerRuns
  import opened ViewRuns

  /** Both numbers are the provider's answers to one pair of requests, neither of which broke. */
  ghost predicate AnsweredAt(p: Provider, safe: Option<nat>, finalized: Option<nat>, call: nat) {
    && !p.service(call).Broken? && !p.service(call + 1).Broken?
    && safe == p.safe(call) && finalized == p.finalized(call + 1)
  }

  /** The cached tags, while they are valid, were answered together by earlier requests. */
  ghost predicate CacheAnswered(p: Provider, s: State) {
    s.tags.epoch.Some? ==> exists call: nat :: call + 2 <= s.calls && AnsweredAt(p, s.tags.safe, s.tags.finalized, call)
  }

  /** What a notification reports was answered by one pair of requests made by then, and is what is cached. */
  ghost predicate Reported(p: Provider, s1: State, o: Outcome) {
    o.Emitted? ==>
      && s1.tags.epoch.Some? && s1.tags.safe == o.notification.safe && s1.tags.finalized == o.notification.finalized
      && exists call: nat :: call + 2 <= s1.calls && AnsweredAt(p, o.notification.safe, o.notification.finalized, call)
  }

  lemma AnnounceReports(p: Provider, c: Config, s: State, kind: Kind, timestamp: nat)
    requires CacheAnswered(p, s)
    ensures var (s1, o) := Announce(p, c, s, kind, timestamp);
            && CacheAnswered(p, s1) && Reported(p, s1, o) && s1.calls >= s.calls
            && (o.Emitted? ==> s1.tags.epoch == Some(EpochOf(c, timestamp)))
  {
    hide EpochOf;
    var (s1, o) := Announce(p, c, s, kind, timestamp);
    if o.Emitted? && s1.calls == s.calls + 2 {
      assert AnsweredAt(p, s1.tags.safe, s1.tags.finalized, s.calls);
    }
  }

  lemma LaterStillAnswered(p: Provider, s: State, s1: State)
    requires CacheAnswered(p, s) && s1.calls >= s.calls && (s1.tags == s.tags || s1.tags.epoch.None?)
    ensures CacheAnswered(p, s1)
  {
    if s1.tags.epoch.Some? {
      var call: nat :| call + 2 <= s.calls && AnsweredAt(p, s.tags.safe, s.tags.finalized, call);
      assert call + 2 <= s1.calls && AnsweredAt(p, s1.tags.safe, s1.tags.finalized, call);
    }
  }

  lemma DeliverReports(p: Provider, c: Config, moved: State, s: State, path: seq<BlockRef>, range: Option<RevertRange>, timestamp: nat)
    requires CacheAnswered(p, s) && moved.tags == s.tags
    ensures var (s1, o) := Deliver(p, c, moved, s, path, range, timestamp);
            CacheAnswered(p, s1) && Reported(p, s1, o) && s1.calls >= s.calls
  {
    hide FetchByHash, Announce, CacheAnswered;
    LaterStillAnswered(p, s, s.(calls := s.calls + |path|));
    if FetchByHash(p, s.calls, path).Ok? {
      var blocks := FetchByHash(p, s.calls, path).value;
      var s0 := moved.(calls := s.calls + |path|, lastEmitted := if path == [] then None else Some(Last(path)));
      LaterStillAnswered(p, s, s0);
      AnnounceReports(p, c, s0, if range.None? then ChainCommitted(blocks) else ChainReorged(range.value, blocks), timestamp);
    }
  }

  lemma {:induction false} WalkAsksForward(p: Provider, view: seq<BlockRef>, capacity: nat, call: nat, h: Hash, newer: seq<BlockRef>)
    requires |newer| <= capacity
    ensures WalkFrom(p, view, capacity, call, h, newer).calls >= call
    decreases capacity - |newer|
  {
    var answer := HeaderByHash(p, call, h);
    if answer.Ok? && |newer| < capacity {
      WalkAsksForward(p, view, capacity, call + 1, answer.value.parent, [BlockRef(answer.value.number, h)] + newer);
    }
  }

  lemma ResolveAsksForward(p: Provider, view: seq<BlockRef>, capacity: nat, call: nat, h: Hash)
    ensures ResolveWalk(p, view, capacity, call, h).calls >= call
  {
    hide WalkFrom;
    WalkAsksForward(p, view, capacity, call, h, []);
    var first := WalkChain(p, view, capacity, call, h);
    if LatestHash(p, first.calls).Ok? {
      WalkAsksForward(p, view, capacity, first.calls + 1, LatestHash(p, first.calls).value, []);
    }
  }

  lemma HeadReports(p: Provider, c: Config, s: State, hint: Hint)
    requires CacheAnswered(p, s)
    ensures var (s1, o) := HandleNewHead(p, c, s, hint); CacheAnswered(p, s1) && Reported(p, s1, o)
  {
    hide ResolveWalk, Deliver, CacheAnswered, LastN, ReorgView;
    ResolveAsksForward(p, s.view, c.capacity, s.calls, hint.hash);
    var step := ResolveWalk(p, s.view, c.capacity, s.calls, hint.hash);
    var s1 := s.(calls := step.calls);
    LaterStillAnswered(p, s, s1);
    match step.walk
    case Advance(path) =>
      DeliverReports(p, c, s1.(view := LastN(s.view + path, c.capacity)), s1, path, None, hint.timestamp);
    case Reorg(fork, oldTip, path) =>
      DeliverReports(p, c, s1.(view := ReorgView(s.view, c.capacity, fork, path)), s1, path, Some(RevertRange(fork, oldTip)), hint.timestamp);
    case _ =>
      LaterStillAnswered(p, s, HandleNewHead(p, c, s, hint).0);
  }

  lemma BatchReports(p: Provider, c: Config, s: State, from: nat, tip: nat)
    requires CacheAnswered(p, s) && from <= tip
    ensures var (s1, o) := IngestBatch(p, c, s, from, tip); CacheAnswered(p, s1) && Reported(p, s1, o)
  {
    var upTo := BatchEnd(c.capacity, s.batchSize, tip, from);
    var asked := s.(calls := s.calls + (upTo + 1 - from));
    var fetched := FetchRange(p, s.calls, from, upTo);
    assert from <= upTo && (fetched.Ok? ==> fetched.value != []);
    hide FetchRange, Announce, CacheAnswered, LastN, BackfillCeiling, BatchEnd;
    LaterStillAnswered(p, s, asked);
    LaterStillAnswered(p, s, asked.(view := []));
    if fetched.Ok? {
      var blocks := fetched.value;
      var moved := asked.(view := LastN(s.view + Refs(blocks), c.capacity), lastEmitted := Some(Ref(Last(blocks))),
                          backfillFrom := if upTo >= BackfillCeiling(c.capacity, tip, from) then None else Some(upTo + 1));
      LaterStillAnswered(p, s, moved);
      AnnounceReports(p, c, moved, ChainCommitted(blocks), Last(blocks).timestamp);
    }
  }

  lemma TurnReports(p: Provider, c: Config, s: State)
    requires CacheAnswered(p, s)
    ensures var (s1, o) := Turn(p, c, s); CacheAnswered(p, s1) && Reported(p, s1, o)
  {
    hide IngestBatch, HandleNewHead, CacheAnswered;
    var (s1, drained) := DrainBackfill(p, c, s);
    if s.backfillFrom.Some? && TipNumber(p, s.calls).Ok? && s.backfillFrom.value <= TipNumber(p, s.calls).value {
      LaterStillAnswered(p, s, s.(calls := s.calls + 1));
      BatchReports(p, c, s.(calls := s.calls + 1), s.backfillFrom.value, TipNumber(p, s.calls).value);
    } else {
      LaterStillAnswered(p, s, s1);
    }
    if drained.Silent? && s1.bursts != [] {
      var s2 := s1.(bursts := s1.bursts[1..]);
      LaterStillAnswered(p, s1, s2);
      if s1.bursts[0] != [] {
        HeadReports(p, c, s2, Last(s1.bursts[0]));
      }
    }
  }

  /** One call, whatever its outcome, keeps the cache valid and reports what is in it. */
  lemma {:induction false} CallReports(p: Provider, c: Config, s: State)
    requires CacheAnswered(p, s)
    ensures var (s1, o) := NextNotification(p, c, s); CacheAnswered(p, s1) && Reported(p, s1, o)
    decreases |s.bursts|
  {
    hide Turn, CacheAnswered, Reported;
    TurnConsumes(p, c, s);
    TurnReports(p, c, s);
    var (s1, o) := Turn(p, c, s);
    if o.Silent? {
      CallReports(p, c, s1);
    }
  }

  /**
   * After any number of calls of a fresh notifier, errors or not: what the next notification reports as safe and
   * finalized are the provider's answers to one pair of requests made before.
   */
  lemma {:induction false} RunReports(p: Provider, c: Config, s: State, k: nat)
    requires CacheAnswered(p, s)
    ensures Reported(p, NextNotification(p, c, AfterCalls(p, c, s, k)).0, NextNotification(p, c, AfterCalls(p, c, s, k)).1)
    decreases k
  {
    hide NextNotification, CacheAnswered, Reported;
    CallReports(p, c, s);
    if k > 0 {
      RunReports(p, c, NextNotification(p, c, s).0, k - 1);
    }
  }

  lemma FreshCache(p: Provider, head: nat, batchSize: Positive, bursts: seq<seq<Hint>>)
    ensures CacheAnswered(p, Initial(head, batchSize, bursts))
  {
  }
}
