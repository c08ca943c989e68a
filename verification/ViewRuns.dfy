/**
 * What holds over every run of the follower, linked or not and errors included: the view stays contiguous, so that
 * its constant-time lookup finds the block it looks for, and every revert range is valid. Neither can panic.
 */
module ViewRuns {
  import opened Wrappers
  import opened Host
  import opened HostProvider
  import opened Follower
  import opened FollowerRuns

  /** Consecutive blocks of the tree, and a cursor that goes on right above them. */
  ghost predicate Numbered(p: Provider, s: State) {
    && ViewNumbered(p, s.view)
    && (s.backfillFrom.Some? && s.view != [] ==> s.backfillFrom.value == Last(s.view).number + 1)
  }

  /** A revert range that is reported is one `RevertRange::new` accepts. */
  ghost predicate RangeOk(o: Outcome) {
    o.Emitted? && o.notification.kind.Reverted().Some? ==> o.notification.kind.Reverted().value.Valid()
  }

  // ---- Views ----

  lemma ViewAppend(p: Provider, view: seq<BlockRef>, path: seq<BlockRef>, capacity: Positive)
    requires ViewNumbered(p, view) && ViewNumbered(p, path) && path != []
    requires view != [] ==> path[0].number == Last(view).number + 1
    ensures var v := LastN(view + path, capacity); ViewNumbered(p, v) && v != [] && Last(v) == Last(path)
  {
    NumberedAppend(p, view, path);
    hide ViewNumbered;
    LastNumbered(p, view + path, capacity);
  }

  lemma LastNumbered(p: Provider, view: seq<BlockRef>, capacity: Positive)
    requires ViewNumbered(p, view) && view != []
    ensures var v := LastN(view, capacity); ViewNumbered(p, v) && v != [] && Last(v) == Last(view)
  {
    if |view| > capacity {
      SuffixNumbered(p, view, |view| - capacity);
    }
  }

  lemma NumberedAppend(p: Provider, view: seq<BlockRef>, path: seq<BlockRef>)
    requires ViewNumbered(p, view) && ViewNumbered(p, path) && path != []
    requires view != [] ==> path[0].number == Last(view).number + 1
    ensures ViewNumbered(p, view + path)
  {
    assert view != [] ==> Last(view).number == view[0].number + |view| - 1;
  }

  lemma SuffixNumbered(p: Provider, view: seq<BlockRef>, skip: nat)
    requires ViewNumbered(p, view) && skip <= |view|
    ensures ViewNumbered(p, view[skip..])
  {
  }

  lemma PrefixNumbered(p: Provider, view: seq<BlockRef>, keep: nat)
    requires ViewNumbered(p, view) && keep <= |view|
    ensures ViewNumbered(p, view[..keep])
  {
  }

  lemma {:induction false} PathNumbered(p: Provider, path: seq<BlockRef>, i: nat)
    requires WellFormed(p.tree) && RefsIn(p.tree, path) && RefsLinked(p.tree, path) && i < |path|
    ensures path[i].number == path[0].number + i
  {
    if i > 0 {
      PathNumbered(p, path, i - 1);
      assert p.tree[path[i].hash].parent == path[i - 1].hash;
    }
  }

  lemma PathIsNumbered(p: Provider, path: seq<BlockRef>)
    requires WellFormed(p.tree) && RefsIn(p.tree, path) && RefsLinked(p.tree, path)
    ensures ViewNumbered(p, path)
  {
    forall i | 0 <= i < |path|
      ensures path[i].number == path[0].number + i
    {
      PathNumbered(p, path, i);
    }
  }

  /** Popping from the fork on leaves a view that ends right below it. */
  lemma CutNumbered(p: Provider, view: seq<BlockRef>, fork: nat)
    requires ViewNumbered(p, view) && fork > 0 && ViewHash(view, fork - 1).Some?
    ensures var v := DropFrom(view, fork); ViewNumbered(p, v) && v != [] && Last(v).number + 1 == fork
  {
    ViewHashPosition(view, fork - 1);
    var keep := fork - view[0].number;
    DropFromSuffix(view, fork, keep);
    PrefixNumbered(p, view, keep);
  }

  // ---- Steps ----

  lemma AdvanceKeepsNumbered(p: Provider, c: Config, view: seq<BlockRef>, top: Hash, path: seq<BlockRef>)
    requires WellFormed(p.tree) && ViewNumbered(p, view) && WalkOk(p, view, c.capacity, top, Advance(path))
    ensures ViewNumbered(p, LastN(view + path, c.capacity))
  {
    PathIsNumbered(p, path);
    ViewAppend(p, view, path, c.capacity);
  }

  lemma ReorgKeepsNumbered(p: Provider, c: Config, view: seq<BlockRef>, top: Hash, fork: nat, oldTip: nat, path: seq<BlockRef>)
    requires WellFormed(p.tree) && ViewNumbered(p, view) && WalkOk(p, view, c.capacity, top, Reorg(fork, oldTip, path))
    ensures ViewNumbered(p, ReorgView(view, c.capacity, fork, path)) && RevertRange(fork, oldTip).Valid()
  {
    PathIsNumbered(p, path);
    CutNumbered(p, view, fork);
    ViewAppend(p, DropFrom(view, fork), path, c.capacity);
  }

  /** Where a delivery leaves view and cursor: as they were if the fetch failed, moved otherwise. */
  lemma DeliverLeaves(p: Provider, c: Config, moved: State, s: State, path: seq<BlockRef>, range: Option<RevertRange>, timestamp: nat)
    ensures var (s1, o) := Deliver(p, c, moved, s, path, range, timestamp);
            && (s1.view, s1.backfillFrom) in {(s.view, s.backfillFrom), (moved.view, moved.backfillFrom)}
            && (o.Emitted? ==> o.notification.kind.Reverted() == range)
  {
    hide FetchByHash, RefreshTags;
  }

  lemma HeadKeepsNumbered(p: Provider, c: Config, s: State, hint: Hint)
    requires WellFormed(p.tree) && Numbered(p, s) && s.backfillFrom.None?
    ensures var (s1, o) := HandleNewHead(p, c, s, hint); Numbered(p, s1) && RangeOk(o)
  {
    hide ResolveWalk, ViewNumbered, WalkOk, Deliver, ReorgView, LastN;
    var top := ResolveWalkOk(p, s.view, c.capacity, s.calls, hint.hash);
    var step := ResolveWalk(p, s.view, c.capacity, s.calls, hint.hash);
    var s1 := s.(calls := step.calls);
    match step.walk
    case Advance(path) =>
      AdvanceKeepsNumbered(p, c, s.view, top, path);
      DeliverLeaves(p, c, s1.(view := LastN(s.view + path, c.capacity)), s1, path, None, hint.timestamp);
    case Reorg(fork, oldTip, path) =>
      ReorgKeepsNumbered(p, c, s.view, top, fork, oldTip, path);
      DeliverLeaves(p, c, s1.(view := ReorgView(s.view, c.capacity, fork, path)), s1, path, Some(RevertRange(fork, oldTip)), hint.timestamp);
    case Exhausted => NothingNumbered(p);
    case _ =>
  }

  lemma NothingNumbered(p: Provider)
    ensures ViewNumbered(p, [])
  {
  }

  /** Where a batch leaves view and cursor: as they were, cleared, or moved to its last block. */
  lemma BatchMoves(p: Provider, c: Config, s: State)
    requires s.backfillFrom.Some? && TipNumber(p, s.calls).Ok? && s.backfillFrom.value <= TipNumber(p, s.calls).value
    ensures var from := s.backfillFrom.value;
            var upTo := BatchEnd(c.capacity, s.batchSize, TipNumber(p, s.calls).value, from);
            var (s1, o) := DrainBackfill(p, c, s);
            && from <= upTo && !o.Silent? && (o.Emitted? ==> o.notification.kind.ChainCommitted?)
            && if FetchRange(p, s.calls + 1, from, upTo).Ok? then
                 var moved := LastN(s.view + Refs(FetchRange(p, s.calls + 1, from, upTo).value), c.capacity);
                 || (s1.view == [] && s1.backfillFrom == s.backfillFrom)
                 || (s1.view == moved && (s1.backfillFrom.Some? ==> s1.backfillFrom.value == upTo + 1))
               else s1.view == s.view && s1.backfillFrom == s.backfillFrom
  {
    hide FetchRange, RefreshTags, LastN;
  }

  lemma DrainKeepsNumbered(p: Provider, c: Config, s: State)
    requires Honest(p) && Numbered(p, s)
    ensures var (s1, o) := DrainBackfill(p, c, s); Numbered(p, s1) && RangeOk(o) && (o.Silent? ==> s1.backfillFrom.None?)
  {
    hide FetchRange, ViewNumbered, LastN, BatchEnd, IngestBatch;
    NothingNumbered(p);
    if s.backfillFrom.Some? && TipNumber(p, s.calls).Ok? && s.backfillFrom.value <= TipNumber(p, s.calls).value {
      BatchMoves(p, c, s);
      hide DrainBackfill;
      var from := s.backfillFrom.value;
      var upTo := BatchEnd(c.capacity, s.batchSize, TipNumber(p, s.calls).value, from);
      if FetchRange(p, s.calls + 1, from, upTo).Ok? {
        BatchIsNumbered(p, s.calls + 1, from, upTo);
        ViewAppend(p, s.view, Refs(FetchRange(p, s.calls + 1, from, upTo).value), c.capacity);
      }
    }
  }

  lemma BatchIsNumbered(p: Provider, call: nat, from: nat, upTo: nat)
    requires Honest(p) && from <= upTo && FetchRange(p, call, from, upTo).Ok?
    ensures var path := Refs(FetchRange(p, call, from, upTo).value);
            ViewNumbered(p, path) && path != [] && path[0].number == from && Last(path).number == upTo
  {
    hide FetchRange;
    BatchLinkedIffSeamsAgree(p, call, from, upTo);
  }

  lemma TurnKeepsNumbered(p: Provider, c: Config, s: State)
    requires Honest(p) && Numbered(p, s)
    ensures var (s1, o) := Turn(p, c, s); Numbered(p, s1) && RangeOk(o)
  {
    hide DrainBackfill, HandleNewHead, ViewNumbered;
    DrainKeepsNumbered(p, c, s);
    var (s1, drained) := DrainBackfill(p, c, s);
    if drained.Silent? && s1.bursts != [] && s1.bursts[0] != [] {
      HeadKeepsNumbered(p, c, s1.(bursts := s1.bursts[1..]), Last(s1.bursts[0]));
    }
  }

  // ---- Runs ----

  /** One call, whatever its outcome. */
  lemma {:induction false} CallKeepsNumbered(p: Provider, c: Config, s: State)
    requires Honest(p) && Numbered(p, s)
    ensures var (s1, o) := NextNotification(p, c, s); Numbered(p, s1) && RangeOk(o)
    decreases |s.bursts|
  {
    hide Turn, Numbered;
    TurnConsumes(p, c, s);
    TurnKeepsNumbered(p, c, s);
    var (s1, o) := Turn(p, c, s);
    if o.Silent? {
      CallKeepsNumbered(p, c, s1);
    }
  }

  /** The state after `k` calls, errors or not. */
  function AfterCalls(p: Provider, c: Config, s: State, k: nat): State
    decreases k
  {
    if k == 0 then s else AfterCalls(p, c, NextNotification(p, c, s).0, k - 1)
  }

  lemma {:induction false} CallsKeepNumbered(p: Provider, c: Config, s: State, k: nat)
    requires Honest(p) && Numbered(p, s)
    ensures Numbered(p, AfterCalls(p, c, s, k))
    decreases k
  {
    hide NextNotification, Numbered;
    if k > 0 {
      CallKeepsNumbered(p, c, s);
      CallsKeepNumbered(p, c, NextNotification(p, c, s).0, k - 1);
    }
  }

  /**
   * After any number of calls of a fresh notifier the view is contiguous, and what the next call reports is valid.
   * No call has to be good, and no outcome is excluded.
   */
  lemma RunNeverPanics(p: Provider, c: Config, head: nat, batchSize: Positive, bursts: seq<seq<Hint>>, k: nat)
    requires Honest(p)
    ensures var s := AfterCalls(p, c, Initial(head, batchSize, bursts), k);
            Contiguous(s.view) && RangeOk(NextNotification(p, c, s).1)
  {
    NothingNumbered(p);
    CallsKeepNumbered(p, c, Initial(head, batchSize, bursts), k);
    CallKeepsNumbered(p, c, AfterCalls(p, c, Initial(head, batchSize, bursts), k));
  }
}
