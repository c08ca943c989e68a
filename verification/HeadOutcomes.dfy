/**
 * What a call does when its requests are served: the outcome of every header is decided by its distance from the
 * view, nothing fails, and the notification carries exactly the blocks, the range and the tags it should.
 */
module HeadOutcomes {
  import opened Wrappers
  import opened Host
  import opened HostProvider
  import opened Follower
  import opened FollowerRuns
  import opened WalkDecision

  // ---- What is decided ----

  /** The news of block `h` for a consumer whose newest blocks are in the view, `d` blocks below it. */
  function NewsOf(tree: Tree, view: seq<BlockRef>, h: Hash, d: nat): Kind
    requires Rooted(tree) && h in tree && d <= tree[h].number && view != []
  {
    PathIsIn(tree, h, d);
    var blocks := BlocksAt(tree, PathTo(tree, h, d));
    var ancestor := tree[h].number - d;
    if ancestor == Last(view).number then ChainCommitted(blocks)
    else ChainReorged(RevertRange(ancestor + 1, Last(view).number), blocks)
  }

  /**
   * The tags reported with a block of that timestamp: the cached ones within their epoch, otherwise the answers to the
   * last two requests, which are then what is cached.
   */
  ghost predicate ReportsTags(p: Provider, c: Config, s: State, s1: State, n: Notification, timestamp: nat) {
    var epoch := Some(EpochOf(c, timestamp));
    && s1.tags == TagCache(n.safe, n.finalized, epoch)
    && (s.tags.epoch == epoch ==> s1.tags == s.tags)
    && (s.tags.epoch != epoch ==> s1.calls >= s.calls + 2 && n.safe == p.safe(s1.calls - 2) && n.finalized == p.finalized(s1.calls - 1))
  }

  /** What a header that leads to block `h` does: nothing, a cleared view, or the news of `h`. */
  ghost predicate Decided(p: Provider, c: Config, s: State, h: Hash, timestamp: nat, s1: State, o: Outcome)
    requires Rooted(p.tree) && h in p.tree && s.view != []
  {
    var d := Distance(p.tree, s.view, h, 0);
    if d == Some(0) then o.Silent? && s1 == s.(calls := s1.calls)
    else if d.None? || d.value > c.capacity || d.value > p.tree[h].number then
      && o.Silent? && s1.view == [] && s1.tags.epoch.None? && s1.lastEmitted == s.lastEmitted && s1.bursts == s.bursts
      && s1.backfillFrom == (if s.lastEmitted.Some? then Some(s.lastEmitted.value.number + 1) else None)
    else
      && o.Emitted? && o.notification.kind == NewsOf(p.tree, s.view, h, d.value)
      && ReportsTags(p, c, s, s1, o.notification, timestamp)
      && s1.lastEmitted == Some(RefAt(p.tree, h)) && s1.view != [] && Last(s1.view) == RefAt(p.tree, h)
      && p.tree[h].number >= s.view[0].number && |s1.view| == Min(c.capacity, p.tree[h].number + 1 - s.view[0].number)
      && s1.backfillFrom == s.backfillFrom && s1.bursts == s.bursts
  }

  // ---- Paths ----

  lemma {:induction false} PathIsIn(tree: Tree, h: Hash, d: nat)
    requires Rooted(tree) && h in tree && d <= tree[h].number
    ensures RefsIn(tree, PathTo(tree, h, d)) && (d > 0 ==> Last(PathTo(tree, h, d)) == RefAt(tree, h))
    decreases d
  {
    if d > 0 {
      PathIsIn(tree, h, d - 1);
      assert Ancestor(tree, h, 0) == h;
    }
  }

  lemma {:induction false} FetchIsServed(p: Provider, call: nat, refs: seq<BlockRef>)
    requires ServedFrom(p, call) && RefsIn(p.tree, refs)
    ensures FetchByHash(p, call, refs) == Ok(BlocksAt(p.tree, refs))
    decreases |refs|
  {
    hide Rooted;
    if refs != [] {
      FetchIsServed(p, call + 1, refs[1..]);
      assert BlocksAt(p.tree, refs) == [BlockAt(p.tree, refs[0].hash)] + BlocksAt(p.tree, refs[1..]);
    }
  }

  /** An epoch is a stretch of 32 slots from the genesis timestamp on. */
  lemma EpochIsIff(c: Config, timestamp: nat, epoch: nat)
    ensures var seconds := c.slotSeconds * 32;
            EpochOf(c, timestamp) == epoch <==>
            if timestamp < c.genesisTimestamp then epoch == 0
            else c.genesisTimestamp + epoch * seconds <= timestamp < c.genesisTimestamp + (epoch + 1) * seconds
  {
    var seconds := c.slotSeconds * SLOTS_PER_EPOCH;
    var elapsed := if timestamp < c.genesisTimestamp then 0 else timestamp - c.genesisTimestamp;
    DivisionIff(elapsed, seconds, epoch);
  }

  lemma DivisionIff(a: nat, b: Positive, q: nat)
    ensures a / b == q <==> q * b <= a < (q + 1) * b
  {
    assert a == (a / b) * b + a % b;
    if q < a / b {
      assert (q + 1) * b <= (a / b) * b;
    } else if q > a / b {
      assert (a / b + 1) * b <= q * b;
    }
  }

  // ---- One header ----

  /** With its requests served, a delivery is emitted, as exactly these blocks. */
  lemma DeliveryIsServed(p: Provider, c: Config, moved: State, s: State, path: seq<BlockRef>, range: Option<RevertRange>, timestamp: nat)
    requires ServedFrom(p, s.calls) && RefsIn(p.tree, path) && path != [] && moved.tags == s.tags
    ensures var (s1, o) := Deliver(p, c, moved, s, path, range, timestamp);
            && o.Emitted?
            && o.notification.kind == (if range.None? then ChainCommitted(BlocksAt(p.tree, path)) else ChainReorged(range.value, BlocksAt(p.tree, path)))
            && ReportsTags(p, c, s, s1, o.notification, timestamp)
            && s1 == moved.(calls := s1.calls, lastEmitted := Some(Last(path)), tags := s1.tags)
  {
    hide EpochOf, FetchByHash, Rooted;
    FetchIsServed(p, s.calls, path);
  }

  lemma ViewEndsWith(view: seq<BlockRef>, path: seq<BlockRef>, capacity: Positive)
    requires path != []
    ensures var v := LastN(view + path, capacity);
            v != [] && Last(v) == Last(path) && |v| == Min(capacity, |view| + |path|)
  {
  }

  /** The highest common ancestor is one of the view's blocks, and cutting above it leaves the view up to it. */
  lemma AncestorIsInView(p: Provider, view: seq<BlockRef>, h: Hash, d: nat)
    requires Rooted(p.tree) && ViewOk(p, view) && view != [] && h in p.tree && Distance(p.tree, view, h, 0) == Some(d)
    ensures d <= p.tree[h].number && view[0].number <= p.tree[h].number - d <= Last(view).number
    ensures |DropFrom(view, p.tree[h].number - d + 1)| == p.tree[h].number - d + 1 - view[0].number
    ensures |view| == Last(view).number + 1 - view[0].number
  {
    DistanceAtLeast(p.tree, view, h, 0);
    DistanceIsLeast(p.tree, view, h, 0, d);
    hide Ancestor, NoneNearer, Distance, Rooted, DropFrom, RefsLinked;
    var i :| 0 <= i < |view| && view[i].hash == Ancestor(p.tree, h, d);
    CutLength(view, i);
  }

  lemma CutLength(view: seq<BlockRef>, i: nat)
    requires Contiguous(view) && i < |view|
    ensures |DropFrom(view, view[i].number + 1)| == i + 1 && view[i].number == view[0].number + i
    ensures view[0].number <= view[i].number <= Last(view).number && |view| == Last(view).number + 1 - view[0].number
  {
    DropFromSuffix(view, view[i].number + 1, i + 1);
  }

  /** Every walk that does not fail is followed by what it decided. */
  lemma WalkIsDone(p: Provider, c: Config, s: State, hint: Hint, h: Hash, d: Option<nat>)
    requires s.view != [] && ViewOk(p, s.view) && Rooted(p.tree) && h in p.tree && d == Distance(p.tree, s.view, h, 0)
    requires var step := ResolveWalk(p, s.view, c.capacity, s.calls, hint.hash);
             s.calls <= step.calls && ServedFrom(p, step.calls) && step.walk == Decision(p.tree, s.view, c.capacity, h, d)
    ensures Decided(p, c, s, h, hint.timestamp, HandleNewHead(p, c, s, hint).0, HandleNewHead(p, c, s, hint).1)
  {
    hide ResolveWalk, Deliver, Rooted, Distance, ServedFrom, PathTo, ViewOk, DropFrom, LastN;
    var step := ResolveWalk(p, s.view, c.capacity, s.calls, hint.hash);
    var s1 := s.(calls := step.calls);
    match step.walk
    case Advance(path) =>
      PathIsIn(p.tree, h, d.value);
      AncestorIsInView(p, s.view, h, d.value);
      ViewEndsWith(s.view, path, c.capacity);
      DeliveryIsServed(p, c, s1.(view := LastN(s.view + path, c.capacity)), s1, path, None, hint.timestamp);
    case Reorg(fork, oldTip, path) =>
      PathIsIn(p.tree, h, d.value);
      AncestorIsInView(p, s.view, h, d.value);
      ViewEndsWith(DropFrom(s.view, fork), path, c.capacity);
      DeliveryIsServed(p, c, s1.(view := ReorgView(s.view, c.capacity, fork, path)), s1, path, Some(RevertRange(fork, oldTip)), hint.timestamp);
    case _ =>
  }

  /**
   * With every request served, a header is never an error: its block's distance from the view alone decides whether it
   * is ignored, clears the view, or is delivered, and as what.
   */
  lemma HeadDecides(p: Provider, c: Config, s: State, hint: Hint)
    requires ServedFrom(p, s.calls) && ViewOk(p, s.view) && s.view != [] && hint.hash in p.tree
    ensures var (s1, o) := HandleNewHead(p, c, s, hint); Decided(p, c, s, hint.hash, hint.timestamp, s1, o)
  {
    WalkDecides(p, s.view, c.capacity, s.calls, hint.hash);
    var _ := ResolveWalkOk(p, s.view, c.capacity, s.calls, hint.hash);
    hide WalkChain, HandleNewHead, Decided, Distance, Decision;
    WalkIsDone(p, c, s, hint, hint.hash, Distance(p.tree, s.view, hint.hash, 0));
  }

  // ---- A header whose walk meets a missing or broken answer ----

  /** The first `d` blocks down from `h` are served, not in the view, and neither below it nor too many. */
  ghost predicate WalksDown(p: Provider, view: seq<BlockRef>, capacity: nat, call: nat, h: Hash, d: nat) {
    && view != [] && Last(view).hash != h && d <= capacity
    && (d > 0 ==>
         && Rooted(p.tree) && h in p.tree && d <= p.tree[h].number
         && forall e: nat {:trigger Ancestor(p.tree, h, e)} :: e < d ==>
              && p.service(call + e).Served? && !InView(view, Ancestor(p.tree, h, e))
              && p.tree[h].number - e >= view[0].number)
  }

  /** The block asked for after `d` steps down. */
  function BlockBelow(p: Provider, h: Hash, d: nat): Hash
    requires d > 0 ==> Rooted(p.tree) && h in p.tree && d <= p.tree[h].number
  {
    if d == 0 then h else Ancestor(p.tree, h, d)
  }

  lemma StepDown(p: Provider, view: seq<BlockRef>, capacity: nat, call: nat, a: Hash, newer: seq<BlockRef>)
    requires ViewNumbered(p, view) && view != [] && |newer| < capacity
    requires p.service(call).Served? && a in p.tree && !InView(view, a) && p.tree[a].number >= view[0].number
    ensures WalkFrom(p, view, capacity, call, a, newer) ==
            WalkFrom(p, view, capacity, call + 1, p.tree[a].parent, [RefAt(p.tree, a)] + newer)
  {
    ViewHashIsSearch(p, view, a);
  }

  lemma {:induction false} WalkGoesDown(p: Provider, view: seq<BlockRef>, capacity: nat, call: nat, h: Hash, d: nat, k: nat)
    requires ViewNumbered(p, view) && WalksDown(p, view, capacity, call, h, d) && k <= d
    ensures WalkFrom(p, view, capacity, call, h, []) ==
            WalkFrom(p, view, capacity, call + k, BlockBelow(p, h, k), if k == 0 then [] else PathTo(p.tree, h, k))
    decreases k
  {
    hide InView, WalkFrom, Rooted;
    if k > 0 {
      WalkGoesDown(p, view, capacity, call, h, d, k - 1);
      var a := Ancestor(p.tree, h, k - 1);
      StepDown(p, view, capacity, call + (k - 1), a, PathTo(p.tree, h, k - 1)) by {
        assert p.service(call + (k - 1)).Served?;
      }
      assert Ancestor(p.tree, h, k) == p.tree[a].parent;
    }
  }

  /** The lookup after `d` steps fails with this error. */
  lemma WalkFailsAt(p: Provider, view: seq<BlockRef>, capacity: nat, call: nat, h: Hash, d: nat, error: Error)
    requires ViewNumbered(p, view) && WalksDown(p, view, capacity, call, h, d)
    requires HeaderByHash(p, call + d, BlockBelow(p, h, d)) == Err(error)
    ensures WalkChain(p, view, capacity, call, h) == WalkStep(WalkFailed(error), call + d + 1)
  {
    WalkGoesDown(p, view, capacity, call, h, d, d);
  }

  /** A lookup that breaks is reported, and nothing but the number of requests has changed. */
  lemma BrokenLookupFails(p: Provider, c: Config, s: State, hint: Hint, d: nat)
    requires ViewOk(p, s.view) && WalksDown(p, s.view, c.capacity, s.calls, hint.hash, d) && p.service(s.calls + d).Broken?
    ensures HandleNewHead(p, c, s, hint) == (s.(calls := s.calls + d + 1), Failed(Rpc))
  {
    hide Ancestor;
    WalkFailsAt(p, s.view, c.capacity, s.calls, hint.hash, d, Rpc);
    hide WalkChain, WalksDown;
  }

  /**
   * When a block of the walk is gone, because a stale hint names a block that was reorged away, the header is
   * decided like one that names the provider's latest block.
   */
  lemma MissingBlockFallsBack(p: Provider, c: Config, s: State, hint: Hint, d: nat)
    requires Honest(p) && ViewOk(p, s.view) && WalksDown(p, s.view, c.capacity, s.calls, hint.hash, d)
    requires p.service(s.calls + d).Absent? || (d == 0 && p.service(s.calls).Served? && hint.hash !in p.tree)
    requires ServedFrom(p, s.calls + d + 1)
    ensures p.canonical(s.calls + d + 1) != [] && Last(p.canonical(s.calls + d + 1)) in p.tree
    ensures var (s1, o) := HandleNewHead(p, c, s, hint);
            Decided(p, c, s, Last(p.canonical(s.calls + d + 1)), hint.timestamp, s1, o)
  {
    hide WalkChain, ResolveWalk, HandleNewHead, Decided, Distance, Decision;
    var after := s.calls + d + 1;
    assert IsCanonical(p.tree, p.canonical(after)) && s.view != [];
    var latest := Last(p.canonical(after));
    FallsBack(p, s.view, c.capacity, s.calls, hint.hash, d, latest);
    hide WalksDown, IsCanonical, Honest;
    WalkDecides(p, s.view, c.capacity, after + 1, latest);
    WalkIsDone(p, c, s, hint, latest, Distance(p.tree, s.view, latest, 0));
  }

  lemma FallsBack(p: Provider, view: seq<BlockRef>, capacity: nat, call: nat, h: Hash, d: nat, latest: Hash)
    requires ViewNumbered(p, view) && WellFormed(p.tree) && WalksDown(p, view, capacity, call, h, d)
    requires p.service(call + d).Absent? || (d == 0 && p.service(call).Served? && h !in p.tree)
    requires LatestHash(p, call + d + 1) == Ok(latest)
    ensures ResolveWalk(p, view, capacity, call, h) == WalkChain(p, view, capacity, call + d + 2, latest)
    ensures ResolveWalk(p, view, capacity, call, h).calls >= call + d + 2
  {
    hide Rooted, InView, WalkFrom, Ancestor;
    WalkFailsAt(p, view, capacity, call, h, d, MissingBlockByHash(BlockBelow(p, h, d)));
    hide WalksDown, ViewNumbered;
    WalkGoesOn(p, view, capacity, call + d + 2, latest);
    hide WalkChain;
    assert ResolveWalk(p, view, capacity, call, h) == WalkChain(p, view, capacity, call + d + 2, latest);
  }

  lemma WalkGoesOn(p: Provider, view: seq<BlockRef>, capacity: nat, call: nat, h: Hash)
    requires ViewNumbered(p, view) && WellFormed(p.tree) && view != []
    ensures WalkChain(p, view, capacity, call, h).calls >= call
  {
    if Last(view).hash != h {
      WalkFromOk(p, view, capacity, call, h, []);
    }
  }

  // ---- One call ----

  /** A burst that changes nothing: empty, or ending with a block of the view. */
  ghost predicate NothingNew(view: seq<BlockRef>, burst: seq<Hint>) {
    burst == [] || InView(view, Last(burst).hash)
  }

  lemma {:induction false} SeenIsSkipped(p: Provider, c: Config, s: State, hint: Hint)
    requires ServedFrom(p, s.calls) && ViewOk(p, s.view) && hint.hash in p.tree && InView(s.view, hint.hash)
    ensures var (s1, o) := HandleNewHead(p, c, s, hint); o.Silent? && s1 == s.(calls := s1.calls) && s1.calls >= s.calls
  {
    HeadDecides(p, c, s, hint);
    DistanceIsLeast(p.tree, s.view, hint.hash, 0, 0);
    assert Ancestor(p.tree, hint.hash, 0) == hint.hash;
    var _ := ResolveWalkOk(p, s.view, c.capacity, s.calls, hint.hash);
  }

  /**
   * A call skips the bursts that bring nothing new; the last header of the first one that does decides the outcome. If
   * there is none, the stream has ended.
   */
  lemma {:induction false} CallDecides(p: Provider, c: Config, s: State, k: nat) returns (before: State)
    requires ServedFrom(p, s.calls) && ViewOk(p, s.view) && s.view != [] && s.backfillFrom.None? && k <= |s.bursts|
    requires forall i :: 0 <= i < |s.bursts| && s.bursts[i] != [] ==> Last(s.bursts[i]).hash in p.tree
    requires forall i :: 0 <= i < k ==> NothingNew(s.view, s.bursts[i])
    ensures before == s.(calls := before.calls, bursts := before.bursts) && before.calls >= s.calls
    ensures k == |s.bursts| ==> NextNotification(p, c, s) == (before, Closed) && before.bursts == []
    ensures k < |s.bursts| && !NothingNew(s.view, s.bursts[k]) ==>
              var hint := Last(s.bursts[k]);
              var (s1, o) := HandleNewHead(p, c, before, hint);
              && before.bursts == s.bursts[k + 1..] && Decided(p, c, before, hint.hash, hint.timestamp, s1, o)
              && (!o.Silent? ==> NextNotification(p, c, s) == (s1, o))
              && (o.Silent? ==> NextNotification(p, c, s) == NextNotification(p, c, s1))
    decreases k
  {
    hide HandleNewHead, InView, Decided, ViewOk, ServedFrom;
    if k == 0 {
      before := s;
      if s.bursts != [] && s.bursts[0] != [] {
        before := s.(bursts := s.bursts[1..]);
        HeadDecides(p, c, before, Last(s.bursts[0]));
        TurnConsumes(p, c, s);
      }
    } else {
      var rest := s.(bursts := s.bursts[1..]);
      TurnConsumes(p, c, s);
      if s.bursts[0] == [] {
        before := CallDecides(p, c, rest, k - 1);
      } else {
        SeenIsSkipped(p, c, rest, Last(s.bursts[0]));
        var s1 := HandleNewHead(p, c, rest, Last(s.bursts[0])).0;
        assert ServedFrom(p, s1.calls) by {
          LaterIsServed(p, s.calls, s1.calls);
        }
        before := CallDecides(p, c, s1, k - 1);
      }
      assert k < |s.bursts| ==> s.bursts[1..][k..] == s.bursts[k + 1..];
    }
  }

  lemma LaterIsServed(p: Provider, call: nat, later: nat)
    requires ServedFrom(p, call) && call <= later
    ensures ServedFrom(p, later)
  {
  }
}
