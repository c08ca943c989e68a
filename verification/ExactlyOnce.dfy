/** Exactly-once, in-order delivery on a host chain that only grows, through exhaustion and re-entered backfill. */
module ExactlyOnce {
  import opened Wrappers
  import opened Host
  import opened HostProvider
  import opened Follower
  import opened FollowerRuns

  /** The canonical chain never reorganises and never gets shorter from one request to a later one. */
  ghost predicate AppendOnly(p: Provider) {
    forall i, j {:trigger Extends(p, i, j)} :: i <= j ==> Extends(p, i, j)
  }

  ghost predicate Extends(p: Provider, earlier: nat, later: nat) {
    p.canonical(earlier) <= p.canonical(later)
  }

  /** `chain` is the canonical chain, as the provider sees it at `call`, from block `start` on. */
  ghost predicate Canonical(p: Provider, call: nat, chain: seq<Block>, start: nat) {
    forall k: nat :: k < |chain| ==> CanonicalAt(p, call, chain, start, k)
  }

  ghost predicate CanonicalAt(p: Provider, call: nat, chain: seq<Block>, start: nat, k: nat)
    requires k < |chain|
  {
    start + k < |p.canonical(call)| && chain[k].hash == p.canonical(call)[start + k]
  }

  /** Delivered so far: the canonical blocks from `start` on, once each and in order; and more can follow. */
  ghost predicate OnTrack(p: Provider, c: Config, s: State, chain: seq<Block>, start: nat) {
    && Sound(p, c, s, chain) && Canonical(p, s.calls, chain, start)
    && (s.view == [] ==> s.backfillFrom.Some?)
    && (s.backfillFrom.Some? ==>
         s.backfillFrom.value < |p.canonical(s.calls)| && (chain == [] ==> s.backfillFrom.value == start))
  }

  /** A delivered header is canonical, known to the provider, and not below the front of the view. */
  ghost predicate GoodHint(p: Provider, s: State, hint: Hint) {
    exists n: nat :: n < |p.canonical(s.calls)| && p.canonical(s.calls)[n] == hint.hash
                     && (s.view != [] ==> s.view[0].number <= n)
  }

  ghost predicate GoodHeader(p: Provider, c: Config, s: State) {
    var (s1, drained) := DrainBackfill(p, c, s);
    drained.Silent? && s1.bursts != [] && s1.bursts[0] != [] ==> GoodHint(p, s1, Last(s1.bursts[0]))
  }

  lemma CanonicalLater(p: Provider, earlier: nat, later: nat, chain: seq<Block>, start: nat)
    requires AppendOnly(p) && earlier <= later && Canonical(p, earlier, chain, start)
    ensures Canonical(p, later, chain, start)
  {
    assert Extends(p, earlier, later);
    forall k: nat | k < |chain|
      ensures CanonicalAt(p, later, chain, start, k)
    {
      assert CanonicalAt(p, earlier, chain, start, k);
    }
  }

  lemma CanonicalNumbers(p: Provider, call: nat, chain: seq<Block>, start: nat, k: nat)
    requires Honest(p) && InTree(p.tree, chain) && Canonical(p, call, chain, start) && k < |chain|
    ensures chain[k].number == start + k < |p.canonical(call)|
  {
    assert IsCanonical(p.tree, p.canonical(call)) && CanonicalAt(p, call, chain, start, k);
  }

  /** On a chain that only grows, every range request is answered consistently. */
  lemma SeamsAlwaysAgree(p: Provider, c: Config, s: State)
    requires AppendOnly(p)
    ensures BatchSeamsAgree(p, c, s)
  {
    forall call: nat, from: nat, k: nat
      ensures SeamAgrees(p, call, from, k)
    {
      assert Extends(p, call + k, call + (k + 1));
    }
  }

  /** A batch that follows on is the next stretch of the canonical chain. */
  lemma BatchIsCanonical(p: Provider, chain: seq<Block>, start: nat, call: nat, from: nat, upTo: nat, later: nat)
    requires Honest(p) && AppendOnly(p) && from <= upTo && FetchRange(p, call, from, upTo).Ok?
    requires Canonical(p, later, chain, start) && from == start + |chain| && call + (upTo + 1 - from) <= later
    ensures Canonical(p, later, chain + FetchRange(p, call, from, upTo).value, start)
  {
    FetchRangeAnswers(p, call, from, upTo);
    var blocks := FetchRange(p, call, from, upTo).value;
    forall j: nat | j < |blocks|
      ensures CanonicalAt(p, later, blocks, from, j)
    {
      assert Answers(p, call + j, from + j, blocks[j]);
      assert Extends(p, call + j, later);
    }
    CanonicalAppend(p, later, chain, blocks, start);
  }

  lemma CanonicalAppend(p: Provider, call: nat, chain: seq<Block>, blocks: seq<Block>, start: nat)
    requires Canonical(p, call, chain, start) && Canonical(p, call, blocks, start + |chain|)
    ensures Canonical(p, call, chain + blocks, start)
  {
    var longer := chain + blocks;
    forall k: nat | k < |longer|
      ensures CanonicalAt(p, call, longer, start, k)
    {
      if k < |chain| {
        assert CanonicalAt(p, call, chain, start, k);
      } else {
        assert CanonicalAt(p, call, blocks, start + |chain|, k - |chain|);
      }
    }
  }

  lemma BatchStaysCanonical(p: Provider, c: Config, s: State, chain: seq<Block>, start: nat)
    requires Honest(p) && AppendOnly(p) && OnTrack(p, c, s, chain, start) && DrainBackfill(p, c, s).1.Emitted?
    ensures var (s1, o) := DrainBackfill(p, c, s);
            && o.notification.kind.ChainCommitted? && Canonical(p, s1.calls, chain + o.notification.kind.blocks, start)
            && (s1.backfillFrom.Some? ==> s1.backfillFrom.value < |p.canonical(s1.calls)|)
  {
    hide FetchRange, Linked, InTree;
    var s1 := DrainBackfill(p, c, s).0;
    var from, upTo, tip := BatchShape(p, c, s);
    if chain != [] {
      CanonicalNumbers(p, s.calls, chain, start, |chain| - 1);
    }
    assert Extends(p, s.calls, s1.calls);
    CanonicalLater(p, s.calls, s1.calls, chain, start);
    BatchIsCanonical(p, chain, start, s.calls + 1, from, upTo, s1.calls);
  }

  lemma DrainStaysOnTrack(p: Provider, c: Config, s: State, chain: seq<Block>, start: nat)
    requires Honest(p) && AppendOnly(p) && OnTrack(p, c, s, chain, start)
    requires !DrainBackfill(p, c, s).1.Failed?
    ensures var (s1, o) := DrainBackfill(p, c, s);
            && OnTrack(p, c, s1, Consume(chain, o), start) && !UnanchoredTurn(p, c, s)
            && (o.Emitted? ==> o.notification.kind.ChainCommitted?)
  {
    SeamsAlwaysAgree(p, c, s);
    DrainKeepsSound(p, c, s, chain);
    var (s1, o) := DrainBackfill(p, c, s);
    if o.Emitted? {
      BatchStaysCanonical(p, c, s, chain, start);
    } else {
      assert Extends(p, s.calls, s1.calls);
      CanonicalLater(p, s.calls, s1.calls, chain, start);
    }
  }

  /** Blocks on a path up to a canonical block are canonical. */
  lemma {:induction false} PathIsCanonical(p: Provider, hashes: seq<Hash>, path: seq<BlockRef>, i: nat)
    requires IsCanonical(p.tree, hashes) && RefsIn(p.tree, path) && RefsLinked(p.tree, path) && i < |path|
    requires WellFormed(p.tree) && Last(path).number < |hashes| && hashes[Last(path).number] == Last(path).hash
    ensures path[i].number < |hashes| && hashes[path[i].number] == path[i].hash
    decreases |path| - i
  {
    if i + 1 < |path| {
      PathIsCanonical(p, hashes, path, i + 1);
      var h := path[i + 1].hash;
      assert p.tree[h].parent == path[i].hash;
      assert p.tree[h].number == p.tree[path[i].hash].number + 1;
      assert p.tree[hashes[path[i + 1].number]].parent == hashes[path[i].number];
    }
  }

  /** The block the walk ends at is canonical, at or above the front of the view. */
  lemma ResolvedTop(p: Provider, c: Config, s: State, chain: seq<Block>, start: nat, hint: Hint)
    returns (top: Hash, n: nat)
    requires Honest(p) && AppendOnly(p) && OnTrack(p, c, s, chain, start) && s.backfillFrom.None? && GoodHint(p, s, hint)
    ensures var step := ResolveWalk(p, s.view, c.capacity, s.calls, hint.hash);
            && WalkOk(p, s.view, c.capacity, top, step.walk) && step.calls >= s.calls
            && n < |p.canonical(step.calls)| && p.canonical(step.calls)[n] == top && s.view[0].number <= n
  {
    SoundView(p, c, s, chain);
    top := ResolveWalkOk(p, s.view, c.capacity, s.calls, hint.hash);
    var step := ResolveWalk(p, s.view, c.capacity, s.calls, hint.hash);
    assert Extends(p, s.calls, step.calls);
    if top == hint.hash {
      n :| n < |p.canonical(s.calls)| && p.canonical(s.calls)[n] == hint.hash && (s.view != [] ==> s.view[0].number <= n);
    } else {
      var latest: nat :| s.calls <= latest < step.calls && LatestHash(p, latest) == Ok(top);
      n := |p.canonical(latest)| - 1;
      assert Extends(p, s.calls, latest) && Extends(p, latest, step.calls);
      assert s.view[0] == Ref(chain[|chain| - |s.view|]);
      CanonicalNumbers(p, s.calls, chain, start, |chain| - |s.view|);
    }
  }

  /** The view knows every canonical block from its front up to the last one delivered. */
  lemma ViewIsCanonical(p: Provider, c: Config, s: State, chain: seq<Block>, start: nat, call: nat, number: nat)
    requires Honest(p) && Sound(p, c, s, chain) && Canonical(p, call, chain, start)
    requires s.view != [] && s.view[0].number <= number <= Last(chain).number
    ensures number < |p.canonical(call)| && ViewHash(s.view, number) == Some(p.canonical(call)[number])
  {
    SoundView(p, c, s, chain);
    var i := number - s.view[0].number;
    var k := |chain| - |s.view| + i;
    NumbersAreConsecutive(chain, |chain| - |s.view|);
    NumbersAreConsecutive(chain, |chain| - 1);
    assert s.view[0] == Ref(chain[|chain| - |s.view|]) && s.view[i] == Ref(chain[k]);
    CanonicalNumbers(p, call, chain, start, k);
    assert CanonicalAt(p, call, chain, start, k);
  }

  /** A reorg would need a canonical block that differs from the view's block of the same number. */
  lemma NoReorg(p: Provider, c: Config, s: State, chain: seq<Block>, start: nat, call: nat, top: Hash, n: nat, walk: Walk)
    requires Honest(p) && Sound(p, c, s, chain) && Canonical(p, call, chain, start)
    requires n < |p.canonical(call)| && p.canonical(call)[n] == top && s.view != [] && s.view[0].number <= n
    requires WalkOk(p, s.view, c.capacity, top, walk)
    ensures !walk.Reorg?
    ensures walk.Exhausted? ==> n > Last(chain).number
  {
    assert IsCanonical(p.tree, p.canonical(call));
    SoundView(p, c, s, chain);
    if n <= Last(chain).number {
      ViewIsCanonical(p, c, s, chain, start, call, n);
    }
    if walk.Reorg? {
      PathIsCanonical(p, p.canonical(call), walk.newChain, 0);
      ViewIsCanonical(p, c, s, chain, start, call, walk.forkNumber);
    }
  }

  lemma PathIsNext(p: Provider, call: nat, path: seq<BlockRef>, from: nat)
    requires Honest(p) && path != [] && RefsIn(p.tree, path) && RefsLinked(p.tree, path) && path[0].number == from
    requires Last(path).number < |p.canonical(call)| && p.canonical(call)[Last(path).number] == Last(path).hash
    ensures Canonical(p, call, BlocksAt(p.tree, path), from)
  {
    assert IsCanonical(p.tree, p.canonical(call));
    RefsToChain(p.tree, path);
    var blocks := BlocksAt(p.tree, path);
    forall k: nat | k < |blocks|
      ensures CanonicalAt(p, call, blocks, from, k)
    {
      NumbersAreConsecutive(blocks, k);
      PathIsCanonical(p, p.canonical(call), path, k);
    }
  }

  /** A canonical path on top of what was delivered extends the delivery. */
  lemma AdvanceIsCanonical(p: Provider, c: Config, s: State, chain: seq<Block>, start: nat, call: nat, later: nat, path: seq<BlockRef>)
    requires Honest(p) && AppendOnly(p) && Sound(p, c, s, chain) && s.view != [] && Canonical(p, call, chain, start) && call <= later
    requires path != [] && WalkOk(p, s.view, c.capacity, Last(path).hash, Advance(path))
    requires Last(path).number < |p.canonical(call)| && p.canonical(call)[Last(path).number] == Last(path).hash
    ensures Canonical(p, later, chain + BlocksAt(p.tree, path), start)
  {
    SoundView(p, c, s, chain);
    CanonicalNumbers(p, call, chain, start, |chain| - 1);
    PathIsNext(p, call, path, start + |chain|);
    CanonicalAppend(p, call, chain, BlocksAt(p.tree, path), start);
    CanonicalLater(p, call, later, chain + BlocksAt(p.tree, path), start);
  }

  lemma HeadIsCanonical(p: Provider, c: Config, s: State, chain: seq<Block>, start: nat, hint: Hint)
    requires Honest(p) && AppendOnly(p) && OnTrack(p, c, s, chain, start) && s.backfillFrom.None? && GoodHint(p, s, hint)
    requires !HandleNewHead(p, c, s, hint).1.Failed?
    ensures var (s1, o) := HandleNewHead(p, c, s, hint);
            && Canonical(p, s1.calls, Consume(chain, o), start) && (o.Emitted? ==> o.notification.kind.ChainCommitted?)
            && (s1.backfillFrom.Some? ==> s1.backfillFrom.value < |p.canonical(s1.calls)|)
  {
    var top, n := ResolvedTop(p, c, s, chain, start, hint);
    var step := HeadShape(p, c, s, hint);
    var (s1, o) := HandleNewHead(p, c, s, hint);
    CanonicalLater(p, s.calls, step.calls, chain, start);
    CanonicalLater(p, s.calls, s1.calls, chain, start);
    NoReorg(p, c, s, chain, start, step.calls, top, n, step.walk);
    if step.walk.Advance? {
      assert IsCanonical(p.tree, p.canonical(step.calls));
      FetchByHashIsFixed(p, step.calls, step.walk.newChain);
      AdvanceIsCanonical(p, c, s, chain, start, step.calls, s1.calls, step.walk.newChain);
    }
  }

  lemma HeadStaysOnTrack(p: Provider, c: Config, s: State, chain: seq<Block>, start: nat, hint: Hint)
    requires Honest(p) && AppendOnly(p) && OnTrack(p, c, s, chain, start) && s.backfillFrom.None? && GoodHint(p, s, hint)
    requires !HandleNewHead(p, c, s, hint).1.Failed?
    ensures var (s1, o) := HandleNewHead(p, c, s, hint);
            OnTrack(p, c, s1, Consume(chain, o), start) && (o.Emitted? ==> o.notification.kind.ChainCommitted?)
  {
    var _ := HeadKeepsSound(p, c, s, chain, hint);
    HeadIsCanonical(p, c, s, chain, start, hint);
  }

  lemma TurnStaysOnTrack(p: Provider, c: Config, s: State, chain: seq<Block>, start: nat)
    requires Honest(p) && AppendOnly(p) && OnTrack(p, c, s, chain, start) && GoodHeader(p, c, s)
    requires !Turn(p, c, s).1.Failed?
    ensures var (s1, o) := Turn(p, c, s);
            OnTrack(p, c, s1, Consume(chain, o), start) && (o.Emitted? ==> o.notification.kind.ChainCommitted?)
  {
    DrainStaysOnTrack(p, c, s, chain, start);
    SeamsAlwaysAgree(p, c, s);
    DrainKeepsSound(p, c, s, chain);
    var (s1, drained) := DrainBackfill(p, c, s);
    if drained.Silent? && s1.bursts != [] && s1.bursts[0] != [] {
      HeadStaysOnTrack(p, c, s1.(bursts := s1.bursts[1..]), chain, start, Last(s1.bursts[0]));
    }
  }

  /** Every header handled during the call is a good one. */
  ghost predicate GoodHeaders(p: Provider, c: Config, s: State)
    decreases |s.bursts|
  {
    TurnConsumes(p, c, s);
    var (s1, o) := Turn(p, c, s);
    GoodHeader(p, c, s) && (o.Silent? ==> GoodHeaders(p, c, s1))
  }

  lemma {:induction false} CallStaysOnTrack(p: Provider, c: Config, s: State, chain: seq<Block>, start: nat)
    requires Honest(p) && AppendOnly(p) && OnTrack(p, c, s, chain, start) && GoodHeaders(p, c, s)
    requires !NextNotification(p, c, s).1.Failed?
    ensures var (s1, o) := NextNotification(p, c, s);
            OnTrack(p, c, s1, Consume(chain, o), start) && (o.Emitted? ==> o.notification.kind.ChainCommitted?)
    decreases |s.bursts|
  {
    TurnConsumes(p, c, s);
    TurnStaysOnTrack(p, c, s, chain, start);
    var (s1, o) := Turn(p, c, s);
    if o.Silent? {
      CallStaysOnTrack(p, c, s1, chain, start);
    }
  }

  ghost predicate GoodFeed(p: Provider, c: Config, s: State, calls: nat)
    decreases calls
  {
    calls > 0 ==>
      && GoodHeaders(p, c, s)
      && (NextNotification(p, c, s).1.Emitted? ==> GoodFeed(p, c, NextNotification(p, c, s).0, calls - 1))
  }

  /** The blocks of a list of notifications, in order of delivery. */
  function Delivered(notifications: seq<Notification>): seq<Block>
    decreases |notifications|
  {
    if notifications == [] then []
    else (if notifications[0].kind.ChainReverted? then [] else notifications[0].kind.blocks) + Delivered(notifications[1..])
  }

  ghost predicate OnlyCommits(notifications: seq<Notification>) {
    forall i :: 0 <= i < |notifications| ==> notifications[i].kind.ChainCommitted?
  }

  lemma {:induction false} CommitsConcatenate(chain: seq<Block>, notifications: seq<Notification>)
    requires OnlyCommits(notifications)
    ensures ReplayAll(chain, notifications) == chain + Delivered(notifications)
    decreases |notifications|
  {
    if notifications != [] {
      CommitsConcatenate(Replay(chain, notifications[0].kind), notifications[1..]);
    }
  }

  lemma {:induction false} RunStaysOnTrack(p: Provider, c: Config, s: State, chain: seq<Block>, start: nat, calls: nat)
    requires Honest(p) && AppendOnly(p) && OnTrack(p, c, s, chain, start) && GoodFeed(p, c, s, calls)
    requires !Follow(p, c, s, calls).2.Failed?
    ensures var (s1, emitted, _) := Follow(p, c, s, calls);
            OnTrack(p, c, s1, ReplayAll(chain, emitted), start) && OnlyCommits(emitted)
    decreases calls
  {
    hide NextNotification, OnTrack, Honest, AppendOnly;
    if calls > 0 {
      CallStaysOnTrack(p, c, s, chain, start);
      var (s1, o) := NextNotification(p, c, s);
      if o.Emitted? {
        RunStaysOnTrack(p, c, s1, Consume(chain, o), start, calls - 1);
      }
    }
  }

  /** The canonical blocks numbered `start`, `start + 1`, ..., one after the other. */
  ghost predicate InOrder(hashes: seq<Hash>, blocks: seq<Block>, start: nat) {
    forall k :: 0 <= k < |blocks| ==> blocks[k].number == start + k < |hashes| && blocks[k].hash == hashes[blocks[k].number]
  }

  lemma CanonicalInOrder(p: Provider, call: nat, blocks: seq<Block>, start: nat)
    requires Honest(p) && InTree(p.tree, blocks) && Canonical(p, call, blocks, start)
    ensures InOrder(p.canonical(call), blocks, start)
  {
    forall k | 0 <= k < |blocks|
      ensures blocks[k].number == start + k < |p.canonical(call)| && blocks[k].hash == p.canonical(call)[blocks[k].number]
    {
      CanonicalNumbers(p, call, blocks, start, k);
      assert CanonicalAt(p, call, blocks, start, k);
    }
  }

  lemma InitialOnTrack(p: Provider, c: Config, start: nat, batchSize: Positive, bursts: seq<seq<Hint>>)
    requires start < |p.canonical(0)|
    ensures OnTrack(p, c, Initial(start, batchSize, bursts), [], start)
  {
  }

  /** What a consumer knows after a run that delivered exactly the canonical blocks from `start` on. */
  ghost predicate ExactlyOnceFrom(p: Provider, start: nat, s: State, emitted: seq<Notification>) {
    var blocks := Delivered(emitted);
    && OnlyCommits(emitted)
    && InOrder(p.canonical(s.calls), blocks, start)
    && s.lastEmitted == (if blocks == [] then None else Some(Ref(Last(blocks))))
  }

  lemma OnTrackIsExactlyOnce(p: Provider, c: Config, start: nat, s: State, emitted: seq<Notification>)
    requires Honest(p) && OnTrack(p, c, s, ReplayAll([], emitted), start) && OnlyCommits(emitted)
    ensures ExactlyOnceFrom(p, start, s, emitted)
  {
    CommitsConcatenate([], emitted);
    assert [] + Delivered(emitted) == Delivered(emitted);
    CanonicalInOrder(p, s.calls, Delivered(emitted), start);
  }

  /**
   * From `set_head(start)` on, with `start` at or below the provider's first tip: no reorg is ever reported, and
   * the blocks delivered are the canonical ones from `start`, each exactly once and in order.
   */
  lemma EveryBlockExactlyOnce(p: Provider, c: Config, start: nat, batchSize: Positive, bursts: seq<seq<Hint>>, calls: nat)
    requires Honest(p) && AppendOnly(p) && start < |p.canonical(0)|
    requires GoodFeed(p, c, Initial(start, batchSize, bursts), calls)
    requires !Follow(p, c, Initial(start, batchSize, bursts), calls).2.Failed?
    ensures var (s1, emitted, _) := Follow(p, c, Initial(start, batchSize, bursts), calls);
            ExactlyOnceFrom(p, start, s1, emitted)
  {
    var s := Initial(start, batchSize, bursts);
    InitialOnTrack(p, c, start, batchSize, bursts);
    RunStaysOnTrack(p, c, s, [], start, calls);
    var (s1, emitted, _) := Follow(p, c, s, calls);
    OnTrackIsExactlyOnce(p, c, start, s1, emitted);
  }
}
