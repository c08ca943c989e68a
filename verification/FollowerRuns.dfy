/**
 * What every run of the follower keeps: a consumer that replays the emitted notifications holds one
 * hash-linked chain, whatever the provider's canonical chain does between two requests.
 */
module FollowerRuns {
  import opened Wrappers
  import opened Host
  import opened HostProvider
  import opened Follower

  // ---- The walk ----

  /** The view holds consecutive, parent-linked blocks of the tree. */
  ghost predicate ViewOk(p: Provider, view: seq<BlockRef>) {
    Contiguous(view) && RefsIn(p.tree, view) && RefsLinked(p.tree, view)
  }

  /** Consecutive blocks of the tree, linked or not: all that the walk itself needs. */
  ghost predicate ViewNumbered(p: Provider, view: seq<BlockRef>) {
    Contiguous(view) && RefsIn(p.tree, view)
  }

  ghost predicate InView(view: seq<BlockRef>, h: Hash) {
    exists i :: 0 <= i < |view| && view[i].hash == h
  }

  ghost predicate NoneInView(view: seq<BlockRef>, refs: seq<BlockRef>) {
    forall i :: 0 <= i < |refs| ==> ViewHash(view, refs[i].number) != Some(refs[i].hash)
  }

  /** `path` is a parent-linked path of blocks that are not in the view. */
  ghost predicate FreshPath(p: Provider, view: seq<BlockRef>, path: seq<BlockRef>) {
    RefsIn(p.tree, path) && RefsLinked(p.tree, path) && NoneInView(view, path)
  }

  /** `path` starts on top of the block of the view numbered one lower. */
  ghost predicate Attached(p: Provider, view: seq<BlockRef>, path: seq<BlockRef>)
    requires path != [] && RefsIn(p.tree, path)
  {
    path[0].number > 0 && ViewHash(view, path[0].number - 1) == Some(p.tree[path[0].hash].parent)
  }

  /** What a successful walk that ends at block `top` establishes. */
  ghost predicate WalkOk(p: Provider, view: seq<BlockRef>, capacity: nat, top: Hash, walk: Walk) {
    match walk
    case Advance(path) =>
      && path != [] && FreshPath(p, view, path) && Last(path).hash == top
      && (if view == [] then |path| == 1
          else |path| <= capacity && Attached(p, view, path) && path[0].number == Last(view).number + 1)
    case Reorg(fork, oldTip, path) =>
      && path != [] && FreshPath(p, view, path) && Last(path).hash == top && |path| <= capacity
      && view != [] && Attached(p, view, path)
      && fork == path[0].number && RevertRange(fork, oldTip).Valid() && oldTip == Last(view).number
    case AlreadySeen => InView(view, top)
    case Exhausted => view != [] && top in p.tree && ViewHash(view, p.tree[top].number) != Some(top)
    case WalkFailed(_) => true
  }

  lemma ViewHashPosition(view: seq<BlockRef>, number: nat)
    requires Contiguous(view) && ViewHash(view, number).Some?
    ensures number <= Last(view).number && view[number - view[0].number] == BlockRef(number, ViewHash(view, number).value)
  {
  }

  /** The constant-time lookup agrees with a linear search of the view. */
  lemma ViewHashIsSearch(p: Provider, view: seq<BlockRef>, h: Hash)
    requires ViewNumbered(p, view) && h in p.tree
    ensures ViewHash(view, p.tree[h].number) == Some(h) <==> InView(view, h)
    ensures forall number :: ViewHash(view, number) == Some(h) <==> BlockRef(number, h) in view
  {
    if ViewHash(view, p.tree[h].number) == Some(h) {
      ViewHashPosition(view, p.tree[h].number);
    }
    forall number | ViewHash(view, number) == Some(h)
      ensures BlockRef(number, h) in view
    {
      ViewHashPosition(view, number);
    }
  }

  lemma WalkExtends(p: Provider, view: seq<BlockRef>, h: Hash, newer: seq<BlockRef>)
    requires FreshPath(p, view, newer) && (newer != [] ==> p.tree[newer[0].hash].parent == h)
    requires h in p.tree && ViewHash(view, p.tree[h].number) != Some(h)
    ensures FreshPath(p, view, [RefAt(p.tree, h)] + newer)
  {
  }

  /** Where the walk meets the view, what was walked is attached there. */
  lemma WalkMeets(p: Provider, view: seq<BlockRef>, capacity: nat, h: Hash, newer: seq<BlockRef>)
    requires WellFormed(p.tree) && ViewNumbered(p, view) && |newer| <= capacity
    requires newer != [] && FreshPath(p, view, newer) && p.tree[newer[0].hash].parent == h
    requires h in p.tree && ViewHash(view, p.tree[h].number) == Some(h)
    ensures WalkOk(p, view, capacity, Last(newer).hash,
                   if p.tree[h].number == Last(view).number then Advance(newer)
                   else Reorg(p.tree[h].number + 1, Last(view).number, newer))
  {
    ViewHashPosition(view, p.tree[h].number);
    assert p.tree[newer[0].hash].number == p.tree[h].number + 1;
  }

  lemma {:induction false} WalkFromOk(p: Provider, view: seq<BlockRef>, capacity: nat, call: nat, h: Hash, newer: seq<BlockRef>)
    requires WellFormed(p.tree) && ViewNumbered(p, view) && |newer| <= capacity && (view == [] ==> newer == [])
    requires FreshPath(p, view, newer) && (newer != [] ==> p.tree[newer[0].hash].parent == h)
    ensures var step := WalkFrom(p, view, capacity, call, h, newer);
            && WalkOk(p, view, capacity, if newer == [] then h else Last(newer).hash, step.walk)
            && call < step.calls <= call + capacity + 1 - |newer|
    decreases capacity - |newer|
  {
    var answer := HeaderByHash(p, call, h);
    if answer.Ok? {
      var header := answer.value;
      var walked := [BlockRef(header.number, h)] + newer;
      if ViewHash(view, header.number) == Some(h) {
        if newer != [] {
          WalkMeets(p, view, capacity, h, newer);
        } else {
          ViewHashPosition(view, header.number);
        }
      } else {
        WalkExtends(p, view, h, newer);
        if view != [] && |walked| <= capacity && !(ViewHash(view, header.number).None? && header.number < view[0].number) {
          WalkFromOk(p, view, capacity, call + 1, header.parent, walked);
        }
      }
    }
  }

  /**
   * The walk that decides a header, stale hint or not: it makes at most `capacity + 1` lookups each time,
   * and what it returns is attached to the view at the block below `forkNumber` and ends at the walked
   * hash. `RevertRange::new` never panics on it.
   */
  lemma ResolveWalkOk(p: Provider, view: seq<BlockRef>, capacity: nat, call: nat, h: Hash)
    returns (top: Hash)
    requires WellFormed(p.tree) && ViewNumbered(p, view)
    ensures var step := ResolveWalk(p, view, capacity, call, h);
            && WalkOk(p, view, capacity, top, step.walk)
            && call <= step.calls <= call + 2 * (capacity + 1) + 1
            && (WalkChain(p, view, capacity, call, h).walk.WalkFailed? || top == h)
            && (top == h || exists latest: nat :: call <= latest < step.calls && LatestHash(p, latest) == Ok(top))
  {
    hide WalkFrom, LatestHash;
    top := h;
    var first := WalkChain(p, view, capacity, call, h);
    if !(view != [] && Last(view).hash == h) {
      WalkFromOk(p, view, capacity, call, h, []);
    }
    if first.walk.WalkFailed? && first.walk.error.MissingBlockByHash? && LatestHash(p, first.calls).Ok? {
      top := LatestHash(p, first.calls).value;
      if !(view != [] && Last(view).hash == top) {
        WalkFromOk(p, view, capacity, first.calls + 1, top, []);
      }
    }
  }

  // ---- The invariant ----

  /** The view holds the newest entries of the chain. */
  ghost predicate IsSuffix(view: seq<BlockRef>, chain: seq<Block>) {
    |view| <= |chain| && forall i :: 0 <= i < |view| ==> view[i] == Ref(chain[|chain| - |view| + i])
  }

  /** The chain the consumer holds, and how the notifier's state describes it. */
  ghost predicate Sound(p: Provider, c: Config, s: State, chain: seq<Block>) {
    && IsChain(p.tree, chain)
    && s.lastEmitted == (if chain == [] then None else Some(Ref(Last(chain))))
    && |s.view| <= c.capacity && IsSuffix(s.view, chain)
    && (s.backfillFrom.Some? && chain != [] ==> s.backfillFrom.value == Last(chain).number + 1)
  }

  function Consume(chain: seq<Block>, o: Outcome): seq<Block> {
    if o.Emitted? then Replay(chain, o.notification.kind) else chain
  }

  /** The by-number requests of the batch that is due are answered consistently. */
  ghost predicate BatchSeamsAgree(p: Provider, c: Config, s: State) {
    s.backfillFrom.Some? && TipNumber(p, s.calls).Ok? && s.backfillFrom.value <= TipNumber(p, s.calls).value ==>
      SeamsAgree(p, s.calls + 1, s.backfillFrom.value,
                 BatchEnd(c.capacity, s.batchSize, TipNumber(p, s.calls).value, s.backfillFrom.value))
  }

  /** The turn handles a header with an empty view although something was delivered: no parent can be checked. */
  ghost predicate UnanchoredTurn(p: Provider, c: Config, s: State) {
    var (s1, drained) := DrainBackfill(p, c, s);
    drained.Silent? && s1.view == [] && s1.lastEmitted.Some?
  }

  /** The block a header leads to when the view is empty: its own, or the provider's latest if that one is gone. */
  function UncheckedTop(p: Provider, call: nat, h: Hash): Hash {
    var answer := HeaderByHash(p, call, h);
    if answer.Err? && answer.error.MissingBlockByHash? && LatestHash(p, call + 1).Ok? then LatestHash(p, call + 1).value else h
  }

  /** The block that the header which is due leads to is a child of the last block emitted. */
  ghost predicate UncheckedFollows(p: Provider, c: Config, s: State) {
    var s1 := DrainBackfill(p, c, s).0;
    && s1.bursts != [] && s1.bursts[0] != [] && s.lastEmitted.Some?
    && var top := UncheckedTop(p, s1.calls, Last(s1.bursts[0]).hash);
       top in p.tree && p.tree[top].parent == s.lastEmitted.value.hash
  }

  /**
   * What a turn must meet to keep the consumer's chain linked: the requests of a delivered batch were answered
   * consistently, and a header handled with an empty view happens to lead to a child of the last block emitted.
   */
  ghost predicate TurnLinks(p: Provider, c: Config, s: State) {
    var o := Turn(p, c, s).1;
    o.Emitted? ==>
      if DrainBackfill(p, c, s).1.Emitted? then BatchSeamsAgree(p, c, s)
      else UnanchoredTurn(p, c, s) ==> UncheckedFollows(p, c, s)
  }

  lemma SoundView(p: Provider, c: Config, s: State, chain: seq<Block>)
    requires Honest(p) && Sound(p, c, s, chain)
    ensures ViewOk(p, s.view)
    ensures s.view != [] ==> Last(s.view) == Ref(Last(chain))
  {
    var d := |chain| - |s.view|;
    forall i | 0 <= i < |s.view|
      ensures s.view[i] == Ref(chain[d + i]) && s.view[i].number == s.view[0].number + i
    {
      NumbersAreConsecutive(chain, d + i);
      NumbersAreConsecutive(chain, d);
    }
    forall i, j | 0 <= i < j < |s.view| && j <= i + 1
      ensures p.tree[s.view[j].hash].parent == s.view[i].hash
    {
      assert Follows(chain[d + i], chain[d + j]);
    }
  }

  lemma SuffixAppend(chain: seq<Block>, view: seq<BlockRef>, entries: seq<Block>, capacity: nat)
    requires IsSuffix(view, chain)
    ensures IsSuffix(LastN(view + Refs(entries), capacity), chain + entries)
  {
    var longer := view + Refs(entries);
    var v := LastN(longer, capacity);
    forall i | 0 <= i < |v|
      ensures v[i] == Ref((chain + entries)[|chain + entries| - |v| + i])
    {
      assert v[i] == longer[|longer| - |v| + i];
    }
  }

  /** Appending linked blocks that continue the chain keeps the invariant. */
  lemma CommitKeepsSound(p: Provider, c: Config, s: State, s1: State, chain: seq<Block>, blocks: seq<Block>)
    requires Honest(p) && Sound(p, c, s, chain) && blocks != [] && IsChain(p.tree, blocks)
    requires chain != [] ==> blocks[0].parent == Last(chain).hash
    requires s1.view == LastN(s.view + Refs(blocks), c.capacity) && s1.lastEmitted == Some(Ref(Last(blocks)))
    requires s1.backfillFrom.Some? ==> s1.backfillFrom.value == Last(blocks).number + 1
    ensures Sound(p, c, s1, chain + blocks)
  {
    SuffixAppend(chain, s.view, blocks, c.capacity);
    if chain != [] {
      assert Last(chain) == BlockAt(p.tree, Last(chain).hash) && blocks[0] == BlockAt(p.tree, blocks[0].hash);
      LinkedAppend(chain, blocks);
    } else {
      assert chain + blocks == blocks;
    }
  }

  lemma {:induction false} DropFromSuffix(view: seq<BlockRef>, fork: nat, keep: nat)
    requires Contiguous(view) && keep <= |view|
    requires forall i :: 0 <= i < keep ==> view[i].number < fork
    requires forall i :: keep <= i < |view| ==> view[i].number >= fork
    ensures DropFrom(view, fork) == view[..keep]
    decreases |view|
  {
    if keep < |view| {
      var init := view[..|view| - 1];
      DropFromSuffix(init, fork, keep);
      assert init[..keep] == view[..keep];
    } else {
      assert view[..keep] == view;
    }
  }

  /** Where a block of the view sits in the view and in the consumer's chain. */
  lemma ForkPosition(p: Provider, c: Config, s: State, chain: seq<Block>, fork: nat) returns (inView: nat, kept: nat)
    requires Honest(p) && Sound(p, c, s, chain)
    requires fork > 0 && ViewHash(s.view, fork - 1).Some?
    ensures 0 < inView <= |s.view| && kept == |chain| - |s.view| + inView
    ensures s.view[inView - 1] == Ref(chain[kept - 1]) == BlockRef(fork - 1, ViewHash(s.view, fork - 1).value)
    ensures Truncate(chain, fork) == chain[..kept] && DropFrom(s.view, fork) == s.view[..inView]
  {
    SoundView(p, c, s, chain);
    ViewHashPosition(s.view, fork - 1);
    inView := fork - s.view[0].number;
    kept := |chain| - |s.view| + inView;
    assert s.view[inView - 1] == Ref(chain[kept - 1]);
    TruncateKeepsPrefix(chain, kept);
    DropFromSuffix(s.view, fork, inView);
  }

  lemma PrefixIsChain(tree: Tree, chain: seq<Block>, keep: nat)
    requires IsChain(tree, chain) && keep <= |chain|
    ensures IsChain(tree, chain[..keep])
  {
    var prefix := chain[..keep];
    assert forall i :: 0 <= i < |prefix| ==> prefix[i] == chain[i];
  }

  lemma SuffixOfPrefix(view: seq<BlockRef>, chain: seq<Block>, keep: nat)
    requires IsSuffix(view, chain) && keep <= |view|
    ensures IsSuffix(view[..keep], chain[..|chain| - |view| + keep])
  {
  }

  lemma PrefixIsSound(p: Provider, c: Config, s: State, s0: State, chain: seq<Block>, inView: nat, kept: nat)
    requires Sound(p, c, s, chain) && 0 < inView <= |s.view| && kept == |chain| - |s.view| + inView
    requires s0.view == s.view[..inView] && s0.lastEmitted == Some(Ref(chain[kept - 1])) && s0.backfillFrom.None?
    ensures Sound(p, c, s0, chain[..kept]) && Last(chain[..kept]) == chain[kept - 1]
  {
    PrefixIsChain(p.tree, chain, kept);
    SuffixOfPrefix(s.view, chain, inView);
  }

  /** Cutting both the chain and the view below a block of the view leaves a sound state. */
  lemma CutKeepsSound(p: Provider, c: Config, s: State, chain: seq<Block>, fork: nat) returns (s0: State)
    requires Honest(p) && Sound(p, c, s, chain)
    requires fork > 0 && ViewHash(s.view, fork - 1).Some?
    ensures s0 == s.(view := DropFrom(s.view, fork), lastEmitted := s0.lastEmitted, backfillFrom := None)
    ensures Sound(p, c, s0, Truncate(chain, fork)) && Truncate(chain, fork) <= chain && Truncate(chain, fork) != []
    ensures Last(Truncate(chain, fork)).hash == ViewHash(s.view, fork - 1).value
  {
    var inView, kept := ForkPosition(p, c, s, chain, fork);
    s0 := s.(view := s.view[..inView], lastEmitted := Some(Ref(chain[kept - 1])), backfillFrom := None);
    PrefixIsSound(p, c, s, s0, chain, inView, kept);
  }

  // ---- One step ----

  /** View and delivery mark after a batch, whose first block follows the last block emitted before. */
  ghost predicate BatchLeaves(c: Config, s: State, s1: State, blocks: seq<Block>) {
    && s1.view == LastN(s.view + Refs(blocks), c.capacity)
    && s1.lastEmitted == (if blocks == [] then s.lastEmitted else Some(Ref(Last(blocks))))
    && (s.lastEmitted.Some? && blocks != [] ==> blocks[0].parent == s.lastEmitted.value.hash)
  }

  /** Where backfill has nothing to do, only the cursor is cleared and at most one request made. */
  lemma NothingDrained(p: Provider, c: Config, s: State)
    requires !DrainBackfill(p, c, s).1.Emitted? && !DrainBackfill(p, c, s).1.Failed?
    ensures var (s1, o) := DrainBackfill(p, c, s);
            && o.Silent? && s1 == s.(backfillFrom := None, calls := s1.calls)
            && s1.calls == s.calls + (if s.backfillFrom.Some? then 1 else 0)
  {
  }

  /** Every batch is a non-empty stretch at or below the provider's tip, starting at the cursor. */
  lemma BatchShape(p: Provider, c: Config, s: State) returns (from: nat, upTo: nat, tip: nat)
    requires DrainBackfill(p, c, s).1.Emitted?
    ensures s.backfillFrom == Some(from) && TipNumber(p, s.calls) == Ok(tip) && from <= upTo <= tip
    ensures upTo == BatchEnd(c.capacity, s.batchSize, tip, from) && upTo <= BackfillCeiling(c.capacity, tip, from)
    ensures FetchRange(p, s.calls + 1, from, upTo).Ok?
    ensures var (s1, o) := DrainBackfill(p, c, s);
            && o.notification.kind == ChainCommitted(FetchRange(p, s.calls + 1, from, upTo).value)
            && s1.backfillFrom == (if upTo == BackfillCeiling(c.capacity, tip, from) then None else Some(upTo + 1))
            && s1.calls >= s.calls + 1 + (upTo + 1 - from) && s1.batchSize == s.batchSize && s1.bursts == s.bursts
            && BatchLeaves(c, s, s1, FetchRange(p, s.calls + 1, from, upTo).value)
  {
    hide FetchRange;
    from := s.backfillFrom.value;
    tip := TipNumber(p, s.calls).value;
    upTo := BatchEnd(c.capacity, s.batchSize, tip, from);
  }

  lemma DrainKeepsSound(p: Provider, c: Config, s: State, chain: seq<Block>)
    requires Honest(p) && Sound(p, c, s, chain) && (DrainBackfill(p, c, s).1.Emitted? ==> BatchSeamsAgree(p, c, s))
    requires !DrainBackfill(p, c, s).1.Failed?
    ensures var (s1, o) := DrainBackfill(p, c, s);
            && Sound(p, c, s1, Consume(chain, o)) && (o.Silent? ==> s1.backfillFrom.None?)
            && (o.Emitted? ==> o.notification.kind.ChainCommitted? && o.notification.kind.blocks != [] && s1.view != [])
  {
    hide DrainBackfill, FetchRange, BatchEnd, SeamsAgree, Linked, InTree, IsSuffix, Honest;
    var (s1, o) := DrainBackfill(p, c, s);
    if o.Emitted? {
      var from, upTo, _ := BatchShape(p, c, s);
      BatchLinkedIffSeamsAgree(p, s.calls + 1, from, upTo);
      assert Last(o.notification.kind.blocks).number == upTo;
      CommitKeepsSound(p, c, s, s1, chain, o.notification.kind.blocks);
    } else {
      NothingDrained(p, c, s);
    }
  }

  lemma AdvanceKeepsSound(p: Provider, c: Config, s: State, chain: seq<Block>, path: seq<BlockRef>, timestamp: nat)
    returns (blocks: seq<Block>)
    requires Honest(p) && Sound(p, c, s, chain) && s.backfillFrom.None? && (s.view == [] ==> chain == [])
    requires path != [] && WalkOk(p, s.view, c.capacity, Last(path).hash, Advance(path))
    requires !Deliver(p, c, s.(view := LastN(s.view + path, c.capacity)), s, path, None, timestamp).1.Failed?
    ensures blocks == BlocksAt(p.tree, path)
    ensures var (s1, o) := Deliver(p, c, s.(view := LastN(s.view + path, c.capacity)), s, path, None, timestamp);
            && o.Emitted? && o.notification.kind == ChainCommitted(blocks)
            && s1.backfillFrom.None? && s1.view != [] && s1.lastEmitted == Some(Last(path))
            && Sound(p, c, s1, chain + blocks)
  {
    hide FetchByHash, RefreshTags;
    FetchByHashIsFixed(p, s.calls, path);
    RefsToChain(p.tree, path);
    blocks := BlocksAt(p.tree, path);
    if chain != [] {
      SoundView(p, c, s, chain);
      ViewHashPosition(s.view, path[0].number - 1);
    }
    var (s1, o) := Deliver(p, c, s.(view := LastN(s.view + path, c.capacity)), s, path, None, timestamp);
    CommitKeepsSound(p, c, s, s1, chain, blocks);
  }

  lemma ReorgKeepsSound(p: Provider, c: Config, s: State, chain: seq<Block>, fork: nat, oldTip: nat, path: seq<BlockRef>,
                        timestamp: nat)
    returns (blocks: seq<Block>)
    requires Honest(p) && Sound(p, c, s, chain) && s.backfillFrom.None?
    requires path != [] && WalkOk(p, s.view, c.capacity, Last(path).hash, Reorg(fork, oldTip, path))
    requires !Deliver(p, c, s.(view := ReorgView(s.view, c.capacity, fork, path)), s, path,
                      Some(RevertRange(fork, oldTip)), timestamp).1.Failed?
    ensures blocks == BlocksAt(p.tree, path)
    ensures var (s1, o) := Deliver(p, c, s.(view := ReorgView(s.view, c.capacity, fork, path)), s, path,
                                   Some(RevertRange(fork, oldTip)), timestamp);
            && o.Emitted? && o.notification.kind == ChainReorged(RevertRange(fork, oldTip), blocks)
            && s1.backfillFrom.None? && s1.view != [] && s1.lastEmitted == Some(Last(path))
            && Sound(p, c, s1, Truncate(chain, fork) + blocks)
    ensures Truncate(chain, fork) <= chain && Truncate(chain, fork) != []
  {
    hide FetchByHash, RefreshTags, Truncate, DropFrom;
    FetchByHashIsFixed(p, s.calls, path);
    RefsToChain(p.tree, path);
    blocks := BlocksAt(p.tree, path);
    var s0 := CutKeepsSound(p, c, s, chain, fork);
    var (s1, o) := Deliver(p, c, s.(view := ReorgView(s.view, c.capacity, fork, path)), s, path,
                           Some(RevertRange(fork, oldTip)), timestamp);
    CommitKeepsSound(p, c, s0, s1, Truncate(chain, fork), blocks);
  }

  /** A header whose walk ended in `step` led from `s` to `s1` with outcome `o`. */
  ghost predicate HeadDid(p: Provider, s: State, step: WalkStep, s1: State, o: Outcome) {
    match step.walk
    case AlreadySeen => o.Silent? && s1 == s.(calls := step.calls)
    case Exhausted =>
      o.Silent? && s1.calls == step.calls && s1.view == []
      && s1.backfillFrom == (if s.lastEmitted.Some? then Some(s.lastEmitted.value.number + 1) else None)
    case Advance(path) =>
      && FetchByHash(p, step.calls, path).Ok?
      && o.Emitted? && o.notification.kind == ChainCommitted(FetchByHash(p, step.calls, path).value)
      && s1.calls >= step.calls + |path| && s1.backfillFrom == s.backfillFrom
    case Reorg(fork, oldTip, path) =>
      && FetchByHash(p, step.calls, path).Ok?
      && o.Emitted? && o.notification.kind == ChainReorged(RevertRange(fork, oldTip), FetchByHash(p, step.calls, path).value)
      && s1.calls >= step.calls + |path| && s1.backfillFrom == s.backfillFrom
    case WalkFailed(_) => false
  }

  /** What a successful header does, by what its walk found. */
  lemma HeadShape(p: Provider, c: Config, s: State, hint: Hint) returns (step: WalkStep)
    requires !HandleNewHead(p, c, s, hint).1.Failed?
    ensures step == ResolveWalk(p, s.view, c.capacity, s.calls, hint.hash) && !step.walk.WalkFailed?
    ensures HeadDid(p, s, step, HandleNewHead(p, c, s, hint).0, HandleNewHead(p, c, s, hint).1)
  {
    step := ResolveWalk(p, s.view, c.capacity, s.calls, hint.hash);
  }

  /** With something to anchor to, a header leaves the consumer with one linked chain that ends at the walked block. */
  lemma HeadKeepsSound(p: Provider, c: Config, s: State, chain: seq<Block>, hint: Hint) returns (top: Hash)
    requires Honest(p) && Sound(p, c, s, chain) && s.backfillFrom.None?
    requires s.view == [] ==> chain == []
    requires !HandleNewHead(p, c, s, hint).1.Failed?
    ensures var (s1, o) := HandleNewHead(p, c, s, hint);
            && Sound(p, c, s1, Consume(chain, o)) && !o.Closed?
            && (o.Emitted? ==> s1.backfillFrom.None? && s1.view != [] && Last(Consume(chain, o)).hash == top)
            && (o.Emitted? && chain != [] ==> Consume(chain, o)[0] == chain[0])
            && (o.Silent? ==> if s1.view == s.view then s1.backfillFrom.None? && InView(s.view, top)
                              else s1.view == [] && s1.backfillFrom.Some?)
    ensures WalkChain(p, s.view, c.capacity, s.calls, hint.hash).walk.WalkFailed? || top == hint.hash
  {
    hide ResolveWalk, FetchByHash, Truncate, RefreshTags, Linked, InTree, RefsLinked, NoneInView;
    SoundView(p, c, s, chain);
    top := ResolveWalkOk(p, s.view, c.capacity, s.calls, hint.hash);
    var step := ResolveWalk(p, s.view, c.capacity, s.calls, hint.hash);
    match step.walk
    case Advance(path) =>
      var blocks := AdvanceKeepsSound(p, c, s.(calls := step.calls), chain, path, hint.timestamp);
    case Reorg(fork, oldTip, path) =>
      var blocks := ReorgKeepsSound(p, c, s.(calls := step.calls), chain, fork, oldTip, path, hint.timestamp);
    case _ =>
  }

  /** With an empty view the header's block, and nothing else, is committed; its parent is not looked at. */
  lemma UncheckedHead(p: Provider, c: Config, s: State, hint: Hint) returns (top: Hash)
    requires s.view == []
    ensures top == UncheckedTop(p, s.calls, hint.hash)
    ensures var (s1, o) := HandleNewHead(p, c, s, hint);
            && (o.Failed? || o.Emitted?)
            && (o.Emitted? ==>
                 && top in p.tree && o.notification.kind == ChainCommitted([BlockAt(p.tree, top)])
                 && s1.view == [RefAt(p.tree, top)] && s1.lastEmitted == Some(RefAt(p.tree, top)) && s1.backfillFrom == s.backfillFrom)
  {
    top := UncheckedTop(p, s.calls, hint.hash);
    var step := ResolveWalk(p, s.view, c.capacity, s.calls, hint.hash);
    if step.walk.Advance? {
      var path := [RefAt(p.tree, top)];
      assert step.walk.newChain == path + [] == path;
      assert path[1..] == [] && FetchByHash(p, step.calls + 1, []) == Ok([]);
      assert [BlockAt(p.tree, top)] + [] == [BlockAt(p.tree, top)];
      assert LastN([] + path, c.capacity) == path;
    }
  }

  /**
   * The one step that can break the chain, and exactly when: with the view cleared and backfill over, the block
   * that the header leads to is committed alone, and the chain stays linked iff it is a child of the last block
   * emitted.
   */
  lemma UnanchoredTurnLinksIffParentMatches(p: Provider, c: Config, s: State, chain: seq<Block>) returns (top: Hash)
    requires Honest(p) && Sound(p, c, s, chain) && UnanchoredTurn(p, c, s)
    requires Turn(p, c, s).1.Emitted?
    ensures var s0 := DrainBackfill(p, c, s).0;
            s0.bursts != [] && s0.bursts[0] != [] && top == UncheckedTop(p, s0.calls, Last(s0.bursts[0]).hash) && top in p.tree
    ensures var (s1, o) := Turn(p, c, s);
            && o.notification.kind == ChainCommitted([BlockAt(p.tree, top)])
            && (Sound(p, c, s1, Consume(chain, o)) <==> p.tree[top].parent == s.lastEmitted.value.hash)
            && (IsChain(p.tree, Consume(chain, o)) <==> p.tree[top].parent == s.lastEmitted.value.hash)
  {
    var s0 := DrainBackfill(p, c, s).0;
    var s2 := s0.(bursts := s0.bursts[1..]);
    top := UncheckedHead(p, c, s2, Last(s0.bursts[0]));
    var s1 := Turn(p, c, s).0;
    hide HandleNewHead, DrainBackfill, Turn, UncheckedTop;
    OneBlockLinksIff(p, c, s, s1, chain, top);
  }

  /** One block on top of a chain. */
  lemma OneBlockLinksIff(p: Provider, c: Config, s: State, s1: State, chain: seq<Block>, top: Hash)
    requires Honest(p) && Sound(p, c, s, chain) && chain != [] && top in p.tree
    requires s1.view == [RefAt(p.tree, top)] && s1.lastEmitted == Some(RefAt(p.tree, top)) && s1.backfillFrom.None?
    ensures var longer := chain + [BlockAt(p.tree, top)];
            && (Sound(p, c, s1, longer) <==> p.tree[top].parent == Last(chain).hash)
            && (IsChain(p.tree, longer) <==> p.tree[top].parent == Last(chain).hash)
  {
    var block := BlockAt(p.tree, top);
    assert Last(chain) == BlockAt(p.tree, Last(chain).hash);
    LinkedAppend(chain, [block]);
    assert Last(chain + [block]) == block;
    assert IsSuffix([Ref(block)], chain + [block]);
  }

  /** With an empty view nothing can have been seen, and no walk leaves the view. */
  lemma EmptyViewIsNeverSilent(p: Provider, c: Config, s: State, hint: Hint)
    requires s.view == []
    ensures HandleNewHead(p, c, s, hint).1.Emitted? || HandleNewHead(p, c, s, hint).1.Failed?
  {
    var _ := UncheckedHead(p, c, s, hint);
  }

  lemma TurnKeepsSound(p: Provider, c: Config, s: State, chain: seq<Block>)
    requires Honest(p) && Sound(p, c, s, chain) && TurnLinks(p, c, s)
    requires !Turn(p, c, s).1.Failed?
    ensures var (s1, o) := Turn(p, c, s); Sound(p, c, s1, Consume(chain, o))
  {
    hide DrainBackfill, HandleNewHead, IsChain, IsSuffix, UncheckedTop, BatchSeamsAgree;
    DrainKeepsSound(p, c, s, chain);
    var (s1, drained) := DrainBackfill(p, c, s);
    if drained.Silent? && s1.bursts != [] && s1.bursts[0] != [] {
      var s2 := s1.(bursts := s1.bursts[1..]);
      assert Sound(p, c, s2, chain);
      if UnanchoredTurn(p, c, s) {
        EmptyViewIsNeverSilent(p, c, s2, Last(s1.bursts[0]));
        var _ := UnanchoredTurnLinksIffParentMatches(p, c, s, chain);
      } else {
        var _ := HeadKeepsSound(p, c, s2, chain, Last(s1.bursts[0]));
      }
    }
  }

  lemma LinkedBatchAgrees(p: Provider, c: Config, s: State, chain: seq<Block>)
    requires Honest(p) && DrainBackfill(p, c, s).1.Emitted? && Linked(Consume(chain, DrainBackfill(p, c, s).1))
    ensures BatchSeamsAgree(p, c, s)
  {
    var from, upTo, _ := BatchShape(p, c, s);
    BatchLinkedIffSeamsAgree(p, s.calls + 1, from, upTo);
    var blocks := FetchRange(p, s.calls + 1, from, upTo).value;
    LinkedSuffix(chain + blocks, |chain|);
    assert (chain + blocks)[|chain|..] == blocks;
  }

  /** Exactly when a turn that delivers something leaves the consumer with one linked chain. */
  lemma TurnLinkedIff(p: Provider, c: Config, s: State, chain: seq<Block>)
    requires Honest(p) && Sound(p, c, s, chain) && Turn(p, c, s).1.Emitted?
    ensures IsChain(p.tree, Consume(chain, Turn(p, c, s).1)) <==> TurnLinks(p, c, s)
  {
    if TurnLinks(p, c, s) {
      TurnKeepsSound(p, c, s, chain);
    } else if DrainBackfill(p, c, s).1.Emitted? {
      if Linked(Consume(chain, Turn(p, c, s).1)) {
        LinkedBatchAgrees(p, c, s, chain);
      }
    } else {
      var _ := UnanchoredTurnLinksIffParentMatches(p, c, s, chain);
    }
  }

  // ---- Errors ----

  /** The walk led with an empty view back to the last block the consumer has: it is committed a second time. */
  ghost predicate SameBlockAgain(s: State, chain: seq<Block>, walk: Walk) {
    s.view == [] && chain != [] && walk == Advance([Ref(Last(chain))])
  }

  /**
   * After a failed header the state still describes what the consumer holds exactly when the walk or the fetch
   * failed, or the header led from an empty view to the last block again. Otherwise it was the tag refresh: view and
   * delivery mark have moved past blocks nobody received.
   */
  lemma FailedHeadIsSoundIff(p: Provider, c: Config, s: State, chain: seq<Block>, hint: Hint)
    requires Honest(p) && Sound(p, c, s, chain) && s.backfillFrom.None?
    requires HandleNewHead(p, c, s, hint).1.Failed?
    ensures var step := ResolveWalk(p, s.view, c.capacity, s.calls, hint.hash);
            Sound(p, c, HandleNewHead(p, c, s, hint).0, chain) <==>
            step.walk.WalkFailed? || FetchByHash(p, step.calls, step.walk.newChain).Err? || SameBlockAgain(s, chain, step.walk)
  {
    var step := ResolveWalk(p, s.view, c.capacity, s.calls, hint.hash);
    SoundView(p, c, s, chain);
    hide ResolveWalk, FetchByHash;
    if !step.walk.WalkFailed? && FetchByHash(p, step.calls, step.walk.newChain).Ok? {
      var top := ResolveWalkOk(p, s.view, c.capacity, s.calls, hint.hash);
      var s1 := HandleNewHead(p, c, s, hint).0;
      assert s1.lastEmitted == Some(Last(step.walk.newChain));
      if s.view != [] {
        FreshIsNotLast(p, s.view, step.walk.newChain);
      } else {
        assert s1.view == LastN([] + step.walk.newChain, c.capacity) && s1.backfillFrom.None?;
        var entry := Last(step.walk.newChain);
        assert step.walk.newChain == [entry] == LastN([] + step.walk.newChain, c.capacity);
        OneBlockIsSoundIff(p, c, s, s1, chain, entry);
      }
    }
  }

  lemma FreshIsNotLast(p: Provider, view: seq<BlockRef>, path: seq<BlockRef>)
    requires view != [] && Contiguous(view) && path != [] && NoneInView(view, path)
    ensures Last(path) != Last(view)
  {
    assert ViewHash(view, Last(path).number) != Some(Last(path).hash);
  }

  lemma OneBlockIsSoundIff(p: Provider, c: Config, s: State, s1: State, chain: seq<Block>, entry: BlockRef)
    requires Sound(p, c, s, chain) && s1.view == [entry] && s1.lastEmitted == Some(entry) && s1.backfillFrom.None?
    ensures Sound(p, c, s1, chain) <==> chain != [] && entry == Ref(Last(chain))
  {
  }

  /** The batch that is due is fetched, and its first block follows what was delivered. */
  ghost predicate BatchAccepted(p: Provider, c: Config, s: State) {
    s.backfillFrom.Some? && TipNumber(p, s.calls).Ok? && s.backfillFrom.value <= TipNumber(p, s.calls).value &&
    var from := s.backfillFrom.value;
    var fetched := FetchRange(p, s.calls + 1, from, BatchEnd(c.capacity, s.batchSize, TipNumber(p, s.calls).value, from));
    fetched.Ok? && (s.lastEmitted.Some? && fetched.value != [] ==> fetched.value[0].parent == s.lastEmitted.value.hash)
  }

  /** The same for a failed batch: if it had been accepted, its blocks are marked as delivered but never were. */
  lemma FailedBatchIsSoundIff(p: Provider, c: Config, s: State, chain: seq<Block>)
    requires Honest(p) && Sound(p, c, s, chain) && DrainBackfill(p, c, s).1.Failed?
    ensures Sound(p, c, DrainBackfill(p, c, s).0, chain) <==> !BatchAccepted(p, c, s)
  {
    hide FetchRange, Linked, SeamsAgree, RefreshTags;
    if BatchAccepted(p, c, s) {
      var from, tip := s.backfillFrom.value, TipNumber(p, s.calls).value;
      var upTo := BatchEnd(c.capacity, s.batchSize, tip, from);
      BatchLinkedIffSeamsAgree(p, s.calls + 1, from, upTo);
      var blocks := FetchRange(p, s.calls + 1, from, upTo).value;
      assert Last(blocks).number == upTo;
      assert DrainBackfill(p, c, s).0.lastEmitted == Some(Ref(Last(blocks)));
    }
  }

  // ---- Runs ----

  /** The turn that ends the call links; all others deliver nothing. */
  ghost predicate GoodCall(p: Provider, c: Config, s: State)
    decreases |s.bursts|
  {
    TurnConsumes(p, c, s);
    var (s1, o) := Turn(p, c, s);
    TurnLinks(p, c, s) && (o.Silent? ==> GoodCall(p, c, s1))
  }

  lemma {:induction false} NextNotificationKeepsSound(p: Provider, c: Config, s: State, chain: seq<Block>)
    requires Honest(p) && Sound(p, c, s, chain) && GoodCall(p, c, s)
    requires !NextNotification(p, c, s).1.Failed?
    ensures var (s1, o) := NextNotification(p, c, s); Sound(p, c, s1, Consume(chain, o))
    decreases |s.bursts|
  {
    TurnConsumes(p, c, s);
    TurnKeepsSound(p, c, s, chain);
    var (s1, o) := Turn(p, c, s);
    if o.Silent? {
      NextNotificationKeepsSound(p, c, s1, chain);
    }
  }

  /** A call keeps the consumer's chain linked exactly when it is a good one. */
  lemma {:induction false} CallLinkedIff(p: Provider, c: Config, s: State, chain: seq<Block>)
    requires Honest(p) && Sound(p, c, s, chain)
    ensures IsChain(p.tree, Consume(chain, NextNotification(p, c, s).1)) <==> GoodCall(p, c, s)
    decreases |s.bursts|
  {
    TurnConsumes(p, c, s);
    var (s1, o) := Turn(p, c, s);
    if o.Silent? {
      TurnKeepsSound(p, c, s, chain);
      CallLinkedIff(p, c, s1, chain);
    } else if o.Emitted? {
      TurnLinkedIff(p, c, s, chain);
    }
  }

  /** Up to `calls` calls of `next_notification`, ending early at an error or the end of the stream. */
  function Follow(p: Provider, c: Config, s: State, calls: nat): (State, seq<Notification>, Outcome)
    decreases calls
  {
    if calls == 0 then (s, [], Silent) else
    var (s1, o) := NextNotification(p, c, s);
    if !o.Emitted? then (s1, [], o) else
    var (s2, rest, final) := Follow(p, c, s1, calls - 1);
    (s2, [o.notification] + rest, final)
  }

  ghost predicate GoodRun(p: Provider, c: Config, s: State, calls: nat)
    decreases calls
  {
    calls > 0 ==>
      && GoodCall(p, c, s)
      && (NextNotification(p, c, s).1.Emitted? ==> GoodRun(p, c, NextNotification(p, c, s).0, calls - 1))
  }

  function ReplayAll(chain: seq<Block>, notifications: seq<Notification>): seq<Block>
    decreases |notifications|
  {
    if notifications == [] then chain else ReplayAll(Replay(chain, notifications[0].kind), notifications[1..])
  }

  /** A freshly built notifier whose consumer asks for blocks from `head` on. */
  function Initial(head: nat, batchSize: Positive, bursts: seq<seq<Hint>>): State {
    State([], Some(head), batchSize, None, TagCache(None, None, None), 0, bursts)
  }

  /** In every good run, the consumer ends with one linked chain, of which the view is the newest part. */
  lemma {:induction false} RunKeepsSound(p: Provider, c: Config, s: State, chain: seq<Block>, calls: nat)
    requires Honest(p) && Sound(p, c, s, chain) && GoodRun(p, c, s, calls)
    requires !Follow(p, c, s, calls).2.Failed?
    ensures var (s1, emitted, _) := Follow(p, c, s, calls); Sound(p, c, s1, ReplayAll(chain, emitted))
    decreases calls
  {
    if calls > 0 {
      NextNotificationKeepsSound(p, c, s, chain);
      var (s1, o) := NextNotification(p, c, s);
      if o.Emitted? {
        RunKeepsSound(p, c, s1, Consume(chain, o), calls - 1);
      }
    }
  }

  /** What the consumer holds after the first `k` calls. */
  function Held(p: Provider, c: Config, s: State, chain: seq<Block>, k: nat): seq<Block> {
    ReplayAll(chain, Follow(p, c, s, k).1)
  }

  lemma HeldUnfolds(p: Provider, c: Config, s: State, chain: seq<Block>, k: nat)
    requires k > 0 && NextNotification(p, c, s).1.Emitted?
    ensures var (s1, o) := NextNotification(p, c, s);
            Held(p, c, s, chain, k) == Held(p, c, s1, Consume(chain, o), k - 1)
  {
    var (s1, o) := NextNotification(p, c, s);
    var rest := Follow(p, c, s1, k - 1).1;
    assert ([o.notification] + rest)[1..] == rest;
  }

  /**
   * The exact condition for safety over whole runs: the consumer's chain is linked after every call, up to an error
   * or the end of the stream, if and only if every call of the run is a good one.
   */
  lemma {:induction false} RunLinkedIff(p: Provider, c: Config, s: State, chain: seq<Block>, calls: nat)
    requires Honest(p) && Sound(p, c, s, chain)
    ensures (forall k: nat :: k <= calls ==> IsChain(p.tree, Held(p, c, s, chain, k))) <==> GoodRun(p, c, s, calls)
    decreases calls
  {
    hide NextNotification, GoodCall, IsChain;
    assert Held(p, c, s, chain, 0) == chain;
    if calls > 0 {
      var (s1, o) := NextNotification(p, c, s);
      CallLinkedIff(p, c, s, chain);
      if o.Emitted? {
        HeldUnfolds(p, c, s, chain, 1);
        assert Held(p, c, s1, Consume(chain, o), 0) == Consume(chain, o);
        if GoodCall(p, c, s) {
          NextNotificationKeepsSound(p, c, s, chain);
          RunLinkedIff(p, c, s1, Consume(chain, o), calls - 1);
          forall k: nat | 0 < k <= calls
            ensures Held(p, c, s, chain, k) == Held(p, c, s1, Consume(chain, o), k - 1)
          {
            HeldUnfolds(p, c, s, chain, k);
          }
          LaterHeld(p, c, s, chain, s1, Consume(chain, o), calls);
        }
      } else {
        forall k: nat | k <= calls
          ensures Held(p, c, s, chain, k) == chain
        {
        }
      }
    }
  }

  lemma LaterHeld(p: Provider, c: Config, s: State, chain: seq<Block>, s1: State, chain1: seq<Block>, calls: nat)
    requires calls > 0 && forall k: nat :: 0 < k <= calls ==> Held(p, c, s, chain, k) == Held(p, c, s1, chain1, k - 1)
    requires IsChain(p.tree, Held(p, c, s, chain, 0))
    ensures (forall k: nat :: k <= calls ==> IsChain(p.tree, Held(p, c, s, chain, k)))
            <==> (forall k: nat :: k <= calls - 1 ==> IsChain(p.tree, Held(p, c, s1, chain1, k)))
  {
    hide Held, IsChain;
    if forall k: nat :: k <= calls ==> IsChain(p.tree, Held(p, c, s, chain, k)) {
      forall k: nat | k <= calls - 1
        ensures IsChain(p.tree, Held(p, c, s1, chain1, k))
      {
        assert IsChain(p.tree, Held(p, c, s, chain, k + 1));
      }
    }
  }

  lemma FromTheStart(p: Provider, c: Config, head: nat, batchSize: Positive, bursts: seq<seq<Hint>>, calls: nat)
    requires Honest(p) && GoodRun(p, c, Initial(head, batchSize, bursts), calls)
    requires !Follow(p, c, Initial(head, batchSize, bursts), calls).2.Failed?
    ensures var (s1, emitted, _) := Follow(p, c, Initial(head, batchSize, bursts), calls);
            Sound(p, c, s1, ReplayAll([], emitted))
  {
    RunKeepsSound(p, c, Initial(head, batchSize, bursts), [], calls);
  }

  // ---- Where delivery begins ----

  /** The header that ends the first non-empty burst. */
  function FirstHeader(bursts: seq<seq<Hint>>): Option<Hint> {
    if bursts == [] then None else if bursts[0] == [] then FirstHeader(bursts[1..]) else Some(Last(bursts[0]))
  }

  /** The block that header leads to when it is handled after one request for the provider's tip. */
  function FirstTop(p: Provider, s: State): Option<Hash> {
    var header := FirstHeader(s.bursts);
    if header.None? then None else Some(UncheckedTop(p, s.calls + 1, header.value.hash))
  }

  /** Without backfill and with an empty view, the first header decides what is committed. */
  lemma {:induction false} FirstHeaderDecides(p: Provider, c: Config, s: State) returns (top: Hash)
    requires s.backfillFrom.None? && s.view == [] && NextNotification(p, c, s).1.Emitted?
    ensures FirstHeader(s.bursts).Some? && top == UncheckedTop(p, s.calls, FirstHeader(s.bursts).value.hash) && top in p.tree
    ensures NextNotification(p, c, s).1.notification.kind == ChainCommitted([BlockAt(p.tree, top)])
    decreases |s.bursts|
  {
    hide HandleNewHead, UncheckedTop;
    if s.bursts[0] == [] {
      top := FirstHeaderDecides(p, c, s.(bursts := s.bursts[1..]));
    } else {
      top := UncheckedHead(p, c, s.(bursts := s.bursts[1..]), Last(s.bursts[0]));
    }
  }

  /**
   * Where the first notification of a notifier that was asked for `start` begins. If the provider's tip has reached
   * `start`, there. If the tip is just below it, at whatever block the first header leads to, alone. A tip further
   * below makes the call fail.
   */
  lemma FirstDelivery(p: Provider, c: Config, s: State, start: nat)
    requires Honest(p) && s.view == [] && s.lastEmitted.None? && s.backfillFrom == Some(start)
    requires NextNotification(p, c, s).1.Emitted?
    ensures TipNumber(p, s.calls).Ok? && start <= TipNumber(p, s.calls).value + 1
    ensures NextNotification(p, c, s).1.notification.kind.ChainCommitted? && NextNotification(p, c, s).1.notification.kind.blocks != []
    ensures var tip := TipNumber(p, s.calls).value;
            var blocks := NextNotification(p, c, s).1.notification.kind.blocks;
            && (start > tip ==> FirstTop(p, s).Some? && FirstTop(p, s).value in p.tree && blocks == [BlockAt(p.tree, FirstTop(p, s).value)])
            && (blocks[0].number == start <==> start <= tip || p.tree[FirstTop(p, s).value].number == start)
  {
    hide HandleNewHead, UncheckedTop, FetchRange, RefreshTags;
    var (s1, o) := DrainBackfill(p, c, s);
    if o.Silent? {
      NothingDrained(p, c, s);
      assert Turn(p, c, s) == Turn(p, c, s1);
      var top := FirstHeaderDecides(p, c, s1);
      assert FirstTop(p, s) == Some(top);
    } else {
      var from, upTo, _ := BatchShape(p, c, s);
      BatchLinkedIffSeamsAgree(p, s.calls + 1, from, upTo);
    }
  }
}
