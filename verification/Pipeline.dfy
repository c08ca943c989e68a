/**
 * The notifier driving the node: every notification of a good run is accepted, and storage stays the fresh sync
 * of the chain the notifier's consumer holds.
 */
module Pipeline {
  import opened Wrappers
  import opened Host
  import opened HostProvider
  import opened Follower
  import opened FollowerRuns
  import opened Rollup
  import opened Node
  import opened NodeRuns

  /** A notification that fits the chain it arrives on: it continues it, or replaces its end. */
  ghost predicate FitsChain(chain: seq<Block>, kind: Kind) {
    match kind
    case ChainCommitted(blocks) => blocks != [] && Linked(chain + blocks)
    case ChainReorged(range, blocks) =>
      && blocks != [] && chain != [] && range.Valid() && range.tip == Last(chain).number && chain[0].number < range.first
      && blocks[0].number == range.first && Linked(Truncate(chain, range.first) + blocks)
    case ChainReverted(_) => false
  }

  // ---- What the notifier emits fits ----

  lemma AdvanceFits(p: Provider, chain: seq<Block>, path: seq<BlockRef>, call: nat, blocks: seq<Block>)
    requires path != [] && RefsIn(p.tree, path) && FetchByHash(p, call, path) == Ok(blocks) && Linked(chain + blocks)
    ensures FitsChain(chain, ChainCommitted(blocks))
  {
    FetchByHashIsFixed(p, call, path);
  }

  lemma ReorgFits(p: Provider, c: Config, s: State, chain: seq<Block>, top: Hash, walk: Walk, call: nat, blocks: seq<Block>)
    requires Honest(p) && Sound(p, c, s, chain) && s.view != []
    requires walk.Reorg? && WalkOk(p, s.view, c.capacity, top, walk) && FetchByHash(p, call, walk.newChain) == Ok(blocks)
    requires Linked(Truncate(chain, walk.forkNumber) + blocks)
    ensures FitsChain(chain, ChainReorged(RevertRange(walk.forkNumber, walk.oldTip), blocks))
  {
    hide FetchByHash, Truncate;
    FetchByHashIsFixed(p, call, walk.newChain);
    SoundView(p, c, s, chain);
    var inView, kept := ForkPosition(p, c, s, chain, walk.forkNumber);
    NumbersAreConsecutive(chain, kept - 1);
  }

  lemma HeadFits(p: Provider, c: Config, s: State, chain: seq<Block>, hint: Hint)
    requires Honest(p) && Sound(p, c, s, chain) && s.backfillFrom.None? && s.view != []
    requires HandleNewHead(p, c, s, hint).1.Emitted?
    ensures FitsChain(chain, HandleNewHead(p, c, s, hint).1.notification.kind)
  {
    hide ResolveWalk, FetchByHash, HandleNewHead, Truncate, FitsChain;
    var _ := HeadKeepsSound(p, c, s, chain, hint);
    SoundView(p, c, s, chain);
    var step := HeadShape(p, c, s, hint);
    var top := ResolveWalkOk(p, s.view, c.capacity, s.calls, hint.hash);
    var blocks := FetchByHash(p, step.calls, step.walk.newChain).value;
    if step.walk.Advance? {
      AdvanceFits(p, chain, step.walk.newChain, step.calls, blocks);
    } else {
      ReorgFits(p, c, s, chain, top, step.walk, step.calls, blocks);
    }
  }

  lemma TurnFits(p: Provider, c: Config, s: State, chain: seq<Block>)
    requires Honest(p) && Sound(p, c, s, chain) && TurnLinks(p, c, s)
    requires chain != [] && Turn(p, c, s).1.Emitted?
    ensures FitsChain(chain, Turn(p, c, s).1.notification.kind)
  {
    DrainKeepsSound(p, c, s, chain);
    var (s1, drained) := DrainBackfill(p, c, s);
    if UnanchoredTurn(p, c, s) {
      var _ := UnanchoredTurnLinksIffParentMatches(p, c, s, chain);
    } else if drained.Silent? {
      HeadFits(p, c, s1.(bursts := s1.bursts[1..]), chain, Last(s1.bursts[0]));
    }
  }

  lemma {:induction false} CallFits(p: Provider, c: Config, s: State, chain: seq<Block>)
    requires Honest(p) && Sound(p, c, s, chain) && GoodCall(p, c, s)
    requires chain != [] && NextNotification(p, c, s).1.Emitted?
    ensures FitsChain(chain, NextNotification(p, c, s).1.notification.kind)
    decreases |s.bursts|
  {
    TurnConsumes(p, c, s);
    var (s1, o) := Turn(p, c, s);
    if o.Silent? {
      TurnKeepsSound(p, c, s, chain);
      CallFits(p, c, s1, chain);
    } else {
      TurnFits(p, c, s, chain);
    }
  }

  /** If the provider's tip is just below `start`, the first header leads to block `start` or to the one after it. */
  ghost predicate FirstInReach(p: Provider, s: State, start: nat) {
    TipNumber(p, s.calls).Ok? && TipNumber(p, s.calls).value + 1 == start && FirstTop(p, s).Some? && FirstTop(p, s).value in p.tree ==>
      start <= p.tree[FirstTop(p, s).value].number <= start + 1
  }

  /** The consumer's chain starts at `start` or one above, or it is empty and will start so, or stay empty. */
  ghost predicate Anchored(p: Provider, s: State, chain: seq<Block>, start: nat) {
    if chain != [] then start <= chain[0].number <= start + 1
    else if s.backfillFrom.Some? then s.backfillFrom.value == start && FirstInReach(p, s, start)
    else s.bursts == []
  }

  lemma FirstCallFits(p: Provider, c: Config, s: State, start: nat)
    requires Honest(p) && Sound(p, c, s, []) && GoodCall(p, c, s) && Anchored(p, s, [], start)
    requires NextNotification(p, c, s).1.Emitted?
    ensures var kind := NextNotification(p, c, s).1.notification.kind;
            kind.ChainCommitted? && FitsChain([], kind) && start <= kind.blocks[0].number <= start + 1
  {
    hide NextNotification, GoodCall, UncheckedTop;
    if s.backfillFrom.None? {
      StreamIsOver(p, c, s);
    } else {
      CallLinkedIff(p, c, s, []);
      FirstDelivery(p, c, s, start);
      var blocks := NextNotification(p, c, s).1.notification.kind.blocks;
      assert [] + blocks == blocks;
    }
  }

  lemma StreamIsOver(p: Provider, c: Config, s: State)
    requires s.backfillFrom.None? && s.bursts == []
    ensures NextNotification(p, c, s) == (s, Closed)
  {
  }

  /** A call that delivers nothing to an empty consumer ended the stream. */
  lemma {:induction false} NothingFirst(p: Provider, c: Config, s: State)
    requires s.view == []
    requires !NextNotification(p, c, s).1.Emitted? && !NextNotification(p, c, s).1.Failed?
    ensures NextNotification(p, c, s).0.backfillFrom.None? && NextNotification(p, c, s).0.bursts == []
    decreases |s.bursts|
  {
    hide HandleNewHead, DrainBackfill;
    var (s1, drained) := DrainBackfill(p, c, s);
    if !drained.Emitted? && !drained.Failed? {
      NothingDrained(p, c, s);
      if s1.bursts != [] {
        var s2 := s1.(bursts := s1.bursts[1..]);
        if s1.bursts[0] == [] {
          NothingFirst(p, c, s2);
        } else {
          EmptyViewIsNeverSilent(p, c, s2, Last(s1.bursts[0]));
        }
      }
    }
  }

  // ---- What fits is accepted ----

  /** What a node that has stored `base` does not have yet: all of the chain, or all but the redelivered first block. */
  function Unstored(r: Rules, base: seq<Block>, chain: seq<Block>): seq<Block> {
    if chain != [] && chain[0].number == r.deployHeight + |base| then chain[1..] else chain
  }

  /** The chain begins at the host block of the stored tip, or right above it. */
  ghost predicate BeginsAt(r: Rules, base: seq<Block>, chain: seq<Block>) {
    chain != [] ==> r.deployHeight + |base| <= chain[0].number <= r.deployHeight + |base| + 1
  }

  /** The node's host chain is what it had stored before, `base`, continued by what the consumer was given. */
  ghost predicate NodeFollows(r: Rules, base: seq<Block>, host: seq<Block>, chain: seq<Block>) {
    BeginsAt(r, base, chain) && host == base + Unstored(r, base, chain)
  }

  lemma AppendedNumbers(chain: seq<Block>, blocks: seq<Block>)
    requires Linked(chain + blocks) && blocks != []
    ensures forall i :: 0 <= i < |blocks| ==> blocks[i].number == (chain + blocks)[0].number + |chain| + i
  {
    var all := chain + blocks;
    forall i | 0 <= i < |blocks|
      ensures blocks[i].number == all[0].number + |chain| + i
    {
      NumbersAreConsecutive(all, |chain| + i);
      assert all[|chain| + i] == blocks[i];
    }
  }

  lemma FirstSegmentIsFollowed(r: Rules, base: seq<Block>, blocks: seq<Block>)
    requires blocks != [] && BeginsAt(r, base, blocks)
    requires forall i :: 0 <= i < |blocks| ==> blocks[i].number == blocks[0].number + i
    ensures NodeFollows(r, base, GrowAbove(r, base, Some(blocks)), blocks)
  {
    if blocks[0].number == r.deployHeight + |base| {
      AllNewer(r, blocks[1..], |base|);
      assert Newer(r, blocks, |base|) == blocks[1..];
    } else {
      AllNewer(r, blocks, |base|);
    }
  }

  lemma NextSegmentIsFollowed(r: Rules, base: seq<Block>, host: seq<Block>, chain: seq<Block>, blocks: seq<Block>)
    requires NodeFollows(r, base, host, chain) && chain != []
    requires forall i :: 0 <= i < |blocks| ==> blocks[i].number == chain[0].number + |chain| + i
    ensures NodeFollows(r, base, GrowAbove(r, host, Some(blocks)), chain + blocks)
    ensures blocks != [] ==> blocks[0].number == r.deployHeight + |host| + 1
  {
    hide Newer;
    var newer := Unstored(r, base, chain);
    assert r.deployHeight + |host| + 1 == chain[0].number + |chain|;
    AllNewer(r, blocks, |host|);
    UnstoredAppend(r, base, chain, blocks);
    Associative(base, newer, blocks);
    hide Unstored;
    assert (chain + blocks)[0] == chain[0];
  }

  lemma UnstoredAppend(r: Rules, base: seq<Block>, chain: seq<Block>, blocks: seq<Block>)
    requires chain != []
    ensures Unstored(r, base, chain + blocks) == Unstored(r, base, chain) + blocks
  {
    ConsParts(chain, blocks);
  }

  lemma CommitIsFollowed(r: Rules, base: seq<Block>, host: seq<Block>, chain: seq<Block>, blocks: seq<Block>)
    requires NodeFollows(r, base, host, chain) && blocks != [] && Linked(chain + blocks) && BeginsAt(r, base, chain + blocks)
    ensures NodeRuns.Contiguous(blocks) && blocks[0].number <= r.deployHeight + |host| + 1
    ensures NodeFollows(r, base, GrowAbove(r, host, Some(blocks)), chain + blocks)
  {
    AppendedNumbers(chain, blocks);
    if chain == [] {
      assert chain + blocks == blocks && base + [] == base;
      FirstSegmentIsFollowed(r, base, blocks);
    } else {
      NextSegmentIsFollowed(r, base, host, chain, blocks);
    }
  }

  lemma RevertIsFollowed(r: Rules, base: seq<Block>, host: seq<Block>, chain: seq<Block>, range: RevertRange)
    requires Above(r, host) && NodeFollows(r, base, host, chain) && Linked(chain) && chain != [] && range.Valid()
    requires range.tip == Last(chain).number && chain[0].number < range.first
    ensures range.tip == r.deployHeight + |host|
    ensures var kept := Truncate(chain, range.first); kept != [] && kept[0] == chain[0] && Linked(kept)
    ensures NodeFollows(r, base, CutAbove(r, host, Some(range)), Truncate(chain, range.first))
  {
    var kept := range.first - chain[0].number;
    NumbersAreConsecutive(chain, |chain| - 1);
    NumbersAreConsecutive(chain, kept - 1);
    TruncateKeepsPrefix(chain, kept);
    assert Linked(chain[..kept]);
    CutIsFollowed(r, base, host, chain, range, kept);
  }

  lemma CutIsFollowed(r: Rules, base: seq<Block>, host: seq<Block>, chain: seq<Block>, range: RevertRange, kept: nat)
    requires NodeFollows(r, base, host, chain) && 0 < kept <= |chain| && range.first == chain[0].number + kept
    requires range.tip > r.deployHeight
    ensures NodeFollows(r, base, CutAbove(r, host, Some(range)), chain[..kept])
  {
    var skipped := |chain| - |Unstored(r, base, chain)|;
    var target := |base| + kept - skipped;
    assert RevertTarget(r, range.first) == target <= |host|;
    if skipped == 0 {
      SplitAtTarget(base, chain, target);
    } else {
      SplitAtTarget(base, chain[1..], target);
      assert chain[1..][..kept - 1] == chain[..kept][1..];
    }
  }

  lemma SplitAtTarget(base: seq<Block>, newer: seq<Block>, target: nat)
    requires |base| <= target <= |base| + |newer|
    ensures (base + newer)[..target] == base + newer[..target - |base|]
  {
  }

  /** A fitting notification is accepted, and the node's host chain goes on following the consumer's chain. */
  lemma FittingIsAccepted(r: Rules, genesis: RuBlock, ns: NodeState, base: seq<Block>, host: seq<Block>, chain: seq<Block>, n: Notification)
    requires GoodRules(r) && Synced(r, genesis, ns, host) && NodeFollows(r, base, host, chain) && Linked(chain)
    requires FitsChain(chain, n.kind)
    requires chain == [] ==> n.kind.ChainCommitted? && BeginsAt(r, base, n.kind.blocks)
    ensures GoodKind(n.kind) && Accepted(r, ns, n)
    ensures NodeFollows(r, base, ReplayAbove(r, host, n.kind), Replay(chain, n.kind))
  {
    if n.kind.ChainCommitted? {
      assert chain == [] ==> chain + n.kind.blocks == n.kind.blocks;
      CommitIsFollowed(r, base, host, chain, n.kind.blocks);
      var _ := CommitIsReplay(r, genesis, ns, host, n.kind.blocks);
    } else {
      ReorgIsAccepted(r, genesis, ns, base, host, chain, n.kind);
    }
  }

  /**
   * The debug assertion "drained should always contain at least one block" holds for every notification that fits:
   * the input that fails it has to revert blocks that were never delivered.
   */
  lemma FittingReorgDrains(r: Rules, genesis: RuBlock, ns: NodeState, base: seq<Block>, host: seq<Block>, chain: seq<Block>, kind: Kind)
    requires Synced(r, genesis, ns, host) && NodeFollows(r, base, host, chain) && Linked(chain)
    requires kind.ChainReorged? && FitsChain(chain, kind)
    ensures OnHostRevert(r, ns, kind.range).1 == Ok(true) && Drained(ns, RevertTarget(r, kind.range.first)) != []
  {
    RevertIsFollowed(r, base, host, chain, kind.range);
    NumbersAreConsecutive(chain, |chain| - 1);
    DrainedIsNonEmptyIff(r, ns, kind.range);
  }

  lemma ReorgIsAccepted(r: Rules, genesis: RuBlock, ns: NodeState, base: seq<Block>, host: seq<Block>, chain: seq<Block>, kind: Kind)
    requires GoodRules(r) && Synced(r, genesis, ns, host) && NodeFollows(r, base, host, chain) && Linked(chain)
    requires kind.ChainReorged? && FitsChain(chain, kind)
    ensures GoodKind(kind) && OnNotification(r, ns, kind).1.Ok?
    ensures NodeFollows(r, base, ReplayAbove(r, host, kind), Replay(chain, kind))
  {
    RevertIsFollowed(r, base, host, chain, kind.range);
    var _ := RevertPartIsReplay(r, genesis, ns, host, kind) by {
      var _ := RevertIsReplay(r, genesis, ns, host, kind.range);
    }
    var (mid, _) := RevertPart(r, ns, kind);
    var cut := CutAbove(r, host, Some(kind.range));
    CommitIsFollowed(r, base, cut, Truncate(chain, kind.range.first), kind.blocks);
    var _ := CommitIsReplay(r, genesis, mid, cut, kind.blocks);
  }

  // ---- Runs of the pipeline ----

  lemma CallAnchored(p: Provider, c: Config, s: State, chain: seq<Block>, start: nat)
    requires Honest(p) && Sound(p, c, s, chain) && GoodCall(p, c, s) && Anchored(p, s, chain, start)
    requires NextNotification(p, c, s).1.Emitted?
    ensures var (s1, o) := NextNotification(p, c, s);
            && Linked(chain) && FitsChain(chain, o.notification.kind)
            && (chain == [] ==> o.notification.kind.ChainCommitted? && start <= o.notification.kind.blocks[0].number <= start + 1)
            && Sound(p, c, s1, Consume(chain, o)) && Anchored(p, s1, Consume(chain, o), start)
  {
    hide NextNotification, GoodCall;
    NextNotificationKeepsSound(p, c, s, chain);
    var (s1, o) := NextNotification(p, c, s);
    if chain == [] {
      FirstCallFits(p, c, s, start);
    } else {
      CallFits(p, c, s, chain);
      if o.notification.kind.ChainReorged? {
        var range := o.notification.kind.range;
        NumbersAreConsecutive(chain, |chain| - 1);
        NumbersAreConsecutive(chain, range.first - chain[0].number - 1);
        TruncateKeepsPrefix(chain, range.first - chain[0].number);
      }
    }
  }

  /**
   * A node that restarts with the fresh sync of `base` asks for the host block of its tip on. In every good run
   * it accepts every notification, and its storage is the fresh sync of `base` continued by the consumer's chain.
   */
  lemma {:induction false} NodeStaysInSync(p: Provider, c: Config, s: State, chain: seq<Block>, calls: nat,
                                           r: Rules, genesis: RuBlock, ns: NodeState, base: seq<Block>, host: seq<Block>)
    requires Honest(p) && Sound(p, c, s, chain) && GoodRun(p, c, s, calls)
    requires Anchored(p, s, chain, r.deployHeight + |base|)
    requires GoodRules(r) && Synced(r, genesis, ns, host) && NodeFollows(r, base, host, chain)
    requires !Follow(p, c, s, calls).2.Failed?
    ensures var (s1, emitted, _) := Follow(p, c, s, calls);
            var (end, accepted) := NodeRun(r, ns, emitted);
            && accepted && GoodStream(emitted)
            && Synced(r, genesis, end, ReplayAllAbove(r, host, emitted))
            && NodeFollows(r, base, ReplayAllAbove(r, host, emitted), ReplayAll(chain, emitted))
    decreases calls
  {
    hide NextNotification, GoodCall, Sound, Synced, NodeFollows, FitsChain, Replay, ReplayAbove, NodeStep, Honest, GoodRules, GoodKind;
    if calls > 0 {
      var (s1, o) := NextNotification(p, c, s);
      if o.Emitted? {
        var n := o.notification;
        CallAnchored(p, c, s, chain, r.deployHeight + |base|);
        FittingIsAccepted(r, genesis, ns, base, host, chain, n);
        var _ := StepIsReplay(r, genesis, ns, host, n);
        NodeStaysInSync(p, c, s1, Consume(chain, o), calls - 1, r, genesis, NodeStep(r, ns, n).0, base, ReplayAbove(r, host, n.kind));
        var (_, rest, _) := Follow(p, c, s1, calls - 1);
        assert [n] + rest == Follow(p, c, s, calls).1;
        RunUnfolds(r, ns, host, chain, n, rest);
      }
    }
  }

  lemma RunUnfolds(r: Rules, ns: NodeState, host: seq<Block>, chain: seq<Block>, n: Notification, rest: seq<Notification>)
    requires Accepted(r, ns, n) && GoodKind(n.kind) && GoodStream(rest)
    ensures NodeRun(r, ns, [n] + rest) == NodeRun(r, NodeStep(r, ns, n).0, rest)
    ensures ReplayAllAbove(r, host, [n] + rest) == ReplayAllAbove(r, ReplayAbove(r, host, n.kind), rest)
    ensures ReplayAll(chain, [n] + rest) == ReplayAll(Replay(chain, n.kind), rest)
    ensures GoodStream([n] + rest)
  {
    assert ([n] + rest)[1..] == rest;
  }

  /**
   * Restarting: a node with the fresh sync of `base` starts a new notifier at its tip's host block. Every good run is
   * accepted, up to the first error of the notifier; a first header handled with the provider's tip just below that
   * block must lead to it or to the next one.
   */
  lemma RestartedNodeStaysInSync(p: Provider, c: Config, batchSize: Positive, bursts: seq<seq<Hint>>, calls: nat,
                                 r: Rules, genesis: RuBlock, ns: NodeState, base: seq<Block>)
    requires Honest(p) && GoodRules(r) && Synced(r, genesis, ns, base)
    requires FirstInReach(p, Initial(StartHeight(r, ns), batchSize, bursts), StartHeight(r, ns))
    requires GoodRun(p, c, Initial(StartHeight(r, ns), batchSize, bursts), calls)
    requires !Follow(p, c, Initial(StartHeight(r, ns), batchSize, bursts), calls).2.Failed?
    ensures var (_, emitted, _) := Follow(p, c, Initial(StartHeight(r, ns), batchSize, bursts), calls);
            var host := ReplayAllAbove(r, base, emitted);
            && NodeRun(r, ns, emitted).1 && Synced(r, genesis, NodeRun(r, ns, emitted).0, host)
            && NodeFollows(r, base, host, ReplayAll([], emitted))
  {
    hide Follow, GoodRun, NodeRun, FreshSync, FirstInReach, ReplayAllAbove, ReplayAll;
    var s := Initial(StartHeight(r, ns), batchSize, bursts);
    assert base + [] == base;
    NodeStaysInSync(p, c, s, [], calls, r, genesis, ns, base, base);
  }

  /**
   * The first notification of a restarted node, when the provider's tip is just below the block it asked for: a lone
   * block, accepted if and only if it leaves no gap. One number above what the node asked for it is stored on top of
   * the stored tip, whatever its parent; below that it is ignored.
   */
  lemma FirstNotificationAtNode(p: Provider, c: Config, batchSize: Positive, bursts: seq<seq<Hint>>,
                                r: Rules, genesis: RuBlock, ns: NodeState, base: seq<Block>)
    requires Honest(p) && GoodRules(r) && Synced(r, genesis, ns, base)
    requires TipNumber(p, 0).Ok? && TipNumber(p, 0).value < StartHeight(r, ns)
    requires NextNotification(p, c, Initial(StartHeight(r, ns), batchSize, bursts)).1.Emitted?
    ensures var n := NextNotification(p, c, Initial(StartHeight(r, ns), batchSize, bursts)).1.notification;
            && n.kind.ChainCommitted? && |n.kind.blocks| == 1
            && var block := n.kind.blocks[0];
               && (Accepted(r, ns, n) <==> block.number <= StartHeight(r, ns) + 1)
               && (Accepted(r, ns, n) ==>
                    Synced(r, genesis, NodeStep(r, ns, n).0, if block.number == StartHeight(r, ns) + 1 then base + [block] else base))
  {
    hide NextNotification, FreshSync, NodeStep, Accepted, UncheckedTop;
    var s := Initial(StartHeight(r, ns), batchSize, bursts);
    FirstDelivery(p, c, s, StartHeight(r, ns));
    var n := NextNotification(p, c, s).1.notification;
    LoneBlockAtNode(r, genesis, ns, base, n, n.kind.blocks[0]);
  }

  lemma LoneBlockAtNode(r: Rules, genesis: RuBlock, ns: NodeState, base: seq<Block>, n: Notification, block: Block)
    requires GoodRules(r) && Synced(r, genesis, ns, base) && n.kind == ChainCommitted([block])
    ensures Accepted(r, ns, n) <==> block.number <= r.deployHeight + |base| + 1
    ensures Accepted(r, ns, n) ==>
              Synced(r, genesis, NodeStep(r, ns, n).0, if block.number == r.deployHeight + |base| + 1 then base + [block] else base)
  {
    hide FreshSync, ProcessCommitted;
    CommitAcceptedIff(r, genesis, ns, base, [block]);
    if block.number > r.deployHeight + |base| {
      AllNewer(r, [block], |base|);
    } else {
      assert Newer(r, [block], |base|) == [] && base + [] == base;
    }
  }

  /** The redelivered block is the one the node had, or the first new block is a child of it. */
  ghost predicate Joins(r: Rules, base: seq<Block>, chain: seq<Block>) {
    if chain == [] || base == [] then true
    else if chain[0].number == r.deployHeight + |base| then |chain| > 1 ==> chain[0].hash == Last(base).hash
    else chain[0].parent == Last(base).hash
  }

  /** Exactly when what the node had and what it was given form one linked host chain; nothing else checks it. */
  lemma FollowedChainIsLinkedIff(r: Rules, base: seq<Block>, host: seq<Block>, chain: seq<Block>)
    requires Above(r, base) && Linked(base) && Linked(chain) && NodeFollows(r, base, host, chain)
    ensures Linked(host) <==> Joins(r, base, chain)
  {
    var newer := Unstored(r, base, chain);
    if newer == chain {
      assert chain[0..] == chain;
    } else {
      LinkedSuffix(chain, 1);
      assert |chain| > 1 ==> Follows(chain[0], chain[1]);
    }
    if base == [] || newer == [] {
      assert host == base + newer == if base == [] then newer else base;
    } else {
      LinkedAppend(base, newer);
    }
  }
}
