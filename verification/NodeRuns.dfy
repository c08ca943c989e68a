/** What every accepted history of host notifications leaves in the node: the same as a fresh sync. */
module NodeRuns {
  import opened Wrappers
  import opened Host
  import opened Rollup
  import opened BlockTags
  import opened Node

  /** The processor never returns a receipt without its transaction. */
  ghost predicate GoodRules(r: Rules) {
    forall parent, host {:trigger r.exec(parent, host)} :: |r.exec(parent, host).receipts| <= |r.exec(parent, host).transactions|
  }

  /** Host blocks `deployHeight + 1`, `deployHeight + 2`, ... */
  ghost predicate Above(r: Rules, host: seq<Block>) {
    forall i :: 0 <= i < |host| ==> host[i].number == r.deployHeight + 1 + i
  }

  /** `b` is what the processor makes of `host` on `parent`: every field of it. */
  ghost predicate IsOutput(r: Rules, parent: RuBlock, host: Block, b: RuBlock) {
    var out := r.exec(parent, host);
    && b.number + r.deployHeight == host.number
    && b.hash == out.hash && b.timestamp == out.timestamp && b.transactions == out.transactions && b.receipts == out.receipts
  }

  /** Storage after syncing a host chain from scratch: a fold of the processor over it. */
  function FreshSync(r: Rules, genesis: RuBlock, host: seq<Block>): (stored: seq<RuBlock>)
    requires Above(r, host)
    ensures |stored| == |host| + 1
    decreases |host|
  {
    if host == [] then [genesis]
    else
      var n := |host| - 1;
      var before := FreshSync(r, genesis, host[..n]);
      before + [Execute(r, before[n], host[n])]
  }

  /** What a revert leaves of the host chain above the deploy height. */
  function CutAbove(r: Rules, host: seq<Block>, reverted: Option<RevertRange>): seq<Block> {
    if reverted.None? || reverted.value.tip <= r.deployHeight then host
    else host[..Min(|host|, RevertTarget(r, reverted.value.first))]
  }

  /** What a commit adds to it: redelivered blocks are ignored. */
  function GrowAbove(r: Rules, host: seq<Block>, committed: Option<seq<Block>>): seq<Block> {
    if committed.None? then host else host + Newer(r, committed.value, |host|)
  }

  /** The host chain above the deploy height after one more notification. */
  function ReplayAbove(r: Rules, host: seq<Block>, kind: Kind): seq<Block> {
    GrowAbove(r, CutAbove(r, host, kind.Reverted()), kind.CommittedChain())
  }

  ghost predicate Contiguous(blocks: seq<Block>) {
    forall i :: 0 <= i < |blocks| ==> blocks[i].number == blocks[0].number + i
  }

  /** A segment of consecutive blocks, as every notification carries. */
  ghost predicate GoodKind(kind: Kind) {
    kind.CommittedChain().Some? ==> Contiguous(kind.CommittedChain().value)
  }

  /** Storage is exactly the fresh sync of `host`. */
  ghost predicate Synced(r: Rules, genesis: RuBlock, s: NodeState, host: seq<Block>) {
    Above(r, host) && StorageOk(s) && s.stored == FreshSync(r, genesis, host)
  }

  // ---- Segments ----

  lemma {:induction false} AllNewer(r: Rules, blocks: seq<Block>, last: nat)
    requires forall i :: 0 <= i < |blocks| ==> blocks[i].number > r.deployHeight + last
    ensures Newer(r, blocks, last) == blocks
    decreases |blocks|
  {
    if blocks != [] {
      AllNewer(r, blocks[1..], last);
    }
  }

  /** The already stored blocks of a segment are a prefix of it. */
  lemma {:induction false} NewerIsSuffix(r: Rules, blocks: seq<Block>, last: nat) returns (skip: nat)
    requires Contiguous(blocks)
    ensures skip <= |blocks| && Newer(r, blocks, last) == blocks[skip..]
    ensures skip < |blocks| ==> blocks[skip].number > r.deployHeight + last
    ensures skip > 0 ==> blocks[skip - 1].number <= r.deployHeight + last
    decreases |blocks|
  {
    if blocks == [] {
      return 0;
    }
    if blocks[0].number > r.deployHeight + last {
      AllNewer(r, blocks, last);
      return 0;
    }
    skip := NewerIsSuffix(r, blocks[1..], last);
    assert blocks[1..][skip..] == blocks[skip + 1..];
    skip := skip + 1;
  }

  // ---- Commits ----

  lemma FreshSyncExtends(r: Rules, genesis: RuBlock, host: seq<Block>, b: Block)
    requires Above(r, host) && b.number == r.deployHeight + 1 + |host|
    ensures Above(r, host + [b])
    ensures FreshSync(r, genesis, host + [b]) == FreshSync(r, genesis, host) + [Execute(r, FreshSync(r, genesis, host)[|host|], b)]
  {
    assert (host + [b])[..|host|] == host;
  }

  lemma {:induction false} FreshSyncPrefix(r: Rules, genesis: RuBlock, host: seq<Block>, k: nat)
    requires Above(r, host) && k <= |host|
    ensures FreshSync(r, genesis, host[..k]) == FreshSync(r, genesis, host)[..k + 1]
    decreases |host|
  {
    if k < |host| {
      FreshSyncPrefix(r, genesis, host[..|host| - 1], k);
      assert host[..|host| - 1][..k] == host[..k];
    } else {
      assert host[..k] == host;
    }
  }

  /** The next host blocks, without a gap. */
  ghost predicate FollowsOn(r: Rules, host: seq<Block>, blocks: seq<Block>) {
    forall i :: 0 <= i < |blocks| ==> blocks[i].number == r.deployHeight + 1 + |host| + i
  }

  /** The first of them is executed on the stored tip, and announced. */
  lemma FirstIsStored(r: Rules, genesis: RuBlock, s: NodeState, host: seq<Block>, blocks: seq<Block>) returns (s1: NodeState, e: ChainEvent)
    requires GoodRules(r) && Synced(r, genesis, s, host)
    requires FollowsOn(r, host, blocks) && blocks != []
    ensures Process(r, s, blocks) == Process(r, s1, blocks[1..])
    ensures Synced(r, genesis, s1, host + [blocks[0]]) && Accounts(r, s, [e], s1) && s1 == s.(stored := s1.stored, feed := s1.feed)
    ensures e == NewBlock(s1.stored[|host| + 1])
    ensures FollowsOn(r, host + [blocks[0]], blocks[1..]) && host + [blocks[0]] + blocks[1..] == host + blocks
  {
    hide FreshSync;
    var executed := Execute(r, s.stored[|host|], blocks[0]);
    s1, e := s.(stored := s.stored + [executed], feed := SendNewBlock(s.feed, executed)), NewBlock(executed);
    FreshSyncExtends(r, genesis, host, blocks[0]);
    OneEvent(s.stored, e);
    OneSent(s.feed, e);
    assert IsOutput(r, s.stored[|host|], blocks[0], executed);
    OneOutput(r, s.stored, blocks[0], executed);
  }

  lemma NoOutputs(r: Rules, chain: seq<RuBlock>, reorg: ReorgNotification)
    ensures OutputsOnly(r, chain, []) && OutputsOnly(r, chain, [Reorg(reorg)])
  {
    assert [Reorg(reorg)][..0] == [];
  }

  lemma OneOutput(r: Rules, chain: seq<RuBlock>, host: Block, b: RuBlock)
    requires chain != [] && IsOutput(r, chain[|chain| - 1], host, b)
    ensures OutputsOnly(r, chain, [NewBlock(b)])
  {
    assert [NewBlock(b)][..0] == [];
  }

  /** One announcement per block, in order, each of what is then stored at its place. */
  ghost predicate Announced(r: Rules, before: nat, stored: seq<RuBlock>, blocks: seq<Block>, events: seq<ChainEvent>) {
    && before > 0 && |events| == |blocks| && |stored| == before + |blocks|
    && forall i :: 0 <= i < |blocks| ==>
         events[i] == NewBlock(stored[before + i]) && IsOutput(r, stored[before + i - 1], blocks[i], stored[before + i])
  }

  lemma AnnouncedNext(r: Rules, genesis: RuBlock, s: NodeState, s1: NodeState, end: NodeState, host: seq<Block>, blocks: seq<Block>,
                      e: ChainEvent, rest: seq<ChainEvent>)
    requires blocks != [] && Synced(r, genesis, s, host) && Synced(r, genesis, s1, host + [blocks[0]]) && Synced(r, genesis, end, host + blocks)
    requires e == NewBlock(s1.stored[|host| + 1])
    requires Announced(r, |host| + 2, end.stored, blocks[1..], rest)
    ensures Announced(r, |host| + 1, end.stored, blocks, [e] + rest)
  {
    hide FreshSync, Execute, StorageOk;
    var all := host + blocks;
    assert all[..|host| + 1] == host + [blocks[0]];
    FreshSyncPrefix(r, genesis, all, |host| + 1);
    FreshSyncAt(r, genesis, all, |host|);
  }

  /** Blocks that follow on are executed one by one, each on the one before it, and announced in order. */
  lemma {:induction false} ProcessIsFreshSync(r: Rules, genesis: RuBlock, s: NodeState, host: seq<Block>, blocks: seq<Block>)
    returns (events: seq<ChainEvent>)
    requires GoodRules(r) && Synced(r, genesis, s, host)
    requires FollowsOn(r, host, blocks)
    ensures var (s1, error) := Process(r, s, blocks);
            && error.None? && Synced(r, genesis, s1, host + blocks)
            && s1 == s.(stored := s1.stored, feed := s1.feed) && Accounts(r, s, events, s1)
            && Announced(r, |host| + 1, s1.stored, blocks, events)
    decreases |blocks|
  {
    hide GoodRules, Synced, Accounts, Announced;
    events := [];
    if blocks == [] {
      assert host + blocks == host;
      SyncedIsRuChain(r, genesis, s, host);
      NoAnnouncements(r, genesis, s, host);
      NoEvents(r, s);
    } else {
      hide Process;
      var s1, e := FirstIsStored(r, genesis, s, host, blocks);
      var rest := ProcessIsFreshSync(r, genesis, s1, host + [blocks[0]], blocks[1..]);
      AccountsTogether(r, s, [e], s1, rest, Process(r, s, blocks).0);
      AnnouncedNext(r, genesis, s, s1, Process(r, s, blocks).0, host, blocks, e, rest);
      events := [e] + rest;
    }
  }

  lemma NoAnnouncements(r: Rules, genesis: RuBlock, s: NodeState, host: seq<Block>)
    requires Synced(r, genesis, s, host)
    ensures Announced(r, |host| + 1, s.stored, [], [])
  {
  }

  lemma SyncedIsRuChain(r: Rules, genesis: RuBlock, s: NodeState, host: seq<Block>)
    requires Synced(r, genesis, s, host)
    ensures IsRuChain(s.stored)
  {
  }

  lemma OneSent(feed: Feed, e: ChainEvent)
    ensures SendEvents(feed, [e]) == SendEvent(feed, e)
  {
    assert [e][..0] == [];
    assert SendEvents(feed, []) == feed;
  }

  lemma {:induction false} SendEventsAppend(feed: Feed, a: seq<ChainEvent>, b: seq<ChainEvent>)
    ensures SendEvents(feed, a + b) == SendEvents(SendEvents(feed, a), b)
    decreases |b|
  {
    if b == [] {
      assert a + b == a;
    } else {
      SendEventsAppend(feed, a, b[..|b| - 1]);
      assert (a + b)[..|a + b| - 1] == a + b[..|b| - 1];
    }
  }

  lemma OneEvent(chain: seq<RuBlock>, e: ChainEvent)
    requires Fits(chain, e)
    ensures History(chain, [e]) && ApplyEvents(chain, [e]) == ApplyEvent(chain, e)
  {
    assert [e][..0] == [];
    assert History(chain, []) && ApplyEvents(chain, []) == chain;
  }

  ghost predicate NoGap(r: Rules, host: seq<Block>, blocks: seq<Block>) {
    blocks == [] || blocks[0].number <= r.deployHeight + |host| + 1
  }

  lemma GapIsRefused(r: Rules, genesis: RuBlock, s: NodeState, host: seq<Block>, blocks: seq<Block>)
    requires Synced(r, genesis, s, host) && Contiguous(blocks) && !NoGap(r, host, blocks)
    ensures ProcessCommitted(r, s, blocks).1 == Err(ParentMissing)
  {
    AllNewer(r, blocks, |host|);
  }

  lemma NewerFollowsOn(r: Rules, host: seq<Block>, blocks: seq<Block>)
    requires Contiguous(blocks) && NoGap(r, host, blocks)
    ensures FollowsOn(r, host, Newer(r, blocks, |host|))
  {
    var skip := NewerIsSuffix(r, blocks, |host|);
  }

  /** A commit is accepted exactly when it leaves no gap above the stored tip, and then storage is the fresh sync. */
  lemma CommitIsReplay(r: Rules, genesis: RuBlock, s: NodeState, host: seq<Block>, blocks: seq<Block>)
    returns (events: seq<ChainEvent>)
    requires GoodRules(r) && Synced(r, genesis, s, host) && Contiguous(blocks)
    ensures var (s1, result) := ProcessCommitted(r, s, blocks);
            && (result.Ok? <==> NoGap(r, host, blocks))
            && (result.Ok? ==>
                 && Synced(r, genesis, s1, host + Newer(r, blocks, |host|))
                 && result.value == (Newer(r, blocks, |host|) != [])
                 && s1 == s.(stored := s1.stored, feed := s1.feed) && Accounts(r, s, events, s1)
                 && Announced(r, |host| + 1, s1.stored, Newer(r, blocks, |host|), events))
  {
    events := [];
    if NoGap(r, host, blocks) {
      NewerFollowsOn(r, host, blocks);
      events := ProcessIsFreshSync(r, genesis, s, host, Newer(r, blocks, |host|));
    } else {
      GapIsRefused(r, genesis, s, host, blocks);
    }
  }

  /** The same without the events: exactly when a commit is accepted, and what it leaves. */
  lemma CommitAcceptedIff(r: Rules, genesis: RuBlock, s: NodeState, host: seq<Block>, blocks: seq<Block>)
    requires GoodRules(r) && Synced(r, genesis, s, host) && Contiguous(blocks)
    ensures ProcessCommitted(r, s, blocks).1.Ok? <==> NoGap(r, host, blocks)
    ensures NoGap(r, host, blocks) ==> Synced(r, genesis, ProcessCommitted(r, s, blocks).0, host + Newer(r, blocks, |host|))
  {
    hide ProcessCommitted, Newer, FreshSync, SendEvents, History;
    var _ := CommitIsReplay(r, genesis, s, host, blocks);
  }

  // ---- Reverts ----

  /** A revert is accepted exactly when it lies below the rollup or covers the stored tip; then it cuts the sync. */
  lemma RevertIsReplay(r: Rules, genesis: RuBlock, s: NodeState, host: seq<Block>, range: RevertRange)
    returns (events: seq<ChainEvent>)
    requires Synced(r, genesis, s, host)
    ensures var (s1, result) := OnHostRevert(r, s, range);
            && (result.Ok? <==> range.tip <= r.deployHeight || range.tip >= r.deployHeight + |host|)
            && (result.Ok? ==>
                 && Synced(r, genesis, s1, CutAbove(r, host, Some(range)))
                 && result.value == (range.tip > r.deployHeight)
                 && Accounts(r, s, events, s1)
                 && (!result.value ==> s1 == s)
                 && (result.value ==>
                      var target := RevertTarget(r, range.first);
                      s1.tags == Tags(Min(s.tags.latest, target), Min(s.tags.safe, target), Min(s.tags.finalized, target))))
  {
    hide FreshSync;
    events := [];
    var (s1, result) := OnHostRevert(r, s, range);
    if result.Ok? && result.value {
      var target := RevertTarget(r, range.first);
      if target < |host| {
        FreshSyncPrefix(r, genesis, host, target);
        var reorg := ReorgNotification(target, AllRemoved(Drained(s, target)));
        events := [Reorg(reorg)];
        NoOutputs(r, s.stored, reorg);
        OneEvent(s.stored, Reorg(reorg));
        OneSent(s.feed, Reorg(reorg));
      } else {
        assert host[..|host|] == host;
      }
    }
  }

  /**
   * "Drained should always contain at least one block" (a debug assertion of the source) holds for an accepted
   * revert exactly when something is stored above genesis and the range starts at or below the stored tip.
   */
  lemma DrainedIsNonEmptyIff(r: Rules, s: NodeState, range: RevertRange)
    requires StorageOk(s) && OnHostRevert(r, s, range).1 == Ok(true)
    ensures Drained(s, RevertTarget(r, range.first)) != [] <==> Tip(s) > 0 && range.first <= r.deployHeight + Tip(s)
  {
  }

  /** The assertion fails for a node that has stored nothing and is told of a revert of the first rollup block's host. */
  lemma DrainedCanBeEmpty(r: Rules, genesis: RuBlock, feed: Feed)
    requires r.deployHeight == 0
    ensures var s := NodeState([genesis], Tags(0, 0, 0), feed, 0, None);
            var range := RevertRange(1, 1);
            range.Valid() && OnHostRevertAccepts(r, s, range) && Drained(s, RevertTarget(r, range.first)) == []
  {
  }

  ghost predicate OnHostRevertAccepts(r: Rules, s: NodeState, range: RevertRange) {
    range.tip > r.deployHeight && range.tip - r.deployHeight >= Tip(s)
  }

  // ---- Whole notifications ----

  /** Every block that is announced is the processor's output for some host block on the block announced below it. */
  ghost predicate OutputsOnly(r: Rules, chain: seq<RuBlock>, events: seq<ChainEvent>)
    decreases |events|
  {
    events != [] ==>
      var before := ApplyEvents(chain, events[..|events| - 1]);
      && OutputsOnly(r, chain, events[..|events| - 1])
      && (events[|events| - 1].NewBlock? ==>
           before != [] && IsSomeOutput(r, before[|before| - 1], events[|events| - 1].block))
  }

  ghost predicate IsSomeOutput(r: Rules, parent: RuBlock, b: RuBlock) {
    exists host: Block {:trigger IsOutput(r, parent, host, b)} :: IsOutput(r, parent, host, b)
  }

  lemma {:induction false} OutputsAppend(r: Rules, chain: seq<RuBlock>, a: seq<ChainEvent>, b: seq<ChainEvent>)
    requires OutputsOnly(r, chain, a) && History(chain, a)
    requires OutputsOnly(r, ApplyEvents(chain, a), b) && History(ApplyEvents(chain, a), b)
    ensures OutputsOnly(r, chain, a + b)
    decreases |b|
  {
    hide IsSomeOutput, Fits;
    if b == [] {
      assert a + b == a;
    } else {
      OutputsAppend(r, chain, a, b[..|b| - 1]);
      HistoryAppend(chain, a, b[..|b| - 1]);
      SnocParts(a, b);
    }
  }

  /** The node went from `s` to `s1` by broadcasting `events`, which account for the change in storage. */
  ghost predicate Accounts(r: Rules, s: NodeState, events: seq<ChainEvent>, s1: NodeState) {
    && s1.feed == SendEvents(s.feed, events) && History(s.stored, events) && ApplyEvents(s.stored, events) == s1.stored
    && OutputsOnly(r, s.stored, events)
  }

  lemma NoEvents(r: Rules, s: NodeState)
    requires IsRuChain(s.stored)
    ensures Accounts(r, s, [], s)
  {
  }

  lemma AccountsTogether(r: Rules, s: NodeState, first: seq<ChainEvent>, mid: NodeState, second: seq<ChainEvent>, end: NodeState)
    requires Accounts(r, s, first, mid) && Accounts(r, mid, second, end)
    ensures Accounts(r, s, first + second, end)
  {
    HistoryAppend(s.stored, first, second);
    SendEventsAppend(s.feed, first, second);
    OutputsAppend(r, s.stored, first, second);
  }

  lemma RevertPartIsReplay(r: Rules, genesis: RuBlock, s: NodeState, host: seq<Block>, kind: Kind) returns (events: seq<ChainEvent>)
    requires Synced(r, genesis, s, host) && RevertPart(r, s, kind).1.Ok?
    ensures var (s1, result) := RevertPart(r, s, kind);
            && Synced(r, genesis, s1, CutAbove(r, host, kind.Reverted())) && Accounts(r, s, events, s1) && (!result.value ==> s1 == s)
            && (s.tags.Ordered() ==> s1.tags.Ordered())
  {
    if kind.Reverted().Some? {
      events := RevertIsReplay(r, genesis, s, host, kind.Reverted().value);
    } else {
      events := [];
      NoEvents(r, s);
    }
  }

  lemma CommitPartIsReplay(r: Rules, genesis: RuBlock, s: NodeState, host: seq<Block>, kind: Kind) returns (events: seq<ChainEvent>)
    requires GoodRules(r) && Synced(r, genesis, s, host) && GoodKind(kind) && CommitPart(r, s, kind).1.Ok?
    ensures var (s1, result) := CommitPart(r, s, kind);
            && Synced(r, genesis, s1, GrowAbove(r, host, kind.CommittedChain())) && Accounts(r, s, events, s1)
            && (!result.value ==> s1 == s) && s1.tags == s.tags
  {
    if kind.CommittedChain().Some? {
      events := CommitIsReplay(r, genesis, s, host, kind.CommittedChain().value);
    } else {
      events := [];
      NoEvents(r, s);
    }
  }

  /** An accepted notification leaves the fresh sync of the replayed host chain, and events that account for it. */
  lemma NotificationIsReplay(r: Rules, genesis: RuBlock, s: NodeState, host: seq<Block>, kind: Kind)
    returns (events: seq<ChainEvent>)
    requires GoodRules(r) && Synced(r, genesis, s, host) && GoodKind(kind)
    requires OnNotification(r, s, kind).1.Ok?
    ensures var (s1, result) := OnNotification(r, s, kind);
            && Synced(r, genesis, s1, ReplayAbove(r, host, kind)) && Accounts(r, s, events, s1) && (!result.value ==> s1 == s)
  {
    var first := RevertPartIsReplay(r, genesis, s, host, kind);
    var (mid, _) := RevertPart(r, s, kind);
    var second := CommitPartIsReplay(r, genesis, mid, CutAbove(r, host, kind.Reverted()), kind);
    AccountsTogether(r, s, first, mid, second, CommitPart(r, mid, kind).0);
    events := first + second;
  }

  /** The revert lies below the rollup or covers the stored tip. */
  ghost predicate Covers(r: Rules, host: seq<Block>, reverted: Option<RevertRange>) {
    reverted.Some? ==> reverted.value.tip <= r.deployHeight || reverted.value.tip >= r.deployHeight + |host|
  }

  /**
   * Exactly which notifications are accepted: those whose revert covers what is stored and whose commit then leaves no
   * gap. They change something if and only if they revert above the deploy height or bring a block that is not stored.
   */
  lemma NotificationAcceptedIff(r: Rules, genesis: RuBlock, s: NodeState, host: seq<Block>, kind: Kind)
    requires GoodRules(r) && Synced(r, genesis, s, host) && GoodKind(kind)
    ensures var cut := CutAbove(r, host, kind.Reverted());
            var result := OnNotification(r, s, kind).1;
            && (result.Ok? <==>
                 Covers(r, host, kind.Reverted()) && (kind.CommittedChain().Some? ==> NoGap(r, cut, kind.CommittedChain().value)))
            && (result.Ok? ==>
                 (result.value <==>
                   || (kind.Reverted().Some? && kind.Reverted().value.tip > r.deployHeight)
                   || (kind.CommittedChain().Some? && Newer(r, kind.CommittedChain().value, |cut|) != [])))
  {
    hide FreshSync, Process, Newer, Accounts, Announced, GoodRules, CutAbove;
    if kind.Reverted().Some? {
      var _ := RevertIsReplay(r, genesis, s, host, kind.Reverted().value);
    } else {
      NothingCut(r, host);
    }
    var (mid, reverted) := RevertPart(r, s, kind);
    if reverted.Ok? && kind.CommittedChain().Some? {
      var _ := CommitIsReplay(r, genesis, mid, CutAbove(r, host, kind.Reverted()), kind.CommittedChain().value);
    }
  }

  lemma NothingCut(r: Rules, host: seq<Block>)
    ensures CutAbove(r, host, None) == host
  {
  }

  // ---- Tags ----

  /** The host's finalized block is not ahead of its safe block, as far as the rollup can tell. */
  ghost predicate FinalizedNotAhead(r: Rules, tip: nat, safe: Option<nat>, finalized: Option<nat>) {
    || finalized.None? || finalized.value <= r.deployHeight || tip == 0
    || (safe.Some? && (finalized.value <= safe.value || safe.value >= r.deployHeight + tip))
  }

  /** Tags that no reader can misread: ordered, and naming stored blocks only. */
  ghost predicate TagsOk(s: NodeState) {
    s.tags.Ordered() && s.tags.latest <= Tip(s)
  }

  /** A host tag as the rollup block of the same height: 0 if there is none, and never above the stored tip. */
  function TagHeight(r: Rules, tip: nat, host: Option<nat>): nat {
    if host.None? || host.value <= r.deployHeight then 0 else Min(tip, host.value - r.deployHeight)
  }

  /**
   * After the tags are updated, `latest` is the stored tip, `safe` and `finalized` are the host's tags in rollup
   * heights, and they are in order exactly when the host reported them in order. A finalized block above the deploy
   * height is acknowledged to the host, less one; it is below the host block of the stored tip.
   */
  lemma UpdatedTags(r: Rules, s: NodeState, safe: Option<nat>, finalized: Option<nat>)
    requires StorageOk(s)
    ensures var s1 := UpdateBlockTags(r, s, safe, finalized);
            var final := TagHeight(r, Tip(s), finalized);
            && s1 == s.(tags := Tags(Tip(s), TagHeight(r, Tip(s), safe), final),
                        finished := if final == 0 then s.finished else Some(r.deployHeight + final - 1))
            && (TagsOk(s1) <==> FinalizedNotAhead(r, Tip(s), safe, finalized))
            && (final > 0 ==> s1.finished.value < finalized.value && s1.finished.value < r.deployHeight + Tip(s))
  {
  }

  /** Host tags in order with finalized reported only together with safe never make the rollup's tags inverted. */
  lemma OrderedHostTagsSuffice(r: Rules, tip: nat, safe: Option<nat>, finalized: Option<nat>)
    requires finalized.Some? ==> safe.Some? && finalized.value <= safe.value
    ensures FinalizedNotAhead(r, tip, safe, finalized)
  {
  }

  /** A host that reports a finalized but no safe block inverts the rollup's tags. */
  lemma MissingSafeInvertsTags(r: Rules, s: NodeState)
    requires StorageOk(s) && Tip(s) > 0
    ensures var s1 := UpdateBlockTags(r, s, None, Some(r.deployHeight + 1)); s1.tags.safe < s1.tags.finalized
  {
  }

  /** Through a notification the tags stay in order, and `latest` stays within storage, before they are updated. */
  lemma NotificationTags(r: Rules, genesis: RuBlock, s: NodeState, host: seq<Block>, kind: Kind)
    requires GoodRules(r) && Synced(r, genesis, s, host) && GoodKind(kind) && s.tags.latest <= Tip(s)
    requires OnNotification(r, s, kind).1.Ok?
    ensures var (s1, changed) := OnNotification(r, s, kind);
            s1.tags.latest <= Tip(s1) && (s.tags.Ordered() ==> s1.tags.Ordered()) && (!changed.value ==> s1 == s)
  {
    var first := RevertPartIsReplay(r, genesis, s, host, kind);
    var (mid, _) := RevertPart(r, s, kind);
    assert mid.tags.latest <= Tip(mid);
    var second := CommitPartIsReplay(r, genesis, mid, CutAbove(r, host, kind.Reverted()), kind);
  }

  /** Whenever a turn of the loop changed anything, `latest` and the published status are the stored tip. */
  lemma StepTags(r: Rules, genesis: RuBlock, s: NodeState, host: seq<Block>, n: Notification)
    requires GoodRules(r) && Synced(r, genesis, s, host) && GoodKind(n.kind) && s.tags.latest <= Tip(s) && Accepted(r, s, n)
    ensures var (s1, _) := NodeStep(r, s, n);
            && s1.tags.latest <= Tip(s1) && (s1 == s || (s1.tags.latest == Tip(s1) && s1.status == Tip(s1)))
            && (TagsOk(s) && FinalizedNotAhead(r, Tip(s1), n.safe, n.finalized) ==> TagsOk(s1))
  {
    NotificationTags(r, genesis, s, host, n.kind);
    var _ := NotificationIsReplay(r, genesis, s, host, n.kind);
    UpdatedTags(r, OnNotification(r, s, n.kind).0, n.safe, n.finalized);
  }

  // ---- Runs ----

  /** The next turn of the node's loop is accepted. */
  ghost predicate Accepted(r: Rules, s: NodeState, n: Notification) {
    StorageOk(s) && NodeStep(r, s, n).1.None?
  }

  /** The state after a history of notifications, and whether every one of them was accepted. */
  ghost function NodeRun(r: Rules, s: NodeState, ns: seq<Notification>): (NodeState, bool)
    decreases |ns|
  {
    if ns == [] then (s, true)
    else if !Accepted(r, s, ns[0]) then (s, false)
    else NodeRun(r, NodeStep(r, s, ns[0]).0, ns[1..])
  }

  function ReplayAllAbove(r: Rules, host: seq<Block>, ns: seq<Notification>): seq<Block>
    decreases |ns|
  {
    if ns == [] then host else ReplayAllAbove(r, ReplayAbove(r, host, ns[0].kind), ns[1..])
  }

  ghost predicate GoodStream(ns: seq<Notification>) {
    forall i :: 0 <= i < |ns| ==> GoodKind(ns[i].kind)
  }

  lemma StepIsReplay(r: Rules, genesis: RuBlock, s: NodeState, host: seq<Block>, n: Notification)
    returns (events: seq<ChainEvent>)
    requires GoodRules(r) && Synced(r, genesis, s, host) && GoodKind(n.kind) && Accepted(r, s, n)
    ensures var (s1, _) := NodeStep(r, s, n);
            Synced(r, genesis, s1, ReplayAbove(r, host, n.kind)) && Accounts(r, s, events, s1)
  {
    events := NotificationIsReplay(r, genesis, s, host, n.kind);
  }

  /** Whatever was committed, reverted and redelivered: storage is the fresh sync of the host chain that is left. */
  lemma {:induction false} RunIsFreshSync(r: Rules, genesis: RuBlock, s: NodeState, host: seq<Block>, ns: seq<Notification>)
    returns (events: seq<ChainEvent>)
    requires GoodRules(r) && Synced(r, genesis, s, host) && GoodStream(ns) && NodeRun(r, s, ns).1
    ensures var (s1, _) := NodeRun(r, s, ns);
            Synced(r, genesis, s1, ReplayAllAbove(r, host, ns)) && Accounts(r, s, events, s1)
    decreases |ns|
  {
    if ns == [] {
      events := [];
      NoEvents(r, s);
    } else {
      var first := StepIsReplay(r, genesis, s, host, ns[0]);
      var (s1, _) := NodeStep(r, s, ns[0]);
      var rest := RunIsFreshSync(r, genesis, s1, ReplayAbove(r, host, ns[0].kind), ns[1..]);
      AccountsTogether(r, s, first, s1, rest, NodeRun(r, s, ns).0);
      events := first + rest;
    }
  }

  /**
   * Stored block `n + 1` is the processor's output for host block `n` on stored block `n`, field by field: no gap,
   * nothing dropped, nothing reverted.
   */
  lemma {:induction false} FreshSyncAt(r: Rules, genesis: RuBlock, host: seq<Block>, n: nat)
    requires Above(r, host) && n < |host|
    ensures var stored := FreshSync(r, genesis, host);
            var out := r.exec(stored[n], host[n]);
            && stored[0] == genesis && stored[n + 1].number == n + 1
            && stored[n + 1].hash == out.hash && stored[n + 1].timestamp == out.timestamp
            && stored[n + 1].transactions == out.transactions && stored[n + 1].receipts == out.receipts
    decreases |host|
  {
    var m := |host| - 1;
    if n < m {
      FreshSyncAt(r, genesis, host[..m], n);
      FreshSyncPrefix(r, genesis, host, m);
    } else if m > 0 {
      FreshSyncAt(r, genesis, host[..m], 0);
    }
  }

  /** With ordered host tags, every accepted history keeps the rollup's tags in order and within storage. */
  lemma {:induction false} RunKeepsTags(r: Rules, genesis: RuBlock, s: NodeState, host: seq<Block>, ns: seq<Notification>)
    requires GoodRules(r) && Synced(r, genesis, s, host) && GoodStream(ns) && NodeRun(r, s, ns).1 && TagsOk(s)
    requires forall i :: 0 <= i < |ns| ==> ns[i].finalized.Some? ==> ns[i].safe.Some? && ns[i].finalized.value <= ns[i].safe.value
    ensures TagsOk(NodeRun(r, s, ns).0)
    decreases |ns|
  {
    if ns != [] {
      var n := ns[0];
      StepTags(r, genesis, s, host, n);
      var _ := StepIsReplay(r, genesis, s, host, n);
      OrderedHostTagsSuffice(r, Tip(NodeStep(r, s, n).0), n.safe, n.finalized);
      RunKeepsTags(r, genesis, NodeStep(r, s, n).0, ReplayAbove(r, host, n.kind), ns[1..]);
    }
  }

  /** What the status channel says is the stored tip, over every accepted history. */
  lemma {:induction false} RunKeepsStatus(r: Rules, genesis: RuBlock, s: NodeState, host: seq<Block>, ns: seq<Notification>)
    requires GoodRules(r) && Synced(r, genesis, s, host) && GoodStream(ns) && NodeRun(r, s, ns).1
    requires s.tags.latest <= Tip(s) && s.status == Tip(s)
    ensures NodeRun(r, s, ns).0.status == Tip(NodeRun(r, s, ns).0)
    decreases |ns|
  {
    if ns != [] {
      StepTags(r, genesis, s, host, ns[0]);
      var _ := StepIsReplay(r, genesis, s, host, ns[0]);
      RunKeepsStatus(r, genesis, NodeStep(r, s, ns[0]).0, ReplayAbove(r, host, ns[0].kind), ns[1..]);
    }
  }

  /**
   * A revert that drains something announces it as one reorg: the last block that is kept, and every removed block,
   * in order, with its number, hash, timestamp and all its logs.
   */
  lemma RevertIsAnnounced(r: Rules, s: NodeState, range: RevertRange)
    requires StorageOk(s) && OnHostRevert(r, s, range).1 == Ok(true)
    ensures var target := RevertTarget(r, range.first);
            var s1 := OnHostRevert(r, s, range).0;
            if Tip(s) <= target then s1.feed == s.feed
            else
              && |s1.feed.sent| == |s.feed.sent| + 1 && s1.feed.sent[..|s.feed.sent|] == s.feed.sent
              && s1.feed.sent[|s.feed.sent|].Reorg?
              && var reorg := s1.feed.sent[|s.feed.sent|].reorg;
                 && reorg.commonAncestor == target && |reorg.removedBlocks| == Tip(s) - target
                 && forall i :: 0 <= i < |reorg.removedBlocks| ==> TellsOf(reorg.removedBlocks[i], s.stored[target + 1 + i])
  {
  }

  ghost predicate TellsOf(removed: RemovedBlock, b: RuBlock) {
    && removed.number == b.number && removed.hash == b.hash && removed.timestamp == b.timestamp
    && WellFormedBlock(b) && removed.logs == LogsOf(b)
  }

  /** History independence: two accepted histories that leave the same host chain leave the same storage. */
  lemma HistoryIndependence(r: Rules, genesis: RuBlock, s: NodeState, t: NodeState, a: seq<Notification>, b: seq<Notification>)
    requires GoodRules(r) && Synced(r, genesis, s, []) && Synced(r, genesis, t, []) && GoodStream(a) && GoodStream(b)
    requires NodeRun(r, s, a).1 && NodeRun(r, t, b).1 && ReplayAllAbove(r, [], a) == ReplayAllAbove(r, [], b)
    ensures NodeRun(r, s, a).0.stored == NodeRun(r, t, b).0.stored
  {
    var _ := RunIsFreshSync(r, genesis, s, [], a);
    var _ := RunIsFreshSync(r, genesis, t, [], b);
  }
}
