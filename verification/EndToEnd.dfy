/** From the host chain to an RPC client: notifier, node and log filter together. */
module EndToEnd {
  import opened Wrappers
  import opened Host
  import opened HostProvider
  import opened Follower
  import opened FollowerRuns
  import opened Rollup
  import opened Node
  import opened NodeRuns
  import opened Pipeline
  import opened FilterPolls
  import opened RingLimits

  // ---- How many reorgs a stream of notifications can cause ----

  function Reverting(ns: seq<Notification>): nat
    decreases |ns|
  {
    if ns == [] then 0 else (if ns[0].kind.Reverted().Some? then 1 else 0) + Reverting(ns[1..])
  }

  /** Only reorgs are stamped. */
  lemma {:induction false} ClockCountsReorgs(feed: Feed, events: seq<ChainEvent>)
    ensures SendEvents(feed, events).now == feed.now + |ReorgsOf(events)|
    decreases |events|
  {
    if events != [] {
      ClockCountsReorgs(feed, events[..|events| - 1]);
    }
  }

  lemma {:induction false} ProcessKeepsClock(r: Rules, s: NodeState, blocks: seq<Block>)
    requires forall i :: 0 <= i < |blocks| ==> blocks[i].number >= r.deployHeight
    ensures Process(r, s, blocks).0.feed.now == s.feed.now
    decreases |blocks|
  {
    if blocks != [] {
      var ru := blocks[0].number - r.deployHeight;
      var parent := if ru == 0 then 0 else ru - 1;
      if parent < |s.stored| {
        var executed := Execute(r, s.stored[parent], blocks[0]);
        ProcessKeepsClock(r, s.(stored := s.stored + [executed], feed := SendNewBlock(s.feed, executed)), blocks[1..]);
      }
    }
  }

  lemma StepTicksAtMostOnce(r: Rules, s: NodeState, n: Notification)
    requires Accepted(r, s, n)
    ensures NodeStep(r, s, n).0.feed.now <= s.feed.now + Reverting([n])
  {
    var (mid, _) := RevertPart(r, s, n.kind);
    assert Reverting([n]) == (if n.kind.Reverted().Some? then 1 else 0) + Reverting([n][1..]);
    assert mid.feed.now <= s.feed.now + Reverting([n]);
    if n.kind.CommittedChain().Some? {
      ProcessKeepsClock(r, mid, Newer(r, n.kind.CommittedChain().value, Tip(mid)));
    }
  }

  lemma {:induction false} RunTicks(r: Rules, s: NodeState, ns: seq<Notification>)
    requires NodeRun(r, s, ns).1
    ensures NodeRun(r, s, ns).0.feed.now <= s.feed.now + Reverting(ns)
    decreases |ns|
  {
    if ns != [] {
      StepTicksAtMostOnce(r, s, ns[0]);
      RunTicks(r, NodeStep(r, s, ns[0]).0, ns[1..]);
      assert Reverting([ns[0]]) == (if ns[0].kind.Reverted().Some? then 1 else 0) + Reverting([ns[0]][1..]);
    }
  }

  /** Through accepted histories `latest` names a stored block, and it is the stored tip from the first change on. */
  lemma {:induction false} RunKeepsLatest(r: Rules, genesis: RuBlock, s: NodeState, host: seq<Block>, ns: seq<Notification>)
    requires GoodRules(r) && Synced(r, genesis, s, host) && GoodStream(ns) && NodeRun(r, s, ns).1 && s.tags.latest <= Tip(s)
    ensures var (s1, _) := NodeRun(r, s, ns);
            s1.tags.latest <= Tip(s1) && (s1 == s || s1.tags.latest == Tip(s1))
    decreases |ns|
  {
    if ns != [] {
      StepTags(r, genesis, s, host, ns[0]);
      var _ := StepIsReplay(r, genesis, s, host, ns[0]);
      RunKeepsLatest(r, genesis, NodeStep(r, s, ns[0]).0, ReplayAbove(r, host, ns[0].kind), ns[1..]);
    }
  }

  // ---- Node and filter ----

  /** The node and one log-filter client, between two rounds. */
  datatype Deployment = Deployment(node: NodeState, filter: FilterState, client: multiset<Log>)

  /** Storage is the fresh sync of `host`, and the client is exact up to where its filter stands. */
  ghost predicate InStep(r: Rules, genesis: RuBlock, f: LogFilter, w: Deployment, host: seq<Block>) {
    && Synced(r, genesis, w.node, host) && w.node.tags.latest <= Tip(w.node)
    && UpToDate(f, w.filter, w.node.feed, w.node.stored, w.client)
  }

  /** The client polls; the poll takes the next instant. */
  ghost function PollNode(f: LogFilter, w: Deployment): Deployment
    requires IsRuChain(w.node.stored) && w.node.tags.latest < |w.node.stored|
  {
    var (filter, delivered) := PollLogs(f, w.filter, w.node.feed, w.node.stored, w.node.tags.latest);
    Deployment(w.node.(feed := w.node.feed.(now := w.node.feed.now + 1)), filter, Receive(w.client, delivered))
  }

  /** What the node broadcast on its way from one state to a later one. */
  function Broadcast(s: NodeState, s1: NodeState): seq<ChainEvent> {
    if |s.feed.sent| <= |s1.feed.sent| then s1.feed.sent[|s.feed.sent|..] else []
  }

  lemma {:induction false} SentGrows(feed: Feed, events: seq<ChainEvent>)
    ensures SendEvents(feed, events).sent == feed.sent + events
    decreases |events|
  {
    if events == [] {
      assert feed.sent + [] == feed.sent;
    } else {
      var n := |events| - 1;
      SentGrows(feed, events[..n]);
      assert feed.sent + events[..n] + [events[n]] == feed.sent + events;
    }
  }

  lemma StreamIsRound(r: Rules, genesis: RuBlock, f: LogFilter, w: Deployment, host: seq<Block>, ns: seq<Notification>)
    returns (round: Round)
    requires GoodRules(r) && InStep(r, genesis, f, w, host)
    requires GoodStream(ns) && NodeRun(r, w.node, ns).1
    ensures var (node, _) := NodeRun(r, w.node, ns);
            && Synced(r, genesis, node, ReplayAllAbove(r, host, ns)) && IsRuChain(node.stored)
            && round == Round(Broadcast(w.node, node), node.tags.latest) && node.tags.latest <= Tip(node)
            && History(w.node.stored, round.events) && ApplyEvents(w.node.stored, round.events) == node.stored
            && SendEvents(w.node.feed, round.events) == node.feed
  {
    hide NodeRun, ApplyEvents, SendEvents, FreshSync, ReplayAllAbove, History, UpToDate;
    var (node, _) := NodeRun(r, w.node, ns);
    var events := RunIsFreshSync(r, genesis, w.node, host, ns);
    RunKeepsLatest(r, genesis, w.node, host, ns);
    SentGrows(w.node.feed, events);
    round := Round(events, node.tags.latest);
  }

  /** A stream with at most 25 reverts never makes the ring forget. */
  lemma FewRevertsSuffice(r: Rules, genesis: RuBlock, f: LogFilter, w: Deployment, host: seq<Block>, ns: seq<Notification>)
    requires GoodRules(r) && InStep(r, genesis, f, w, host)
    requires GoodStream(ns) && NodeRun(r, w.node, ns).1 && Reverting(ns) <= MAX_REORG_ENTRIES
    ensures RingSuffices(f, w.filter.nextStart, w.node.stored, Broadcast(w.node, NodeRun(r, w.node, ns).0))
  {
    hide NodeRun, ApplyEvents, SendEvents, FreshSync, ReplayAllAbove, MatchingLogs, History, RingSuffices;
    var round := StreamIsRound(r, genesis, f, w, host, ns);
    RunTicks(r, w.node, ns);
    ClockCountsReorgs(w.node.feed, round.events);
    FewReorgsSuffice(f, w.filter.nextStart, w.node.stored, round.events);
  }

  /** The client holds the matching logs of everything that is stored. */
  ghost predicate HoldsAll(f: LogFilter, w: Deployment) {
    && IsRuChain(w.node.stored) && w.node.tags.latest == Tip(w.node)
    && w.client == multiset(MatchingLogs(f, w.node.stored))
  }

  /**
   * After any accepted stream a poll leaves the client in step if and only if the ring suffices for what the node
   * broadcast. Then it holds everything, unless nothing ever changed while `latest` was behind.
   */
  lemma DeploymentRound(r: Rules, genesis: RuBlock, f: LogFilter, w: Deployment, host: seq<Block>, ns: seq<Notification>)
    requires GoodRules(r) && InStep(r, genesis, f, w, host)
    requires GoodStream(ns) && NodeRun(r, w.node, ns).1
    ensures var (node, _) := NodeRun(r, w.node, ns);
            var enough := RingSuffices(f, w.filter.nextStart, w.node.stored, Broadcast(w.node, node));
            && CanPollNode(node)
            && (InStep(r, genesis, f, PollNode(f, w.(node := node)), ReplayAllAbove(r, host, ns)) <==> enough)
            && (enough && (node != w.node || w.node.tags.latest == Tip(w.node)) ==> HoldsAll(f, PollNode(f, w.(node := node))))
  {
    hide NodeRun, ApplyEvents, SendEvents, FreshSync, ReplayAllAbove, MatchingLogs, History, PollLogs, RingSuffices;
    var round := StreamIsRound(r, genesis, f, w, host, ns);
    RunKeepsLatest(r, genesis, w.node, host, ns);
    PollIsExactIff(f, w.filter, w.node.feed, w.node.stored, w.client, round);
    if RingSuffices(f, w.filter.nextStart, w.node.stored, round.events) {
      PollIsExact(f, w.filter, w.node.feed, w.node.stored, w.client, round);
    }
  }

  ghost predicate CanPollNode(node: NodeState) {
    IsRuChain(node.stored) && node.tags.latest < |node.stored|
  }

  // ---- Notifier, node and filter ----

  /** The consumer's chain goes on starting where the node asked it to start. */
  lemma {:induction false} FollowStaysAnchored(p: Provider, c: Config, s: State, chain: seq<Block>, calls: nat, start: nat)
    requires Honest(p) && Sound(p, c, s, chain) && GoodRun(p, c, s, calls) && Anchored(p, s, chain, start)
    requires !Follow(p, c, s, calls).2.Failed?
    ensures var (s1, emitted, _) := Follow(p, c, s, calls);
            Sound(p, c, s1, ReplayAll(chain, emitted)) && Anchored(p, s1, ReplayAll(chain, emitted), start)
    decreases calls
  {
    if calls > 0 {
      var (s1, o) := NextNotification(p, c, s);
      if o.Emitted? {
        CallAnchored(p, c, s, chain, start);
        FollowStaysAnchored(p, c, s1, Consume(chain, o), calls - 1, start);
      } else {
        NextNotificationKeepsSound(p, c, s, chain);
        if chain == [] {
          NothingFirst(p, c, s);
        }
      }
    }
  }

  /** One round: the node consumes up to `calls` notifications, then the client polls, with a ring that suffices. */
  ghost predicate GoodWorldRound(p: Provider, c: Config, r: Rules, f: LogFilter, w: World, calls: nat) {
    var (_, emitted, final) := Follow(p, c, w.notifier, calls);
    && GoodRun(p, c, w.notifier, calls) && !final.Failed?
    && RingSuffices(f, w.at.filter.nextStart, w.at.node.stored, Broadcast(w.at.node, NodeRun(r, w.at.node, emitted).0))
  }

  datatype World = World(notifier: State, at: Deployment)

  /** The node follows the host chain the notifier delivers, and the client follows the node. */
  ghost predicate AllInStep(p: Provider, c: Config, r: Rules, genesis: RuBlock, f: LogFilter, base: seq<Block>,
                            w: World, chain: seq<Block>, host: seq<Block>)
  {
    && Sound(p, c, w.notifier, chain) && Anchored(p, w.notifier, chain, r.deployHeight + |base|)
    && InStep(r, genesis, f, w.at, host) && NodeFollows(r, base, host, chain)
  }

  /** The invariant holds when a restarted node installs a filter for a client that knows the visible matching logs. */
  lemma InStepAtStart(p: Provider, c: Config, batchSize: Positive, bursts: seq<seq<Hint>>, r: Rules, genesis: RuBlock,
                      f: LogFilter, node: NodeState, base: seq<Block>)
    returns (w: World)
    requires Honest(p) && Synced(r, genesis, node, base) && RingOk(node.feed) && node.tags.latest <= Tip(node)
    requires FirstInReach(p, Initial(StartHeight(r, node), batchSize, bursts), StartHeight(r, node))
    ensures w.notifier == Initial(StartHeight(r, node), batchSize, bursts) && w.at.filter.nextStart == node.tags.latest + 1
    ensures AllInStep(p, c, r, genesis, f, base, w, [], base)
  {
    hide MatchingLogs, FreshSync, FirstInReach;
    assert base + [] == base;
    var latest := node.tags.latest;
    var client := multiset(MatchingLogs(f, node.stored[..latest + 1]));
    NothingNewerThanNow(node.feed);
    w := World(Initial(StartHeight(r, node), batchSize, bursts),
               Deployment(node.(feed := node.feed.(now := node.feed.now + 1)), FilterState(latest + 1, node.feed.now + 1), client));
  }

  ghost function AfterCalls(p: Provider, c: Config, r: Rules, w: World, calls: nat): World {
    var (notifier, emitted, _) := Follow(p, c, w.notifier, calls);
    World(notifier, w.at.(node := NodeRun(r, w.at.node, emitted).0))
  }

  lemma NodeRound(p: Provider, c: Config, r: Rules, genesis: RuBlock, f: LogFilter, base: seq<Block>,
                  w: World, chain: seq<Block>, host: seq<Block>, calls: nat)
    returns (host1: seq<Block>)
    requires Honest(p) && GoodRules(r) && AllInStep(p, c, r, genesis, f, base, w, chain, host)
    requires GoodWorldRound(p, c, r, f, w, calls)
    ensures var at := AfterCalls(p, c, r, w, calls).at;
            && CanPollNode(at.node) && InStep(r, genesis, f, PollNode(f, at), host1)
            && NodeFollows(r, base, host1, ReplayAll(chain, Follow(p, c, w.notifier, calls).1))
            && (at.node != w.at.node || w.at.node.tags.latest == Tip(w.at.node) ==> HoldsAll(f, PollNode(f, at)))
  {
    var (_, emitted, _) := Follow(p, c, w.notifier, calls);
    host1 := ReplayAllAbove(r, host, emitted);
    NodeStaysInSync(p, c, w.notifier, chain, calls, r, genesis, w.at.node, base, host);
    DeploymentRound(r, genesis, f, w.at, host, emitted);
  }

  lemma NotifierRound(p: Provider, c: Config, r: Rules, genesis: RuBlock, f: LogFilter, base: seq<Block>,
                      w: World, chain: seq<Block>, host: seq<Block>, calls: nat)
    returns (chain1: seq<Block>)
    requires Honest(p) && AllInStep(p, c, r, genesis, f, base, w, chain, host)
    requires GoodWorldRound(p, c, r, f, w, calls)
    ensures chain1 == ReplayAll(chain, Follow(p, c, w.notifier, calls).1)
    ensures var notifier := AfterCalls(p, c, r, w, calls).notifier;
            Sound(p, c, notifier, chain1) && Anchored(p, notifier, chain1, r.deployHeight + |base|)
  {
    hide Follow, ReplayAll, GoodRun, NodeRun, InStep, Sound, Anchored;
    chain1 := ReplayAll(chain, Follow(p, c, w.notifier, calls).1);
    FollowStaysAnchored(p, c, w.notifier, chain, calls, r.deployHeight + |base|);
  }

  lemma WorldRound(p: Provider, c: Config, r: Rules, genesis: RuBlock, f: LogFilter, base: seq<Block>,
                   w: World, chain: seq<Block>, host: seq<Block>, calls: nat)
    returns (chain1: seq<Block>, host1: seq<Block>)
    requires Honest(p) && GoodRules(r) && AllInStep(p, c, r, genesis, f, base, w, chain, host)
    requires GoodWorldRound(p, c, r, f, w, calls)
    ensures chain1 == ReplayAll(chain, Follow(p, c, w.notifier, calls).1)
    ensures var w1 := AfterCalls(p, c, r, w, calls);
            && CanPollNode(w1.at.node)
            && AllInStep(p, c, r, genesis, f, base, w1.(at := PollNode(f, w1.at)), chain1, host1)
            && (w1.at.node != w.at.node || w.at.node.tags.latest == Tip(w.at.node) ==> HoldsAll(f, PollNode(f, w1.at)))
  {
    hide Follow, ReplayAll, GoodRun, NodeRun, InStep, Sound, Anchored, NodeFollows, PollNode;
    host1 := NodeRound(p, c, r, genesis, f, base, w, chain, host, calls);
    chain1 := NotifierRound(p, c, r, genesis, f, base, w, chain, host, calls);
    var w1 := AfterCalls(p, c, r, w, calls);
    assert AllInStep(p, c, r, genesis, f, base, World(w1.notifier, PollNode(f, w1.at)), chain1, host1);
  }

  ghost predicate GoodWorldRun(p: Provider, c: Config, r: Rules, f: LogFilter, w: World, rounds: seq<nat>)
    decreases |rounds|
  {
    rounds != [] ==>
      && GoodWorldRound(p, c, r, f, w, rounds[0])
      && var w1 := AfterCalls(p, c, r, w, rounds[0]);
         CanPollNode(w1.at.node) ==> GoodWorldRun(p, c, r, f, w1.(at := PollNode(f, w1.at)), rounds[1..])
  }

  /** The world after some rounds; a poll the node could not answer would leave it where it is. */
  ghost function WorldRun(p: Provider, c: Config, r: Rules, f: LogFilter, w: World, rounds: seq<nat>): World
    decreases |rounds|
  {
    if rounds == [] then w else
    var w1 := AfterCalls(p, c, r, w, rounds[0]);
    if CanPollNode(w1.at.node) then WorldRun(p, c, r, f, w1.(at := PollNode(f, w1.at)), rounds[1..]) else w
  }

  /**
   * End to end: whatever the host chain does between provider calls, after every round the node stores the fresh
   * sync of the chain the notifier delivered, and the client holds the matching logs of it that were visible; all of
   * them from the first event the node broadcasts on.
   */
  lemma {:induction false} WorldStaysInStep(p: Provider, c: Config, r: Rules, genesis: RuBlock, f: LogFilter, base: seq<Block>,
                                            w: World, chain: seq<Block>, host: seq<Block>, rounds: seq<nat>)
    returns (chain1: seq<Block>, host1: seq<Block>)
    requires Honest(p) && GoodRules(r) && AllInStep(p, c, r, genesis, f, base, w, chain, host)
    requires GoodWorldRun(p, c, r, f, w, rounds)
    ensures var end := WorldRun(p, c, r, f, w, rounds);
            && AllInStep(p, c, r, genesis, f, base, end, chain1, host1)
            && (rounds != [] && (end.at.node.feed.sent != w.at.node.feed.sent || w.at.node.tags.latest == Tip(w.at.node)) ==>
                 HoldsAll(f, end.at))
    decreases |rounds|
  {
    hide AllInStep, GoodWorldRound, GoodRules, Honest, AfterCalls;
    chain1, host1 := chain, host;
    if rounds != [] {
      chain1, host1 := WorldRound(p, c, r, genesis, f, base, w, chain, host, rounds[0]);
      var w1 := AfterCalls(p, c, r, w, rounds[0]);
      chain1, host1 := WorldStaysInStep(p, c, r, genesis, f, base, w1.(at := PollNode(f, w1.at)), chain1, host1, rounds[1..]);
    }
  }

  /** What being in step means for a client that holds everything that is stored, or has polled up to the stored tip. */
  lemma InStepAtTip(p: Provider, c: Config, r: Rules, genesis: RuBlock, f: LogFilter, base: seq<Block>,
                    w: World, chain: seq<Block>, host: seq<Block>)
    requires AllInStep(p, c, r, genesis, f, base, w, chain, host)
    requires HoldsAll(f, w.at) || w.at.filter.nextStart == |w.at.node.stored|
    ensures Above(r, host) && host == base + Unstored(r, base, chain) && IsChain(p.tree, chain)
    ensures IsRuChain(FreshSync(r, genesis, host)) && w.at.client == multiset(MatchingLogs(f, FreshSync(r, genesis, host)))
  {
    var stored := w.at.node.stored;
    assert stored[..|stored|] == stored;
  }
}
