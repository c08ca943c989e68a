/** What the node has told the host it is finished with, against what it still stores. */
module Acknowledged {
  import opened Wrappers
  import opened Host
  import opened Rollup
  import opened Node
  import opened NodeRuns

  /** The acknowledged host block is not above the host block of the stored tip. */
  ghost predicate AckStored(r: Rules, s: NodeState) {
    s.finished.Some? ==> s.finished.value <= r.deployHeight + Tip(s)
  }

  function Cut(r: Rules, kind: Kind): Option<nat> {
    if kind.Reverted().None? || kind.Reverted().value.tip <= r.deployHeight then None
    else Some(RevertTarget(r, kind.Reverted().value.first))
  }

  function Committed(kind: Kind): seq<Block> {
    if kind.CommittedChain().None? then [] else kind.CommittedChain().value
  }

  // ---- The stored tip after a notification ----

  /** What the commit part adds, on top of what the revert part leaves. */
  lemma GrownLength(r: Rules, host: seq<Block>, blocks: seq<Block>)
    requires NodeRuns.Contiguous(blocks) && NoGap(r, host, blocks)
    ensures |GrowAbove(r, host, Some(blocks))| ==
            if blocks == [] || Last(blocks).number <= r.deployHeight + |host| then |host| else Last(blocks).number - r.deployHeight
  {
    var skip := NewerIsSuffix(r, blocks, |host|);
    NewerFollowsOn(r, host, blocks);
  }

  lemma TipAfter(r: Rules, genesis: RuBlock, s: NodeState, host: seq<Block>, n: Notification)
    requires GoodRules(r) && Synced(r, genesis, s, host) && GoodKind(n.kind) && Accepted(r, s, n)
    ensures var low := if Cut(r, n.kind).None? then Tip(s) else Min(Tip(s), Cut(r, n.kind).value);
            var blocks := Committed(n.kind);
            Tip(NodeStep(r, s, n).0) ==
            if blocks == [] || Last(blocks).number <= r.deployHeight + low then low else Last(blocks).number - r.deployHeight
  {
    hide FreshSync, Newer, Process, SendEvents, History, ApplyEvents, GoodRules, RevertTarget, CommitPart, RevertPart;
    var _ := RevertPartIsReplay(r, genesis, s, host, n.kind);
    var (mid, _) := RevertPart(r, s, n.kind);
    var cut := CutAbove(r, host, n.kind.Reverted());
    var _ := StepIsReplay(r, genesis, s, host, n);
    if n.kind.CommittedChain().Some? {
      CommitLeavesNoGap(r, genesis, mid, cut, n.kind);
      GrownLength(r, cut, n.kind.CommittedChain().value);
    }
  }

  lemma CommitLeavesNoGap(r: Rules, genesis: RuBlock, mid: NodeState, cut: seq<Block>, kind: Kind)
    requires GoodRules(r) && Synced(r, genesis, mid, cut) && GoodKind(kind) && kind.CommittedChain().Some?
    requires CommitPart(r, mid, kind).1.Ok?
    ensures NoGap(r, cut, kind.CommittedChain().value)
  {
    CommitAcceptedIff(r, genesis, mid, cut, kind.CommittedChain().value);
  }

  /** What is acknowledged after a step: a new height below the finalized block, or still the old one. */
  lemma FinishedAfter(r: Rules, genesis: RuBlock, s: NodeState, host: seq<Block>, n: Notification)
    requires GoodRules(r) && Synced(r, genesis, s, host) && GoodKind(n.kind) && Accepted(r, s, n)
    ensures var s1 := NodeStep(r, s, n).0;
            || s1 == s
            || (if n.finalized.Some? && n.finalized.value > r.deployHeight && Tip(s1) > 0
                then s1.finished.Some? && s1.finished.value < n.finalized.value && s1.finished.value < r.deployHeight + Tip(s1)
                else s1.finished == s.finished)
  {
    hide FreshSync, Process, Newer, SendEvents, History, ApplyEvents, GoodRules;
    FinishedUnmoved(r, s, n.kind);
    var _ := NotificationIsReplay(r, genesis, s, host, n.kind);
    UpdatedTags(r, OnNotification(r, s, n.kind).0, n.safe, n.finalized);
  }

  lemma {:induction false} ProcessKeepsFinished(r: Rules, s: NodeState, blocks: seq<Block>)
    requires forall i :: 0 <= i < |blocks| ==> blocks[i].number >= r.deployHeight
    ensures Process(r, s, blocks).0.finished == s.finished
    decreases |blocks|
  {
    if blocks != [] {
      var ru := blocks[0].number - r.deployHeight;
      var parent := if ru == 0 then 0 else ru - 1;
      if parent < |s.stored| {
        var executed := Execute(r, s.stored[parent], blocks[0]);
        ProcessKeepsFinished(r, s.(stored := s.stored + [executed], feed := SendNewBlock(s.feed, executed)), blocks[1..]);
      }
    }
  }

  lemma FinishedUnmoved(r: Rules, s: NodeState, kind: Kind)
    requires StorageOk(s)
    ensures OnNotification(r, s, kind).0.finished == s.finished
  {
    hide Process, Newer;
    var (mid, reverted) := RevertPart(r, s, kind);
    assert mid.finished == s.finished;
    if kind.CommittedChain().Some? {
      ProcessKeepsFinished(r, mid, Newer(r, kind.CommittedChain().value, Tip(mid)));
    }
  }

  // ---- When it stays stored ----

  /**
   * The notification does not revert the acknowledged block, or delivers one at its height again, or has another
   * finalized block acknowledged instead.
   */
  ghost predicate KeepsAck(r: Rules, s: NodeState, n: Notification) {
    var cut, blocks := Cut(r, n.kind), Committed(n.kind);
    || s.finished.None? || cut.None?
    || s.finished.value <= r.deployHeight + cut.value
    || (blocks != [] && Last(blocks).number >= s.finished.value)
    || (n.finalized.Some? && n.finalized.value > r.deployHeight
        && (cut.value > 0 || (blocks != [] && Last(blocks).number > r.deployHeight)))
  }

  lemma StepKeepsAckIff(r: Rules, genesis: RuBlock, s: NodeState, host: seq<Block>, n: Notification)
    requires GoodRules(r) && Synced(r, genesis, s, host) && GoodKind(n.kind) && Accepted(r, s, n) && AckStored(r, s)
    ensures AckStored(r, NodeStep(r, s, n).0) <==> KeepsAck(r, s, n)
  {
    hide NodeStep, Accepted, RevertTarget, Synced;
    TipAfter(r, genesis, s, host, n);
    FinishedAfter(r, genesis, s, host, n);
  }

  ghost predicate AllKeepAck(r: Rules, s: NodeState, ns: seq<Notification>)
    decreases |ns|
  {
    ns != [] ==> StorageOk(s) && KeepsAck(r, s, ns[0]) && AllKeepAck(r, NodeStep(r, s, ns[0]).0, ns[1..])
  }

  ghost predicate AlwaysAckStored(r: Rules, s: NodeState, ns: seq<Notification>) {
    forall k :: 0 <= k <= |ns| ==> AckStored(r, NodeRun(r, s, ns[..k]).0)
  }

  lemma AlwaysUnfolds(r: Rules, s: NodeState, ns: seq<Notification>)
    requires ns != [] && Accepted(r, s, ns[0]) && AckStored(r, s)
    ensures AlwaysAckStored(r, s, ns) <==> AlwaysAckStored(r, NodeStep(r, s, ns[0]).0, ns[1..])
  {
    hide AckStored, NodeStep;
    var s1 := NodeStep(r, s, ns[0]).0;
    forall k | 0 < k <= |ns|
      ensures NodeRun(r, s, ns[..k]) == NodeRun(r, s1, ns[1..][..k - 1])
    {
      assert ns[..k][0] == ns[0] && ns[..k][1..] == ns[1..][..k - 1];
    }
    assert ns[..0] == [];
    if AlwaysAckStored(r, s, ns) {
      forall k | 0 <= k <= |ns[1..]|
        ensures AckStored(r, NodeRun(r, s1, ns[1..][..k]).0)
      {
        assert AckStored(r, NodeRun(r, s, ns[..k + 1]).0);
      }
    }
    if AlwaysAckStored(r, s1, ns[1..]) {
      forall k | 0 <= k <= |ns|
        ensures AckStored(r, NodeRun(r, s, ns[..k]).0)
      {
        if k > 0 {
          assert AckStored(r, NodeRun(r, s1, ns[1..][..k - 1]).0);
        }
      }
    }
  }

  /** Over whole histories: the acknowledged block is stored after every turn if and only if every turn keeps it. */
  lemma {:induction false} RunKeepsAckIff(r: Rules, genesis: RuBlock, s: NodeState, host: seq<Block>, ns: seq<Notification>)
    requires GoodRules(r) && Synced(r, genesis, s, host) && GoodStream(ns) && NodeRun(r, s, ns).1 && AckStored(r, s)
    ensures AlwaysAckStored(r, s, ns) <==> AllKeepAck(r, s, ns)
    decreases |ns|
  {
    hide GoodRules, Synced, KeepsAck, AlwaysAckStored, AckStored, ReplayAbove, GoodKind;
    if ns == [] {
      NoTurns(r, s);
    } else {
      var s1 := NodeStep(r, s, ns[0]).0;
      StepKeepsAckIff(r, genesis, s, host, ns[0]);
      AlwaysUnfolds(r, s, ns);
      var _ := StepIsReplay(r, genesis, s, host, ns[0]);
      if AckStored(r, s1) {
        RunKeepsAckIff(r, genesis, s1, ReplayAbove(r, host, ns[0].kind), ns[1..]);
      } else {
        FirstTurn(r, s1, ns[1..]);
      }
    }
  }

  lemma NoTurns(r: Rules, s: NodeState)
    requires AckStored(r, s)
    ensures AlwaysAckStored(r, s, [])
  {
    var none: seq<Notification> := [];
    assert none[..0] == none;
  }

  lemma FirstTurn(r: Rules, s: NodeState, ns: seq<Notification>)
    ensures AlwaysAckStored(r, s, ns) ==> AckStored(r, s)
  {
    assert ns[..0] == [];
    assert AlwaysAckStored(r, s, ns) ==> AckStored(r, NodeRun(r, s, ns[..0]).0);
  }

  // ---- A host that keeps its promise ----

  /** Nothing from the acknowledged block down is reverted, and no block that was reported as finalized before. */
  ghost predicate FinalizedStays(s: NodeState, ns: seq<Notification>) {
    && (forall j :: 0 <= j < |ns| && ns[j].kind.Reverted().Some? && s.finished.Some? ==>
          s.finished.value < ns[j].kind.Reverted().value.first)
    && (forall i, j :: 0 <= i < j < |ns| && ns[i].finalized.Some? && ns[j].kind.Reverted().Some? ==>
          ns[i].finalized.value <= ns[j].kind.Reverted().value.first)
  }

  lemma FinalizedStaysNext(r: Rules, genesis: RuBlock, s: NodeState, host: seq<Block>, ns: seq<Notification>)
    requires GoodRules(r) && Synced(r, genesis, s, host) && ns != [] && GoodKind(ns[0].kind) && Accepted(r, s, ns[0])
    requires FinalizedStays(s, ns)
    ensures KeepsAck(r, s, ns[0]) && FinalizedStays(NodeStep(r, s, ns[0]).0, ns[1..])
  {
    hide NodeStep, Accepted, Synced, GoodRules, GoodKind;
    FinishedAfter(r, genesis, s, host, ns[0]);
  }

  lemma {:induction false} FinalizedStaysSuffices(r: Rules, genesis: RuBlock, s: NodeState, host: seq<Block>, ns: seq<Notification>)
    requires GoodRules(r) && Synced(r, genesis, s, host) && GoodStream(ns) && NodeRun(r, s, ns).1 && FinalizedStays(s, ns)
    ensures AllKeepAck(r, s, ns)
    decreases |ns|
  {
    hide GoodRules, Synced, KeepsAck, FinalizedStays, ReplayAbove, GoodKind;
    if ns != [] {
      FinalizedStaysNext(r, genesis, s, host, ns);
      var _ := StepIsReplay(r, genesis, s, host, ns[0]);
      FinalizedStaysSuffices(r, genesis, NodeStep(r, s, ns[0]).0, ReplayAbove(r, host, ns[0].kind), ns[1..]);
    }
  }

  /** On a host that never reverts a block below one it reported as finalized, the acknowledged block stays stored. */
  lemma AcknowledgedStaysStored(r: Rules, genesis: RuBlock, s: NodeState, host: seq<Block>, ns: seq<Notification>)
    requires GoodRules(r) && Synced(r, genesis, s, host) && GoodStream(ns) && NodeRun(r, s, ns).1
    requires AckStored(r, s) && FinalizedStays(s, ns)
    ensures AlwaysAckStored(r, s, ns)
  {
    FinalizedStaysSuffices(r, genesis, s, host, ns);
    RunKeepsAckIff(r, genesis, s, host, ns);
  }

  /** Otherwise it need not: a revert of everything, with no finalized block reported, takes the acknowledged one along. */
  lemma AcknowledgedIsReverted(r: Rules, genesis: RuBlock, s: NodeState, host: seq<Block>)
    requires GoodRules(r) && Synced(r, genesis, s, host) && |host| > 1 && s.finished == Some(r.deployHeight + |host| - 1)
    ensures var n := Notification(ChainReverted(RevertRange(r.deployHeight + 1, r.deployHeight + |host|)), None, None);
            Accepted(r, s, n) && AckStored(r, s) && !AckStored(r, NodeStep(r, s, n).0)
  {
    var n := Notification(ChainReverted(RevertRange(r.deployHeight + 1, r.deployHeight + |host|)), None, None);
    var _ := RevertIsReplay(r, genesis, s, host, n.kind.range);
    hide NodeStep;
    assert Accepted(r, s, n) by {
      RevertAlone(r, s, n);
    }
    StepKeepsAckIff(r, genesis, s, host, n);
  }

  lemma RevertAlone(r: Rules, s: NodeState, n: Notification)
    requires StorageOk(s) && n.kind.ChainReverted? && OnHostRevert(r, s, n.kind.range).1.Ok?
    ensures Accepted(r, s, n)
  {
    hide OnHostRevert;
  }
}
