/** The node as it works in place: storage, tags and feed change step by step as notifications arrive. */
module SignetNode {
  import opened Wrappers
  import opened Host
  import opened Rollup
  import opened Node
  import opened NodeRuns
  import ChainNotifier

  lemma ProcessUnfolds(r: Rules, s: NodeState, blocks: seq<Block>)
    requires forall i :: 0 <= i < |blocks| ==> blocks[i].number >= r.deployHeight
    ensures blocks == [] ==> Process(r, s, blocks) == (s, None)
    ensures blocks != [] ==>
              var ru := blocks[0].number - r.deployHeight;
              var parent := if ru == 0 then 0 else ru - 1;
              Process(r, s, blocks) ==
                if parent >= |s.stored| then (s, Some(ParentMissing))
                else
                  var executed := Execute(r, s.stored[parent], blocks[0]);
                  Process(r, s.(stored := s.stored + [executed], feed := SendNewBlock(s.feed, executed)), blocks[1..])
  {
  }

  class SignetNode {
    const rules: Rules
    const chain: ChainNotifier.ChainNotifier
    var stored: seq<RuBlock>
    var status: nat
    var finished: Option<nat>

    constructor (rules: Rules, chain: ChainNotifier.ChainNotifier, stored: seq<RuBlock>)
      ensures this.rules == rules && this.chain == chain && this.stored == stored && finished == None
      ensures status == if stored == [] then 0 else |stored| - 1
    {
      this.rules, this.chain, this.stored := rules, chain, stored;
      status := if stored == [] then 0 else |stored| - 1;
      finished := None;
    }

    /** The node's state as the functions in `Node` see it. */
    ghost function Abs(): NodeState
      reads this, chain, chain.tags
    {
      NodeState(stored, chain.tags.Abs(), chain.Abs(), status, finished)
    }

    ghost predicate Valid()
      reads this, chain
    {
      chain.Valid() && forall n :: 0 <= n < |stored| ==> WellFormedBlock(stored[n])
    }

    method LastRollupBlock() returns (height: nat)
      ensures height == Tip(Abs())
    {
      height := if stored == [] then 0 else |stored| - 1;
    }

    /** Execute, announce and store the blocks that are newer than what is stored. */
    method ProcessCommittedChain(blocks: seq<Block>) returns (result: Result<bool, NodeError>)
      requires Valid() && GoodRules(rules)
      modifies this, chain
      ensures Valid() && (Abs(), result) == ProcessCommitted(rules, old(Abs()), blocks)
    {
      var lastHeight := LastRollupBlock();
      var newer := Newer(rules, blocks, lastHeight);
      hide Newer, Process;
      var i := 0;
      assert newer[0..] == newer;
      while i < |newer|
        invariant 0 <= i <= |newer| && Valid()
        invariant Process(rules, Abs(), newer[i..]) == Process(rules, old(Abs()), newer)
      {
        var ru := newer[i].number - rules.deployHeight;
        var parent := if ru == 0 then 0 else ru - 1;
        ProcessUnfolds(rules, Abs(), newer[i..]);
        if parent >= |stored| {
          return Err(ParentMissing);
        }
        var executed := Execute(rules, stored[parent], newer[i]);
        assert newer[i..][1..] == newer[i + 1..];
        chain.SendNewBlock(executed);
        stored := stored + [executed];
        i := i + 1;
      }
      ProcessUnfolds(rules, Abs(), newer[i..]);
      return Ok(newer != []);
    }

    /** Drop the stored blocks above `target`, return them oldest first. */
    method DrainAbove(target: nat) returns (drained: seq<RuBlock>)
      modifies `stored
      ensures stored == Kept(old(Abs()), target) && drained == Drained(old(Abs()), target)
    {
      drained := [];
      while |stored| > target + 1
        invariant |stored| <= |old(stored)| && stored == old(stored)[..|stored|]
        invariant stored + drained == old(stored)
        invariant |stored| >= target + 1 || stored == old(stored)
      {
        drained := [stored[|stored| - 1]] + drained;
        stored := stored[..|stored| - 1];
      }
    }

    method NotifyReorg(drained: seq<RuBlock>, commonAncestor: nat)
      requires chain.Valid() && forall n :: 0 <= n < |drained| ==> WellFormedBlock(drained[n])
      modifies chain
      ensures chain.Valid()
      ensures chain.Abs() == SendReorg(old(chain.Abs()), ReorgNotification(commonAncestor, AllRemoved(drained)))
    {
      chain.SendReorg(ReorgNotification(commonAncestor, AllRemoved(drained)));
    }

    /** `Ok(true)` when rollup state was unwound. Tags are capped before the reorg is announced. */
    method OnHostRevert(range: RevertRange) returns (result: Result<bool, NodeError>)
      requires Valid()
      modifies this, chain, chain.tags
      ensures Valid() && (Abs(), result) == Node.OnHostRevert(rules, old(Abs()), range)
    {
      if range.tip <= rules.deployHeight {
        return Ok(false);
      }
      var rollupTip := LastRollupBlock();
      if range.tip - rules.deployHeight < rollupTip {
        return Err(RevertDoesNotCoverTip);
      }
      var first := HostToRollup(rules, range.first);
      var target := if first.None? || first.value == 0 then 0 else first.value - 1;
      var drained := DrainAbove(target);
      var _ := chain.tags.RewindTo(target);
      if drained != [] {
        NotifyReorg(drained, target);
      }
      return Ok(true);
    }

    method UpdateStatusChannel()
      modifies `status
      ensures status == Tip(Abs())
    {
      status := LastRollupBlock();
    }

    /** `Ok(true)` when any rollup state changed. */
    method OnNotification(kind: Kind) returns (result: Result<bool, NodeError>)
      requires Valid() && GoodRules(rules)
      modifies this, chain, chain.tags
      ensures Valid() && (Abs(), result) == Node.OnNotification(rules, old(Abs()), kind)
    {
      var changed := false;
      if kind.Reverted().Some? {
        var reverted := OnHostRevert(kind.Reverted().value);
        if reverted.Err? {
          return reverted;
        }
        changed := changed || reverted.value;
      }
      assert (Abs(), Ok(changed)) == RevertPart(rules, old(Abs()), kind);
      if kind.CommittedChain().Some? {
        var committed := ProcessCommittedChain(kind.CommittedChain().value);
        if committed.Err? {
          return committed;
        }
        changed := changed || committed.value;
      }
      if changed {
        UpdateStatusChannel();
      }
      return Ok(changed);
    }

    method UpdateBlockTags(ruHeight: nat, safe: Option<nat>, finalizedHost: Option<nat>)
      requires ruHeight == Tip(Abs())
      modifies this`finished, chain.tags
      ensures Abs() == Node.UpdateBlockTags(rules, old(Abs()), safe, finalizedHost)
    {
      var safeHeights := ClampHostHeights(rules, ruHeight, safe);
      var finalizedHeights := ClampHostHeights(rules, ruHeight, finalizedHost);
      var _ := chain.tags.UpdateAll(ruHeight, safeHeights.rollup, finalizedHeights.rollup);
      if finalizedHeights.rollup > 0 {
        finished := Some(if finalizedHeights.host == 0 then 0 else finalizedHeights.host - 1);
      }
    }

    method Step(n: Notification) returns (error: Option<NodeError>)
      requires Valid() && GoodRules(rules)
      modifies this, chain, chain.tags
      ensures Valid() && (Abs(), error) == NodeStep(rules, old(Abs()), n)
    {
      var changed := OnNotification(n.kind);
      if changed.Err? {
        return Some(changed.error);
      }
      if changed.value {
        var ruHeight := LastRollupBlock();
        UpdateBlockTags(ruHeight, n.safe, n.finalized);
      }
      return None;
    }

    /** The main loop: it stops at the first error, and up to there storage is the fresh sync of the host chain. */
    method Start(notifications: seq<Notification>, ghost genesis: RuBlock, ghost host: seq<Block>)
      returns (error: Option<NodeError>)
      requires Valid() && GoodRules(rules) && GoodStream(notifications) && Synced(rules, genesis, Abs(), host)
      modifies this, chain, chain.tags
      ensures Valid()
      ensures error.None? <==> NodeRun(rules, old(Abs()), notifications).1
      ensures error.None? ==>
                && Abs() == NodeRun(rules, old(Abs()), notifications).0
                && Synced(rules, genesis, Abs(), ReplayAllAbove(rules, host, notifications))
    {
      ghost var synced := host;
      var i := 0;
      while i < |notifications|
        invariant 0 <= i <= |notifications| && Valid()
        invariant Synced(rules, genesis, Abs(), synced)
        invariant NodeRun(rules, Abs(), notifications[i..]) == NodeRun(rules, old(Abs()), notifications)
        invariant ReplayAllAbove(rules, synced, notifications[i..]) == ReplayAllAbove(rules, host, notifications)
      {
        ghost var before := Abs();
        error := Step(notifications[i]);
        assert notifications[i..][1..] == notifications[i + 1..];
        if error.Some? {
          return;
        }
        ghost var _ := StepIsReplay(rules, genesis, before, synced, notifications[i]);
        synced := ReplayAbove(rules, synced, notifications[i].kind);
        i := i + 1;
      }
      return None;
    }
  }
}
