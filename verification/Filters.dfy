/** Active filters and the poll of one filter, in place. */
module Filters {
  import opened Wrappers
  import opened Host
  import opened Rollup
  import opened InterestKind
  import opened FilterPolls
  import ChainNotifier

  datatype FilterError = FilterNotFound(id: nat) | ReadFailed(error: ColdError)

  class ActiveFilter {
    var nextStartBlock: nat
    var lastPollTime: nat
    const kind: InterestKind

    constructor (nextStartBlock: nat, now: nat, kind: InterestKind)
      ensures Abs() == FilterState(nextStartBlock, now) && this.kind == kind
    {
      this.nextStartBlock, this.lastPollTime, this.kind := nextStartBlock, now, kind;
    }

    function Abs(): FilterState
      reads this
    {
      FilterState(nextStartBlock, lastPollTime)
    }

    method MarkPolled(currentBlock: nat, now: nat)
      modifies this
      ensures Abs() == FilterState(currentBlock + 1, now)
    {
      nextStartBlock := currentBlock + 1;
      lastPollTime := now;
    }

    /** Keeps the rewound position for the next forward scan. */
    method TouchPollTime(now: nat)
      modifies this
      ensures Abs() == FilterState(old(nextStartBlock), now)
    {
      lastPollTime := now;
    }

    /** Walk the reorgs in order, rewinding the position and taking back what was delivered above it. */
    method ComputeRemovedLogs(reorgs: seq<ReorgNotification>) returns (removed: seq<Log>)
      modifies `nextStartBlock
      ensures nextStartBlock == Rewound(old(nextStartBlock), reorgs)
      ensures removed == FilterPolls.ComputeRemovedLogs(kind, old(nextStartBlock), reorgs)
    {
      removed := [];
      for i := 0 to |reorgs|
        invariant nextStartBlock == Rewound(old(nextStartBlock), reorgs[..i])
        invariant removed == FilterPolls.ComputeRemovedLogs(kind, old(nextStartBlock), reorgs[..i])
      {
        assert reorgs[..i + 1][..i] == reorgs[..i];
        var snapshot := nextStartBlock;
        nextStartBlock := Min(nextStartBlock, reorgs[i].commonAncestor + 1);
        if kind.LogInterest? {
          var taken := TakeBack(kind.filter, snapshot, reorgs[i].removedBlocks);
          removed := removed + taken;
        }
      }
      assert reorgs[..|reorgs|] == reorgs;
    }

    /** The inner loops: the matching logs of the removed blocks below `snapshot`, marked. */
    static method TakeBack(filter: LogFilter, snapshot: nat, blocks: seq<RemovedBlock>) returns (removed: seq<Log>)
      ensures removed == RemovedBelow(filter, snapshot, blocks)
    {
      removed := [];
      for j := 0 to |blocks|
        invariant removed == RemovedBelow(filter, snapshot, blocks[..j])
      {
        assert blocks[..j + 1][..j] == blocks[..j];
        if blocks[j].number >= snapshot {
          continue;
        }
        var taken := TakeBackBlock(filter, blocks[j].logs);
        removed := removed + taken;
      }
      assert blocks[..|blocks|] == blocks;
    }

    static method TakeBackBlock(filter: LogFilter, logs: seq<Log>) returns (removed: seq<Log>)
      ensures removed == MarkRemoved(Keep(filter, logs))
    {
      removed := [];
      for k := 0 to |logs|
        invariant removed == MarkRemoved(Keep(filter, logs[..k]))
      {
        OneMoreLog(filter, logs, k);
        if !filter(logs[k].inner) {
          continue;
        }
        removed := removed + [logs[k].(removed := true)];
      }
      assert logs[..|logs|] == logs;
    }
  }

  lemma OneMoreLog(filter: LogFilter, logs: seq<Log>, k: nat)
    requires k < |logs|
    ensures MarkRemoved(Keep(filter, logs[..k + 1])) ==
            MarkRemoved(Keep(filter, logs[..k])) + (if filter(logs[k].inner) then [logs[k].(removed := true)] else [])
  {
    KeepAppend(filter, logs[..k], [logs[k]]);
    assert logs[..k + 1] == logs[..k] + [logs[k]];
    assert Keep(filter, [logs[k]]) == (if filter(logs[k].inner) then [logs[k]] else []) + Keep(filter, []);
  }

  class FilterManager {
    var currentId: nat
    var filters: map<nat, ActiveFilter>
    const chain: ChainNotifier.ChainNotifier

    constructor (chain: ChainNotifier.ChainNotifier)
      ensures this.chain == chain && filters == map[] && Valid()
    {
      this.chain := chain;
      currentId, filters := 1, map[];
    }

    /** Ids are given out once; no two ids share a filter. */
    ghost predicate Valid()
      reads this
    {
      && (forall id :: id in filters ==> id < currentId)
      && forall i, j :: i in filters && j in filters && i != j ==> filters[i] != filters[j]
    }

    /** Where every filter stands. */
    ghost function Abs(): map<nat, FilterState>
      reads this, filters.Values
    {
      map id | id in filters :: filters[id].Abs()
    }

    method Install(currentBlock: nat, kind: InterestKind) returns (id: nat)
      requires Valid()
      modifies this, chain`clock
      ensures Valid() && id == old(currentId) && id !in old(filters)
      ensures chain.Abs() == old(chain.Abs()).(now := old(chain.clock) + 1)
      ensures id in filters && filters == old(filters)[id := filters[id]] && fresh(filters[id]) && filters[id].kind == kind
      ensures Abs() == old(Abs())[id := FilterState(currentBlock + 1, chain.clock)]
    {
      id := currentId;
      currentId := currentId + 1;
      var now := chain.Now();
      var filter := new ActiveFilter(currentBlock + 1, now, kind);
      filters := filters[id := filter];
    }

    method Uninstall(id: nat) returns (found: bool)
      requires Valid()
      modifies `filters
      ensures Valid() && found == (id in old(filters)) && filters == old(filters) - {id}
    {
      found := id in filters;
      filters := filters - {id};
    }

    /**
     * `eth_getFilterChanges` against the stored chain: rewind, read forward to `latest`, move the poll cursor. When
     * cold storage fails, only the rewinding has happened.
     */
    method GetFilterChanges(id: nat, stored: seq<RuBlock>, cold: Option<ColdError>) returns (result: Result<EventBuffer<Hash>, FilterError>)
      requires Valid() && IsRuChain(stored) && chain.tags.latest < |stored|
      modifies filters.Values, chain`clock
      ensures Valid() && (id !in filters ==> result == Err(FilterNotFound(id)) && Abs() == old(Abs()) && chain.Abs() == old(chain.Abs()))
      ensures id in filters ==>
                var (state, output) := TryPoll(filters[id].kind, old(Abs())[id], old(chain.Abs()), stored, chain.tags.latest, cold);
                && result == (if output.Ok? then Ok(output.value) else Err(ReadFailed(output.error))) && Abs() == old(Abs())[id := state]
                && chain.Abs() == old(chain.Abs()).(now := old(chain.clock) + (if output.Ok? then 1 else 0))
    {
      if id !in filters {
        return Err(FilterNotFound(id));
      }
      var output := PollEntry(filters[id], stored, cold);
      return if output.Ok? then Ok(output.value) else Err(ReadFailed(output.error));
    }

    method PollEntry(entry: ActiveFilter, stored: seq<RuBlock>, cold: Option<ColdError>) returns (output: Result<EventBuffer<Hash>, ColdError>)
      requires IsRuChain(stored) && chain.tags.latest < |stored|
      modifies entry, chain`clock
      ensures (entry.Abs(), output) == TryPoll(entry.kind, old(entry.Abs()), old(chain.Abs()), stored, chain.tags.latest, cold)
      ensures chain.Abs() == old(chain.Abs()).(now := old(chain.clock) + (if output.Ok? then 1 else 0))
    {
      hide MatchingLogs, RemovedLogs, Rewound, ReorgsSince, HashesOf;
      var reorgs := chain.ReorgsSince(entry.lastPollTime);
      var removed := entry.ComputeRemovedLogs(reorgs);
      var start := entry.nextStartBlock;
      var latest := chain.tags.latest;
      if start > latest {
        var now := chain.Now();
        entry.TouchPollTime(now);
        return Ok(if removed == [] then EmptyBuffer(entry.kind) else LogBuffer(removed));
      }
      if cold.Some? {
        return Err(cold.value);
      }
      var found :=
        if entry.kind.BlockInterest? then BlockBuffer(HashesOf(stored[start..latest + 1]))
        else LogBuffer(removed + MatchingLogs(entry.kind.filter, stored[start..latest + 1]));
      var now := chain.Now();
      entry.MarkPolled(latest, now);
      return Ok(found);
    }
  }
}
