/** The notifier as it works in place: a ring of block references, a backfill cursor and a header stream. */
module RpcHostNotifier {
  import opened Wrappers
  import opened Host
  import opened HostProvider
  import opened Follower

  datatype Poll<+T> = Pending | Ready(item: Option<T>)

  /** Stream adapter that yields only the newest of the items that are ready together. */
  class Latest<T> {
    var inner: seq<seq<T>>

    constructor (bursts: seq<seq<T>>)
      ensures inner == bursts
    {
      inner := bursts;
    }

    /** `inner[0]` are the items ready now; an empty burst is a poll that finds nothing. */
    method PollNext() returns (poll: Poll<T>, skipped: nat)
      modifies this
      ensures inner == (if old(inner) == [] then [] else old(inner)[1..])
      ensures poll == (if old(inner) == [] then Ready(None)
                       else if old(inner)[0] == [] then Pending
                       else Ready(Some(Last(old(inner)[0]))))
      ensures old(inner) != [] && old(inner)[0] != [] ==> skipped == |old(inner)[0]| - 1
    {
      skipped := 0;
      if inner == [] {
        return Ready(None), 0;
      }
      var ready := inner[0];
      inner := inner[1..];
      if ready == [] {
        return Pending, 0;
      }
      var latest := ready[0];
      var rest := ready[1..];
      while rest != []
        invariant skipped + |rest| == |ready| - 1 && rest == ready[1 + skipped..]
        invariant latest == ready[skipped]
        decreases |rest|
      {
        latest := rest[0];
        rest := rest[1..];
        skipped := skipped + 1;
      }
      return Ready(Some(latest)), skipped;
    }
  }

  class RpcHostNotifier {
    const provider: Provider
    const config: Config
    const headerSub: Latest<Hint>
    var chainView: seq<BlockRef>
    var cachedSafe: Option<nat>
    var cachedFinalized: Option<nat>
    var lastTagEpoch: Option<nat>
    var backfillFrom: Option<nat>
    var backfillBatchSize: Positive
    var lastEmitted: Option<BlockRef>
    var headSet: bool
    var calls: nat

    constructor (provider: Provider, headerSub: Latest<Hint>, config: Config, batchSize: Positive)
      ensures this.provider == provider && this.config == config && this.headerSub == headerSub
      ensures !headSet && Abs() == State([], None, batchSize, None, TagCache(None, None, None), 0, headerSub.inner)
    {
      this.provider := provider;
      this.config := config;
      this.headerSub := headerSub;
      chainView := [];
      cachedSafe, cachedFinalized, lastTagEpoch := None, None, None;
      backfillFrom, lastEmitted := None, None;
      backfillBatchSize := batchSize;
      headSet := false;
      calls := 0;
    }

    /** The notifier's state as the follower's functions see it. */
    ghost function Abs(): State
      reads this, headerSub
    {
      State(chainView, backfillFrom, backfillBatchSize, lastEmitted,
            TagCache(cachedSafe, cachedFinalized, lastTagEpoch), calls, headerSub.inner)
    }

    ghost predicate Valid()
      reads this
    {
      |chainView| <= config.capacity
    }

    method SetHead(blockNumber: nat)
      modifies this
      ensures headSet && Abs() == (if old(headSet) then old(Abs())
                                   else old(Abs()).(backfillFrom := Some(blockNumber), lastEmitted := None))
      ensures old(Valid()) ==> Valid()
    {
      if headSet {
        return;
      }
      headSet := true;
      backfillFrom := Some(blockNumber);
      lastEmitted := None;
    }

    method SetBackfillThresholds(maxBlocks: Option<nat>)
      modifies `backfillBatchSize
      ensures backfillBatchSize ==
              (if maxBlocks.None? then DEFAULT_BACKFILL_BATCH_SIZE else if maxBlocks.value < 1 then 1 else maxBlocks.value)
    {
      backfillBatchSize :=
        if maxBlocks.None? then DEFAULT_BACKFILL_BATCH_SIZE else if maxBlocks.value < 1 then 1 else maxBlocks.value;
    }

    /** Append entries, evicting the oldest one whenever the ring is over capacity. */
    method ExtendView(entries: seq<BlockRef>)
      requires Valid()
      modifies `chainView
      ensures Valid() && chainView == LastN(old(chainView) + entries, config.capacity)
    {
      for i := 0 to |entries|
        invariant Valid() && chainView == LastN(old(chainView) + entries[..i], config.capacity)
      {
        LastNOfLastN(old(chainView) + entries[..i], [entries[i]], config.capacity);
        assert old(chainView) + entries[..i] + [entries[i]] == old(chainView) + entries[..i + 1];
        chainView := chainView + [entries[i]];
        if |chainView| > config.capacity {
          chainView := chainView[1..];
        }
      }
      assert entries[..|entries|] == entries;
    }

    /** Drop the entries from `forkNumber` on, then append. */
    method ReorgView(forkNumber: nat, entries: seq<BlockRef>)
      requires Valid()
      modifies `chainView
      ensures Valid() && chainView == Follower.ReorgView(old(chainView), config.capacity, forkNumber, entries)
    {
      while chainView != [] && Last(chainView).number >= forkNumber
        invariant Valid() && DropFrom(chainView, forkNumber) == DropFrom(old(chainView), forkNumber)
        decreases |chainView|
      {
        chainView := chainView[..|chainView| - 1];
      }
      ExtendView(entries);
    }

    /** Fetch the blocks one after the other in hash order; results keep that order. */
    method FetchBlocksByHash(refs: seq<BlockRef>) returns (r: Result<seq<Block>, Error>)
      modifies `calls
      ensures r == FetchByHash(provider, old(calls), refs) && calls == old(calls) + |refs|
    {
      var blocks := [];
      var i := 0;
      while i < |refs|
        invariant 0 <= i <= |refs| && calls == old(calls) + i
        invariant Continues(FetchByHash(provider, old(calls), refs), blocks, FetchByHash(provider, calls, refs[i..]))
      {
        var answer := BlockByHash(provider, calls, refs[i].hash);
        if answer.Err? {
          calls := calls + (|refs| - i);
          return Err(answer.error);
        }
        assert refs[i..][1..] == refs[i + 1..];
        blocks := blocks + [answer.value];
        calls := calls + 1;
        i := i + 1;
      }
      assert blocks + [] == blocks;
      return Ok(blocks);
    }

    method FetchRange(from: nat, upTo: nat) returns (r: Result<seq<Block>, Error>)
      modifies `calls
      ensures r == HostProvider.FetchRange(provider, old(calls), from, upTo)
      ensures calls == old(calls) + (if from <= upTo then upTo + 1 - from else 0)
    {
      var blocks := [];
      var number := from;
      while number <= upTo
        invariant from <= number && (if from <= upTo then number <= upTo + 1 else number == from) && calls == old(calls) + (number - from)
        invariant Continues(HostProvider.FetchRange(provider, old(calls), from, upTo), blocks,
                            HostProvider.FetchRange(provider, calls, number, upTo))
        decreases upTo + 1 - number
      {
        var answer := BlockByNumber(provider, calls, number);
        if answer.Err? {
          calls := calls + (upTo + 1 - number);
          return Err(answer.error);
        }
        blocks := blocks + [answer.value];
        calls := calls + 1;
        number := number + 1;
      }
      assert blocks + [] == blocks;
      return Ok(blocks);
    }

    method MaybeRefreshTags(timestamp: nat) returns (error: Option<Error>)
      modifies this
      ensures var (refreshed, n) := RefreshTags(provider, config, old(Abs()).tags, old(calls), timestamp);
              && error == (if refreshed.Err? then Some(refreshed.error) else None)
              && Abs() == old(Abs()).(calls := n, tags := if refreshed.Ok? then refreshed.value else old(Abs()).tags)
      ensures headSet == old(headSet)
    {
      var epoch := EpochOf(config, timestamp);
      if lastTagEpoch == Some(epoch) {
        return None;
      }
      var safe, finalized := calls, calls + 1;
      calls := calls + 2;
      if provider.service(safe).Broken? || provider.service(finalized).Broken? {
        return Some(Rpc);
      }
      cachedSafe, cachedFinalized, lastTagEpoch := provider.safe(safe), provider.finalized(finalized), Some(epoch);
      return None;
    }

    /** Walk back from `startHash` until the walk meets the view, leaves it, or gets too long. */
    method WalkChain(startHash: Hash) returns (walk: Walk)
      requires Valid()
      modifies `calls
      ensures WalkStep(walk, calls) == Follower.WalkChain(provider, chainView, config.capacity, old(calls), startHash)
    {
      if chainView != [] && Last(chainView).hash == startHash {
        return AlreadySeen;
      }
      var current := startHash;
      var walked: seq<BlockRef> := [];
      while true
        invariant |walked| <= config.capacity
        invariant WalkFrom(provider, chainView, config.capacity, calls, current, Reverse(walked))
                  == Follower.WalkChain(provider, chainView, config.capacity, old(calls), startHash)
        decreases config.capacity - |walked|
      {
        var answer := HeaderByHash(provider, calls, current);
        calls := calls + 1;
        if answer.Err? {
          return WalkFailed(answer.error);
        }
        var header := answer.value;
        ghost var newer := walked;
        walked := walked + [BlockRef(header.number, current)];
        assert Reverse(walked) == [BlockRef(header.number, current)] + Reverse(newer);
        var found := ViewHash(chainView, header.number);
        if found == Some(current) {
          walked := walked[..|walked| - 1];
          assert walked == newer;
          if walked == [] {
            return AlreadySeen;
          }
          var tip := Last(chainView).number;
          if header.number == tip {
            return Advance(Reverse(walked));
          }
          return Reorg(header.number + 1, tip, Reverse(walked));
        } else if found.None? && chainView == [] {
          return Advance(Reverse(walked));
        } else if found.None? && header.number < chainView[0].number {
          return Exhausted;
        }
        if |walked| > config.capacity {
          return Exhausted;
        }
        current := header.parent;
      }
    }

    method HandleNewHead(header: Hint) returns (outcome: Outcome)
      requires Valid()
      modifies this
      ensures Valid() && headSet == old(headSet)
      ensures (Abs(), outcome) == Follower.HandleNewHead(provider, config, old(Abs()), header)
    {
      hide Follower.WalkChain, LastN, Follower.ReorgView, RefreshTags, FetchByHash;
      var walk := WalkChain(header.hash);
      if walk.WalkFailed? && walk.error.MissingBlockByHash? {
        var latest := LatestHash(provider, calls);
        calls := calls + 1;
        if latest.Err? {
          return Failed(latest.error);
        }
        walk := WalkChain(latest.value);
      }
      match walk {
        case WalkFailed(e) =>
          return Failed(e);
        case AlreadySeen =>
          return Silent;
        case Exhausted =>
          chainView := [];
          backfillFrom := if lastEmitted.Some? then Some(lastEmitted.value.number + 1) else None;
          lastTagEpoch := None;
          return Silent;
        case Advance(newChain) =>
          outcome := DeliverPath(None, newChain, header.timestamp);
        case Reorg(forkNumber, oldTip, newChain) =>
          outcome := DeliverPath(Some(RevertRange(forkNumber, oldTip)), newChain, header.timestamp);
      }
    }

    /** The common end of both kinds of news: fetch, then move the view and the delivery mark, then announce. */
    method DeliverPath(range: Option<RevertRange>, newChain: seq<BlockRef>, timestamp: nat) returns (outcome: Outcome)
      requires Valid()
      modifies this
      ensures Valid() && headSet == old(headSet)
      ensures var moved := old(Abs()).(view := if range.None? then LastN(old(chainView) + newChain, config.capacity)
                                               else Follower.ReorgView(old(chainView), config.capacity, range.value.first, newChain));
              (Abs(), outcome) == Deliver(provider, config, moved, old(Abs()), newChain, range, timestamp)
    {
      hide FetchByHash, LastN, Follower.ReorgView, RefreshTags;
      var fetched := FetchBlocksByHash(newChain);
      if fetched.Err? {
        return Failed(fetched.error);
      }
      if range.None? {
        ExtendView(newChain);
      } else {
        ReorgView(range.value.first, newChain);
      }
      lastEmitted := if newChain == [] then None else Some(Last(newChain));
      var kind := if range.None? then ChainCommitted(fetched.value) else ChainReorged(range.value, fetched.value);
      outcome := Announce(kind, timestamp);
    }

    method Announce(kind: Kind, timestamp: nat) returns (outcome: Outcome)
      requires Valid()
      modifies this
      ensures Valid() && headSet == old(headSet)
      ensures (Abs(), outcome) == Follower.Announce(provider, config, old(Abs()), kind, timestamp)
    {
      var error := MaybeRefreshTags(timestamp);
      if error.Some? {
        return Failed(error.value);
      }
      return Emitted(Notification(kind, cachedSafe, cachedFinalized));
    }

    method DrainBackfill() returns (outcome: Outcome)
      requires Valid()
      modifies this
      ensures Valid() && headSet == old(headSet)
      ensures (Abs(), outcome) == Follower.DrainBackfill(provider, config, old(Abs()))
    {
      if backfillFrom.None? {
        return Silent;
      }
      var from := backfillFrom.value;
      var tipAnswer := TipNumber(provider, calls);
      calls := calls + 1;
      if tipAnswer.Err? {
        return Failed(tipAnswer.error);
      }
      var tip := tipAnswer.value;
      if from == tip + 1 {
        backfillFrom := None;
        return Silent;
      }
      if from > tip + 1 {
        return Failed(BackfillContinuityBreak);
      }
      outcome := IngestBatch(from, tip);
    }

    /** Fetch one batch by number, check that it continues what was delivered, and deliver it. */
    method IngestBatch(from: nat, tip: nat) returns (outcome: Outcome)
      requires Valid() && from <= tip
      modifies this
      ensures Valid() && headSet == old(headSet)
      ensures (Abs(), outcome) == Follower.IngestBatch(provider, config, old(Abs()), from, tip)
    {
      hide HostProvider.FetchRange, LastN, RefreshTags;
      var ceiling := BackfillCeiling(config.capacity, tip, from);
      var upTo := if ceiling < from + backfillBatchSize - 1 then ceiling else from + backfillBatchSize - 1;
      var fetched := FetchRange(from, upTo);
      if fetched.Err? {
        return Failed(fetched.error);
      }
      var blocks := fetched.value;
      if lastEmitted.Some? && blocks != [] && blocks[0].parent != lastEmitted.value.hash {
        chainView := [];
        return Failed(BackfillContinuityBreak);
      }
      var entries := Refs(blocks);
      ExtendView(entries);
      if entries != [] {
        lastEmitted := Some(Last(entries));
      }
      backfillFrom := if upTo >= ceiling then None else Some(upTo + 1);
      if blocks == [] {
        return Emitted(Notification(ChainCommitted(blocks), cachedSafe, cachedFinalized));
      }
      outcome := Announce(ChainCommitted(blocks), Last(blocks).timestamp);
    }

    method NextNotification() returns (outcome: Outcome)
      requires Valid()
      modifies this, headerSub
      ensures Valid() && headSet == old(headSet)
      ensures (Abs(), outcome) == Follower.NextNotification(provider, config, old(Abs()))
    {
      while true
        invariant Valid() && headSet == old(headSet)
        invariant Follower.NextNotification(provider, config, Abs()) == Follower.NextNotification(provider, config, old(Abs()))
        decreases |headerSub.inner|
      {
        ghost var before := Abs();
        TurnConsumes(provider, config, before);
        outcome := DrainBackfill();
        if !outcome.Silent? {
          return;
        }
        var poll, skipped := headerSub.PollNext();
        if poll.Pending? {
          continue;
        }
        if poll.item.None? {
          return Closed;
        }
        outcome := HandleNewHead(poll.item.value);
        assert (Abs(), outcome) == Turn(provider, config, before);
        if !outcome.Silent? {
          return;
        }
      }
    }
  }
}
