/**
 * Host-chain following: what one call of each `RpcHostNotifier` method computes, as functions of the
 * notifier's state and the provider's answers. `RpcHostNotifier.dfy` proves the in-place methods
 * against these functions; `FollowerRuns.dfy` proves what whole runs keep.
 */
module Follower {
  import opened Wrappers
  import opened Host
  import opened HostProvider

  const DEFAULT_BACKFILL_BATCH_SIZE: Positive := 32
  const SLOTS_PER_EPOCH := 32

  datatype Config = Config(capacity: Positive, slotSeconds: Positive, genesisTimestamp: nat)

  /** A header from the `newHeads` subscription: only its hash and timestamp are used. */
  datatype Hint = Hint(hash: Hash, timestamp: nat)

  datatype TagCache = TagCache(safe: Option<nat>, finalized: Option<nat>, epoch: Option<nat>)

  /** `calls` counts provider requests; `bursts` are the headers to come, grouped by readiness. */
  datatype State = State(
    view: seq<BlockRef>,
    backfillFrom: Option<nat>,
    batchSize: Positive,
    lastEmitted: Option<BlockRef>,
    tags: TagCache,
    calls: nat,
    bursts: seq<seq<Hint>>
  )

  datatype Outcome = Silent | Emitted(notification: Notification) | Failed(error: Error) | Closed

  // ---- The chain view ----

  /** O(1) lookup by block number. */
  function ViewHash(view: seq<BlockRef>, number: nat): Option<Hash> {
    if view == [] || number < view[0].number || number - view[0].number >= |view| then None
    else Some(view[number - view[0].number].hash)
  }

  ghost predicate Contiguous(view: seq<BlockRef>) {
    forall i :: 0 <= i < |view| ==> view[i].number == view[0].number + i
  }

  function DropFrom(view: seq<BlockRef>, fork: nat): seq<BlockRef> {
    if view != [] && Last(view).number >= fork then DropFrom(view[..|view| - 1], fork) else view
  }

  function ReorgView(view: seq<BlockRef>, capacity: nat, fork: nat, entries: seq<BlockRef>): seq<BlockRef> {
    LastN(DropFrom(view, fork) + entries, capacity)
  }

  // ---- The walk ----

  datatype Walk =
    | AlreadySeen
    | Advance(newChain: seq<BlockRef>)
    | Reorg(forkNumber: nat, oldTip: nat, newChain: seq<BlockRef>)
    | Exhausted
    | WalkFailed(error: Error)

  datatype WalkStep = WalkStep(walk: Walk, calls: nat)

  /** The loop of the walk: `h` is fetched next and `newer` holds what was walked so far, oldest first. */
  function WalkFrom(p: Provider, view: seq<BlockRef>, capacity: nat, call: nat, h: Hash, newer: seq<BlockRef>): WalkStep
    requires |newer| <= capacity
    decreases capacity - |newer|
  {
    match HeaderByHash(p, call, h)
    case Err(e) => WalkStep(WalkFailed(e), call + 1)
    case Ok(header) =>
      var found := ViewHash(view, header.number);
      var walked := [BlockRef(header.number, h)] + newer;
      if found == Some(h) then
        if newer == [] then WalkStep(AlreadySeen, call + 1)
        else if header.number == Last(view).number then WalkStep(Advance(newer), call + 1)
        else WalkStep(Reorg(header.number + 1, Last(view).number, newer), call + 1)
      else if found.None? && view == [] then WalkStep(Advance(walked), call + 1)
      else if found.None? && header.number < view[0].number then WalkStep(Exhausted, call + 1)
      else if |walked| > capacity then WalkStep(Exhausted, call + 1)
      else WalkFrom(p, view, capacity, call + 1, header.parent, walked)
  }

  function WalkChain(p: Provider, view: seq<BlockRef>, capacity: nat, call: nat, h: Hash): WalkStep {
    if view != [] && Last(view).hash == h then WalkStep(AlreadySeen, call)
    else WalkFrom(p, view, capacity, call, h, [])
  }

  /** Walk from the hint, or from the provider's latest block when some block of the hint's walk is gone. */
  function ResolveWalk(p: Provider, view: seq<BlockRef>, capacity: nat, call: nat, h: Hash): WalkStep {
    var first := WalkChain(p, view, capacity, call, h);
    if first.walk.WalkFailed? && first.walk.error.MissingBlockByHash? then
      match LatestHash(p, first.calls)
      case Err(e) => WalkStep(WalkFailed(e), first.calls + 1)
      case Ok(latest) => WalkChain(p, view, capacity, first.calls + 1, latest)
    else first
  }

  // ---- Tags ----

  function EpochOf(c: Config, timestamp: nat): nat {
    (if timestamp < c.genesisTimestamp then 0 else timestamp - c.genesisTimestamp) / (c.slotSeconds * SLOTS_PER_EPOCH)
  }

  /** Refresh the tags when the epoch changed; the safe and finalized requests are two calls. */
  function RefreshTags(p: Provider, c: Config, tags: TagCache, call: nat, timestamp: nat): (Result<TagCache, Error>, nat) {
    var epoch := EpochOf(c, timestamp);
    if tags.epoch == Some(epoch) then (Ok(tags), call)
    else if p.service(call).Broken? || p.service(call + 1).Broken? then (Err(Rpc), call + 2)
    else (Ok(TagCache(p.safe(call), p.finalized(call + 1), Some(epoch))), call + 2)
  }

  /** Finish a notification: refresh the tags, then report them with it. */
  function Announce(p: Provider, c: Config, s: State, kind: Kind, timestamp: nat): (State, Outcome) {
    var (refreshed, calls) := RefreshTags(p, c, s.tags, s.calls, timestamp);
    match refreshed
    case Err(e) => (s.(calls := calls), Failed(e))
    case Ok(tags) => (s.(tags := tags, calls := calls), Emitted(Notification(kind, tags.safe, tags.finalized)))
  }

  // ---- A new head ----

  function HandleNewHead(p: Provider, c: Config, s: State, hint: Hint): (State, Outcome) {
    var step := ResolveWalk(p, s.view, c.capacity, s.calls, hint.hash);
    var s1 := s.(calls := step.calls);
    match step.walk
    case WalkFailed(e) => (s1, Failed(e))
    case AlreadySeen => (s1, Silent)
    case Exhausted =>
      var resume := if s.lastEmitted.Some? then Some(s.lastEmitted.value.number + 1) else None;
      (s1.(view := [], backfillFrom := resume, tags := s.tags.(epoch := None)), Silent)
    case Advance(newChain) =>
      Deliver(p, c, s1.(view := LastN(s.view + newChain, c.capacity)), s1, newChain, None, hint.timestamp)
    case Reorg(fork, oldTip, newChain) =>
      Deliver(p, c, s1.(view := ReorgView(s.view, c.capacity, fork, newChain)), s1, newChain,
              Some(RevertRange(fork, oldTip)), hint.timestamp)
  }

  /** Fetch the new blocks by hash; if that works the state becomes `moved`, otherwise it stays `s`. */
  function Deliver(p: Provider, c: Config, moved: State, s: State, path: seq<BlockRef>, range: Option<RevertRange>,
                   timestamp: nat): (State, Outcome)
  {
    match FetchByHash(p, s.calls, path)
    case Err(e) => (s.(calls := s.calls + |path|), Failed(e))
    case Ok(blocks) =>
      var last := if path == [] then None else Some(Last(path));
      var kind := if range.None? then ChainCommitted(blocks) else ChainReorged(range.value, blocks);
      Announce(p, c, moved.(calls := s.calls + |path|, lastEmitted := last), kind, timestamp)
  }

  // ---- Backfill ----

  function BackfillCeiling(capacity: nat, tip: nat, from: nat): nat {
    var ceiling := if tip < capacity / 2 then 0 else tip - capacity / 2;
    if from > ceiling then tip else ceiling
  }

  function BatchEnd(capacity: nat, batchSize: Positive, tip: nat, from: nat): nat {
    var ceiling := BackfillCeiling(capacity, tip, from);
    if ceiling < from + batchSize - 1 then ceiling else from + batchSize - 1
  }

  /** One backfill batch. `Silent` means backfill is over and the caller goes on to the headers. */
  function DrainBackfill(p: Provider, c: Config, s: State): (State, Outcome) {
    if s.backfillFrom.None? then (s, Silent) else
    var from := s.backfillFrom.value;
    var s1 := s.(calls := s.calls + 1);
    match TipNumber(p, s.calls)
    case Err(e) => (s1, Failed(e))
    case Ok(tip) =>
      if from == tip + 1 then (s1.(backfillFrom := None), Silent)
      else if from > tip + 1 then (s1, Failed(BackfillContinuityBreak))
      else IngestBatch(p, c, s1, from, tip)
  }

  function IngestBatch(p: Provider, c: Config, s: State, from: nat, tip: nat): (State, Outcome)
    requires from <= tip
  {
    var upTo := BatchEnd(c.capacity, s.batchSize, tip, from);
    var s1 := s.(calls := s.calls + (upTo + 1 - from));
    match FetchRange(p, s.calls, from, upTo)
    case Err(e) => (s1, Failed(e))
    case Ok(blocks) =>
      if s.lastEmitted.Some? && blocks != [] && blocks[0].parent != s.lastEmitted.value.hash then
        (s1.(view := []), Failed(BackfillContinuityBreak))
      else
        var done := upTo >= BackfillCeiling(c.capacity, tip, from);
        var s2 := s1.(view := LastN(s.view + Refs(blocks), c.capacity),
                      lastEmitted := if blocks == [] then s.lastEmitted else Some(Ref(Last(blocks))),
                      backfillFrom := if done then None else Some(upTo + 1));
        if blocks == [] then (s2, Emitted(Notification(ChainCommitted(blocks), s2.tags.safe, s2.tags.finalized)))
        else Announce(p, c, s2, ChainCommitted(blocks), Last(blocks).timestamp)
  }

  // ---- The notification loop ----

  /** One turn of the loop in `next_notification`: a batch if one is due, otherwise the next header. */
  function Turn(p: Provider, c: Config, s: State): (State, Outcome) {
    var (s1, drained) := DrainBackfill(p, c, s);
    if !drained.Silent? then (s1, drained)
    else if s1.bursts == [] then (s1, Closed)
    else if s1.bursts[0] == [] then (s1.(bursts := s1.bursts[1..]), Silent)
    else HandleNewHead(p, c, s1.(bursts := s1.bursts[1..]), Last(s1.bursts[0]))
  }

  lemma TurnConsumes(p: Provider, c: Config, s: State)
    ensures var (s1, o) := Turn(p, c, s); o.Silent? ==> |s1.bursts| < |s.bursts|
  {
  }

  /** Turns until one is not silent: the notification, the error, or the end of the stream. */
  function NextNotification(p: Provider, c: Config, s: State): (State, Outcome)
    decreases |s.bursts|
  {
    TurnConsumes(p, c, s);
    var (s1, o) := Turn(p, c, s);
    if o.Silent? then NextNotification(p, c, s1) else (s1, o)
  }
}
