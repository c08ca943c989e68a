/**
 * The node: what one host notification does to rollup storage, block tags and the event feed, as functions of
 * the node's state. `SignetNode.dfy` proves the in-place methods against these functions.
 */
module Node {
  import opened Wrappers
  import opened Host
  import opened Rollup
  import opened BlockTags

  /** The outcome of executing one host block on a rollup parent. */
  datatype Output = Output(hash: Hash, timestamp: nat, transactions: seq<Hash>, receipts: seq<seq<RawLog>>)

  /** Heights are paired by `host = rollup + deployHeight`; `exec` is the deterministic block processor. */
  datatype Rules = Rules(deployHeight: nat, exec: (RuBlock, Block) -> Output)

  datatype NodeError = ParentMissing | RevertDoesNotCoverTip

  const MAX_REORG_ENTRIES := 25

  datatype Stamped = Stamped(receivedAt: nat, reorg: ReorgNotification)

  /** The shared chain feed: broadcast events, the reorg ring, and the clock that stamps its entries. */
  datatype Feed = Feed(sent: seq<ChainEvent>, ring: seq<Stamped>, now: nat)

  /** `stored[n]` is rollup block `n`; `finished` is the last host height acknowledged. */
  datatype NodeState = NodeState(stored: seq<RuBlock>, tags: Tags, feed: Feed, status: nat, finished: Option<nat>)

  function Tip(s: NodeState): nat {
    if s.stored == [] then 0 else |s.stored| - 1
  }

  // ---- Heights ----

  function HostToRollup(r: Rules, host: nat): Option<nat> {
    if host < r.deployHeight then None else Some(host - r.deployHeight)
  }

  datatype PairedHeights = PairedHeights(host: nat, rollup: nat)

  function PairRollup(r: Rules, rollup: nat): PairedHeights {
    PairedHeights(rollup + r.deployHeight, rollup)
  }

  function ClampHostHeights(r: Rules, ruHeight: nat, host: Option<nat>): PairedHeights {
    if host.None? || HostToRollup(r, host.value).None? then PairedHeights(r.deployHeight, 0)
    else
      var rollup := HostToRollup(r, host.value).value;
      if rollup > ruHeight then PairRollup(r, ruHeight) else PairedHeights(host.value, rollup)
  }

  /** Where a node that starts with this storage asks the notifier to begin. */
  function StartHeight(r: Rules, s: NodeState): nat {
    if Tip(s) == 0 then r.deployHeight else PairRollup(r, Tip(s)).host
  }

  // ---- The feed ----

  function SendNewBlock(feed: Feed, b: RuBlock): Feed {
    feed.(sent := feed.sent + [NewBlock(b)])
  }

  function SendReorg(feed: Feed, reorg: ReorgNotification): Feed {
    Feed(feed.sent + [Reorg(reorg)], LastN(feed.ring + [Stamped(feed.now + 1, reorg)], MAX_REORG_ENTRIES), feed.now + 1)
  }

  function SendEvent(feed: Feed, e: ChainEvent): Feed {
    if e.NewBlock? then SendNewBlock(feed, e.block) else SendReorg(feed, e.reorg)
  }

  function SendEvents(feed: Feed, events: seq<ChainEvent>): Feed
    decreases |events|
  {
    if events == [] then feed else SendEvent(SendEvents(feed, events[..|events| - 1]), events[|events| - 1])
  }

  // ---- Commits ----

  function Execute(r: Rules, parent: RuBlock, host: Block): RuBlock
    requires host.number >= r.deployHeight
  {
    var out := r.exec(parent, host);
    RuBlock(host.number - r.deployHeight, out.hash, out.timestamp, out.transactions, out.receipts)
  }

  /** The blocks of a segment above the deploy height and above what was stored when the segment arrived. */
  function Newer(r: Rules, blocks: seq<Block>, lastHeight: nat): (newer: seq<Block>)
    ensures forall i :: 0 <= i < |newer| ==> newer[i].number >= r.deployHeight
    decreases |blocks|
  {
    if blocks == [] then []
    else (if blocks[0].number > r.deployHeight + lastHeight then [blocks[0]] else []) + Newer(r, blocks[1..], lastHeight)
  }

  /** Execute and store the blocks one by one, stopping at one whose parent is not stored. */
  function Process(r: Rules, s: NodeState, blocks: seq<Block>): (NodeState, Option<NodeError>)
    requires forall i :: 0 <= i < |blocks| ==> blocks[i].number >= r.deployHeight
    decreases |blocks|
  {
    if blocks == [] then (s, None) else
    var ru := blocks[0].number - r.deployHeight;
    var parent := if ru == 0 then 0 else ru - 1;
    if parent >= |s.stored| then (s, Some(ParentMissing)) else
    var executed := Execute(r, s.stored[parent], blocks[0]);
    Process(r, s.(stored := s.stored + [executed], feed := SendNewBlock(s.feed, executed)), blocks[1..])
  }

  // ---- Reverts ----

  /** The last rollup block that survives a revert from host block `first` on. */
  function RevertTarget(r: Rules, first: nat): nat {
    if first <= r.deployHeight + 1 then 0 else first - r.deployHeight - 1
  }

  function Kept(s: NodeState, target: nat): seq<RuBlock> {
    if |s.stored| <= target + 1 then s.stored else s.stored[..target + 1]
  }

  function Drained(s: NodeState, target: nat): seq<RuBlock> {
    if |s.stored| <= target + 1 then [] else s.stored[target + 1..]
  }

  ghost predicate StorageOk(s: NodeState) {
    && s.stored != [] && |s.feed.ring| <= MAX_REORG_ENTRIES
    && forall n :: 0 <= n < |s.stored| ==> s.stored[n].number == n && WellFormedBlock(s.stored[n])
  }

  function Unwind(s: NodeState, target: nat): NodeState
    requires forall n :: 0 <= n < |s.stored| ==> WellFormedBlock(s.stored[n])
  {
    var drained := Drained(s, target);
    s.(stored := Kept(s, target),
       tags := RewindTrace(s.tags, target)[3],
       feed := if drained == [] then s.feed else SendReorg(s.feed, ReorgNotification(target, AllRemoved(drained))))
  }

  /** The result says whether any rollup state was unwound. */
  function OnHostRevert(r: Rules, s: NodeState, range: RevertRange): (NodeState, Result<bool, NodeError>)
    requires forall n :: 0 <= n < |s.stored| ==> WellFormedBlock(s.stored[n])
  {
    if range.tip <= r.deployHeight then (s, Ok(false))
    else if range.tip - r.deployHeight < Tip(s) then (s, Err(RevertDoesNotCoverTip))
    else (Unwind(s, RevertTarget(r, range.first)), Ok(true))
  }

  // ---- Notifications ----

  function ProcessCommitted(r: Rules, s: NodeState, blocks: seq<Block>): (NodeState, Result<bool, NodeError>) {
    var newer := Newer(r, blocks, Tip(s));
    var (s1, error) := Process(r, s, newer);
    (s1, if error.Some? then Err(error.value) else Ok(newer != []))
  }

  function RevertPart(r: Rules, s: NodeState, kind: Kind): (NodeState, Result<bool, NodeError>)
    requires forall n :: 0 <= n < |s.stored| ==> WellFormedBlock(s.stored[n])
  {
    if kind.Reverted().None? then (s, Ok(false)) else OnHostRevert(r, s, kind.Reverted().value)
  }

  function CommitPart(r: Rules, s: NodeState, kind: Kind): (NodeState, Result<bool, NodeError>) {
    if kind.CommittedChain().None? then (s, Ok(false)) else ProcessCommitted(r, s, kind.CommittedChain().value)
  }

  /** Reverts run first. */
  function OnNotification(r: Rules, s: NodeState, kind: Kind): (NodeState, Result<bool, NodeError>)
    requires forall n :: 0 <= n < |s.stored| ==> WellFormedBlock(s.stored[n])
  {
    var (s1, reverted) := RevertPart(r, s, kind);
    if reverted.Err? then (s1, reverted) else
    var (s2, committed) := CommitPart(r, s1, kind);
    if committed.Err? then (s2, committed) else
    var changed := reverted.value || committed.value;
    (if changed then s2.(status := Tip(s2)) else s2, Ok(changed))
  }

  function UpdateBlockTags(r: Rules, s: NodeState, safe: Option<nat>, finalized: Option<nat>): NodeState {
    var f := ClampHostHeights(r, Tip(s), finalized);
    s.(tags := Tags(Tip(s), ClampHostHeights(r, Tip(s), safe).rollup, f.rollup),
       finished := if f.rollup > 0 then Some(if f.host == 0 then 0 else f.host - 1) else s.finished)
  }

  /** One turn of the node's main loop. */
  function NodeStep(r: Rules, s: NodeState, n: Notification): (NodeState, Option<NodeError>)
    requires forall n :: 0 <= n < |s.stored| ==> WellFormedBlock(s.stored[n])
  {
    var (s1, result) := OnNotification(r, s, n.kind);
    if result.Err? then (s1, Some(result.error))
    else if result.value then (UpdateBlockTags(r, s1, n.safe, n.finalized), None)
    else (s1, None)
  }
}
