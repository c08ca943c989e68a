/** The in-process notifier: first the database backfill, then live notifications from the host node. */
module RethHostNotifier {
  import opened Wrappers
  import opened Host
  import opened DbBackfill

  /** A live notification as the host node sends it. */
  datatype ExEx = Committed(added: seq<Block>) | Reverted(removed: seq<Block>) | Reorged(removed: seq<Block>, added: seq<Block>)

  datatype Head = Head(number: nat, hash: Hash)

  /** `live` is what the stream will still deliver, `liveHead` the head it was positioned at. */
  datatype RethState = RethState(
    backfill: Option<Cursor>, calls: nat, live: seq<Result<ExEx, DbError>>, liveHead: Option<Head>, headSet: bool)

  /** `Panicked` is what `RevertRange::new`, or the first block of an empty chain, does to the caller. */
  datatype Outcome = Emitted(notification: Notification) | Failed(error: DbError) | Closed | Panicked

  /** A live notification that can be reported: it does not revert nothing, or backwards, or the host's genesis. */
  predicate Reportable(n: ExEx) {
    !n.Committed? ==> n.removed != [] && 0 < n.removed[0].number <= Last(n.removed).number
  }

  function RangeOf(removed: seq<Block>): (range: RevertRange)
    requires removed != [] && 0 < removed[0].number <= Last(removed).number
    ensures range.Valid()
  {
    RevertRange(removed[0].number, Last(removed).number)
  }

  function KindOf(n: ExEx): Kind
    requires Reportable(n)
  {
    match n
    case Committed(added) => ChainCommitted(added)
    case Reverted(removed) => ChainReverted(RangeOf(removed))
    case Reorged(removed, added) => ChainReorged(RangeOf(removed), added)
  }

  /** A tag that cannot be read is reported as absent. */
  function TagOf(answer: Result<Option<nat>, DbError>): Option<nat> {
    if answer.Ok? then answer.value else None
  }

  function Tagged(host: Db, call: nat, kind: Kind): Notification {
    Notification(kind, TagOf(host.safe(call)), TagOf(host.finalized(call + 1)))
  }

  function Live(host: Db, s: RethState): (RethState, Outcome) {
    if s.live == [] then (s, Closed)
    else
      var s1 := s.(live := s.live[1..]);
      match s.live[0]
      case Err(e) => (s1, Failed(StreamFailed))
      case Ok(n) =>
        (s1.(calls := s.calls + 2), if Reportable(n) then Emitted(Tagged(host, s.calls, KindOf(n))) else Panicked)
  }

  function LastBackfilled(c: Cursor): nat {
    if c.cursor == 0 then 0 else c.cursor - 1
  }

  /** `host` answers the notifier's own requests, `db` those of the backfill. */
  function Next(host: Db, db: Db, s: RethState): (RethState, Outcome) {
    if s.backfill.None? then Live(host, s) else
    var (c, batch) := BatchAt(db, s.backfill.value);
    match batch
    case Err(e) => (s.(backfill := Some(c)), Failed(e))
    case Ok(Some(blocks)) =>
      (s.(backfill := Some(c), calls := s.calls + 2), Emitted(Tagged(host, s.calls, ChainCommitted(blocks))))
    case Ok(None) =>
      var s1 := s.(backfill := None, calls := s.calls + 1);
      match host.sealedHeader(s.calls, LastBackfilled(c))
      case Err(e) => (s1, Failed(e))
      case Ok(None) => (s1, Failed(MissingHeader(LastBackfilled(c))))
      case Ok(Some(hash)) => Live(host, s1.(liveHead := Some(Head(LastBackfilled(c), hash))))
  }

  class RethHostNotifier {
    const provider: Db
    const backfillProvider: Db
    var notifications: seq<Result<ExEx, DbError>>
    var liveHead: Option<Head>
    var backfill: DbBackfill?
    var headSet: bool
    var calls: nat

    constructor (provider: Db, backfillProvider: Db, notifications: seq<Result<ExEx, DbError>>)
      ensures this.provider == provider && this.backfillProvider == backfillProvider
      ensures backfill == null && Abs() == RethState(None, 0, notifications, None, false)
    {
      this.provider, this.backfillProvider, this.notifications := provider, backfillProvider, notifications;
      liveHead, backfill, headSet, calls := None, null, false, 0;
    }

    ghost function Abs(): RethState
      reads this, backfill
    {
      RethState(if backfill == null then None else Some(backfill.Abs()), calls, notifications, liveHead, headSet)
    }

    ghost predicate Valid()
      reads this, backfill
    {
      backfill != null ==> backfill.provider == backfillProvider
    }

    method SetHead(blockNumber: nat)
      requires Valid()
      modifies this
      ensures Valid() && Abs() == (if old(headSet) then old(Abs())
                                   else old(Abs()).(headSet := true, backfill := Some(Cursor(blockNumber, DEFAULT_BATCH_SIZE, 0))))
    {
      if headSet {
        return;
      }
      headSet := true;
      backfill := new DbBackfill(backfillProvider, blockNumber, 0);
    }

    method SetBackfillThresholds(maxBlocks: Option<nat>)
      requires Valid()
      modifies backfill
      ensures Valid() && Abs() == Thresholds(old(Abs()), maxBlocks)
    {
      if backfill == null {
        return;
      }
      match maxBlocks {
        case Some(size) => backfill.SetBatchSize(size);
        case None => backfill.ResetBatchSize();
      }
    }

    method NextNotification() returns (outcome: Outcome)
      requires Valid()
      modifies this, backfill
      ensures Valid() && (Abs(), outcome) == Next(provider, backfillProvider, old(Abs()))
    {
      if backfill != null {
        var batch := backfill.NextBatch();
        if batch.Err? {
          return Failed(batch.error);
        }
        if batch.value.Some? {
          var tags := calls;
          calls := calls + 2;
          return Emitted(Tagged(provider, tags, ChainCommitted(batch.value.value)));
        }
        var last := if backfill.cursor == 0 then 0 else backfill.cursor - 1;
        backfill := null;
        var header := provider.sealedHeader(calls, last);
        calls := calls + 1;
        if header.Err? {
          return Failed(header.error);
        }
        if header.value.None? {
          return Failed(MissingHeader(last));
        }
        liveHead := Some(Head(last, header.value.value));
      }
      if notifications == [] {
        return Closed;
      }
      var notification := notifications[0];
      notifications := notifications[1..];
      if notification.Err? {
        return Failed(StreamFailed);
      }
      var tags := calls;
      calls := calls + 2;
      if !Reportable(notification.value) {
        return Panicked;
      }
      return Emitted(Tagged(provider, tags, KindOf(notification.value)));
    }
  }

  function Thresholds(s: RethState, maxBlocks: Option<nat>): RethState {
    if s.backfill.None? then s
    else
      var size: Positive := if maxBlocks.None? then DEFAULT_BATCH_SIZE else if maxBlocks.value < 1 then 1 else maxBlocks.value;
      s.(backfill := Some(s.backfill.value.(batchSize := size)))
  }

  /** Only a running backfill is changed: to the size asked for, or the default; and to at least 1. */
  lemma ThresholdsAre(s: RethState, maxBlocks: Option<nat>)
    ensures s.backfill.None? ==> Thresholds(s, maxBlocks) == s
    ensures s.backfill.Some? ==>
              var s1 := Thresholds(s, maxBlocks);
              && s1.backfill.Some? && s1 == s.(backfill := Some(Cursor(s.backfill.value.cursor, s1.backfill.value.batchSize, s.backfill.value.calls)))
              && (maxBlocks.None? ==> s1.backfill.value.batchSize == 1000)
              && (maxBlocks.Some? ==> s1.backfill.value.batchSize == Max(1, maxBlocks.value))
  {
  }

  // ---- What is reported ----

  /** A tag is what was answered, and absent when the request failed. */
  ghost predicate Reports(answer: Result<Option<nat>, DbError>, tag: Option<nat>) {
    if answer.Ok? then tag == answer.value else tag.None?
  }

  /** Every notification carries the answers to the call's last two requests, safe before finalized. */
  lemma TagsAreAnswers(host: Db, db: Db, s: RethState)
    requires Next(host, db, s).1.Emitted?
    ensures var (s1, o) := Next(host, db, s);
            && s1.calls >= 2 && Reports(host.safe(s1.calls - 2), o.notification.safe)
            && Reports(host.finalized(s1.calls - 1), o.notification.finalized)
  {
  }

  /** While the database is read, a call has the batch's own outcome; the end of the backfill goes on to the live stream. */
  lemma BatchIsReported(host: Db, db: Db, s: RethState)
    requires s.backfill.Some?
    ensures var (c, batch) := BatchAt(db, s.backfill.value);
            var (s1, o) := Next(host, db, s);
            && (batch.Err? ==> o == Failed(batch.error) && s1 == s.(backfill := Some(c)))
            && (batch.Ok? && batch.value.Some? ==>
                 o.Emitted? && o.notification.kind == ChainCommitted(batch.value.value) && s1 == s.(backfill := Some(c), calls := s1.calls))
            && (batch == Ok(None) ==>
                 var last := if c.cursor == 0 then 0 else c.cursor - 1;
                 var header := host.sealedHeader(s.calls, last);
                 && s1.backfill.None?
                 && (header.Err? ==> o == Failed(header.error) && s1.live == s.live)
                 && (header == Ok(None) ==> o == Failed(MissingHeader(last)) && s1.live == s.live)
                 && (header.Ok? && header.value.Some? ==>
                      (s1, o) == Next(host, db, s.(backfill := None, calls := s.calls + 1, liveHead := Some(Head(last, header.value.value))))))
  {
  }

  lemma {:induction false} TruncateDrops(base: seq<Block>, removed: seq<Block>, first: nat)
    requires Linked(base + removed)
    requires forall i :: 0 <= i < |removed| ==> removed[i].number >= first
    requires base != [] ==> Last(base).number < first
    ensures Truncate(base + removed, first) == base
    decreases |removed|
  {
    if removed == [] {
      assert base + removed == base;
    } else {
      var n := |removed| - 1;
      assert (base + removed)[..|base + removed| - 1] == base + removed[..n];
      TruncateDrops(base, removed[..n], first);
    }
  }

  function Removed(n: ExEx): seq<Block> {
    if n.Committed? then [] else n.removed
  }

  function Added(n: ExEx): seq<Block> {
    if n.Reverted? then [] else n.added
  }

  /** In the live phase: replaying what is reported replaces the removed blocks by the added ones, up to the removed tip. */
  lemma LiveIsReplayed(host: Db, db: Db, s: RethState, n: ExEx, base: seq<Block>)
    requires s.backfill.None? && s.live != [] && s.live[0] == Ok(n) && Linked(base + Removed(n))
    ensures var (s1, o) := Next(host, db, s);
            && s1 == s.(live := s.live[1..], calls := s1.calls)
            && if n.Committed? || (n.removed != [] && n.removed[0].number > 0) then
                 && o.Emitted? && Replay(base + Removed(n), o.notification.kind) == base + Added(n)
                 && (o.notification.kind.Reverted().Some? <==> !n.Committed?)
                 && (!n.Committed? ==> o.notification.kind.Reverted().value.tip == Last(n.removed).number)
               else o == Panicked
  {
    assert base + [] == base;
    if !n.Committed? && n.removed != [] {
      RemovedRange(base, n.removed);
      hide Linked, Truncate;
    }
  }

  /** The removed blocks at the end of a chain have consecutive numbers, and cutting at the first drops exactly them. */
  lemma RemovedRange(base: seq<Block>, removed: seq<Block>)
    requires Linked(base + removed) && removed != []
    ensures removed[0].number <= Last(removed).number && Truncate(base + removed, removed[0].number) == base
  {
    var chain := base + removed;
    forall i | 0 <= i < |removed|
      ensures removed[i].number == removed[0].number + i
    {
      NumbersAreConsecutive(chain, |base| + i);
      NumbersAreConsecutive(chain, |base|);
      assert chain[|base| + i] == removed[i];
    }
    if base != [] {
      assert Follows(chain[|base| - 1], chain[|base|]);
    }
    TruncateDrops(base, removed, removed[0].number);
  }

  /** A stream error is passed on, and an empty stream is the end. */
  lemma LiveEnds(host: Db, db: Db, s: RethState)
    requires s.backfill.None?
    ensures s.live == [] ==> Next(host, db, s) == (s, Closed)
    ensures s.live != [] && s.live[0].Err? ==> Next(host, db, s) == (s.(live := s.live[1..]), Failed(StreamFailed))
  {
  }

  // ---- The hand-off ----

  datatype Use = NextCall | SetThresholds(maxBlocks: Option<nat>)

  /** The blocks one call delivers from the database. */
  function FromDatabase(s1: RethState, o: Outcome): seq<Block> {
    if s1.backfill.Some? && o.Emitted? && o.notification.kind.ChainCommitted? then o.notification.kind.blocks else []
  }

  /** Any use of the notifier, errors included: the state it ends in and what came from the database. */
  function RunUses(host: Db, db: Db, s: RethState, uses: seq<Use>): (RethState, seq<Block>)
    decreases |uses|
  {
    if uses == [] then (s, [])
    else if uses[0].SetThresholds? then RunUses(host, db, Thresholds(s, uses[0].maxBlocks), uses[1..])
    else
      var (s1, o) := Next(host, db, s);
      var (end, rest) := RunUses(host, db, s1, uses[1..]);
      (end, FromDatabase(s1, o) + rest)
  }

  /** Where the next block is expected: the cursor during backfill, one above the live head after it. */
  ghost predicate Expects(s: RethState, next: nat) {
    && (s.backfill.Some? ==> s.backfill.value.cursor == next && s.liveHead.None?)
    && (s.liveHead.Some? ==> s.liveHead.value.number == if next == 0 then 0 else next - 1)
  }

  lemma NextExpects(host: Db, db: Db, s: RethState, next: nat)
    requires NumbersHonest(db) && Expects(s, next)
    ensures var (s1, o) := Next(host, db, s);
            && Covers(FromDatabase(s1, o), next) && Expects(s1, next + |FromDatabase(s1, o)|)
            && (s1.backfill.None? && s.backfill.Some? ==>
                 (s1.liveHead.Some? <==> host.sealedHeader(s.calls, if next == 0 then 0 else next - 1).Ok?
                                         && host.sealedHeader(s.calls, if next == 0 then 0 else next - 1).value.Some?))
  {
    if s.backfill.Some? {
      BatchShape(db, s.backfill.value);
    }
  }

  /**
   * Whatever is answered, configured or failed on the way, the database phase delivers consecutive blocks from the
   * start, and the live phase is positioned at the last of them (for a start at genesis: at genesis).
   */
  lemma {:induction false} HandOff(host: Db, db: Db, s: RethState, next: nat, uses: seq<Use>)
    requires NumbersHonest(db) && Expects(s, next)
    ensures var (end, blocks) := RunUses(host, db, s, uses); Covers(blocks, next) && Expects(end, next + |blocks|)
    decreases |uses|
  {
    hide Next, Covers;
    if uses == [] {
      NothingCovers(next);
    } else {
      if uses[0].SetThresholds? {
        HandOff(host, db, Thresholds(s, uses[0].maxBlocks), next, uses[1..]);
      } else {
        NextExpects(host, db, s, next);
        var (s1, o) := Next(host, db, s);
        HandOff(host, db, s1, next + |FromDatabase(s1, o)|, uses[1..]);
        CoversAppend(FromDatabase(s1, o), RunUses(host, db, s1, uses[1..]).1, next);
      }
    }
  }

  /** The live stream continues exactly where the database phase stopped, unless that phase never got past genesis. */
  lemma LiveHeadContinuesIff(host: Db, db: Db, s: RethState, next: nat, uses: seq<Use>)
    requires NumbersHonest(db) && Expects(s, next)
    requires RunUses(host, db, s, uses).0.liveHead.Some?
    ensures var (end, blocks) := RunUses(host, db, s, uses);
            end.liveHead.value.number + 1 == next + |blocks| <==> next + |blocks| > 0
  {
    HandOff(host, db, s, next, uses);
  }

  /** A start at genesis with nothing finalized is the exception: the live head is a block that was never delivered. */
  lemma GenesisIsSkipped(host: Db, db: Db, live: seq<Result<ExEx, DbError>>, hash: Hash)
    requires db.finalized(0) == Ok(None) && host.sealedHeader(0, 0) == Ok(Some(hash))
    ensures var s := RethState(Some(Cursor(0, DEFAULT_BATCH_SIZE, 0)), 0, live, None, true);
            var (s1, o) := Next(host, db, s);
            FromDatabase(s1, o) == [] && s1.liveHead == Some(Head(0, hash))
  {
  }
}
