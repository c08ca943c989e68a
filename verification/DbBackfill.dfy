/** Syncing from the host's own database: batches up to the finalized block, then the live stream. */
module DbBackfill {
  import opened Wrappers
  import opened Host

  datatype DbError = ProviderFailed | MissingBlock(number: nat) | MissingReceipts(number: nat) | MissingHeader(number: nat) | StreamFailed

  /** The database's answer to each request; the first argument counts requests, so answers may change over time. */
  datatype Db = Db(
    finalized: nat -> Result<Option<nat>, DbError>,
    safe: nat -> Result<Option<nat>, DbError>,
    recoveredBlock: (nat, nat) -> Result<Option<Block>, DbError>,
    hasReceipts: (nat, nat) -> Result<bool, DbError>,
    sealedHeader: (nat, nat) -> Result<Option<Hash>, DbError>
  )

  /** A block asked for by number has that number. */
  ghost predicate NumbersHonest(db: Db) {
    forall call: nat, number: nat {:trigger db.recoveredBlock(call, number)} ::
      db.recoveredBlock(call, number).Ok? && db.recoveredBlock(call, number).value.Some? ==>
        db.recoveredBlock(call, number).value.value.number == number
  }

  const DEFAULT_BATCH_SIZE: Positive := 1000

  // ---- One batch ----

  function ReadBlock(db: Db, call: nat, number: nat): Result<Block, DbError> {
    match db.recoveredBlock(call, number)
    case Err(e) => Err(e)
    case Ok(None) => Err(MissingBlock(number))
    case Ok(Some(block)) =>
      match db.hasReceipts(call + 1, number)
      case Err(e) => Err(e)
      case Ok(present) => if present then Ok(block) else Err(MissingReceipts(number))
  }

  /** The blocks `from..=upTo`, two requests each, or the first failure. */
  function ReadRange(db: Db, call: nat, from: nat, upTo: nat): Result<seq<Block>, DbError>
    decreases upTo + 1 - from
  {
    if from > upTo then Ok([])
    else
      match ReadBlock(db, call, from)
      case Err(e) => Err(e)
      case Ok(block) =>
        match ReadRange(db, call + 2, from + 1, upTo)
        case Err(e) => Err(e)
        case Ok(rest) => Ok([block] + rest)
  }

  datatype Cursor = Cursor(cursor: nat, batchSize: Positive, calls: nat)

  function UpTo(c: Cursor, finalized: nat): nat {
    if finalized < c.cursor + c.batchSize - 1 then finalized else c.cursor + c.batchSize - 1
  }

  /** `Ok(None)` ends the backfill. A failed batch leaves the cursor where it was. */
  function BatchAt(db: Db, c: Cursor): (Cursor, Result<Option<seq<Block>>, DbError>) {
    match db.finalized(c.calls)
    case Err(e) => (c.(calls := c.calls + 1), Err(e))
    case Ok(None) => (c.(calls := c.calls + 1), Ok(None))
    case Ok(Some(finalized)) =>
      if c.cursor > finalized then (c.(calls := c.calls + 1), Ok(None))
      else
        var upTo := UpTo(c, finalized);
        var c1 := c.(calls := c.calls + 1 + 2 * (upTo + 1 - c.cursor));
        match ReadRange(db, c.calls + 1, c.cursor, upTo)
        case Err(e) => (c1, Err(e))
        case Ok(blocks) => (c1.(cursor := upTo + 1), Ok(Some(blocks)))
  }

  /** The reader as it works in place. */
  class DbBackfill {
    const provider: Db
    var cursor: nat
    var batchSize: Positive
    var calls: nat

    constructor (provider: Db, cursor: nat, calls: nat)
      ensures this.provider == provider && Abs() == Cursor(cursor, DEFAULT_BATCH_SIZE, calls)
    {
      this.provider, this.cursor, this.batchSize, this.calls := provider, cursor, DEFAULT_BATCH_SIZE, calls;
    }

    ghost function Abs(): Cursor
      reads this
    {
      Cursor(cursor, batchSize, calls)
    }

    method SetBatchSize(size: nat)
      modifies this
      ensures Abs() == old(Abs()).(batchSize := if size < 1 then 1 else size)
    {
      batchSize := if size < 1 then 1 else size;
    }

    method ResetBatchSize()
      modifies this
      ensures Abs() == old(Abs()).(batchSize := DEFAULT_BATCH_SIZE)
    {
      batchSize := DEFAULT_BATCH_SIZE;
    }

    method NextBatch() returns (result: Result<Option<seq<Block>>, DbError>)
      modifies this
      ensures (Abs(), result) == BatchAt(provider, old(Abs()))
    {
      var finalized := provider.finalized(calls);
      calls := calls + 1;
      if finalized.Err? {
        return Err(finalized.error);
      }
      if finalized.value.None? {
        return Ok(None);
      }
      if cursor > finalized.value.value {
        return Ok(None);
      }
      var from := cursor;
      var upTo := if finalized.value.value < cursor + batchSize - 1 then finalized.value.value else cursor + batchSize - 1;
      var segment := ReadBlockRange(from, upTo);
      if segment.Err? {
        return Err(segment.error);
      }
      cursor := upTo + 1;
      return Ok(Some(segment.value));
    }

    method ReadBlockRange(from: nat, upTo: nat) returns (result: Result<seq<Block>, DbError>)
      requires from <= upTo
      modifies `calls
      ensures result == ReadRange(provider, old(calls), from, upTo) && calls == old(calls) + 2 * (upTo + 1 - from)
    {
      var blocks := [];
      var first := calls;
      calls := calls + 2 * (upTo + 1 - from);
      for number := from to upTo + 1
        invariant Continues(ReadRange(provider, first, from, upTo), blocks,
                            ReadRange(provider, first + 2 * (number - from), number, upTo))
      {
        var call := first + 2 * (number - from);
        var block := provider.recoveredBlock(call, number);
        if block.Err? {
          return Err(block.error);
        }
        if block.value.None? {
          return Err(MissingBlock(number));
        }
        var receipts := provider.hasReceipts(call + 1, number);
        if receipts.Err? {
          return Err(receipts.error);
        }
        if !receipts.value {
          return Err(MissingReceipts(number));
        }
        blocks := blocks + [block.value.value];
      }
      assert blocks + [] == blocks;
      return Ok(blocks);
    }
  }

  // ---- What is read ----

  /** Block `number` and its receipts are answered; its two requests are numbered from `base + 2 * number`. */
  ghost predicate Present(db: Db, base: int, number: nat) {
    && base + 2 * number >= 0
    && db.recoveredBlock(base + 2 * number, number).Ok? && db.recoveredBlock(base + 2 * number, number).value.Some?
    && db.hasReceipts(base + 2 * number + 1, number) == Ok(true)
  }

  ghost predicate AllPresent(db: Db, base: int, from: nat, upTo: int) {
    forall number: nat :: from <= number <= upTo ==> Present(db, base, number)
  }

  ghost predicate IsAnswer(db: Db, base: int, number: nat, block: Block) {
    Present(db, base, number) && block == db.recoveredBlock(base + 2 * number, number).value.value
  }

  /** The blocks of a range, each as it was answered. */
  ghost predicate AsAnswered(db: Db, base: int, from: nat, blocks: seq<Block>) {
    forall i :: 0 <= i < |blocks| ==> IsAnswer(db, base, from + i, blocks[i])
  }

  /** Why block `number` could not be read: a failed request, or a block or its receipts that are not there. */
  ghost predicate Explains(db: Db, base: int, number: nat, error: DbError) {
    && base + 2 * number >= 0
    && var block := db.recoveredBlock(base + 2 * number, number);
       var receipts := db.hasReceipts(base + 2 * number + 1, number);
       || block == Err(error)
       || (block == Ok(None) && error == MissingBlock(number))
       || (block.Ok? && block.value.Some? && receipts == Err(error))
       || (block.Ok? && block.value.Some? && receipts == Ok(false) && error == MissingReceipts(number))
  }

  /** The error is why the first block of a range that is not there could not be read. */
  ghost predicate FirstMissing(db: Db, base: int, from: nat, upTo: nat, error: DbError) {
    exists failed: nat :: from <= failed <= upTo && AllPresent(db, base, from, failed - 1) && Explains(db, base, failed, error)
  }

  /** A range is read in full when everything is there; otherwise the first block that cannot be read is the error. */
  lemma {:induction false} RangeDecides(db: Db, call: nat, from: nat, upTo: nat) returns (failed: nat)
    requires from <= upTo + 1
    ensures var read := ReadRange(db, call, from, upTo);
            && (read.Ok? <==> AllPresent(db, call - 2 * from, from, upTo))
            && (read.Ok? ==> |read.value| == upTo + 1 - from && AsAnswered(db, call - 2 * from, from, read.value))
            && (read.Err? ==>
                 from <= failed <= upTo && AllPresent(db, call - 2 * from, from, failed - 1) && Explains(db, call - 2 * from, failed, read.error))
    decreases upTo + 1 - from
  {
    hide AllPresent, AsAnswered, Explains, Present, ReadBlock, IsAnswer;
    var base := call - 2 * from;
    failed := from;
    if from <= upTo {
      BlockDecides(db, call, from);
      PresentUnfolds(db, base, from, upTo);
      NothingPresent(db, base, from);
      if ReadBlock(db, call, from).Ok? {
        failed := RangeDecides(db, call + 2, from + 1, upTo);
        assert call + 2 - 2 * (from + 1) == base;
        if ReadRange(db, call, from, upTo).Err? {
          PresentUnfolds(db, base, from, failed - 1);
        } else {
          AnsweredUnfolds(db, base, from, ReadBlock(db, call, from).value, ReadRange(db, call + 2, from + 1, upTo).value);
        }
      }
    } else {
      NothingPresent(db, base, from);
    }
  }

  lemma BlockDecides(db: Db, call: nat, number: nat)
    ensures var read := ReadBlock(db, call, number);
            && (read.Ok? <==> Present(db, call - 2 * number, number))
            && (read.Ok? ==> IsAnswer(db, call - 2 * number, number, read.value))
            && (read.Err? ==> Explains(db, call - 2 * number, number, read.error))
  {
  }

  lemma PresentUnfolds(db: Db, base: int, from: nat, upTo: int)
    requires from <= upTo
    ensures AllPresent(db, base, from, upTo) <==> Present(db, base, from) && AllPresent(db, base, from + 1, upTo)
  {
    hide Present;
  }

  lemma NothingPresent(db: Db, base: int, from: nat)
    ensures AllPresent(db, base, from, from - 1) && AsAnswered(db, base, from, [])
  {
  }

  lemma AnsweredUnfolds(db: Db, base: int, from: nat, block: Block, rest: seq<Block>)
    requires IsAnswer(db, base, from, block) && AsAnswered(db, base, from + 1, rest)
    ensures AsAnswered(db, base, from, [block] + rest)
  {
    hide IsAnswer;
    var blocks := [block] + rest;
    forall i | 0 <= i < |blocks|
      ensures IsAnswer(db, base, from + i, blocks[i])
    {
      if i > 0 {
        assert IsAnswer(db, base, from + 1 + (i - 1), rest[i - 1]);
      }
    }
  }

  ghost predicate BatchIs(db: Db, c: Cursor, c1: Cursor, result: Result<Option<seq<Block>>, DbError>) {
    match db.finalized(c.calls)
    case Err(e) => result == Err(e) && c1.cursor == c.cursor
    case Ok(None) => result == Ok(None) && c1.cursor == c.cursor
    case Ok(Some(finalized)) =>
      var last := Min(finalized, c.cursor + c.batchSize - 1);
      if finalized < c.cursor then result == Ok(None) && c1.cursor == c.cursor
      else if AllPresent(db, c.calls + 1 - 2 * c.cursor, c.cursor, last) then
        && result.Ok? && result.value.Some? && |result.value.value| == last + 1 - c.cursor && c1.cursor == last + 1
        && AsAnswered(db, c.calls + 1 - 2 * c.cursor, c.cursor, result.value.value)
      else result.Err? && c1.cursor == c.cursor && FirstMissing(db, c.calls + 1 - 2 * c.cursor, c.cursor, last, result.error)
  }

  /**
   * A batch call: the end of the backfill when nothing at or above the cursor is finalized; otherwise the blocks up to the
   * finalized one or the batch size, whichever is lower, if all are there, and nothing moves if one is not.
   */
  lemma BatchDecides(db: Db, c: Cursor)
    ensures BatchIs(db, c, BatchAt(db, c).0, BatchAt(db, c).1)
  {
    var finalized := db.finalized(c.calls);
    if finalized.Ok? && finalized.value.Some? && c.cursor <= finalized.value.value {
      hide ReadRange;
      var failed := RangeDecides(db, c.calls + 1, c.cursor, UpTo(c, finalized.value.value));
    }
  }

  // ---- Tiling ----

  /** Consecutive blocks that start at `first`. */
  ghost predicate Covers(blocks: seq<Block>, first: nat) {
    forall i :: 0 <= i < |blocks| ==> blocks[i].number == first + i
  }

  lemma NothingCovers(first: nat)
    ensures Covers([], first)
  {
  }

  lemma CoversAppend(a: seq<Block>, b: seq<Block>, first: nat)
    requires Covers(a, first) && Covers(b, first + |a|)
    ensures Covers(a + b, first)
  {
  }

  lemma {:induction false} RangeCovers(db: Db, call: nat, from: nat, upTo: nat)
    requires NumbersHonest(db) && from <= upTo + 1 && ReadRange(db, call, from, upTo).Ok?
    ensures var blocks := ReadRange(db, call, from, upTo).value; |blocks| == upTo + 1 - from && Covers(blocks, from)
    decreases upTo + 1 - from
  {
    if from <= upTo {
      RangeCovers(db, call + 2, from + 1, upTo);
    }
  }

  /** The database answers from one linked chain, whatever it leaves out. */
  ghost predicate HoldsChain(db: Db, chain: seq<Block>) {
    && Linked(chain)
    && forall call: nat, number: nat {:trigger db.recoveredBlock(call, number)} ::
         db.recoveredBlock(call, number).Ok? && db.recoveredBlock(call, number).value.Some? ==>
           number < |chain| && db.recoveredBlock(call, number).value.value == chain[number]
  }

  /** The reader's parent-hash debug assertion never fires on such a database: what it reads is the linked stretch. */
  lemma {:induction false} RangeIsLinked(db: Db, chain: seq<Block>, call: nat, from: nat, upTo: nat)
    requires HoldsChain(db, chain) && from <= upTo && ReadRange(db, call, from, upTo).Ok?
    ensures upTo < |chain| && ReadRange(db, call, from, upTo).value == chain[from..upTo + 1]
    ensures Linked(ReadRange(db, call, from, upTo).value)
    decreases upTo + 1 - from
  {
    if from < upTo {
      RangeIsLinked(db, chain, call + 2, from + 1, upTo);
      assert chain[from..upTo + 1] == [chain[from]] + chain[from + 1..upTo + 1];
    } else {
      assert ReadRange(db, call + 2, from + 1, upTo) == Ok([]);
      assert chain[from..upTo + 1] == [chain[from]] + [];
    }
    LinkedSuffix(chain, from);
    assert chain[from..upTo + 1] == chain[from..][..upTo + 1 - from];
    LinkedPrefix(chain[from..], upTo + 1 - from);
  }

  lemma LinkedPrefix(blocks: seq<Block>, keep: nat)
    requires Linked(blocks) && keep <= |blocks|
    ensures Linked(blocks[..keep])
  {
  }

  datatype Op = FetchBatch | SetBatchSize(size: nat) | ResetBatchSize

  /** The cursor after some operations and the segments they returned; the end of the backfill ends the run. */
  function RunOps(db: Db, c: Cursor, ops: seq<Op>): (Cursor, seq<seq<Block>>)
    decreases |ops|
  {
    if ops == [] then (c, [])
    else
      match ops[0]
      case SetBatchSize(size) => RunOps(db, c.(batchSize := if size < 1 then 1 else size), ops[1..])
      case ResetBatchSize => RunOps(db, c.(batchSize := DEFAULT_BATCH_SIZE), ops[1..])
      case FetchBatch =>
        var (c1, result) := BatchAt(db, c);
        if result == Ok(None) then (c1, [])
        else
          var (end, segments) := RunOps(db, c1, ops[1..]);
          (end, if result.Ok? then [result.value.value] + segments else segments)
  }

  function Concat(segments: seq<seq<Block>>): seq<Block>
    decreases |segments|
  {
    if segments == [] then [] else segments[0] + Concat(segments[1..])
  }

  /** A batch is a non-empty run of at most `batchSize` blocks from the cursor, none above the finalized block. */
  lemma BatchShape(db: Db, c: Cursor)
    requires NumbersHonest(db)
    ensures var (c1, result) := BatchAt(db, c);
            && c1.batchSize == c.batchSize
            && (result.Err? || result == Ok(None) ==> c1.cursor == c.cursor)
            && (result.Ok? && result.value.Some? ==>
                 var blocks := result.value.value;
                 && Covers(blocks, c.cursor) && 1 <= |blocks| <= c.batchSize && c1.cursor == c.cursor + |blocks|
                 && db.finalized(c.calls).Ok? && db.finalized(c.calls).value.Some?
                 && c1.cursor - 1 <= db.finalized(c.calls).value.value)
  {
    var finalized := db.finalized(c.calls);
    if finalized.Ok? && finalized.value.Some? && c.cursor <= finalized.value.value {
      var upTo := UpTo(c, finalized.value.value);
      if ReadRange(db, c.calls + 1, c.cursor, upTo).Ok? {
        RangeCovers(db, c.calls + 1, c.cursor, upTo);
      }
    }
  }

  /**
   * For arbitrary finalized answers, batch sizes changed between calls and failed reads, the returned segments
   * concatenate to exactly the blocks from the start to just below the cursor.
   */
  lemma {:induction false} SegmentsTile(db: Db, c: Cursor, ops: seq<Op>)
    requires NumbersHonest(db)
    ensures var (end, segments) := RunOps(db, c, ops);
            && end.cursor >= c.cursor && |Concat(segments)| == end.cursor - c.cursor && Covers(Concat(segments), c.cursor)
    decreases |ops|
  {
    if ops != [] {
      match ops[0]
      case SetBatchSize(size) => SegmentsTile(db, c.(batchSize := if size < 1 then 1 else size), ops[1..]);
      case ResetBatchSize => SegmentsTile(db, c.(batchSize := DEFAULT_BATCH_SIZE), ops[1..]);
      case FetchBatch =>
        BatchShape(db, c);
        var (c1, result) := BatchAt(db, c);
        SegmentsTile(db, c1, ops[1..]);
        if result.Ok? && result.value.Some? {
          var (_, segments) := RunOps(db, c1, ops[1..]);
          var all := [result.value.value] + segments;
          assert all[1..] == segments;
        }
    }
  }
}
