/** What a backfill call does when its requests are served: which batch it delivers, when it ends, and when it fails. */
module BatchOutcomes {
  import opened Wrappers
  import opened Host
  import opened HostProvider
  import opened Follower
  import opened FollowerRuns
  import opened WalkDecision
  import opened HeadOutcomes

  // ---- When a range can be fetched ----

  /** The chain behind the request for block `number` reaches it; requests are numbered from `base + number`. */
  ghost predicate Reaches(p: Provider, base: int, number: nat) {
    base + number >= 0 && number < |p.canonical(base + number)|
  }

  ghost predicate LongEnough(p: Provider, base: int, from: nat, upTo: nat) {
    forall number: nat :: from <= number <= upTo ==> Reaches(p, base, number)
  }

  /** A served range is fetched unless a chain became too short, and then a block is missing. */
  lemma {:induction false} FetchRangeDecides(p: Provider, call: nat, from: nat, upTo: nat)
    requires Honest(p) && ServedFrom(p, call) && from <= upTo + 1
    ensures if LongEnough(p, call - from, from, upTo) then FetchRange(p, call, from, upTo).Ok? else FetchRange(p, call, from, upTo) == Err(MissingBlock)
    decreases upTo + 1 - from
  {
    hide Rooted, WellFormed;
    if from <= upTo {
      LaterIsServed(p, call, call + 1);
      FetchRangeDecides(p, call + 1, from + 1, upTo);
      assert IsCanonical(p.tree, p.canonical(call));
      assert Reaches(p, call - from, from) <==> from < |p.canonical(call)|;
    }
  }

  // ---- One backfill call ----

  /** The blocks the batch's requests were answered with, each from the chain seen by its own request. */
  ghost predicate AreAnswers(p: Provider, call: nat, from: nat, upTo: nat, blocks: seq<Block>)
    requires from <= upTo
  {
    |blocks| == upTo + 1 - from && forall k: nat :: k < |blocks| ==> Answers(p, call + k, from + k, blocks[k])
  }

  /**
   * Half the capacity is left for the headers, unless the cursor is past that point already; a batch is as long as
   * configured, or ends there.
   */
  lemma BatchEndIs(capacity: nat, batchSize: Positive, tip: nat, from: nat)
    requires from <= tip
    ensures var ceiling := BackfillCeiling(capacity, tip, from);
            && (from + capacity / 2 <= tip ==> ceiling == tip - capacity / 2)
            && (from > 0 && from + capacity / 2 > tip ==> ceiling == tip)
            && (from == 0 && capacity / 2 > tip ==> ceiling == 0)
            && BatchEnd(capacity, batchSize, tip, from) == Min(ceiling, from + batchSize - 1)
  {
  }

  /** A batch that was delivered, from the first request after the one for the tip on. */
  ghost predicate BatchDelivered(p: Provider, c: Config, s: State, from: nat, upTo: nat, s1: State, o: Outcome)
    requires from <= upTo
  {
    && o.Emitted? && o.notification.kind.ChainCommitted? && AreAnswers(p, s.calls + 1, from, upTo, o.notification.kind.blocks)
    && ReportsTags(p, c, s, s1, o.notification, Last(o.notification.kind.blocks).timestamp)
    && s1.lastEmitted == Some(Ref(Last(o.notification.kind.blocks)))
    && |s1.view| == Min(c.capacity, |s.view| + |o.notification.kind.blocks|)
  }

  /** The parent of the batch's first block is the last block emitted, or nothing was emitted yet. */
  ghost predicate Continues(p: Provider, s: State, from: nat)
    requires from < |p.canonical(s.calls + 1)| && p.canonical(s.calls + 1)[from] in p.tree
  {
    s.lastEmitted.Some? ==> p.tree[p.canonical(s.calls + 1)[from]].parent == s.lastEmitted.value.hash
  }

  /**
   * With every request served: backfill is over when the cursor is just above the tip, fails when it is further above,
   * when a chain became too short or when the batch does not continue what was delivered, and delivers the whole
   * batch in every other case.
   */
  lemma BackfillDecides(p: Provider, c: Config, s: State, from: nat)
    requires Honest(p) && ServedFrom(p, s.calls) && s.backfillFrom == Some(from)
    ensures p.canonical(s.calls) != []
    ensures var tip := |p.canonical(s.calls)| - 1;
            var (s1, o) := DrainBackfill(p, c, s);
            && (from == tip + 1 ==> o.Silent? && s1 == s.(backfillFrom := None, calls := s.calls + 1))
            && (from > tip + 1 ==> o == Failed(BackfillContinuityBreak) && s1 == s.(calls := s.calls + 1))
    ensures var tip := |p.canonical(s.calls)| - 1;
            var upTo := BatchEnd(c.capacity, s.batchSize, tip, from);
            var (s1, o) := DrainBackfill(p, c, s);
            from <= tip ==>
              && from <= upTo
              && if !LongEnough(p, s.calls + 1 - from, from, upTo) then o == Failed(MissingBlock)
                 else
                   && from < |p.canonical(s.calls + 1)| && p.canonical(s.calls + 1)[from] in p.tree
                   && if Continues(p, s, from) then BatchDelivered(p, c, s, from, upTo, s1, o)
                      else o == Failed(BackfillContinuityBreak) && s1.view == []
  {
    assert IsCanonical(p.tree, p.canonical(s.calls));
    var tip := |p.canonical(s.calls)| - 1;
    assert TipNumber(p, s.calls) == Ok(tip);
    if from <= tip {
      var upTo := BatchEnd(c.capacity, s.batchSize, tip, from);
      LaterIsServed(p, s.calls, s.calls + 1);
      hide BatchEnd, ServedFrom, Honest;
      BatchDecides(p, c, s.(calls := s.calls + 1), from, tip) by {
        assert BatchIsDue(p, s.(calls := s.calls + 1), from, tip);
      }
      hide IngestBatch, LongEnough, BatchDelivered, Continues, IsCanonical, BackfillCeiling;
      assert DrainBackfill(p, c, s) == IngestBatch(p, c, s.(calls := s.calls + 1), from, tip);
    }
  }

  /** Without an answer about the tip the call fails, and nothing but the number of requests has changed. */
  lemma BrokenTipFails(p: Provider, c: Config, s: State)
    requires s.backfillFrom.Some? && p.service(s.calls).Broken?
    ensures NextNotification(p, c, s) == (s.(calls := s.calls + 1), Failed(Rpc))
  {
    CallIsBatch(p, c, s);
  }

  ghost predicate BatchIsDue(p: Provider, s: State, from: nat, tip: nat) {
    s.backfillFrom == Some(from) && from <= tip && s.calls > 0
  }

  lemma BatchDecides(p: Provider, c: Config, s: State, from: nat, tip: nat)
    requires Honest(p) && ServedFrom(p, s.calls) && BatchIsDue(p, s, from, tip)
    ensures var upTo := BatchEnd(c.capacity, s.batchSize, tip, from);
            var (s1, o) := IngestBatch(p, c, s, from, tip);
            var s0 := s.(calls := s.calls - 1);
            && from <= upTo
            && if !LongEnough(p, s.calls - from, from, upTo) then o == Failed(MissingBlock)
               else
                 && from < |p.canonical(s.calls)| && p.canonical(s.calls)[from] in p.tree
                 && if Continues(p, s0, from) then BatchDelivered(p, c, s0, from, upTo, s1, o)
                    else o == Failed(BackfillContinuityBreak) && s1.view == []
  {
    var upTo := BatchEnd(c.capacity, s.batchSize, tip, from);
    BatchEndIs(c.capacity, s.batchSize, tip, from);
    hide BatchEnd, BackfillCeiling, FetchRange, IngestBatch, ReportsTags, ServedFrom, LongEnough, Honest, AreAnswers;
    FetchRangeDecides(p, s.calls, from, upTo);
    if LongEnough(p, s.calls - from, from, upTo) {
      var blocks := RangeIsAnswered(p, s.calls, from, upTo);
      FetchedBatch(p, c, s, from, tip, blocks);
    } else {
      UnfetchedBatch(p, c, s, from, tip);
    }
  }

  lemma RangeIsAnswered(p: Provider, call: nat, from: nat, upTo: nat) returns (blocks: seq<Block>)
    requires FetchRange(p, call, from, upTo).Ok? && from <= upTo
    ensures FetchRange(p, call, from, upTo) == Ok(blocks) && blocks != [] && AreAnswers(p, call, from, upTo, blocks)
    ensures from < |p.canonical(call)| && p.canonical(call)[from] in p.tree && blocks[0].parent == p.tree[p.canonical(call)[from]].parent
  {
    hide FetchRange;
    FetchRangeAnswers(p, call, from, upTo);
    blocks := FetchRange(p, call, from, upTo).value;
    assert Answers(p, call + 0, from + 0, blocks[0]);
  }

  lemma UnfetchedBatch(p: Provider, c: Config, s: State, from: nat, tip: nat)
    requires BatchIsDue(p, s, from, tip)
    requires FetchRange(p, s.calls, from, BatchEnd(c.capacity, s.batchSize, tip, from)) == Err(MissingBlock)
    ensures IngestBatch(p, c, s, from, tip).1 == Failed(MissingBlock)
  {
    hide FetchRange;
  }

  /** What becomes of a batch that was fetched. */
  lemma FetchedBatch(p: Provider, c: Config, s: State, from: nat, tip: nat, blocks: seq<Block>)
    requires ServedFrom(p, s.calls) && BatchIsDue(p, s, from, tip) && blocks != []
    requires FetchRange(p, s.calls, from, BatchEnd(c.capacity, s.batchSize, tip, from)) == Ok(blocks)
    ensures var (s1, o) := IngestBatch(p, c, s, from, tip);
            if s.lastEmitted.Some? && blocks[0].parent != s.lastEmitted.value.hash then o == Failed(BackfillContinuityBreak) && s1.view == []
            else
              && o.Emitted? && o.notification.kind == ChainCommitted(blocks) && s1.lastEmitted == Some(Ref(Last(blocks)))
              && |s1.view| == Min(c.capacity, |s.view| + |blocks|)
              && ReportsTags(p, c, s.(calls := s.calls - 1), s1, o.notification, Last(blocks).timestamp)
  {
    hide FetchRange, EpochOf, Rooted;
  }

  /** A call that finds a batch due ends with the batch's outcome; when backfill is over it goes on to the headers. */
  lemma CallIsBatch(p: Provider, c: Config, s: State)
    ensures var (s1, o) := DrainBackfill(p, c, s);
            NextNotification(p, c, s) == if o.Silent? then NextNotification(p, c, s1) else (s1, o)
  {
    hide IngestBatch, HandleNewHead;
    TurnConsumes(p, c, s);
    var (s1, o) := DrainBackfill(p, c, s);
    if o.Silent? {
      NothingDrained(p, c, s);
      TurnConsumes(p, c, s1);
      assert Turn(p, c, s) == Turn(p, c, s1);
    }
  }

  /** The same of whole calls, with every request served. */
  lemma BackfillCallDecides(p: Provider, c: Config, s: State, from: nat)
    requires Honest(p) && ServedFrom(p, s.calls) && s.backfillFrom == Some(from)
    ensures p.canonical(s.calls) != []
    ensures var tip := |p.canonical(s.calls)| - 1;
            && (from == tip + 1 ==> NextNotification(p, c, s) == NextNotification(p, c, s.(backfillFrom := None, calls := s.calls + 1)))
            && (from > tip + 1 ==> NextNotification(p, c, s) == (s.(calls := s.calls + 1), Failed(BackfillContinuityBreak)))
    ensures var tip := |p.canonical(s.calls)| - 1;
            var upTo := BatchEnd(c.capacity, s.batchSize, tip, from);
            var (s1, o) := NextNotification(p, c, s);
            from <= tip && LongEnough(p, s.calls + 1 - from, from, upTo) ==>
              && from <= upTo && from < |p.canonical(s.calls + 1)| && p.canonical(s.calls + 1)[from] in p.tree
              && (Continues(p, s, from) ==> BatchDelivered(p, c, s, from, upTo, s1, o))
              && (!Continues(p, s, from) ==> o == Failed(BackfillContinuityBreak) && s1.view == [])
  {
    BackfillDecides(p, c, s, from);
    CallIsBatch(p, c, s);
    hide DrainBackfill, NextNotification, BatchDelivered, BatchEnd, LongEnough, Continues;
  }
}
