/** How long a backfill phase takes against a fixed tip, and why the headers after it never exhaust the view. */
module BackfillArithmetic {
  import opened Wrappers
  import opened Host
  import opened HostProvider
  import opened Follower
  import opened FollowerRuns
  import opened WalkDecision

  /** A provider that always serves, from one chain with tip `tip`. */
  ghost predicate Fixed(p: Provider, hashes: seq<Hash>) {
    && Honest(p) && hashes != [] && (forall i :: p.service(i).Served?)
    && (forall i {:trigger p.canonical(i)} :: p.canonical(i) == hashes)
  }

  /** `n` is `a / b` rounded up. */
  ghost predicate IsCeilDiv(n: nat, a: nat, b: Positive) {
    (n - 1) * b < a <= n * b
  }

  /** `n` batches in a row. */
  function Batches(p: Provider, c: Config, s: State, n: nat): State
    decreases n
  {
    if n == 0 then s else Batches(p, c, DrainBackfill(p, c, s).0, n - 1)
  }

  lemma {:induction false} FetchRangeServed(p: Provider, hashes: seq<Hash>, call: nat, from: nat, upTo: int)
    requires Fixed(p, hashes) && upTo < |hashes|
    ensures FetchRange(p, call, from, upTo).Ok?
    decreases upTo + 1 - from
  {
    if from <= upTo {
      assert IsCanonical(p.tree, p.canonical(call));
      FetchRangeServed(p, hashes, call + 1, from + 1, upTo);
    }
  }

  /** Delivered so far from a fixed chain, with the cursor at or below its tip. */
  ghost predicate Backfilling(p: Provider, c: Config, s: State, hashes: seq<Hash>, from: nat) {
    && s.backfillFrom == Some(from) && from < |hashes|
    && (s.lastEmitted.Some? ==> from > 0 && s.lastEmitted.value.hash == hashes[from - 1])
  }

  lemma BlocksOfBatch(p: Provider, hashes: seq<Hash>, call: nat, from: nat, upTo: nat)
    requires Fixed(p, hashes) && from <= upTo < |hashes|
    ensures FetchRange(p, call, from, upTo).Ok?
    ensures var blocks := FetchRange(p, call, from, upTo).value;
            && blocks != [] && Ref(Last(blocks)) == BlockRef(upTo, hashes[upTo])
            && (from > 0 ==> blocks[0].parent == hashes[from - 1])
  {
    FetchRangeServed(p, hashes, call, from, upTo);
    FetchRangeAnswers(p, call, from, upTo);
    var blocks := FetchRange(p, call, from, upTo).value;
    assert Answers(p, call + 0, from + 0, blocks[0]);
    assert Answers(p, call + (upTo - from), from + (upTo - from), blocks[upTo - from]);
    assert IsCanonical(p.tree, p.canonical(0));
  }

  lemma LastOfLastN(view: seq<BlockRef>, blocks: seq<Block>, capacity: Positive)
    requires blocks != []
    ensures var v := LastN(view + Refs(blocks), capacity); v != [] && Last(v) == Ref(Last(blocks))
  {
  }

  lemma BatchBounds(capacity: nat, batchSize: Positive, tip: nat, from: nat)
    requires from <= tip
    ensures from <= BatchEnd(capacity, batchSize, tip, from) <= BackfillCeiling(capacity, tip, from) <= tip
    ensures BatchEnd(capacity, batchSize, tip, from) < BackfillCeiling(capacity, tip, from)
            ==> BatchEnd(capacity, batchSize, tip, from) == from + batchSize - 1
    ensures BatchEnd(capacity, batchSize, tip, from) <= from + batchSize - 1
  {
  }

  lemma IngestServed(p: Provider, c: Config, s: State, from: nat, tip: nat, blocks: seq<Block>)
    requires (forall i :: p.service(i).Served?) && from <= tip && blocks != []
    requires FetchRange(p, s.calls, from, BatchEnd(c.capacity, s.batchSize, tip, from)) == Ok(blocks)
    requires s.lastEmitted.Some? ==> blocks[0].parent == s.lastEmitted.value.hash
    ensures var (s1, o) := IngestBatch(p, c, s, from, tip);
            var upTo := BatchEnd(c.capacity, s.batchSize, tip, from);
            && o.Emitted? && s1.batchSize == s.batchSize
            && s1.view == LastN(s.view + Refs(blocks), c.capacity) && s1.lastEmitted == Some(Ref(Last(blocks)))
            && s1.backfillFrom == (if upTo >= BackfillCeiling(c.capacity, tip, from) then None else Some(upTo + 1))
  {
  }

  lemma DrainIngests(p: Provider, c: Config, s: State, hashes: seq<Hash>, from: nat)
    requires Fixed(p, hashes) && s.backfillFrom == Some(from) && from < |hashes|
    ensures DrainBackfill(p, c, s) == IngestBatch(p, c, s.(calls := s.calls + 1), from, |hashes| - 1)
  {
    assert TipNumber(p, s.calls) == Ok(|hashes| - 1);
  }

  /** One batch: it is emitted, it ends where `BatchEnd` says, and the view's tip is the batch's last block. */
  lemma OneBatch(p: Provider, c: Config, s: State, hashes: seq<Hash>, from: nat) returns (upTo: nat)
    requires Fixed(p, hashes) && Backfilling(p, c, s, hashes, from)
    ensures upTo == BatchEnd(c.capacity, s.batchSize, |hashes| - 1, from)
    ensures var (s1, o) := DrainBackfill(p, c, s);
            var ceiling := BackfillCeiling(c.capacity, |hashes| - 1, from);
            && o.Emitted? && from <= upTo <= ceiling
            && s1.batchSize == s.batchSize
            && s1.view != [] && Last(s1.view) == BlockRef(upTo, hashes[upTo])
            && (if ceiling + 1 - from <= s.batchSize then upTo == ceiling else upTo == from + s.batchSize - 1 < ceiling)
            && (if upTo == ceiling then s1.backfillFrom == None else Backfilling(p, c, s1, hashes, upTo + 1))
  {
    hide FetchRange, LastN, BatchEnd, BackfillCeiling, IngestBatch, DrainBackfill;
    upTo := BatchEnd(c.capacity, s.batchSize, |hashes| - 1, from);
    BatchBounds(c.capacity, s.batchSize, |hashes| - 1, from);
    BlocksOfBatch(p, hashes, s.calls + 1, from, upTo);
    var blocks := FetchRange(p, s.calls + 1, from, upTo).value;
    LastOfLastN(s.view, blocks, c.capacity);
    DrainIngests(p, c, s, hashes, from);
    IngestServed(p, c, s.(calls := s.calls + 1), from, |hashes| - 1, blocks);
    var s1 := DrainBackfill(p, c, s).0;
    assert s1.lastEmitted == Some(BlockRef(upTo, hashes[upTo]));
    if upTo < BackfillCeiling(c.capacity, |hashes| - 1, from) {
      assert s1.backfillFrom == Some(upTo + 1) && upTo + 1 < |hashes|;
      assert Backfilling(p, c, s1, hashes, upTo + 1);
    }
  }

  lemma BatchKeepsSound(p: Provider, c: Config, s: State, chain: seq<Block>, hashes: seq<Hash>)
    requires Fixed(p, hashes) && Sound(p, c, s, chain) && DrainBackfill(p, c, s).1.Emitted?
    ensures Sound(p, c, DrainBackfill(p, c, s).0, Consume(chain, DrainBackfill(p, c, s).1))
  {
    assert BatchSeamsAgree(p, c, s);
    DrainKeepsSound(p, c, s, chain);
  }

  /** A batch is due and the next call delivers it. */
  ghost predicate Emits(p: Provider, c: Config, s: State) {
    s.backfillFrom.Some? && DrainBackfill(p, c, s).1.Emitted?
  }

  ghost predicate AllEmit(p: Provider, c: Config, s: State, n: nat) {
    forall m: nat :: m < n ==> Emits(p, c, Batches(p, c, s, m))
  }

  lemma CeilingStays(capacity: nat, tip: nat, from: nat, later: nat)
    requires from <= later <= BackfillCeiling(capacity, tip, from)
    ensures BackfillCeiling(capacity, tip, later) == BackfillCeiling(capacity, tip, from)
    ensures tip <= BackfillCeiling(capacity, tip, from) + capacity / 2
  {
  }

  /** After exactly `n` more batches the phase is over, with the view's tip at the ceiling. */
  ghost predicate PhaseEnds(p: Provider, c: Config, s: State, hashes: seq<Hash>, ceiling: nat, n: nat)
    requires ceiling < |hashes|
  {
    var end := Batches(p, c, s, n);
    && AllEmit(p, c, s, n)
    && end.backfillFrom == None && end.view != [] && Last(end.view) == BlockRef(ceiling, hashes[ceiling])
  }

  lemma LastBatch(p: Provider, c: Config, s: State, hashes: seq<Hash>, ceiling: nat)
    requires ceiling < |hashes| && Emits(p, c, s)
    requires var s1 := DrainBackfill(p, c, s).0;
             s1.backfillFrom == None && s1.view != [] && Last(s1.view) == BlockRef(ceiling, hashes[ceiling])
    ensures PhaseEnds(p, c, s, hashes, ceiling, 1)
  {
    assert Batches(p, c, s, 1) == Batches(p, c, DrainBackfill(p, c, s).0, 0);
    FirstEmits(p, c, s, 1);
  }

  lemma OneMoreBatch(p: Provider, c: Config, s: State, hashes: seq<Hash>, ceiling: nat, n: nat)
    requires ceiling < |hashes| && Emits(p, c, s) && n > 0
    requires PhaseEnds(p, c, DrainBackfill(p, c, s).0, hashes, ceiling, n - 1)
    ensures PhaseEnds(p, c, s, hashes, ceiling, n)
  {
    hide DrainBackfill, Emits;
    assert Batches(p, c, s, n) == Batches(p, c, DrainBackfill(p, c, s).0, n - 1);
    FirstEmits(p, c, s, n);
  }

  lemma {:induction false} BatchesToCeiling(p: Provider, c: Config, s: State, hashes: seq<Hash>, from: nat, n: nat)
    requires Fixed(p, hashes) && Backfilling(p, c, s, hashes, from)
    requires BackfillCeiling(c.capacity, |hashes| - 1, from) < |hashes|
    requires IsCeilDiv(n, BackfillCeiling(c.capacity, |hashes| - 1, from) + 1 - from, s.batchSize)
    ensures PhaseEnds(p, c, s, hashes, BackfillCeiling(c.capacity, |hashes| - 1, from), n)
    decreases n
  {
    var ceiling := BackfillCeiling(c.capacity, |hashes| - 1, from);
    var s1 := DrainBackfill(p, c, s).0;
    assert Backfilling(p, c, s, hashes, from) ==> s.backfillFrom.Some?;
    hide Fixed, BatchEnd, BackfillCeiling, DrainBackfill, IsCeilDiv, PhaseEnds, Backfilling;
    var upTo := OneBatch(p, c, s, hashes, from);
    CeilIsSmall(n, ceiling + 1 - from, s.batchSize);
    if upTo == ceiling {
      LastBatch(p, c, s, hashes, ceiling);
    } else {
      CeilingStays(c.capacity, |hashes| - 1, from, upTo + 1);
      CeilStep(n, ceiling + 1 - from, s.batchSize);
      BatchesToCeiling(p, c, s1, hashes, upTo + 1, n - 1);
      OneMoreBatch(p, c, s, hashes, ceiling, n);
    }
  }

  /**
   * With a fixed tip the phase ends after exactly ceil(range / batch size) batches, and leaves the view's tip at
   * the ceiling: at most half the capacity below the provider's tip.
   */
  lemma PhaseLength(p: Provider, c: Config, s: State, hashes: seq<Hash>, from: nat, n: nat)
    requires Fixed(p, hashes) && Backfilling(p, c, s, hashes, from)
    requires IsCeilDiv(n, BackfillCeiling(c.capacity, |hashes| - 1, from) + 1 - from, s.batchSize)
    ensures var ceiling := BackfillCeiling(c.capacity, |hashes| - 1, from);
            && from <= ceiling <= |hashes| - 1 <= ceiling + c.capacity / 2
            && PhaseEnds(p, c, s, hashes, ceiling, n)
  {
    CeilingStays(c.capacity, |hashes| - 1, from, from);
    BatchesToCeiling(p, c, s, hashes, from, n);
  }

  lemma FirstEmits(p: Provider, c: Config, s: State, n: nat)
    requires n > 0 && Emits(p, c, s) && AllEmit(p, c, DrainBackfill(p, c, s).0, n - 1)
    ensures AllEmit(p, c, s, n)
  {
    hide DrainBackfill, Emits;
    var s1 := DrainBackfill(p, c, s).0;
    forall m: nat | m < n
      ensures Emits(p, c, Batches(p, c, s, m))
    {
      if m > 0 {
        assert Batches(p, c, s, m) == Batches(p, c, s1, m - 1);
      }
    }
  }

  lemma {:induction false} BatchesKeepSound(p: Provider, c: Config, s: State, chain: seq<Block>, hashes: seq<Hash>, n: nat)
    returns (after: seq<Block>)
    requires Fixed(p, hashes) && Sound(p, c, s, chain)
    requires AllEmit(p, c, s, n)
    ensures Sound(p, c, Batches(p, c, s, n), after)
    decreases n
  {
    hide DrainBackfill, Sound, Fixed, Consume;
    after := chain;
    if n > 0 {
      var (s1, o) := DrainBackfill(p, c, s);
      assert Emits(p, c, Batches(p, c, s, 0));
      BatchKeepsSound(p, c, s, chain, hashes);
      forall m: nat | m < n - 1
        ensures Emits(p, c, Batches(p, c, s1, m))
      {
        assert Batches(p, c, s, m + 1) == Batches(p, c, s1, m);
      }
      after := BatchesKeepSound(p, c, s1, Consume(chain, o), hashes, n - 1);
    }
  }

  lemma CeilIsSmall(n: nat, a: nat, b: Positive)
    requires IsCeilDiv(n, a, b) && a > 0
    ensures n > 0 && (a <= b <==> n == 1)
  {
    if n >= 2 {
      assert (n - 1) * b >= 1 * b;
    }
  }

  lemma CeilStep(n: nat, a: nat, b: Positive)
    requires IsCeilDiv(n, a, b) && a > b
    ensures n > 0 && IsCeilDiv(n - 1, a - b, b)
  {
    assert (n - 1) * b == n * b - b;
    assert (n - 2) * b == (n - 1) * b - b;
  }

  /** After such a phase, a descendant of the view's tip, at most the capacity above it, is an advance. */
  lemma AfterPhaseHeadersAdvance(p: Provider, c: Config, s: State, chain: seq<Block>, hashes: seq<Hash>, from: nat, n: nat,
                                 call: nat, h: Hash, d: nat)
    requires Fixed(p, hashes) && Rooted(p.tree) && Backfilling(p, c, s, hashes, from) && Sound(p, c, s, chain)
    requires IsCeilDiv(n, BackfillCeiling(c.capacity, |hashes| - 1, from) + 1 - from, s.batchSize)
    requires h in p.tree && 1 <= d <= c.capacity && d <= p.tree[h].number
    requires BackfillCeiling(c.capacity, |hashes| - 1, from) < |hashes|
    requires Ancestor(p.tree, h, d) == hashes[BackfillCeiling(c.capacity, |hashes| - 1, from)]
    ensures WalkChain(p, Batches(p, c, s, n).view, c.capacity, call, h).walk == Advance(PathTo(p.tree, h, d))
  {
    PhaseLength(p, c, s, hashes, from, n);
    var after := BatchesKeepSound(p, c, s, chain, hashes, n);
    SoundView(p, c, Batches(p, c, s, n), after);
    DescendantAdvances(p, Batches(p, c, s, n).view, c.capacity, call, h, d);
  }
}
