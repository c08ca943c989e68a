/** The three block tags as separate atomics: every store is a step that concurrent readers can observe. */
module BlockTags {
  import opened Wrappers

  datatype Tags = Tags(latest: nat, safe: nat, finalized: nat) {
    ghost predicate Ordered() { finalized <= safe <= latest }
  }

  /** The states of `update_all`: before, then after each of its three stores. */
  function UpdateTrace(t: Tags, latest: nat, safe: nat, finalized: nat): seq<Tags> {
    [t, t.(finalized := finalized), t.(finalized := finalized, safe := safe), Tags(latest, safe, finalized)]
  }

  /** The states of `rewind_to`: before, then after each `fetch_min`. */
  function RewindTrace(t: Tags, ancestor: nat): seq<Tags> {
    var f := Min(t.finalized, ancestor);
    var s := Min(t.safe, ancestor);
    [t, t.(finalized := f), t.(finalized := f, safe := s), Tags(Min(t.latest, ancestor), s, f)]
  }

  class BlockTags {
    var latest: nat
    var safe: nat
    var finalized: nat

    constructor (latest: nat, safe: nat, finalized: nat)
      ensures Abs() == Tags(latest, safe, finalized)
    {
      this.latest, this.safe, this.finalized := latest, safe, finalized;
    }

    ghost function Abs(): Tags
      reads this
    {
      Tags(latest, safe, finalized)
    }

    /** `trace` records what a reader can observe between the stores. */
    method UpdateAll(latest: nat, safe: nat, finalized: nat) returns (ghost trace: seq<Tags>)
      modifies this
      ensures trace == UpdateTrace(old(Abs()), latest, safe, finalized) && Abs() == Tags(latest, safe, finalized)
    {
      trace := [Abs()];
      this.finalized := finalized;
      trace := trace + [Abs()];
      this.safe := safe;
      trace := trace + [Abs()];
      this.latest := latest;
      trace := trace + [Abs()];
    }

    method RewindTo(ancestor: nat) returns (ghost trace: seq<Tags>)
      modifies this
      ensures trace == RewindTrace(old(Abs()), ancestor) && Abs() == trace[3]
    {
      trace := [Abs()];
      finalized := Min(finalized, ancestor);
      trace := trace + [Abs()];
      safe := Min(safe, ancestor);
      trace := trace + [Abs()];
      latest := Min(latest, ancestor);
      trace := trace + [Abs()];
    }
  }

  ghost predicate AlwaysOrdered(trace: seq<Tags>) {
    forall i :: 0 <= i < |trace| ==> trace[i].Ordered()
  }

  /** A rewind never shows inverted tags, not even between its stores, and it caps each of them. */
  lemma RewindStaysOrdered(t: Tags, ancestor: nat)
    requires t.Ordered()
    ensures AlwaysOrdered(RewindTrace(t, ancestor))
    ensures RewindTrace(t, ancestor)[0] == t
    ensures RewindTrace(t, ancestor)[3] == Tags(Min(t.latest, ancestor), Min(t.safe, ancestor), Min(t.finalized, ancestor))
  {
  }

  /** An update ends ordered, and stays ordered between its stores exactly when neither new tag overtakes the next old one. */
  lemma UpdateStaysOrderedIff(t: Tags, latest: nat, safe: nat, finalized: nat)
    requires t.Ordered() && finalized <= safe <= latest
    ensures UpdateTrace(t, latest, safe, finalized)[0] == t && UpdateTrace(t, latest, safe, finalized)[3] == Tags(latest, safe, finalized)
    ensures AlwaysOrdered(UpdateTrace(t, latest, safe, finalized)) <==> finalized <= t.safe && safe <= t.latest
  {
    var trace := UpdateTrace(t, latest, safe, finalized);
    assert trace[1].Ordered() <==> finalized <= t.safe;
    assert trace[2].Ordered() <==> safe <= t.latest;
  }

  /** No state of the trace shows a `latest` that is behind `finalized`. */
  ghost predicate NeverBehind(trace: seq<Tags>) {
    forall i :: 0 <= i < |trace| ==> trace[i].finalized <= trace[i].latest
  }

  /** The documented promise of an update, "never a latest behind finalized", holds exactly when finalized does not jump past it. */
  lemma LatestNeverBehindIff(t: Tags, latest: nat, safe: nat, finalized: nat)
    requires t.finalized <= t.latest && finalized <= latest
    ensures NeverBehind(UpdateTrace(t, latest, safe, finalized)) <==> finalized <= t.latest
  {
    var trace := UpdateTrace(t, latest, safe, finalized);
    assert trace[1].finalized <= trace[1].latest <==> finalized <= t.latest;
  }

  /** It fails when the chain jumps far ahead. */
  lemma UpdateCanShowLatestBehindFinalized()
    ensures var trace := UpdateTrace(Tags(10, 8, 5), 100, 95, 90);
            trace[1].latest < trace[1].finalized && Tags(10, 8, 5).Ordered() && trace[3].Ordered()
  {
    assert UpdateTrace(Tags(10, 8, 5), 100, 95, 90)[1] == Tags(10, 8, 90);
  }

  // ---- Readers load the tags one at a time ----

  /** What a reader sees that loads `finalized`, `safe` and `latest` at three moments of a trace. */
  function Loads(trace: seq<Tags>, finalizedAt: nat, safeAt: nat, latestAt: nat): Tags
    requires finalizedAt < |trace| && safeAt < |trace| && latestAt < |trace|
  {
    Tags(trace[latestAt].latest, trace[safeAt].safe, trace[finalizedAt].finalized)
  }

  /** In a rewind, a reader gets inverted tags exactly when it loads one too early and a larger one too late: any schedule. */
  lemma RewindReaders(t: Tags, ancestor: nat, finalizedAt: nat, safeAt: nat, latestAt: nat)
    requires t.Ordered() && finalizedAt < 4 && safeAt < 4 && latestAt < 4
    ensures Loads(RewindTrace(t, ancestor), finalizedAt, safeAt, latestAt).Ordered() <==>
            && !(finalizedAt == 0 && safeAt >= 2 && ancestor < t.finalized)
            && !(safeAt < 2 && latestAt == 3 && ancestor < t.safe)
    ensures var r := Loads(RewindTrace(t, ancestor), finalizedAt, safeAt, latestAt);
            r.latest < r.finalized <==> finalizedAt == 0 && latestAt == 3 && ancestor < t.finalized
  {
  }

  /** Each load at some moment, in one of the two orders a reader may load the tags in. */
  ghost predicate LatestFirst(finalizedAt: nat, safeAt: nat, latestAt: nat) {
    latestAt <= safeAt <= finalizedAt < 4
  }

  ghost predicate FinalizedFirst(finalizedAt: nat, safeAt: nat, latestAt: nat) {
    finalizedAt <= safeAt <= latestAt < 4
  }

  /**
   * The documented promise of a rewind holds for every reader that loads `latest` first, and for the readers that
   * load `finalized` first exactly when the rewind does not cut below the finalized block.
   */
  lemma RewindNeverBehindIff(t: Tags, ancestor: nat)
    requires t.Ordered()
    ensures forall i, j, k {:trigger LatestFirst(i, j, k)} :: LatestFirst(i, j, k) ==> Loads(RewindTrace(t, ancestor), i, j, k).Ordered()
    ensures (forall i, j, k {:trigger FinalizedFirst(i, j, k)} :: FinalizedFirst(i, j, k) ==>
               Loads(RewindTrace(t, ancestor), i, j, k).finalized <= Loads(RewindTrace(t, ancestor), i, j, k).latest)
            <==> t.finalized <= ancestor
  {
    forall i, j, k | LatestFirst(i, j, k)
      ensures Loads(RewindTrace(t, ancestor), i, j, k).Ordered()
    {
      RewindReaders(t, ancestor, i, j, k);
    }
    forall i, j, k | FinalizedFirst(i, j, k) && t.finalized <= ancestor
      ensures Loads(RewindTrace(t, ancestor), i, j, k).finalized <= Loads(RewindTrace(t, ancestor), i, j, k).latest
    {
      RewindReaders(t, ancestor, i, j, k);
    }
    assert FinalizedFirst(0, 0, 3);
    RewindReaders(t, ancestor, 0, 0, 3);
  }

  /** Every reader is safe against an update exactly when no tag, old or new, overtakes the next larger one, new or old. */
  lemma UpdateReadersIff(t: Tags, latest: nat, safe: nat, finalized: nat)
    requires t.Ordered() && finalized <= safe <= latest
    ensures (forall i, j, k :: 0 <= i < 4 && 0 <= j < 4 && 0 <= k < 4 ==> Loads(UpdateTrace(t, latest, safe, finalized), i, j, k).Ordered())
            <==> finalized <= t.safe && safe <= t.latest && t.finalized <= safe && t.safe <= latest
  {
    var trace := UpdateTrace(t, latest, safe, finalized);
    assert Loads(trace, 3, 0, 0) == Tags(t.latest, t.safe, finalized);
    assert Loads(trace, 0, 3, 0) == Tags(t.latest, safe, t.finalized);
    assert Loads(trace, 0, 0, 3) == Tags(latest, t.safe, t.finalized);
  }

  /** A reader that loads `latest` first only needs the update not to overtake itself; tags may move back. */
  lemma UpdateLatestFirstIff(t: Tags, latest: nat, safe: nat, finalized: nat)
    requires t.Ordered() && finalized <= safe <= latest
    ensures (forall i, j, k {:trigger LatestFirst(i, j, k)} :: LatestFirst(i, j, k) ==>
               Loads(UpdateTrace(t, latest, safe, finalized), i, j, k).Ordered())
            <==> finalized <= t.safe && safe <= t.latest
  {
    var trace := UpdateTrace(t, latest, safe, finalized);
    assert LatestFirst(1, 0, 0) && LatestFirst(2, 2, 0);
    assert Loads(trace, 1, 0, 0) == Tags(t.latest, t.safe, finalized);
    assert Loads(trace, 2, 2, 0) == Tags(t.latest, safe, finalized);
  }
}
