/** Fee-history rewards: one pass over the transactions for all percentiles, against the textbook weighted percentile. */
module RewardPercentiles {
  import opened Wrappers
  import opened Sorting

  /** A transaction's gas, from its receipt, and its effective tip. */
  datatype Fee = Fee(gas: nat, tip: nat)

  /** Pair tips with gas; the longer list is cut off. */
  function Zip(tips: seq<nat>, gas: seq<nat>): (r: seq<Fee>)
    ensures |r| == Min(|tips|, |gas|)
  {
    seq(Min(|tips|, |gas|), i requires 0 <= i < Min(|tips|, |gas|) => Fee(gas[i], tips[i]))
  }

  // ---- Sorting by tip, stably ----

  function TipOf(fee: Fee): nat {
    fee.tip
  }

  function SortByTip(s: seq<Fee>): (r: seq<Fee>)
    ensures |r| == |s|
  {
    Sort(TipOf, s)
  }

  lemma SortByTipSorts(s: seq<Fee>)
    ensures SortedBy(TipOf, SortByTip(s)) && multiset(SortByTip(s)) == multiset(s)
  {
    SortSorts(TipOf, s);
  }

  // ---- The textbook percentile ----

  /** The gas of the first `n` transactions. */
  function GasBefore(s: seq<Fee>, n: nat): nat
    requires n <= |s|
    decreases n
  {
    if n == 0 then 0 else GasBefore(s, n - 1) + s[n - 1].gas
  }

  function GasThrough(s: seq<Fee>, i: nat): nat
    requires i < |s|
  {
    GasBefore(s, i + 1)
  }

  /** `i` is the first transaction at which the cumulative gas reaches `threshold`, or the end if none does. */
  ghost predicate Reaches(s: seq<Fee>, threshold: int, i: nat) {
    && i <= |s|
    && (forall j :: 0 <= j < i ==> GasThrough(s, j) < threshold)
    && (i < |s| ==> GasThrough(s, i) >= threshold)
  }

  function TipAt(s: seq<Fee>, i: nat): nat
    requires s != []
  {
    if i < |s| then s[i].tip else s[|s| - 1].tip
  }

  ghost function NaiveIndex(s: seq<Fee>, threshold: int): (i: nat)
    ensures Reaches(s, threshold, i)
  {
    NaiveFrom(s, threshold, 0)
  }

  ghost function NaiveFrom(s: seq<Fee>, threshold: int, i: nat): (r: nat)
    requires i <= |s| && forall j :: 0 <= j < i ==> GasThrough(s, j) < threshold
    ensures i <= r && Reaches(s, threshold, r)
    decreases |s| - i
  {
    if i == |s| || GasThrough(s, i) >= threshold then i else NaiveFrom(s, threshold, i + 1)
  }

  // ---- The one-pass walk ----

  datatype Walked = Walked(index: nat, cumulative: nat)

  /** The inner loop: it stops without leaving the transaction whose gas it has just added. */
  function Advance(s: seq<Fee>, threshold: nat, at: Walked): (r: Walked)
    requires at.index <= |s|
    ensures at.index <= r.index <= |s|
    decreases |s| - at.index
  {
    if at.index == |s| then at
    else
      var cumulative := at.cumulative + s[at.index].gas;
      if cumulative >= threshold then Walked(at.index, cumulative) else Advance(s, threshold, Walked(at.index + 1, cumulative))
  }

  function WalkAll(s: seq<Fee>, thresholds: seq<nat>): (r: Walked)
    ensures r.index <= |s|
    decreases |thresholds|
  {
    if thresholds == [] then Walked(0, 0)
    else Advance(s, thresholds[|thresholds| - 1], WalkAll(s, thresholds[..|thresholds| - 1]))
  }

  function Rewards(s: seq<Fee>, thresholds: seq<nat>): (r: seq<nat>)
    requires s != []
    ensures |r| == |thresholds|
    decreases |thresholds|
  {
    if thresholds == [] then []
    else Rewards(s, thresholds[..|thresholds| - 1]) + [TipAt(s, WalkAll(s, thresholds).index)]
  }

  /** The rewards of one block. `thresholds` are the gas amounts of the percentiles. */
  method CalculateRewardPercentiles(thresholds: seq<nat>, gasUsed: nat, tips: seq<nat>, gas: seq<nat>)
    returns (result: seq<nat>, ghost steps: nat)
    requires gasUsed > 0 && tips != [] ==> gas != []
    ensures |result| == |thresholds|
    ensures gasUsed == 0 || tips == [] ==> forall i :: 0 <= i < |result| ==> result[i] == 0
    ensures gasUsed > 0 && tips != [] ==> result == Rewards(SortByTip(Zip(tips, gas)), thresholds)
    ensures steps <= |tips| + |thresholds|
  {
    if gasUsed == 0 || tips == [] {
      return seq(|thresholds|, i => 0), 0;
    }
    var fees := SortByTip(Zip(tips, gas));
    var cumulativeGas, txIndex := 0, 0;
    result, steps := [], 0;
    for k := 0 to |thresholds|
      invariant txIndex <= |fees| && 0 <= cumulativeGas && Walked(txIndex, cumulativeGas) == WalkAll(fees, thresholds[..k])
      invariant result == Rewards(fees, thresholds[..k]) && steps <= txIndex + k
    {
      assert thresholds[..k + 1][..k] == thresholds[..k];
      ghost var start := Walked(txIndex, cumulativeGas);
      while txIndex < |fees|
        invariant start.index <= txIndex <= |fees| && 0 <= cumulativeGas && steps <= txIndex + k
        invariant Advance(fees, thresholds[k], Walked(txIndex, cumulativeGas)) == Advance(fees, thresholds[k], start)
        decreases |fees| - txIndex
      {
        steps := steps + 1;
        cumulativeGas := cumulativeGas + fees[txIndex].gas;
        if cumulativeGas >= thresholds[k] {
          break;
        }
        txIndex := txIndex + 1;
      }
      result := result + [if txIndex < |fees| then fees[txIndex].tip else fees[|fees| - 1].tip];
    }
    assert thresholds[..|thresholds|] == thresholds;
  }

  // ---- How the walk relates to the textbook ----

  lemma {:induction false} GasGrows(s: seq<Fee>, i: nat, j: nat)
    requires i <= j <= |s|
    ensures GasBefore(s, i) <= GasBefore(s, j)
    decreases j
  {
    if i < j {
      GasGrows(s, i, j - 1);
    }
  }

  lemma NaiveGrows(s: seq<Fee>, low: int, high: int)
    requires low <= high
    ensures NaiveIndex(s, low) <= NaiveIndex(s, high)
  {
  }

  /** With `extra` gas counted twice so far, the walk goes where the textbook goes for a threshold lower by `extra`. */
  lemma {:induction false} AdvanceIsShiftedNaive(s: seq<Fee>, threshold: nat, at: Walked, extra: nat)
    requires at.index <= |s| && at.cumulative == GasBefore(s, at.index) + extra
    ensures var r := Advance(s, threshold, at);
            && r.index == Max(at.index, NaiveIndex(s, threshold - extra))
            && r.cumulative == GasBefore(s, r.index) + extra + (if r.index < |s| then s[r.index].gas else 0)
    decreases |s| - at.index
  {
    var naive := NaiveIndex(s, threshold - extra);
    if at.index < |s| {
      var cumulative := at.cumulative + s[at.index].gas;
      assert GasThrough(s, at.index) + extra == cumulative;
      if cumulative < threshold {
        AdvanceIsShiftedNaive(s, threshold, Walked(at.index + 1, cumulative), extra);
        if naive <= at.index {
          GasGrows(s, naive + 1, at.index + 1);
        }
      }
    }
  }

  /** The gas counted twice by the walk over some thresholds: that of each transaction it stopped at. */
  function Recounted(s: seq<Fee>, thresholds: seq<nat>): nat
    decreases |thresholds|
  {
    if thresholds == [] then 0
    else
      var index := WalkAll(s, thresholds).index;
      Recounted(s, thresholds[..|thresholds| - 1]) + (if index < |s| then s[index].gas else 0)
  }

  lemma {:induction false} WalkRecounts(s: seq<Fee>, thresholds: seq<nat>)
    ensures WalkAll(s, thresholds).cumulative == GasBefore(s, WalkAll(s, thresholds).index) + Recounted(s, thresholds)
    decreases |thresholds|
  {
    if thresholds != [] {
      var before := thresholds[..|thresholds| - 1];
      WalkRecounts(s, before);
      AdvanceIsShiftedNaive(s, thresholds[|thresholds| - 1], WalkAll(s, before), Recounted(s, before));
    }
  }

  ghost predicate Nondecreasing(thresholds: seq<nat>) {
    forall i, j :: 0 <= i < j < |thresholds| ==> thresholds[i] <= thresholds[j]
  }

  /** The walk never passes the textbook position. */
  lemma {:induction false} WalkIsAtMostNaive(s: seq<Fee>, thresholds: seq<nat>)
    requires Nondecreasing(thresholds) && thresholds != []
    ensures WalkAll(s, thresholds).index <= NaiveIndex(s, thresholds[|thresholds| - 1])
    decreases |thresholds|
  {
    var n := |thresholds| - 1;
    var before := thresholds[..n];
    WalkRecounts(s, before);
    AdvanceIsShiftedNaive(s, thresholds[n], WalkAll(s, before), Recounted(s, before));
    NaiveGrows(s, thresholds[n] - Recounted(s, before), thresholds[n]);
    if n > 0 {
      WalkIsAtMostNaive(s, before);
      NaiveGrows(s, before[n - 1], thresholds[n]);
    }
  }

  /** Lowering the threshold by `extra` moves the textbook position unless what comes before it stays below. */
  lemma ShiftMovesIff(s: seq<Fee>, threshold: int, extra: nat)
    ensures var naive := NaiveIndex(s, threshold);
            NaiveIndex(s, threshold - extra) == naive <==> naive == 0 || GasBefore(s, naive) + extra < threshold
  {
    var naive, shifted := NaiveIndex(s, threshold), NaiveIndex(s, threshold - extra);
    NaiveGrows(s, threshold - extra, threshold);
    if shifted < naive {
      GasGrows(s, shifted + 1, naive);
      assert GasThrough(s, shifted) >= threshold - extra;
    } else if naive > 0 {
      assert GasThrough(s, naive - 1) < threshold - extra;
    }
  }

  /** Exactly when the walk stops where the textbook does: it is there already, or recounting does not bring it there early. */
  lemma WalkIsNaiveIff(s: seq<Fee>, thresholds: seq<nat>)
    requires Nondecreasing(thresholds) && thresholds != []
    ensures var n := |thresholds| - 1;
            var naive := NaiveIndex(s, thresholds[n]);
            var before := thresholds[..n];
            WalkAll(s, thresholds).index == naive
            <==> WalkAll(s, before).index == naive || GasBefore(s, naive) + Recounted(s, before) < thresholds[n]
  {
    var n := |thresholds| - 1;
    var before := thresholds[..n];
    WalkRecounts(s, before);
    AdvanceIsShiftedNaive(s, thresholds[n], WalkAll(s, before), Recounted(s, before));
    WalkIsAtMostNaive(s, thresholds);
    ShiftMovesIff(s, thresholds[n], Recounted(s, before));
  }

  lemma {:induction false} RewardAt(s: seq<Fee>, thresholds: seq<nat>, k: nat)
    requires s != [] && k < |thresholds|
    ensures Rewards(s, thresholds)[k] == TipAt(s, WalkAll(s, thresholds[..k + 1]).index)
    decreases |thresholds|
  {
    var n := |thresholds| - 1;
    if k < n {
      RewardAt(s, thresholds[..n], k);
      assert thresholds[..n][..k + 1] == thresholds[..k + 1];
    } else {
      assert thresholds[..k + 1] == thresholds;
    }
  }

  lemma {:induction false} WalkGoesForward(s: seq<Fee>, thresholds: seq<nat>, i: nat, j: nat)
    requires i <= j <= |thresholds|
    ensures WalkAll(s, thresholds[..i]).index <= WalkAll(s, thresholds[..j]).index
    decreases j
  {
    if i < j {
      WalkGoesForward(s, thresholds, i, j - 1);
      assert thresholds[..j][..j - 1] == thresholds[..j - 1];
    }
  }

  lemma FirstWalkIsNaive(s: seq<Fee>, thresholds: seq<nat>)
    requires thresholds != []
    ensures WalkAll(s, thresholds[..1]).index == NaiveIndex(s, thresholds[0])
  {
    var first := thresholds[..1];
    assert first[..0] == [];
    WalkRecounts(s, []);
    AdvanceIsShiftedNaive(s, thresholds[0], WalkAll(s, []), 0);
  }

  lemma TipsGrow(s: seq<Fee>, i: nat, j: nat)
    requires s != [] && SortedBy(TipOf, s) && i <= j
    ensures TipAt(s, i) <= TipAt(s, j)
  {
  }

  lemma TipIsThere(s: seq<Fee>, i: nat) returns (j: nat)
    requires s != []
    ensures j < |s| && TipAt(s, i) == s[j].tip
  {
    j := Min(i, |s| - 1);
  }

  /** Each reward is at most the textbook percentile's tip. */
  lemma RewardIsAtMostNaive(s: seq<Fee>, thresholds: seq<nat>, k: nat)
    requires s != [] && SortedBy(TipOf, s) && Nondecreasing(thresholds) && k < |thresholds|
    ensures Rewards(s, thresholds)[k] <= TipAt(s, NaiveIndex(s, thresholds[k]))
  {
    RewardAt(s, thresholds, k);
    WalkIsAtMostNaive(s, thresholds[..k + 1]);
    TipsGrow(s, WalkAll(s, thresholds[..k + 1]).index, NaiveIndex(s, thresholds[k]));
  }

  /** The first reward is the textbook percentile's tip. */
  lemma FirstRewardIsNaive(s: seq<Fee>, thresholds: seq<nat>)
    requires s != [] && thresholds != []
    ensures Rewards(s, thresholds)[0] == TipAt(s, NaiveIndex(s, thresholds[0]))
  {
    RewardAt(s, thresholds, 0);
    FirstWalkIsNaive(s, thresholds);
  }

  /** Rewards never go down, whatever the percentiles. */
  lemma RewardsAreNondecreasing(s: seq<Fee>, thresholds: seq<nat>, j: nat, k: nat)
    requires s != [] && SortedBy(TipOf, s) && j <= k < |thresholds|
    ensures Rewards(s, thresholds)[j] <= Rewards(s, thresholds)[k]
  {
    RewardAt(s, thresholds, j);
    RewardAt(s, thresholds, k);
    WalkGoesForward(s, thresholds, j + 1, k + 1);
    TipsGrow(s, WalkAll(s, thresholds[..j + 1]).index, WalkAll(s, thresholds[..k + 1]).index);
  }

  /** Each reward is the tip of a transaction in the block. */
  lemma RewardIsATip(tips: seq<nat>, gas: seq<nat>, thresholds: seq<nat>, k: nat)
    requires tips != [] && gas != [] && k < |thresholds|
    ensures Rewards(SortByTip(Zip(tips, gas)), thresholds)[k] in tips
  {
    var fees := Zip(tips, gas);
    RewardAt(SortByTip(fees), thresholds, k);
    var i := TipIsThere(SortByTip(fees), WalkAll(SortByTip(fees), thresholds[..k + 1]).index);
    SortByTipSorts(fees);
    assert SortByTip(fees)[i] in multiset(fees);
  }

  /** Two transactions of equal gas and the percentiles 50 and 100: the second reward is the lower tip, not the higher. */
  lemma RewardsCanBeTooLow()
    ensures var s := [Fee(10, 1), Fee(10, 5)];
            Rewards(s, [10, 20]) == [1, 1] && TipAt(s, NaiveIndex(s, 20)) == 5
  {
    var s := [Fee(10, 1), Fee(10, 5)];
    assert [10, 20][..1] == [10] && [10][..0] == [];
    assert GasBefore(s, 1) == 10 && GasBefore(s, 2) == 20;
    assert WalkAll(s, [10]) == Walked(0, 10);
    assert WalkAll(s, [10, 20]) == Walked(0, 20);
    assert Rewards(s, [10]) == [1];
  }
}
