/** The textbook percentile in terms of a block's own tips and gas, without sorting: the rewards name no other order. */
module RewardInputs {
  import opened Wrappers
  import opened Sorting
  import opened RewardPercentiles
  import opened RewardConditions

  /** The gas that the first `n` transactions with a tip below `bound` use. */
  function GasUnder(tips: seq<nat>, gas: seq<nat>, bound: nat, n: nat): nat
    requires n <= |tips| && n <= |gas|
    decreases n
  {
    if n == 0 then 0 else GasUnder(tips, gas, bound, n - 1) + (if tips[n - 1] < bound then gas[n - 1] else 0)
  }

  /**
   * `tip` is paid by one of the transactions that have receipts, those that pay less do not use `threshold` gas, and
   * those that pay at most `tip` do; unless it is the least tip, or the largest.
   */
  ghost predicate IsWeightedTip(tips: seq<nat>, gas: seq<nat>, threshold: nat, tip: nat) {
    var n := Min(|tips|, |gas|);
    && (exists i :: 0 <= i < n && tips[i] == tip)
    && (GasUnder(tips, gas, tip, n) < threshold || forall i :: 0 <= i < n ==> tips[i] >= tip)
    && (GasUnder(tips, gas, tip + 1, n) >= threshold || forall i :: 0 <= i < n ==> tips[i] <= tip)
  }

  // ---- Gas does not depend on the order ----

  function FeesUnder(s: seq<Fee>, bound: nat): nat
    decreases |s|
  {
    if s == [] then 0 else FeesUnder(s[..|s| - 1], bound) + (if s[|s| - 1].tip < bound then s[|s| - 1].gas else 0)
  }

  lemma {:induction false} InsertKeepsGas(s: seq<Fee>, x: Fee, bound: nat)
    ensures FeesUnder(Insert(TipOf, s, x), bound) == FeesUnder(s, bound) + (if x.tip < bound then x.gas else 0)
    decreases |s|
  {
    var r := Insert(TipOf, s, x);
    if s == [] || TipOf(s[|s| - 1]) <= TipOf(x) {
      assert r[..|s|] == s;
    } else {
      InsertKeepsGas(s[..|s| - 1], x, bound);
      assert r[..|s|] == Insert(TipOf, s[..|s| - 1], x);
    }
  }

  lemma {:induction false} SortKeepsGas(s: seq<Fee>, bound: nat)
    ensures FeesUnder(SortByTip(s), bound) == FeesUnder(s, bound)
    decreases |s|
  {
    if s != [] {
      SortKeepsGas(s[..|s| - 1], bound);
      InsertKeepsGas(SortByTip(s[..|s| - 1]), s[|s| - 1], bound);
    }
  }

  /** Each transaction's tip goes with the gas of its own receipt. */
  lemma {:induction false} PairsKeepGas(tips: seq<nat>, gas: seq<nat>, bound: nat, n: nat)
    requires n <= |tips| && n <= |gas|
    ensures FeesUnder(Zip(tips, gas)[..n], bound) == GasUnder(tips, gas, bound, n)
    decreases n
  {
    if n > 0 {
      PairsKeepGas(tips, gas, bound, n - 1);
      assert Zip(tips, gas)[..n][..n - 1] == Zip(tips, gas)[..n - 1];
    }
  }

  // ---- Gas of a sorted block ----

  lemma {:induction false} BeforeIsPrefix(s: seq<Fee>, m: nat, i: nat)
    requires i <= m <= |s|
    ensures GasBefore(s[..m], i) == GasBefore(s, i)
    decreases i
  {
    if i > 0 {
      BeforeIsPrefix(s, m, i - 1);
    }
  }

  /** In a sorted block, what pays less than `bound` is a prefix. */
  lemma {:induction false} PrefixGas(s: seq<Fee>, bound: nat, i: nat)
    requires SortedBy(TipOf, s) && i <= |s|
    ensures (i > 0 ==> s[i - 1].tip < bound) ==> FeesUnder(s, bound) >= GasBefore(s, i)
    ensures (i < |s| ==> s[i].tip >= bound) ==> FeesUnder(s, bound) <= GasBefore(s, i)
    decreases |s|
  {
    if s != [] {
      var n := |s| - 1;
      BeforeIsPrefix(s, n, Min(i, n));
      PrefixGas(s[..n], bound, Min(i, n));
      if i > 0 {
        assert TipOf(s[i - 1]) <= TipOf(s[n]);
      }
      if i <= n {
        assert TipOf(s[i]) <= TipOf(s[n]);
      }
    }
  }

  /** What `IsWeightedTip` says, of a list of transactions. */
  ghost predicate IsWeightedIn(s: seq<Fee>, threshold: nat, tip: nat) {
    && (exists fee :: fee in s && fee.tip == tip)
    && (FeesUnder(s, tip) < threshold || forall fee :: fee in s ==> fee.tip >= tip)
    && (FeesUnder(s, tip + 1) >= threshold || forall fee :: fee in s ==> fee.tip <= tip)
  }

  lemma SortedBounds(s: seq<Fee>)
    requires s != [] && SortedBy(TipOf, s)
    ensures forall fee :: fee in s ==> s[0].tip <= fee.tip <= s[|s| - 1].tip
  {
    forall fee | fee in s
      ensures s[0].tip <= fee.tip <= s[|s| - 1].tip
    {
      var i :| 0 <= i < |s| && s[i] == fee;
      assert i > 0 ==> TipOf(s[0]) <= TipOf(s[i]);
      assert i < |s| - 1 ==> TipOf(s[i]) <= TipOf(s[|s| - 1]);
    }
  }

  lemma SortedTip(s: seq<Fee>, threshold: nat)
    requires s != [] && SortedBy(TipOf, s)
    ensures IsWeightedIn(s, threshold, TipAt(s, NaiveIndex(s, threshold)))
  {
    var i := NaiveIndex(s, threshold);
    var at := Min(i, |s| - 1);
    var tip := TipAt(s, i);
    hide SortedBy, FeesUnder, GasBefore, Reaches, NaiveIndex;
    NaiveIsInRange(s, threshold);
    SortedBounds(s);
    GasAtNaive(s, threshold);
    assert s[at].tip == tip;
    GasAround(s, at, tip);
    hide TipAt;
    assert i > 0 ==> FeesUnder(s, tip) < threshold;
    assert i < |s| ==> FeesUnder(s, tip + 1) >= threshold;
    assert s[at] in s;
  }

  lemma GasAround(s: seq<Fee>, at: nat, tip: nat)
    requires SortedBy(TipOf, s) && at < |s| && s[at].tip == tip
    ensures FeesUnder(s, tip) <= GasBefore(s, at) && GasBefore(s, at + 1) <= FeesUnder(s, tip + 1)
  {
    PrefixGas(s, tip, at);
    PrefixGas(s, tip + 1, at + 1);
  }

  lemma GasAtNaive(s: seq<Fee>, threshold: nat)
    requires s != []
    ensures var i := NaiveIndex(s, threshold);
            var at := Min(i, |s| - 1);
            (i > 0 ==> GasBefore(s, at) < threshold) && (i < |s| ==> GasBefore(s, at + 1) >= threshold)
  {
    var i := NaiveIndex(s, threshold);
    if i > 0 {
      assert GasThrough(s, i - 1) < threshold;
      GasGrows(s, Min(i, |s| - 1), i);
    }
  }

  lemma SortedIsWeighted(fees: seq<Fee>, threshold: nat, tip: nat)
    requires IsWeightedIn(SortByTip(fees), threshold, tip)
    ensures IsWeightedIn(fees, threshold, tip)
  {
    hide SortByTip, FeesUnder, SortedBy;
    SortKeepsGas(fees, tip);
    SortKeepsGas(fees, tip + 1);
    SortKeepsFees(fees);
  }

  lemma SortKeepsFees(fees: seq<Fee>)
    ensures forall fee :: fee in SortByTip(fees) <==> fee in fees
  {
    hide SortByTip, SortedBy;
    SortByTipSorts(fees);
    SameElements(SortByTip(fees), fees);
  }

  lemma SameElements(a: seq<Fee>, b: seq<Fee>)
    requires multiset(a) == multiset(b)
    ensures forall fee :: fee in a <==> fee in b
  {
    assert forall fee :: fee in a <==> fee in multiset(a);
    assert forall fee :: fee in b <==> fee in multiset(b);
  }

  /** The textbook tip of a block, for every threshold, in terms of the block's own tips and gas. */
  lemma TextbookIsWeighted(tips: seq<nat>, gas: seq<nat>, threshold: nat)
    requires tips != [] && gas != []
    ensures var s := SortByTip(Zip(tips, gas)); IsWeightedTip(tips, gas, threshold, TipAt(s, NaiveIndex(s, threshold)))
  {
    var fees := Zip(tips, gas);
    var s := SortByTip(fees);
    SortByTipSorts(fees);
    SortedTip(s, threshold);
    var tip := TipAt(s, NaiveIndex(s, threshold));
    SortedIsWeighted(fees, threshold, tip);
    hide TipAt, NaiveIndex, SortByTip, SortedBy, FeesUnder;
    PairsAreWeighted(tips, gas, threshold, tip);
  }

  lemma PairsAreWeighted(tips: seq<nat>, gas: seq<nat>, threshold: nat, tip: nat)
    requires IsWeightedIn(Zip(tips, gas), threshold, tip)
    ensures IsWeightedTip(tips, gas, threshold, tip)
  {
    var fees := Zip(tips, gas);
    var n := |fees|;
    assert fees[..n] == fees;
    PairsKeepGas(tips, gas, tip, n);
    PairsKeepGas(tips, gas, tip + 1, n);
    hide FeesUnder, GasUnder;
    forall i | 0 <= i < n
      ensures fees[i] in fees && fees[i].tip == tips[i]
    {
    }
  }

  /** So is the first reward of every block. */
  lemma FirstRewardIsWeighted(tips: seq<nat>, gas: seq<nat>, thresholds: seq<nat>)
    requires tips != [] && gas != [] && thresholds != []
    ensures IsWeightedTip(tips, gas, thresholds[0], Rewards(SortByTip(Zip(tips, gas)), thresholds)[0])
  {
    FirstRewardIsNaive(SortByTip(Zip(tips, gas)), thresholds);
    TextbookIsWeighted(tips, gas, thresholds[0]);
  }
}
