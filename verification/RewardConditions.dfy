/** Exactly when the one-pass rewards are the textbook percentiles, as conditions on the block and the thresholds. */
module RewardConditions {
  import opened Wrappers
  import opened Sorting
  import opened RewardPercentiles

  function GasAt(s: seq<Fee>, i: nat): nat {
    if i < |s| then s[i].gas else 0
  }

  // ---- Positions ----

  /** The gas of the textbook transactions of some thresholds. */
  ghost function NaiveGas(s: seq<Fee>, thresholds: seq<nat>): nat
    decreases |thresholds|
  {
    if thresholds == [] then 0
    else
      var n := |thresholds| - 1;
      NaiveGas(s, thresholds[..n]) + GasAt(s, NaiveIndex(s, thresholds[n]))
  }

  ghost function PreviousNaive(s: seq<Fee>, thresholds: seq<nat>): nat {
    if thresholds == [] then 0 else NaiveIndex(s, thresholds[|thresholds| - 1])
  }

  /** In textbook terms: the `k`-th transaction is the previous one, or recounting the earlier ones does not reach it early. */
  ghost predicate Undisturbed(s: seq<Fee>, thresholds: seq<nat>, k: nat)
    requires k < |thresholds|
  {
    var naive := NaiveIndex(s, thresholds[k]);
    naive == PreviousNaive(s, thresholds[..k]) || GasBefore(s, naive) + NaiveGas(s, thresholds[..k]) < thresholds[k]
  }

  ghost predicate StopsAtNaive(s: seq<Fee>, thresholds: seq<nat>, k: nat)
    requires k < |thresholds|
  {
    WalkAll(s, thresholds[..k + 1]).index == NaiveIndex(s, thresholds[k])
  }

  ghost predicate AllUndisturbed(s: seq<Fee>, thresholds: seq<nat>, m: nat)
    requires m <= |thresholds|
  {
    forall k :: 0 <= k < m ==> Undisturbed(s, thresholds, k)
  }

  ghost predicate AllStopAtNaive(s: seq<Fee>, thresholds: seq<nat>, m: nat)
    requires m <= |thresholds|
  {
    forall k :: 0 <= k < m ==> StopsAtNaive(s, thresholds, k)
  }

  lemma PrefixNondecreasing(thresholds: seq<nat>, k: nat)
    requires Nondecreasing(thresholds) && k <= |thresholds|
    ensures Nondecreasing(thresholds[..k])
  {
  }

  lemma PrefixStep(thresholds: seq<nat>, k: nat)
    requires k < |thresholds|
    ensures var p := thresholds[..k + 1]; |p| - 1 == k && p[..k] == thresholds[..k] && p[k] == thresholds[k]
  {
  }

  /** While the walk stops where the textbook does, it recounts the textbook transactions. */
  lemma {:induction false} RecountsNaive(s: seq<Fee>, thresholds: seq<nat>, m: nat)
    requires m <= |thresholds| && AllStopAtNaive(s, thresholds, m)
    ensures Recounted(s, thresholds[..m]) == NaiveGas(s, thresholds[..m])
    ensures WalkAll(s, thresholds[..m]).index == PreviousNaive(s, thresholds[..m])
    decreases m
  {
    if m > 0 {
      RecountsNaive(s, thresholds, m - 1);
      PrefixStep(thresholds, m - 1);
      assert StopsAtNaive(s, thresholds, m - 1);
    }
  }

  /** The walk stops at every textbook transaction exactly when none of them is disturbed. */
  lemma {:induction false} PositionsAreNaiveIff(s: seq<Fee>, thresholds: seq<nat>, m: nat)
    requires Nondecreasing(thresholds) && m <= |thresholds|
    ensures AllStopAtNaive(s, thresholds, m) <==> AllUndisturbed(s, thresholds, m)
    decreases m
  {
    if m > 0 {
      var k := m - 1;
      PositionsAreNaiveIff(s, thresholds, k);
      if AllStopAtNaive(s, thresholds, k) {
        RecountsNaive(s, thresholds, k);
        PrefixNondecreasing(thresholds, m);
        PrefixStep(thresholds, k);
        WalkIsNaiveIff(s, thresholds[..m]);
        assert StopsAtNaive(s, thresholds, k) <==> Undisturbed(s, thresholds, k);
      }
    }
  }

  // ---- The walk without a loop ----

  /** Where the last of some thresholds leads: the textbook search for it, lowered by what was counted twice before. */
  ghost function Stop(s: seq<Fee>, thresholds: seq<nat>): nat
    decreases |thresholds|, 0
  {
    if thresholds == [] then 0
    else
      var n := |thresholds| - 1;
      Max(Stop(s, thresholds[..n]), NaiveIndex(s, thresholds[n] - Extra(s, thresholds[..n])))
  }

  ghost function Extra(s: seq<Fee>, thresholds: seq<nat>): nat
    decreases |thresholds|, 1
  {
    if thresholds == [] then 0 else Extra(s, thresholds[..|thresholds| - 1]) + GasAt(s, Stop(s, thresholds))
  }

  lemma {:induction false} WalkIsStop(s: seq<Fee>, thresholds: seq<nat>)
    ensures WalkAll(s, thresholds).index == Stop(s, thresholds) && Recounted(s, thresholds) == Extra(s, thresholds)
    decreases |thresholds|
  {
    if thresholds != [] {
      var n := |thresholds| - 1;
      WalkIsStop(s, thresholds[..n]);
      WalkRecounts(s, thresholds[..n]);
      AdvanceIsShiftedNaive(s, thresholds[n], WalkAll(s, thresholds[..n]), Extra(s, thresholds[..n]));
    }
  }

  // ---- Rewards ----

  /** The first transaction with the tip of position `i`. */
  function GroupStart(s: seq<Fee>, i: nat): (g: nat)
    requires s != []
    ensures g <= i && g < |s|
    decreases i
  {
    if i >= |s| then GroupStart(s, |s| - 1)
    else if i > 0 && s[i - 1].tip == s[i].tip then GroupStart(s, i - 1)
    else i
  }

  /** A position at or before `i` has the same tip exactly when it is in the group. */
  lemma {:induction false} InGroupIff(s: seq<Fee>, j: nat, i: nat)
    requires s != [] && SortedBy(TipOf, s) && j <= i
    ensures TipAt(s, j) == TipAt(s, i) <==> j >= GroupStart(s, i)
    decreases i
  {
    if i >= |s| {
      if j < |s| {
        InGroupIff(s, j, |s| - 1);
      }
    } else if i > 0 && j < i {
      if s[i - 1].tip == s[i].tip {
        InGroupIff(s, j, i - 1);
      } else {
        TipsGrow(s, j, i - 1);
        TipsGrow(s, i - 1, i);
      }
    }
  }

  /** A lowered search reaches a transaction exactly when the gas before it stays below the lowered threshold. */
  lemma SearchReachesIff(s: seq<Fee>, threshold: int, g: nat)
    requires 0 < g <= |s|
    ensures NaiveIndex(s, threshold) >= g <==> GasBefore(s, g) < threshold
  {
    var naive := NaiveIndex(s, threshold);
    if naive >= g {
      assert GasThrough(s, g - 1) < threshold;
    } else {
      GasGrows(s, naive + 1, g);
      assert GasThrough(s, naive) >= threshold;
    }
  }

  ghost function TextbookGroup(s: seq<Fee>, threshold: nat): nat
    requires s != []
  {
    GroupStart(s, NaiveIndex(s, threshold))
  }

  ghost predicate RewardIsTextbook(s: seq<Fee>, thresholds: seq<nat>, k: nat)
    requires s != [] && k < |thresholds|
  {
    Rewards(s, thresholds)[k] == TipAt(s, NaiveIndex(s, thresholds[k]))
  }

  /** One reward is the textbook tip exactly when the walk is in its group already, or recounting does not stop it before. */
  lemma RewardIsTextbookIff(s: seq<Fee>, thresholds: seq<nat>, k: nat)
    requires s != [] && SortedBy(TipOf, s) && Nondecreasing(thresholds) && k < |thresholds|
    ensures var g := TextbookGroup(s, thresholds[k]);
            RewardIsTextbook(s, thresholds, k) <==>
            Stop(s, thresholds[..k]) >= g || GasBefore(s, g) + Extra(s, thresholds[..k]) < thresholds[k]
  {
    var naive := NaiveIndex(s, thresholds[k]);
    var g := TextbookGroup(s, thresholds[k]);
    RewardAt(s, thresholds, k);
    PrefixNondecreasing(thresholds, k + 1);
    PrefixStep(thresholds, k);
    WalkIsAtMostNaive(s, thresholds[..k + 1]);
    WalkIsStop(s, thresholds[..k + 1]);
    InGroupIff(s, Stop(s, thresholds[..k + 1]), naive);
    if g > 0 {
      SearchReachesIff(s, thresholds[k] - Extra(s, thresholds[..k]), g);
    }
  }

  /** The group before: that of the previous threshold, or the first transaction. */
  ghost function PreviousGroup(s: seq<Fee>, thresholds: seq<nat>): nat
    requires s != []
  {
    if thresholds == [] then 0 else TextbookGroup(s, thresholds[|thresholds| - 1])
  }

  /** In terms of the block and the thresholds: the same group as before, or the gas before it plus `recounted` stays below. */
  ghost predicate Reached(s: seq<Fee>, thresholds: seq<nat>, k: nat, recounted: nat)
    requires s != [] && k < |thresholds|
  {
    var g := TextbookGroup(s, thresholds[k]);
    g == PreviousGroup(s, thresholds[..k]) || GasBefore(s, g) + recounted < thresholds[k]
  }

  ghost predicate AllTextbook(s: seq<Fee>, thresholds: seq<nat>, m: nat)
    requires s != [] && m <= |thresholds|
  {
    forall k :: 0 <= k < m ==> RewardIsTextbook(s, thresholds, k)
  }

  ghost predicate AllReached(s: seq<Fee>, thresholds: seq<nat>, m: nat)
    requires s != [] && m <= |thresholds|
  {
    forall k :: 0 <= k < m ==> Reached(s, thresholds, k, Extra(s, thresholds[..k]))
  }

  lemma GroupsGrow(s: seq<Fee>, low: nat, high: nat)
    requires s != [] && SortedBy(TipOf, s) && low <= high
    ensures TextbookGroup(s, low) <= TextbookGroup(s, high)
    ensures TextbookGroup(s, low) == TextbookGroup(s, high) <==> TipAt(s, NaiveIndex(s, low)) == TipAt(s, NaiveIndex(s, high))
  {
    var i, j := NaiveIndex(s, low), NaiveIndex(s, high);
    NaiveGrows(s, low, high);
    InGroupIff(s, i, j);
    InGroupIff(s, GroupStart(s, i), i);
    InGroupIff(s, GroupStart(s, j), j);
    InGroupIff(s, GroupStart(s, i), j);
    if GroupStart(s, j) <= i {
      InGroupIff(s, GroupStart(s, j), i);
    }
  }

  /** While rewards are the textbook's, the walk is in the group of the previous threshold. */
  lemma WalkIsInPreviousGroup(s: seq<Fee>, thresholds: seq<nat>, k: nat)
    requires s != [] && SortedBy(TipOf, s) && Nondecreasing(thresholds) && k < |thresholds| && AllTextbook(s, thresholds, k)
    ensures var g := TextbookGroup(s, thresholds[k]);
            Stop(s, thresholds[..k]) >= g <==> g == PreviousGroup(s, thresholds[..k])
  {
    if k > 0 {
      var j := k - 1;
      PrefixStep(thresholds, j);
      PrefixNondecreasing(thresholds, k);
      RewardAt(s, thresholds, j);
      WalkIsStop(s, thresholds[..k]);
      WalkIsAtMostNaive(s, thresholds[..k]);
      assert RewardIsTextbook(s, thresholds, j);
      NaiveGrows(s, thresholds[j], thresholds[k]);
      InGroupIff(s, Stop(s, thresholds[..k]), NaiveIndex(s, thresholds[k]));
      GroupsGrow(s, thresholds[j], thresholds[k]);
    }
  }

  /** All rewards are textbook rewards exactly when every group is reached; for all blocks and percentiles. */
  lemma {:induction false} RewardsAreTextbookIff(s: seq<Fee>, thresholds: seq<nat>, m: nat)
    requires s != [] && SortedBy(TipOf, s) && Nondecreasing(thresholds) && m <= |thresholds|
    ensures AllTextbook(s, thresholds, m) <==> AllReached(s, thresholds, m)
    decreases m
  {
    hide SortedBy, RewardIsTextbook, TextbookGroup, Extra, Stop;
    if m > 0 {
      var k := m - 1;
      RewardsAreTextbookIff(s, thresholds, k);
      if AllTextbook(s, thresholds, k) {
        WalkIsInPreviousGroup(s, thresholds, k);
        RewardIsTextbookIff(s, thresholds, k);
        assert RewardIsTextbook(s, thresholds, k) <==> Reached(s, thresholds, k, Extra(s, thresholds[..k]));
      }
    }
  }

  // ---- Blocks whose equal tips use equal gas ----

  ghost predicate UniformGroups(s: seq<Fee>) {
    forall i, j :: 0 <= i < |s| && 0 <= j < |s| && s[i].tip == s[j].tip ==> s[i].gas == s[j].gas
  }

  /** The gas of the first transactions of the textbook groups. */
  ghost function GroupGas(s: seq<Fee>, thresholds: seq<nat>): nat
    requires s != []
    decreases |thresholds|
  {
    if thresholds == [] then 0
    else
      var n := |thresholds| - 1;
      GroupGas(s, thresholds[..n]) + GasAt(s, TextbookGroup(s, thresholds[n]))
  }

  ghost predicate AllGroupsReached(s: seq<Fee>, thresholds: seq<nat>, m: nat)
    requires s != [] && m <= |thresholds|
  {
    forall k :: 0 <= k < m ==> Reached(s, thresholds, k, GroupGas(s, thresholds[..k]))
  }

  /** Below the last group, the walk recounts what the first transactions of the groups use. */
  lemma {:induction false} RecountsGroups(s: seq<Fee>, thresholds: seq<nat>, k: nat, m: nat)
    requires s != [] && SortedBy(TipOf, s) && UniformGroups(s) && Nondecreasing(thresholds) && m <= k < |thresholds|
    requires AllTextbook(s, thresholds, k)
    requires k > 0 ==> TextbookGroup(s, thresholds[k]) != TextbookGroup(s, thresholds[k - 1])
    ensures Extra(s, thresholds[..m]) == GroupGas(s, thresholds[..m])
    decreases m
  {
    if m > 0 {
      var j := m - 1;
      RecountsGroups(s, thresholds, k, j);
      PrefixStep(thresholds, j);
      StopIsInGroup(s, thresholds, k, j);
    }
  }

  /** Before the last group is reached, the walk stops at transactions with the textbook tips. */
  lemma StopHasTip(s: seq<Fee>, thresholds: seq<nat>, k: nat, j: nat)
    requires s != [] && SortedBy(TipOf, s) && Nondecreasing(thresholds) && j < k < |thresholds|
    requires AllTextbook(s, thresholds, k) && TextbookGroup(s, thresholds[k]) != TextbookGroup(s, thresholds[k - 1])
    ensures var stop := Stop(s, thresholds[..j + 1]);
            stop < |s| && s[stop].tip == TipAt(s, NaiveIndex(s, thresholds[j]))
  {
    hide Reaches, GroupStart, SortedBy, Stop, WalkAll, Rewards, Recounted;
    PrefixStep(thresholds, j);
    PrefixNondecreasing(thresholds, j + 1);
    RewardAt(s, thresholds, j);
    WalkIsStop(s, thresholds[..j + 1]);
    assert RewardIsTextbook(s, thresholds, j);
    WalkIsAtMostNaive(s, thresholds[..j + 1]);
    NaiveGrows(s, thresholds[j], thresholds[k - 1]);
    NaiveGrows(s, thresholds[k - 1], thresholds[k]);
    NaiveIsInRange(s, thresholds[k]);
  }

  lemma NaiveIsInRange(s: seq<Fee>, threshold: nat)
    ensures NaiveIndex(s, threshold) <= |s|
  {
  }

  lemma StopIsInGroup(s: seq<Fee>, thresholds: seq<nat>, k: nat, j: nat)
    requires s != [] && SortedBy(TipOf, s) && UniformGroups(s) && Nondecreasing(thresholds) && j < k < |thresholds|
    requires AllTextbook(s, thresholds, k) && TextbookGroup(s, thresholds[k]) != TextbookGroup(s, thresholds[k - 1])
    ensures GasAt(s, Stop(s, thresholds[..j + 1])) == GasAt(s, TextbookGroup(s, thresholds[j]))
  {
    StopHasTip(s, thresholds, k, j);
    InGroupIff(s, TextbookGroup(s, thresholds[j]), NaiveIndex(s, thresholds[j]));
  }

  lemma UniformStep(s: seq<Fee>, thresholds: seq<nat>, k: nat)
    requires s != [] && SortedBy(TipOf, s) && UniformGroups(s) && Nondecreasing(thresholds) && k < |thresholds|
    requires AllTextbook(s, thresholds, k)
    ensures RewardIsTextbook(s, thresholds, k) <==> Reached(s, thresholds, k, GroupGas(s, thresholds[..k]))
  {
    hide RewardIsTextbook, TextbookGroup, Extra, Stop, GroupGas, UniformGroups, SortedBy;
    WalkIsInPreviousGroup(s, thresholds, k);
    RewardIsTextbookIff(s, thresholds, k);
    if TextbookGroup(s, thresholds[k]) != PreviousGroup(s, thresholds[..k]) {
      RecountsGroups(s, thresholds, k, k);
    }
  }

  /**
   * If equal tips use equal gas, all rewards are textbook rewards exactly when for every percentile the group is the
   * previous one, or the gas before it plus that of the earlier groups' transactions stays below the threshold.
   */
  lemma {:induction false} UniformRewardsAreTextbookIff(s: seq<Fee>, thresholds: seq<nat>, m: nat)
    requires s != [] && SortedBy(TipOf, s) && UniformGroups(s) && Nondecreasing(thresholds) && m <= |thresholds|
    ensures AllTextbook(s, thresholds, m) <==> AllGroupsReached(s, thresholds, m)
    decreases m
  {
    hide RewardIsTextbook, Reached, UniformGroups, SortedBy;
    if m > 0 {
      UniformRewardsAreTextbookIff(s, thresholds, m - 1);
      if AllTextbook(s, thresholds, m - 1) {
        UniformStep(s, thresholds, m - 1);
      }
    }
  }

  // ---- Arbitrary gas: bounds from both sides ----

  /** The most gas a transaction with this tip uses. */
  function LargestGas(s: seq<Fee>, tip: nat): nat
    decreases |s|
  {
    if s == [] then 0
    else
      var n := |s| - 1;
      Max(LargestGas(s[..n], tip), if s[n].tip == tip then s[n].gas else 0)
  }

  /** The least gas a transaction with this tip uses. */
  function SmallestGas(s: seq<Fee>, tip: nat): nat
    decreases |s|
  {
    if s == [] then 0
    else
      var n := |s| - 1;
      if s[n].tip != tip then SmallestGas(s[..n], tip)
      else if exists i :: 0 <= i < n && s[i].tip == tip then Min(SmallestGas(s[..n], tip), s[n].gas)
      else s[n].gas
  }

  lemma {:induction false} GasIsBetween(s: seq<Fee>, i: nat)
    requires i < |s|
    ensures SmallestGas(s, s[i].tip) <= s[i].gas <= LargestGas(s, s[i].tip)
    decreases |s|
  {
    var n := |s| - 1;
    if i < n {
      GasIsBetween(s[..n], i);
      assert s[..n][i] == s[i];
    }
  }

  /** For each threshold, the gas that `gasOf` gives for the textbook tip. */
  ghost function TipGas(gasOf: (seq<Fee>, nat) -> nat, s: seq<Fee>, thresholds: seq<nat>): nat
    requires s != []
    decreases |thresholds|
  {
    if thresholds == [] then 0
    else
      var n := |thresholds| - 1;
      TipGas(gasOf, s, thresholds[..n]) + gasOf(s, TipAt(s, NaiveIndex(s, thresholds[n])))
  }

  ghost predicate AllReachedWith(gasOf: (seq<Fee>, nat) -> nat, s: seq<Fee>, thresholds: seq<nat>, m: nat)
    requires s != [] && m <= |thresholds|
  {
    forall k :: 0 <= k < m ==> Reached(s, thresholds, k, TipGas(gasOf, s, thresholds[..k]))
  }

  /** What the walk recounts lies between the least and the most that transactions with the textbook tips use. */
  lemma {:induction false} RecountsBetween(s: seq<Fee>, thresholds: seq<nat>, k: nat, m: nat)
    requires s != [] && SortedBy(TipOf, s) && Nondecreasing(thresholds) && m <= k < |thresholds|
    requires AllTextbook(s, thresholds, k)
    requires k > 0 ==> TextbookGroup(s, thresholds[k]) != TextbookGroup(s, thresholds[k - 1])
    ensures TipGas(SmallestGas, s, thresholds[..m]) <= Extra(s, thresholds[..m]) <= TipGas(LargestGas, s, thresholds[..m])
    decreases m
  {
    hide SortedBy, TextbookGroup, AllTextbook, SmallestGas, LargestGas, Stop;
    if m > 0 {
      var j := m - 1;
      RecountsBetween(s, thresholds, k, j);
      PrefixStep(thresholds, j);
      StopHasTip(s, thresholds, k, j);
      GasIsBetween(s, Stop(s, thresholds[..m]));
    }
  }

  lemma StepBetween(s: seq<Fee>, thresholds: seq<nat>, k: nat)
    requires s != [] && SortedBy(TipOf, s) && Nondecreasing(thresholds) && k < |thresholds| && AllTextbook(s, thresholds, k)
    ensures Reached(s, thresholds, k, TipGas(LargestGas, s, thresholds[..k])) ==> RewardIsTextbook(s, thresholds, k)
    ensures RewardIsTextbook(s, thresholds, k) ==> Reached(s, thresholds, k, TipGas(SmallestGas, s, thresholds[..k]))
  {
    hide RewardIsTextbook, TextbookGroup, Extra, Stop, TipGas, SortedBy, AllTextbook;
    WalkIsInPreviousGroup(s, thresholds, k);
    RewardIsTextbookIff(s, thresholds, k);
    if TextbookGroup(s, thresholds[k]) != PreviousGroup(s, thresholds[..k]) {
      RecountsBetween(s, thresholds, k, k);
    }
  }

  /**
   * For any gas at all, in textbook terms: if recounting the largest gas of each earlier group reaches no group
   * early, all rewards are textbook rewards.
   */
  lemma {:induction false} LargestGasSuffices(s: seq<Fee>, thresholds: seq<nat>, m: nat)
    requires s != [] && SortedBy(TipOf, s) && Nondecreasing(thresholds) && m <= |thresholds|
    requires AllReachedWith(LargestGas, s, thresholds, m)
    ensures AllTextbook(s, thresholds, m)
    decreases m
  {
    hide RewardIsTextbook, Reached, SortedBy, TipGas;
    if m > 0 {
      LargestGasSuffices(s, thresholds, m - 1);
      StepBetween(s, thresholds, m - 1);
    }
  }

  /** And if all rewards are textbook rewards, recounting the smallest gas of each earlier group reaches none early. */
  lemma {:induction false} SmallestGasIsNeeded(s: seq<Fee>, thresholds: seq<nat>, m: nat)
    requires s != [] && SortedBy(TipOf, s) && Nondecreasing(thresholds) && m <= |thresholds|
    requires AllTextbook(s, thresholds, m)
    ensures AllReachedWith(SmallestGas, s, thresholds, m)
    decreases m
  {
    hide RewardIsTextbook, Reached, SortedBy, TipGas;
    if m > 0 {
      SmallestGasIsNeeded(s, thresholds, m - 1);
      StepBetween(s, thresholds, m - 1);
    }
  }

  // ---- Two blocks ----

  lemma NaiveIs(s: seq<Fee>, threshold: int, i: nat)
    requires Reaches(s, threshold, i)
    ensures NaiveIndex(s, threshold) == i
  {
  }

  /** Stopping early can be harmless: a position that is not the textbook's, with the textbook's tip. */
  lemma EarlyStopCanBeHarmless()
    ensures var s := [Fee(10, 5), Fee(10, 5)];
            !StopsAtNaive(s, [10, 20], 1) && RewardIsTextbook(s, [10, 20], 1)
  {
    var s := [Fee(10, 5), Fee(10, 5)];
    assert [10, 20][..1] == [10] && [10, 20][..2] == [10, 20] && [10][..0] == [];
    assert GasBefore(s, 1) == 10 && GasBefore(s, 2) == 20;
    NaiveIs(s, 20, 1);
    assert WalkAll(s, []) == Walked(0, 0) && WalkAll(s, [10]) == Walked(0, 10) && WalkAll(s, [10, 20]) == Walked(0, 20);
  }

  /**
   * Equal gas is needed: here the first transaction of the first group uses 100 gas and the one the walk stops at
   * uses 10, so the condition on first transactions says "too early" and the reward is right all the same.
   */
  lemma FirstTransactionsAreNotEnough()
    ensures var s := [Fee(100, 5), Fee(10, 5), Fee(10, 9)];
            RewardIsTextbook(s, [105, 125], 1) && !Reached(s, [105, 125], 1, GroupGas(s, [105, 125][..1]))
  {
    var s := [Fee(100, 5), Fee(10, 5), Fee(10, 9)];
    assert [105, 125][..1] == [105] && [105][..0] == [];
    assert GasBefore(s, 1) == 100 && GasBefore(s, 2) == 110 && GasBefore(s, 3) == 120;
    NaiveIs(s, 105, 1);
    NaiveIs(s, 125, 3);
    assert GroupStart(s, 1) == 0 && GroupStart(s, 2) == 2 && GroupStart(s, 3) == 2;
    assert GroupGas(s, []) == 0 && GroupGas(s, [105]) == 100;
    assert WalkAll(s, []) == Walked(0, 0) && WalkAll(s, [105]) == Walked(1, 110);
    assert Advance(s, 125, Walked(1, 110)) == Walked(2, 130);
    assert WalkAll(s, [105, 125]) == Walked(2, 130);
  }
}
