/** The suggested tip: a rank of the recent tips, whatever order the reads finish in, behind a one-entry cache. */
module GasOracle {
  import opened Wrappers
  import opened Sorting

  const U64_MAX := 0xFFFF_FFFF_FFFF_FFFF

  /** The effective tips of a block's transactions; `None` when the fee cap is below the base fee. */
  datatype FeeBlock = FeeBlock(tips: seq<Option<nat>>)

  /** A failed cold-storage read. */
  datatype ReadError = ReadError(code: nat)

  datatype OracleConfig = OracleConfig(
    blockCount: nat, percentile: real, defaultPrice: Option<nat>, ignorePrice: Option<nat>, maxPrice: Option<nat>)

  // ---- The cache ----

  datatype Cache = Cache(block: nat, tip: nat)

  function Saturate(tip: nat): nat {
    if tip > U64_MAX then U64_MAX else tip
  }

  /** Before, between and after the two stores of `set`. */
  function SetTrace(c: Cache, block: nat, tip: nat): seq<Cache> {
    [c, c.(tip := Saturate(tip)), Cache(block, Saturate(tip))]
  }

  class GasOracleCache {
    var block: nat
    var tip: nat

    constructor ()
      ensures Abs() == Cache(U64_MAX, 0)
    {
      block, tip := U64_MAX, 0;
    }

    function Abs(): Cache
      reads this
    {
      Cache(block, tip)
    }

    method Get(currentBlock: nat) returns (cached: Option<nat>)
      ensures cached == if block == currentBlock then Some(tip) else None
    {
      return if block == currentBlock then Some(tip) else None;
    }

    method Set(newBlock: nat, newTip: nat) returns (ghost trace: seq<Cache>)
      modifies this
      ensures trace == SetTrace(old(Abs()), newBlock, newTip) && Abs() == trace[2]
    {
      trace := [Abs()];
      tip := Saturate(newTip);
      trace := trace + [Abs()];
      block := newBlock;
      trace := trace + [Abs()];
    }
  }

  /**
   * A reader that asks for block `asked` during a concurrent `set` for another block, and loads the block at moment
   * `i` and the tip at moment `j`: when it hits, and exactly when what it gets is that block's tip.
   */
  lemma ReadDuringSet(c: Cache, block: nat, tip: nat, asked: nat, i: nat, j: nat)
    requires i < 3 && j < 3 && block != c.block
    ensures SetTrace(c, block, tip)[i].block == asked <==> asked == (if i < 2 then c.block else block)
    ensures asked == c.block ==> (SetTrace(c, block, tip)[j].tip == c.tip <==> j == 0 || Saturate(tip) == c.tip)
    ensures asked == block ==> (SetTrace(c, block, tip)[j].tip == Saturate(tip) <==> j > 0 || Saturate(tip) == c.tip)
  {
  }

  /** Loading the block first, as `get` does, can go wrong only for the old block: the new one is published last. */
  lemma GetDuringSet(c: Cache, block: nat, tip: nat, i: nat, j: nat)
    requires i <= j < 3 && block != c.block
    ensures SetTrace(c, block, tip)[i].block == block ==> SetTrace(c, block, tip)[j].tip == Saturate(tip)
    ensures SetTrace(c, block, tip)[i].block == c.block ==>
              (SetTrace(c, block, tip)[j].tip != c.tip <==> j > 0 && Saturate(tip) != c.tip)
  {
  }

  // ---- Tips ----

  predicate Qualifies(config: OracleConfig, tip: Option<nat>) {
    tip.Some? && (config.ignorePrice.None? || tip.value >= config.ignorePrice.value)
  }

  function TipsOf(config: OracleConfig, tips: seq<Option<nat>>): seq<nat>
    decreases |tips|
  {
    if tips == [] then []
    else
      var n := |tips| - 1;
      TipsOf(config, tips[..n]) + (if Qualifies(config, tips[n]) then [tips[n].value] else [])
  }

  function AllTips(config: OracleConfig, blocks: seq<FeeBlock>): seq<nat>
    decreases |blocks|
  {
    if blocks == [] then [] else AllTips(config, blocks[..|blocks| - 1]) + TipsOf(config, blocks[|blocks| - 1].tips)
  }

  /** The blocks `start..=latest` whose header is stored. */
  function Stored(cold: seq<Option<FeeBlock>>, start: nat, latest: nat): seq<FeeBlock>
    requires start <= latest + 1
    decreases latest + 1 - start
  {
    if start > latest then []
    else (if start < |cold| && cold[start].Some? then [cold[start].value] else []) + Stored(cold, start + 1, latest)
  }

  function Window(cold: seq<Option<FeeBlock>>, config: OracleConfig, latest: nat): seq<FeeBlock>
    requires config.blockCount >= 1
  {
    Stored(cold, latest + 1 - Min(config.blockCount, latest + 1), latest)
  }

  // ---- Ranks ----

  function Value(tip: nat): nat {
    tip
  }

  function Sorted(tips: seq<nat>): (r: seq<nat>)
    ensures |r| == |tips|
  {
    Sort(Value, tips)
  }

  /** How many of the values satisfy a bound. */
  function CountBelow(s: seq<nat>, bound: nat): nat
    decreases |s|
  {
    if s == [] then 0 else CountBelow(s[..|s| - 1], bound) + (if s[|s| - 1] < bound then 1 else 0)
  }

  lemma {:induction false} CountInsert(s: seq<nat>, x: nat, bound: nat)
    ensures CountBelow(Insert(Value, s, x), bound) == CountBelow(s, bound) + (if x < bound then 1 else 0)
    decreases |s|
  {
    var r := Insert(Value, s, x);
    if s == [] || s[|s| - 1] <= x {
      assert r[..|s|] == s;
    } else {
      CountInsert(s[..|s| - 1], x, bound);
      assert r[..|s|] == Insert(Value, s[..|s| - 1], x);
    }
  }

  lemma {:induction false} CountSort(s: seq<nat>, bound: nat)
    ensures CountBelow(Sorted(s), bound) == CountBelow(s, bound)
    decreases |s|
  {
    if s != [] {
      CountSort(s[..|s| - 1], bound);
      CountInsert(Sorted(s[..|s| - 1]), s[|s| - 1], bound);
    }
  }

  /** In a sorted sequence the values below a bound are a prefix. */
  lemma {:induction false} CountSorted(s: seq<nat>, bound: nat, i: nat)
    requires SortedBy(Value, s) && i < |s|
    ensures s[i] < bound <==> i < CountBelow(s, bound)
    ensures CountBelow(s, bound) <= |s|
    decreases |s|
  {
    var n := |s| - 1;
    if i < n {
      CountSorted(s[..n], bound, i);
    } else if n > 0 {
      CountSorted(s[..n], bound, n - 1);
    }
  }

  function CountAtMost(s: seq<nat>, v: nat): nat {
    CountBelow(s, v + 1)
  }

  /** `v` has rank `index`: at most `index` of the values are below it, and more than `index` are not above it. */
  ghost predicate HasRank(s: seq<nat>, index: nat, v: nat) {
    v in s && CountBelow(s, v) <= index < CountAtMost(s, v)
  }

  lemma SortedHas(s: seq<nat>, index: nat)
    requires index < |s|
    ensures Sorted(s)[index] in s
  {
    SortSorts(Value, s);
    assert Sorted(s)[index] in multiset(Sorted(s));
  }

  lemma SortedCount(s: seq<nat>, index: nat, bound: nat)
    requires index < |s|
    ensures Sorted(s)[index] < bound <==> index < CountBelow(s, bound)
  {
    SortSorts(Value, s);
    CountSorted(Sorted(s), bound, index);
    CountSort(s, bound);
  }

  lemma SortedRank(s: seq<nat>, index: nat, v: nat)
    requires index < |s| && v == Sorted(s)[index]
    ensures HasRank(s, index, v)
  {
    SortedHas(s, index);
    SortedCount(s, index, v);
    SortedCount(s, index, v + 1);
  }

  lemma SameSize<T>(a: seq<T>, b: seq<T>)
    requires multiset(a) == multiset(b)
    ensures |a| == |b|
  {
    assert |a| == |multiset(a)| == |multiset(b)|;
  }

  lemma WithoutLast(s: seq<nat>)
    requires s != []
    ensures multiset(s[..|s| - 1]) == multiset(s) - multiset{s[|s| - 1]}
  {
    assert s == s[..|s| - 1] + [s[|s| - 1]];
  }

  lemma SameParts(a: seq<nat>, b: seq<nat>)
    requires |a| == |b| > 0 && a[..|a| - 1] == b[..|b| - 1] && a[|a| - 1] == b[|b| - 1]
    ensures a == b
  {
    assert a == a[..|a| - 1] + [a[|a| - 1]] && b == b[..|b| - 1] + [b[|b| - 1]];
  }

  lemma WithoutOne<T>(s: seq<T>, i: nat)
    requires i < |s|
    ensures multiset(s[..i] + s[i + 1..]) == multiset(s) - multiset{s[i]}
  {
    assert s == s[..i] + [s[i]] + s[i + 1..];
  }

  lemma LastIsLargest(a: seq<nat>, b: seq<nat>)
    requires SortedBy(Value, a) && SortedBy(Value, b) && multiset(a) == multiset(b) && |a| == |b| > 0
    ensures b[|b| - 1] <= a[|a| - 1]
  {
    assert b[|b| - 1] in multiset(a);
  }

  /** A multiset has one sorted arrangement. */
  lemma {:induction false} SortedIsUnique(a: seq<nat>, b: seq<nat>)
    requires SortedBy(Value, a) && SortedBy(Value, b) && multiset(a) == multiset(b)
    ensures a == b
    decreases |a|
  {
    SameSize(a, b);
    if a != [] {
      LastIsLargest(a, b);
      LastIsLargest(b, a);
      WithoutLast(a);
      WithoutLast(b);
      SortedIsUnique(a[..|a| - 1], b[..|b| - 1]);
      SameParts(a, b);
    }
  }

  // ---- The price ----

  /** The percentile as an index; negative percentiles saturate to the first, large ones are cut to the last. */
  function RankIndex(config: OracleConfig, n: nat): (index: nat)
    requires n > 0
    ensures index < n
  {
    var position := config.percentile / 100.0 * (n - 1) as real;
    Min(if position < 0.0 then 0 else position.Floor, n - 1)
  }

  function Price(config: OracleConfig, tips: seq<nat>): nat {
    if tips == [] then (if config.defaultPrice.None? then 0 else config.defaultPrice.value)
    else
      var price := Sorted(tips)[RankIndex(config, |tips|)];
      if config.maxPrice.None? then price else Min(price, config.maxPrice.value)
  }

  /**
   * A request against the cache: what is answered and what the cache holds afterwards. A failed read of headers or
   * transactions is reported and leaves the cache alone.
   */
  function Suggest(config: OracleConfig, read: Result<seq<FeeBlock>, ReadError>, c: Cache, latest: nat): (Result<nat, ReadError>, Cache) {
    if c.block == latest then (Ok(c.tip), c)
    else if read.Err? then (Err(read.error), c)
    else
      var price := Price(config, AllTips(config, read.value));
      (Ok(price), Cache(latest, Saturate(price)))
  }

  method CollectTips(joined: seq<FeeBlock>, config: OracleConfig) returns (allTips: seq<nat>)
    ensures allTips == AllTips(config, joined)
  {
    allTips := [];
    for i := 0 to |joined|
      invariant allTips == AllTips(config, joined[..i])
    {
      assert joined[..i + 1][..i] == joined[..i];
      var tips := joined[i].tips;
      ghost var before := allTips;
      for t := 0 to |tips|
        invariant allTips == before + TipsOf(config, tips[..t])
      {
        assert tips[..t + 1][..t] == tips[..t];
        if tips[t].Some? && (config.ignorePrice.None? || tips[t].value >= config.ignorePrice.value) {
          allTips := allTips + [tips[t].value];
        }
      }
      assert tips[..|tips|] == tips;
    }
    assert joined[..|joined|] == joined;
  }

  /** `joined` are the blocks of the window in the order their reads finished, or the first failure. */
  method SuggestTipCap(cold: seq<Option<FeeBlock>>, joined: Result<seq<FeeBlock>, ReadError>, latest: nat, config: OracleConfig,
                       cache: GasOracleCache)
    returns (result: Result<nat, ReadError>)
    requires config.blockCount >= 1 && (joined.Ok? ==> multiset(joined.value) == multiset(Window(cold, config, latest)))
    modifies cache
    ensures (result, cache.Abs()) ==
            Suggest(config, if joined.Err? then joined else Ok(Window(cold, config, latest)), old(cache.Abs()), latest)
  {
    var cached := cache.Get(latest);
    if cached.Some? {
      return Ok(cached.value);
    }
    if joined.Err? {
      return Err(joined.error);
    }
    var allTips := CollectTips(joined.value, config);
    PriceIgnoresOrder(config, joined.value, Window(cold, config, latest));
    if allTips == [] {
      var defaultPrice := if config.defaultPrice.None? then 0 else config.defaultPrice.value;
      var _ := cache.Set(latest, defaultPrice);
      return Ok(defaultPrice);
    }
    var sorted := Sorted(allTips);
    var price := sorted[RankIndex(config, |sorted|)];
    if config.maxPrice.Some? {
      price := Min(price, config.maxPrice.value);
    }
    var _ := cache.Set(latest, price);
    return Ok(price);
  }

  // ---- Independence of the completion order ----

  lemma {:induction false} AllTipsAppend(config: OracleConfig, a: seq<FeeBlock>, b: seq<FeeBlock>)
    ensures AllTips(config, a + b) == AllTips(config, a) + AllTips(config, b)
    decreases |b|
  {
    if b == [] {
      assert a + b == a;
    } else {
      AllTipsAppend(config, a, b[..|b| - 1]);
      assert (a + b)[..|a + b| - 1] == a + b[..|b| - 1];
    }
  }

  lemma AllTipsOfOne(config: OracleConfig, block: FeeBlock)
    ensures AllTips(config, [block]) == TipsOf(config, block.tips)
  {
    assert [block][..0] == [];
  }

  /** Taking one block out of the middle takes its tips out. */
  lemma AllTipsWithout(config: OracleConfig, s: seq<FeeBlock>, i: nat)
    requires i < |s|
    ensures multiset(AllTips(config, s)) == multiset(AllTips(config, s[..i] + s[i + 1..])) + multiset(TipsOf(config, s[i].tips))
  {
    assert s == s[..i] + [s[i]] + s[i + 1..];
    AllTipsAppend(config, s[..i] + [s[i]], s[i + 1..]);
    AllTipsAppend(config, s[..i], [s[i]]);
    AllTipsAppend(config, s[..i], s[i + 1..]);
    AllTipsOfOne(config, s[i]);
  }

  lemma {:induction false} AllTipsPermute(config: OracleConfig, a: seq<FeeBlock>, b: seq<FeeBlock>)
    requires multiset(a) == multiset(b)
    ensures multiset(AllTips(config, a)) == multiset(AllTips(config, b))
    decreases |a|
  {
    SameSize(a, b);
    if a != [] {
      var n := |a| - 1;
      var i := PositionOf(a, b, n);
      WithoutOne(a, n);
      WithoutOne(b, i);
      AllTipsPermute(config, a[..n] + a[n + 1..], b[..i] + b[i + 1..]);
      AllTipsWithout(config, a, n);
      AllTipsWithout(config, b, i);
    }
  }

  lemma PositionOf(a: seq<FeeBlock>, b: seq<FeeBlock>, n: nat) returns (i: nat)
    requires multiset(a) == multiset(b) && n < |a|
    ensures i < |b| && b[i] == a[n]
  {
    assert a[n] in multiset(b);
    i :| i < |b| && b[i] == a[n];
  }

  /** The price depends only on which blocks were read, not on the order in which the reads finished. */
  lemma PriceIgnoresOrder(config: OracleConfig, a: seq<FeeBlock>, b: seq<FeeBlock>)
    requires multiset(a) == multiset(b)
    ensures Price(config, AllTips(config, a)) == Price(config, AllTips(config, b))
  {
    var x, y := AllTips(config, a), AllTips(config, b);
    AllTipsPermute(config, a, b);
    assert |x| == |multiset(x)| == |multiset(y)| == |y|;
    SortSorts(Value, x);
    SortSorts(Value, y);
    SortedIsUnique(Sorted(x), Sorted(y));
  }

  /** The price is the required rank of the qualifying tips, capped. */
  lemma PriceIsRank(config: OracleConfig, tips: seq<nat>) returns (v: nat)
    requires tips != []
    ensures HasRank(tips, RankIndex(config, |tips|), v)
    ensures Price(config, tips) == if config.maxPrice.Some? && config.maxPrice.value < v then config.maxPrice.value else v
  {
    v := Sorted(tips)[RankIndex(config, |tips|)];
    SortedRank(tips, RankIndex(config, |tips|), v);
  }

  /** The rank is the percentile of the positions from 0 on, rounded down, and never outside. */
  lemma RankIndexIs(config: OracleConfig, n: nat)
    requires n > 0
    ensures var index := RankIndex(config, n);
            var scaled := config.percentile * (n - 1) as real;
            && (config.percentile <= 0.0 ==> index == 0)
            && (config.percentile >= 100.0 ==> index == n - 1)
            && (0.0 <= config.percentile <= 100.0 ==> 100.0 * index as real <= scaled < 100.0 * (index + 1) as real)
  {
    var p, m := config.percentile, (n - 1) as real;
    var position := p / 100.0 * m;
    assert 100.0 * position == p * m;
    if p <= 0.0 {
      assert p * m <= 0.0;
    } else if p >= 100.0 {
      assert p * m >= 100.0 * m;
    } else {
      assert 0.0 <= p * m <= 100.0 * m;
    }
  }

  // ---- Which blocks and which tips ----

  /** Block `n` is in the window: stored, and one of the last `blockCount` up to `latest`. */
  ghost predicate InWindow(cold: seq<Option<FeeBlock>>, blockCount: nat, latest: nat, n: nat) {
    n <= latest < n + blockCount && n < |cold| && cold[n].Some?
  }

  ghost predicate Numbered(cold: seq<Option<FeeBlock>>, blocks: seq<FeeBlock>, numbers: seq<nat>) {
    && |numbers| == |blocks| && (forall i, j :: 0 <= i < j < |numbers| ==> numbers[i] < numbers[j])
    && forall i :: 0 <= i < |numbers| ==> numbers[i] < |cold| && cold[numbers[i]] == Some(blocks[i])
  }

  lemma {:induction false} StoredIs(cold: seq<Option<FeeBlock>>, start: nat, latest: nat) returns (numbers: seq<nat>)
    requires start <= latest + 1
    ensures Numbered(cold, Stored(cold, start, latest), numbers)
    ensures forall n :: n in numbers <==> start <= n <= latest && n < |cold| && cold[n].Some?
    decreases latest + 1 - start
  {
    if start > latest {
      numbers := [];
    } else {
      hide Numbered;
      var rest := StoredIs(cold, start + 1, latest);
      if start < |cold| && cold[start].Some? {
        NumberedCons(cold, Stored(cold, start + 1, latest), start, rest);
        numbers := [start] + rest;
        forall n
          ensures n in numbers <==> n == start || n in rest
        {
        }
      } else {
        numbers := rest;
        assert [] + Stored(cold, start + 1, latest) == Stored(cold, start + 1, latest);
      }
    }
  }

  lemma NumberedCons(cold: seq<Option<FeeBlock>>, blocks: seq<FeeBlock>, first: nat, rest: seq<nat>)
    requires Numbered(cold, blocks, rest) && first < |cold| && cold[first].Some? && forall n :: n in rest ==> first < n
    ensures Numbered(cold, [cold[first].value] + blocks, [first] + rest)
  {
    assert forall i :: 0 <= i < |rest| ==> rest[i] in rest;
  }

  /** The blocks that are read are exactly those of the window, each once and in order. */
  lemma WindowIs(cold: seq<Option<FeeBlock>>, config: OracleConfig, latest: nat) returns (numbers: seq<nat>)
    requires config.blockCount >= 1
    ensures Numbered(cold, Window(cold, config, latest), numbers)
    ensures forall n :: n in numbers <==> InWindow(cold, config.blockCount, latest, n)
  {
    numbers := StoredIs(cold, latest + 1 - Min(config.blockCount, latest + 1), latest);
  }

  /** How many transactions of some blocks pay exactly this tip. */
  function Paying(blocks: seq<FeeBlock>, tip: nat): nat
    decreases |blocks|
  {
    if blocks == [] then 0 else Paying(blocks[..|blocks| - 1], tip) + multiset(blocks[|blocks| - 1].tips)[Some(tip)]
  }

  lemma {:induction false} TipsOfCount(config: OracleConfig, tips: seq<Option<nat>>, tip: nat)
    ensures multiset(TipsOf(config, tips))[tip] ==
            if config.ignorePrice.Some? && tip < config.ignorePrice.value then 0 else multiset(tips)[Some(tip)]
    decreases |tips|
  {
    if tips != [] {
      var n := |tips| - 1;
      TipsOfCount(config, tips[..n], tip);
      assert tips == tips[..n] + [tips[n]];
    }
  }

  /** Of each tip at or above the floor, the oracle counts every transaction that pays it; of others none. */
  lemma {:induction false} AllTipsCount(config: OracleConfig, blocks: seq<FeeBlock>, tip: nat)
    ensures multiset(AllTips(config, blocks))[tip] ==
            if config.ignorePrice.Some? && tip < config.ignorePrice.value then 0 else Paying(blocks, tip)
    decreases |blocks|
  {
    if blocks != [] {
      AllTipsCount(config, blocks[..|blocks| - 1], tip);
      TipsOfCount(config, blocks[|blocks| - 1].tips, tip);
    }
  }

  /**
   * A request: the cached tip for the cached block, the error of a failed read, the default when no tip qualifies, and
   * otherwise the rank of the qualifying tips cut at the maximum; what is answered is cached as far as it fits.
   */
  lemma SuggestDecides(config: OracleConfig, read: Result<seq<FeeBlock>, ReadError>, c: Cache, latest: nat) returns (v: nat)
    ensures var (answer, c1) := Suggest(config, read, c, latest);
            && (c.block == latest ==> answer == Ok(c.tip) && c1 == c)
            && (c.block != latest && read.Err? ==> answer == Err(read.error) && c1 == c)
            && (c.block != latest && read.Ok? ==>
                 var tips := AllTips(config, read.value);
                 && answer == Ok(v) && c1 == Cache(latest, if v <= U64_MAX then v else U64_MAX)
                 && (tips == [] ==> v == if config.defaultPrice.Some? then config.defaultPrice.value else 0)
                 && (tips != [] ==>
                      exists w :: HasRank(tips, RankIndex(config, |tips|), w)
                                  && v == if config.maxPrice.Some? && config.maxPrice.value < w then config.maxPrice.value else w))
  {
    v := 0;
    if c.block != latest && read.Ok? {
      var tips := AllTips(config, read.value);
      v := Price(config, tips);
      if tips != [] {
        var w := PriceIsRank(config, tips);
      }
    }
  }

  lemma {:induction false} CountGrows(s: seq<nat>, low: nat, high: nat)
    requires low <= high
    ensures CountBelow(s, low) <= CountBelow(s, high)
    decreases |s|
  {
    if s != [] {
      CountGrows(s[..|s| - 1], low, high);
    }
  }

  /** Only one value has a given rank. */
  lemma RankIsUnique(s: seq<nat>, index: nat, v: nat, w: nat)
    requires HasRank(s, index, v) && HasRank(s, index, w)
    ensures v == w
  {
    if v < w {
      CountGrows(s, v + 1, w);
    } else if w < v {
      CountGrows(s, w + 1, v);
    }
  }

  /** A hit on unchanged data answers what a recomputation would, exactly when the price fits in 64 bits. */
  lemma HitIsRecomputationIff(config: OracleConfig, blocks: seq<FeeBlock>, c: Cache, latest: nat)
    requires c.block != latest
    ensures var (first, c1) := Suggest(config, Ok(blocks), c, latest);
            var (second, c2) := Suggest(config, Ok(blocks), c1, latest);
            c2 == c1 && (second == first <==> first.value <= U64_MAX)
  {
  }
}
