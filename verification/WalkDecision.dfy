/** What the backward walk decides when every ancestor can be looked up: the highest common ancestor, by distance. */
module WalkDecision {
  import opened Wrappers
  import opened Host
  import opened HostProvider
  import opened Follower
  import opened FollowerRuns

  /** The ancestor of `h` that is `d` blocks below it. */
  function Ancestor(tree: Tree, h: Hash, d: nat): Hash
    requires Rooted(tree) && h in tree && d <= tree[h].number
    ensures Ancestor(tree, h, d) in tree && tree[Ancestor(tree, h, d)].number == tree[h].number - d
    decreases d
  {
    if d == 0 then h else
    var child := Ancestor(tree, h, d - 1);
    assert HasParent(tree, child);
    tree[child].parent
  }

  /** The `d` blocks from just above the ancestor up to `h`, oldest first. */
  function PathTo(tree: Tree, h: Hash, d: nat): (path: seq<BlockRef>)
    requires Rooted(tree) && h in tree && d <= tree[h].number + 1
    ensures |path| == d
    decreases d
  {
    if d == 0 then [] else [RefAt(tree, Ancestor(tree, h, d - 1))] + PathTo(tree, h, d - 1)
  }

  /** The distance from `h` down to its highest ancestor in the view, at least `k`: a search of the whole ancestry. */
  ghost function Distance(tree: Tree, view: seq<BlockRef>, h: Hash, k: nat): Option<nat>
    requires Rooted(tree) && h in tree && k <= tree[h].number
    decreases tree[h].number - k
  {
    if InView(view, Ancestor(tree, h, k)) then Some(k)
    else if k == tree[h].number then None
    else Distance(tree, view, h, k + 1)
  }

  ghost predicate NoneNearer(tree: Tree, view: seq<BlockRef>, h: Hash, k: nat, d: nat)
    requires Rooted(tree) && h in tree && k <= d <= tree[h].number
  {
    forall e: nat :: k <= e < d ==> !InView(view, Ancestor(tree, h, e))
  }

  lemma {:induction false} DistanceIsLeast(tree: Tree, view: seq<BlockRef>, h: Hash, k: nat, d: nat)
    requires Rooted(tree) && h in tree && k <= d <= tree[h].number
    ensures Distance(tree, view, h, k) == Some(d) <==>
            InView(view, Ancestor(tree, h, d)) && NoneNearer(tree, view, h, k, d)
    decreases d - k
  {
    hide InView, NoneNearer, Rooted;
    NearerUnfolds(tree, view, h, k, d);
    if k < d {
      DistanceIsLeast(tree, view, h, k + 1, d);
    } else if k < tree[h].number {
      DistanceAtLeast(tree, view, h, k + 1);
    }
  }

  lemma NearerUnfolds(tree: Tree, view: seq<BlockRef>, h: Hash, k: nat, d: nat)
    requires Rooted(tree) && h in tree && k <= d <= tree[h].number
    ensures NoneNearer(tree, view, h, k, d) <==>
            (k < d ==> !InView(view, Ancestor(tree, h, k)) && NoneNearer(tree, view, h, k + 1, d))
  {
    hide InView, Rooted;
  }

  /** Every request from number `call` on is served, from a tree that lacks no ancestor. */
  ghost predicate ServedFrom(p: Provider, call: nat) {
    Rooted(p.tree) && forall i: nat :: call <= i ==> p.service(i).Served?
  }

  /** The verdict at distance `d`. */
  function Verdict(tree: Tree, view: seq<BlockRef>, h: Hash, d: nat): Walk
    requires Rooted(tree) && h in tree && d <= tree[h].number && view != []
  {
    if d == 0 then AlreadySeen
    else if tree[h].number - d == Last(view).number then Advance(PathTo(tree, h, d))
    else Reorg(tree[h].number - d + 1, Last(view).number, PathTo(tree, h, d))
  }

  /** A view that reaches down to block 0 holds the one genesis block. */
  lemma GenesisInView(p: Provider, view: seq<BlockRef>, a: Hash)
    requires Rooted(p.tree) && ViewOk(p, view) && view != [] && a in p.tree
    ensures p.tree[a].number == 0 == view[0].number ==> InView(view, a)
  {
    if p.tree[a].number == 0 == view[0].number {
      assert view[0].hash == a;
    }
  }

  /** Below the front of the view there is nothing left to meet. */
  lemma {:induction false} NothingBelowFront(p: Provider, view: seq<BlockRef>, h: Hash, k: nat)
    requires Rooted(p.tree) && ViewOk(p, view) && view != [] && h in p.tree && k <= p.tree[h].number
    requires p.tree[h].number - k < view[0].number
    ensures Distance(p.tree, view, h, k) == None
    decreases p.tree[h].number - k
  {
    ViewHashIsSearch(p, view, Ancestor(p.tree, h, k));
    if k < p.tree[h].number {
      NothingBelowFront(p, view, h, k + 1);
    }
  }

  lemma {:induction false} DistanceAtLeast(tree: Tree, view: seq<BlockRef>, h: Hash, k: nat)
    requires Rooted(tree) && h in tree && k <= tree[h].number
    ensures Distance(tree, view, h, k).Some? ==> k <= Distance(tree, view, h, k).value <= tree[h].number
    decreases tree[h].number - k
  {
    if k < tree[h].number {
      DistanceAtLeast(tree, view, h, k + 1);
    }
  }

  ghost function Decision(tree: Tree, view: seq<BlockRef>, capacity: nat, h: Hash, distance: Option<nat>): Walk
    requires Rooted(tree) && h in tree && view != []
  {
    if distance.Some? && distance.value <= tree[h].number && distance.value <= capacity
    then Verdict(tree, view, h, distance.value) else Exhausted
  }

  lemma {:induction false} WalkFromDecides(p: Provider, view: seq<BlockRef>, capacity: nat, call: nat, h: Hash, k: nat)
    requires ServedFrom(p, call) && ViewOk(p, view) && view != [] && h in p.tree && k <= p.tree[h].number && k <= capacity
    ensures WalkFrom(p, view, capacity, call, Ancestor(p.tree, h, k), PathTo(p.tree, h, k)).walk
            == Decision(p.tree, view, capacity, h, Distance(p.tree, view, h, k))
    decreases capacity - k
  {
    hide InView, Contiguous, RefsIn, RefsLinked, Rooted;
    var a := Ancestor(p.tree, h, k);
    ViewHashIsSearch(p, view, a);
    DistanceAtLeast(p.tree, view, h, k);
    if !InView(view, a) {
      if p.tree[a].number < view[0].number {
        NothingBelowFront(p, view, h, k);
      } else {
        GenesisInView(p, view, a);
        DistanceAtLeast(p.tree, view, h, k + 1);
        assert Ancestor(p.tree, h, k + 1) == p.tree[a].parent;
        assert PathTo(p.tree, h, k + 1) == [BlockRef(p.tree[a].number, a)] + PathTo(p.tree, h, k);
        if k < capacity {
          WalkFromDecides(p, view, capacity, call + 1, h, k + 1);
        }
      }
    }
  }

  /**
   * The walk reports `AlreadySeen` exactly for hints in the view, `Advance` or `Reorg` exactly when the highest
   * common ancestor is in the view at distance 1..capacity, with the path from just above it, and `Exhausted`
   * in every other case.
   */
  lemma WalkDecides(p: Provider, view: seq<BlockRef>, capacity: nat, call: nat, h: Hash)
    requires ServedFrom(p, call) && ViewOk(p, view) && view != [] && h in p.tree
    ensures var walk, distance := WalkChain(p, view, capacity, call, h).walk, Distance(p.tree, view, h, 0);
            && walk == Decision(p.tree, view, capacity, h, distance)
            && !walk.WalkFailed?
            && (walk.AlreadySeen? <==> InView(view, h))
            && (walk.Advance? || walk.Reorg? <==> distance.Some? && 1 <= distance.value <= capacity)
            && (walk.Exhausted? <==> distance.None? || distance.value > capacity)
  {
    assert Ancestor(p.tree, h, 0) == h && PathTo(p.tree, h, 0) == [];
    DistanceAtLeast(p.tree, view, h, 0);
    DistanceIsLeast(p.tree, view, h, 0, 0);
    if Last(view).hash == h {
      assert InView(view, h);
    } else {
      WalkFromDecides(p, view, capacity, call, h, 0);
    }
  }

  /** A block that descends from the view's tip, at most `capacity` above it, always advances the chain. */
  lemma DescendantAdvances(p: Provider, view: seq<BlockRef>, capacity: nat, call: nat, h: Hash, d: nat)
    requires ServedFrom(p, call) && ViewOk(p, view) && view != [] && h in p.tree
    requires 1 <= d <= capacity && d <= p.tree[h].number && Ancestor(p.tree, h, d) == Last(view).hash
    ensures WalkChain(p, view, capacity, call, h).walk == Advance(PathTo(p.tree, h, d))
  {
    forall e: nat | e < d
      ensures !InView(view, Ancestor(p.tree, h, e))
    {
      ViewHashIsSearch(p, view, Ancestor(p.tree, h, e));
    }
    assert NoneNearer(p.tree, view, h, 0, d);
    DistanceIsLeast(p.tree, view, h, 0, d);
    WalkDecides(p, view, capacity, call, h);
  }
}
