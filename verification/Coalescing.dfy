/**
 * `Latest` lets the follower skip headers. Skipping is harmless: handling a burst header by header, or only
 * its last header, leaves the consumer with the same chain.
 */
module Coalescing {
  import opened Host
  import opened HostProvider
  import opened Follower
  import opened FollowerRuns

  /** Handle headers one after the other, replaying what is emitted. */
  function HandleHeads(p: Provider, c: Config, s: State, chain: seq<Block>, hints: seq<Hint>): (State, seq<Block>)
    decreases |hints|
  {
    if hints == [] then (s, chain) else
    var (s1, o) := HandleNewHead(p, c, s, hints[0]);
    HandleHeads(p, c, s1, Consume(chain, o), hints[1..])
  }

  /** Every header's own walk reaches the view, and nothing fails. */
  ghost predicate Clean(p: Provider, c: Config, s: State, hints: seq<Hint>)
    decreases |hints|
  {
    hints != [] ==>
      var walk := WalkChain(p, s.view, c.capacity, s.calls, hints[0].hash).walk;
      var (s1, o) := HandleNewHead(p, c, s, hints[0]);
      && !walk.WalkFailed? && !walk.Exhausted? && !o.Failed?
      && Clean(p, c, s1, hints[1..])
  }

  /** Sound, and ready for headers. */
  ghost predicate Ready(p: Provider, c: Config, s: State, chain: seq<Block>) {
    Sound(p, c, s, chain) && s.view != [] && s.backfillFrom.None?
  }

  lemma CleanHead(p: Provider, c: Config, s: State, chain: seq<Block>, hint: Hint)
    requires Honest(p) && Ready(p, c, s, chain) && Clean(p, c, s, [hint])
    ensures var (s1, o) := HandleNewHead(p, c, s, hint);
            && Ready(p, c, s1, Consume(chain, o)) && Consume(chain, o)[0] == chain[0]
            && (if o.Emitted? then Last(Consume(chain, o)).hash == hint.hash
                else s1.view == s.view && Consume(chain, o) == chain && InView(s.view, hint.hash))
  {
    var top := HeadKeepsSound(p, c, s, chain, hint);
  }

  /** No header of the burst has a larger number than the last one. */
  ghost predicate NewestLast(tree: Tree, hints: seq<Hint>) {
    && hints != [] && Last(hints).hash in tree
    && forall i :: 0 <= i < |hints| ==> hints[i].hash in tree && tree[hints[i].hash].number <= tree[Last(hints).hash].number
  }

  /** The newest block the consumer has seen is no newer than `number`, or nothing changed since the view was `view`. */
  ghost predicate NoNewerThan(s: State, view: seq<BlockRef>, number: nat) {
    s.view == view || (s.view != [] && Last(s.view).number <= number)
  }

  /** A burst handled header by header ends at its last header, when that is the newest of them. */
  lemma {:induction false} BurstEndsAtLast(p: Provider, c: Config, s: State, chain: seq<Block>, hints: seq<Hint>, view: seq<BlockRef>)
    requires Honest(p) && Ready(p, c, s, chain) && NewestLast(p.tree, hints) && Clean(p, c, s, hints)
    requires !InView(view, Last(hints).hash) && NoNewerThan(s, view, p.tree[Last(hints).hash].number)
    ensures var (_, after) := HandleHeads(p, c, s, chain, hints);
            IsChain(p.tree, after) && after != [] && after[0] == chain[0] && Last(after).hash == Last(hints).hash
    decreases |hints|
  {
    var number := p.tree[Last(hints).hash].number;
    var (s1, o) := HandleNewHead(p, c, s, hints[0]);
    var chain1 := Consume(chain, o);
    CleanHead(p, c, s, chain, hints[0]);
    SoundView(p, c, s, chain);
    SoundView(p, c, s1, chain1);
    assert Last(chain1) == BlockAt(p.tree, Last(chain1).hash);
    if |hints| > 1 {
      assert Last(hints[1..]) == Last(hints);
      BurstEndsAtLast(p, c, s1, chain1, hints[1..], view);
    } else {
      assert HandleHeads(p, c, s, chain, hints) == (s1, chain1) by {
        assert hints[1..] == [];
      }
      if !o.Emitted? {
        ViewHashIsSearch(p, s.view, Last(hints).hash);
        ViewHashPosition(s.view, number);
      }
    }
  }

  /**
   * From the same state, whatever requests each alternative makes and however they are answered: handling the
   * whole burst, or only its last header, gives the consumer the same chain, the ancestry of that header.
   */
  lemma CoalescingIsHarmless(p: Provider, c: Config, s: State, chain: seq<Block>, hints: seq<Hint>, calls: nat)
    requires Honest(p) && Ready(p, c, s, chain) && NewestLast(p.tree, hints)
    requires Clean(p, c, s, hints) && Clean(p, c, s.(calls := calls), [Last(hints)])
    requires !InView(s.view, Last(hints).hash)
    ensures HandleHeads(p, c, s, chain, hints).1 == HandleHeads(p, c, s.(calls := calls), chain, [Last(hints)]).1
  {
    BurstEndsAtLast(p, c, s, chain, hints, s.view);
    BurstEndsAtLast(p, c, s.(calls := calls), chain, [Last(hints)], s.view);
    AncestryIsUnique(p.tree, HandleHeads(p, c, s, chain, hints).1,
                     HandleHeads(p, c, s.(calls := calls), chain, [Last(hints)]).1);
  }
}
