/**
 * Short runs of a correct provider: two after which the consumer's chain is not linked, so that the conditions on runs
 * are needed, and a good one that does not begin where it was asked to.
 */
module ChainBreaks {
  import opened Wrappers
  import opened Host
  import opened HostProvider
  import opened Follower
  import opened FollowerRuns

  /** Genesis 0, then block 1 on one branch, and blocks 2 and 3 on the other. */
  function ForkedTree(): Tree {
    map[0 := Header(0, 99, 0), 1 := Header(1, 0, 0), 2 := Header(1, 0, 0), 3 := Header(2, 2, 0)]
  }

  const ROOT: seq<Hash> := [0]
  const LEFT: seq<Hash> := [0, 1]
  const RIGHT: seq<Hash> := [0, 2]
  const LONG: seq<Hash> := [0, 2, 3]

  /** Serves every request; the node behind it is on another branch from request `first` on, up to request `last`. */
  function Switching(outside: seq<Hash>, inside: seq<Hash>, first: nat, last: nat): Provider {
    Provider(ForkedTree(), _ => Served, call => if first <= call < last then inside else outside, _ => None, _ => None)
  }

  lemma ForkedTreeIsWellFormed()
    ensures WellFormed(ForkedTree())
  {
  }

  lemma BranchesAreCanonical()
    ensures IsCanonical(ForkedTree(), ROOT) && IsCanonical(ForkedTree(), LEFT)
    ensures IsCanonical(ForkedTree(), RIGHT) && IsCanonical(ForkedTree(), LONG)
  {
  }

  lemma SwitchingIsHonest(outside: seq<Hash>, inside: seq<Hash>, first: nat, last: nat)
    requires outside in {ROOT, LEFT, RIGHT, LONG} && inside in {ROOT, LEFT, RIGHT, LONG}
    ensures Honest(Switching(outside, inside, first, last))
  {
    hide ForkedTree, IsCanonical, WellFormed;
    ForkedTreeIsWellFormed();
    BranchesAreCanonical();
  }

  const SMALL: Config := Config(1, 1, 0)

  // ---- The header that nobody checks ----

  function TwoHints(): seq<seq<Hint>> {
    [[Hint(2, 0)], [Hint(3, 0)]]
  }

  lemma OneBlockRange(p: Provider, call: nat, number: nat, b: Block)
    requires BlockByNumber(p, call, number) == Ok(b)
    ensures FetchRange(p, call, number, number) == Ok([b])
  {
    assert FetchRange(p, call + 1, number + 1, number) == Ok([]);
    assert [b] + [] == [b];
  }

  /** Block 1 is delivered by backfill. Then the node switches branches, which nothing reports. */
  lemma BackfillDeliversLeft(p: Provider)
    requires p == Switching(RIGHT, LEFT, 0, 2)
    ensures NextNotification(p, SMALL, Initial(1, 1, TwoHints())) ==
            (State([BlockRef(1, 1)], None, 1, Some(BlockRef(1, 1)), TagCache(None, None, Some(0)), 4, TwoHints()),
             Emitted(Notification(ChainCommitted([Block(1, 1, 0, 0)]), None, None)))
  {
    var s := Initial(1, 1, TwoHints());
    OneBlockRange(p, 1, 1, Block(1, 1, 0, 0));
    assert [] + Refs([Block(1, 1, 0, 0)]) == [BlockRef(1, 1)];
    assert EpochOf(SMALL, 0) == 0;
    assert Turn(p, SMALL, s).1.Emitted?;
  }

  /** The header of block 2 leads the walk out of the view, which is cleared; backfill then finds nothing to do. */
  lemma WalkLeavesView(p: Provider, s: State)
    requires p == Switching(RIGHT, LEFT, 0, 2)
    requires s == State([BlockRef(1, 1)], None, 1, Some(BlockRef(1, 1)), TagCache(None, None, Some(0)), 4, TwoHints())
    ensures Turn(p, SMALL, s) ==
            (State([], Some(2), 1, Some(BlockRef(1, 1)), TagCache(None, None, None), 6, [[Hint(3, 0)]]), Silent)
  {
    assert WalkFrom(p, s.view, 1, 5, 0, [BlockRef(1, 2)]) == WalkStep(Exhausted, 6);
    assert WalkFrom(p, s.view, 1, 4, 2, []) == WalkStep(Exhausted, 6);
    assert TwoHints()[1..] == [[Hint(3, 0)]];
  }

  /** The header of block 3 is committed alone, although its parent, block 2, was never delivered. */
  lemma UncheckedHeader(p: Provider, s: State)
    requires p == Switching(RIGHT, LEFT, 0, 2)
    requires s == State([], Some(2), 1, Some(BlockRef(1, 1)), TagCache(None, None, None), 6, [[Hint(3, 0)]])
    ensures var o := Turn(p, SMALL, s).1;
            o.Emitted? && o.notification.kind == ChainCommitted([Block(2, 3, 2, 0)]) && UnanchoredTurn(p, SMALL, s)
  {
    assert TipNumber(p, 6) == Ok(1);
    assert WalkFrom(p, [], 1, 7, 3, []) == WalkStep(Advance([BlockRef(2, 3)] + []), 8);
    assert [BlockRef(2, 3)] + [] == [BlockRef(2, 3)];
    FetchByHashIsFixed(p, 8, [BlockRef(2, 3)]) by {
      assert [BlockRef(2, 3)][1..] == [];
      assert FetchByHash(p, 9, []) == Ok([]);
    }
    assert BlocksAt(p.tree, [BlockRef(2, 3)]) == [Block(2, 3, 2, 0)];
  }

  /** Two calls, no error, every request served: the consumer ends with block 3 on top of block 1. */
  lemma UncheckedHeaderBreaksChain()
    ensures var p := Switching(RIGHT, LEFT, 0, 2);
            var s := Initial(1, 1, TwoHints());
            Honest(p) && !Follow(p, SMALL, s, 2).2.Failed? && !Linked(Held(p, SMALL, s, [], 2)) && !GoodRun(p, SMALL, s, 2)
  {
    var p := Switching(RIGHT, LEFT, 0, 2);
    var s := Initial(1, 1, TwoHints());
    hide ForkedTree, Turn, GoodCall;
    SwitchingIsHonest(RIGHT, LEFT, 0, 2);
    BackfillDeliversLeft(p);
    var (s1, first) := NextNotification(p, SMALL, s);
    WalkLeavesView(p, s1);
    var (s2, _) := Turn(p, SMALL, s1);
    UncheckedHeader(p, s2);
    var second := Turn(p, SMALL, s2).1;
    assert NextNotification(p, SMALL, s1).1 == second;
    HeldUnfolds(p, SMALL, s, [], 2);
    HeldUnfolds(p, SMALL, s1, Consume([], first), 1);
    var held := Held(p, SMALL, s, [], 2);
    assert held == [Block(1, 1, 0, 0), Block(2, 3, 2, 0)];
    assert !Follows(held[0], held[1]);
    RunLinkedIff(p, SMALL, s, [], 2);
  }

  // ---- The batch fetched across a reorg ----

  /** One call, no error: the two requests of a batch see different branches, and the batch is not linked. */
  lemma BatchAcrossReorgIsNotLinked()
    ensures var p := Switching(LONG, LEFT, 1, 2);
            var s := Initial(1, 2, []);
            && Honest(p) && NextNotification(p, SMALL, s).1.Emitted? && !BatchSeamsAgree(p, SMALL, s)
            && !Linked(Consume([], NextNotification(p, SMALL, s).1))
  {
    var p := Switching(LONG, LEFT, 1, 2);
    var s := Initial(1, 2, []);
    var blocks := [Block(1, 1, 0, 0), Block(2, 3, 2, 0)];
    SwitchingIsHonest(LONG, LEFT, 1, 2);
    OneBlockRange(p, 2, 2, blocks[1]);
    assert BlockByNumber(p, 1, 1) == Ok(blocks[0]);
    assert [blocks[0]] + [blocks[1]] == blocks;
    assert FetchRange(p, 1, 1, 2) == Ok(blocks);
    assert Turn(p, SMALL, s).1.Emitted?;
    assert [] + blocks == blocks && !Follows(blocks[0], blocks[1]);
    TurnLinkedIff(p, SMALL, s, []);
  }

  // ---- The first block skipped ----

  /**
   * Asked to begin at block 1 while the provider's tip is block 0, a notifier whose first header is that of block 3
   * begins with that block, number 2. Nothing is broken by the run's own measure: it is good, and its chain linked.
   */
  lemma FirstBlockIsSkipped()
    ensures var p := Switching(ROOT, ROOT, 0, 0);
            var s := Initial(1, 1, [[Hint(3, 0)]]);
            && Honest(p) && GoodRun(p, SMALL, s, 1)
            && NextNotification(p, SMALL, s).1.Emitted?
            && NextNotification(p, SMALL, s).1.notification.kind == ChainCommitted([Block(2, 3, 2, 0)])
  {
    var p := Switching(ROOT, ROOT, 0, 0);
    var s := Initial(1, 1, [[Hint(3, 0)]]);
    SwitchingIsHonest(ROOT, ROOT, 0, 0);
    LoneHeaderFirst(p, s);
    hide Turn, ForkedTree;
    assert NextNotification(p, SMALL, s).1 == Turn(p, SMALL, s).1;
    CallLinkedIff(p, SMALL, s, []);
    assert [] + [Block(2, 3, 2, 0)] == [Block(2, 3, 2, 0)];
  }

  lemma LoneHeaderFirst(p: Provider, s: State)
    requires p == Switching(ROOT, ROOT, 0, 0) && s == Initial(1, 1, [[Hint(3, 0)]])
    ensures var o := Turn(p, SMALL, s).1; o.Emitted? && o.notification.kind == ChainCommitted([Block(2, 3, 2, 0)])
  {
    var s1 := s.(backfillFrom := None, calls := 1, bursts := []);
    assert TipNumber(p, 0) == Ok(0) && s.bursts[1..] == [];
    assert Turn(p, SMALL, s) == HandleNewHead(p, SMALL, s1, Hint(3, 0));
    hide HandleNewHead, Turn;
    LoneHeaderIsEmitted(p, s1);
    var top := UncheckedHead(p, SMALL, s1, Hint(3, 0));
    assert HeaderByHash(p, 1, 3) == Ok(Header(2, 2, 0));
  }

  lemma LoneHeaderIsEmitted(p: Provider, s: State)
    requires p == Switching(ROOT, ROOT, 0, 0) && s.view == []
    ensures HandleNewHead(p, SMALL, s, Hint(3, 0)).1.Emitted?
  {
    var call := s.calls;
    assert WalkFrom(p, [], 1, call, 3, []) == WalkStep(Advance([BlockRef(2, 3)] + []), call + 1);
    assert [BlockRef(2, 3)] + [] == [BlockRef(2, 3)] && [BlockRef(2, 3)][1..] == [];
    assert FetchByHash(p, call + 2, []) == Ok([]);
    assert FetchByHash(p, call + 1, [BlockRef(2, 3)]).Ok?;
  }
}
