/** Host-chain blocks, the immutable block tree, notifications, and the consumer that replays them. */
module Host {
  import opened Wrappers

  /** A block hash; only equality of hashes is used. */
  type Hash = nat

  datatype Header = Header(number: nat, parent: Hash, timestamp: nat)

  /** A `(number, hash)` pair, the entry type of the notifier's chain view. */
  datatype BlockRef = BlockRef(number: nat, hash: Hash)

  datatype Block = Block(number: nat, hash: Hash, parent: Hash, timestamp: nat)

  /** Every host block of every fork, addressed by hash. It never changes: a hash fixes its block. */
  type Tree = map<Hash, Header>

  ghost predicate WellFormed(tree: Tree) {
    forall g, h :: g in tree && h in tree && tree[h].parent == g ==> tree[h].number == tree[g].number + 1
  }

  ghost predicate HasParent(tree: Tree, h: Hash)
    requires h in tree
  {
    tree[h].parent in tree
  }

  /** All blocks descend from one genesis block, and no ancestor is missing. */
  ghost predicate Rooted(tree: Tree) {
    && WellFormed(tree)
    && (forall h {:trigger HasParent(tree, h)} :: h in tree && tree[h].number > 0 ==> HasParent(tree, h))
    && (forall g, h :: g in tree && h in tree && tree[g].number == 0 && tree[h].number == 0 ==> g == h)
  }

  function BlockAt(tree: Tree, h: Hash): Block
    requires h in tree
  {
    Block(tree[h].number, h, tree[h].parent, tree[h].timestamp)
  }

  function RefAt(tree: Tree, h: Hash): BlockRef
    requires h in tree
  {
    BlockRef(tree[h].number, h)
  }

  ghost predicate InTree(tree: Tree, blocks: seq<Block>) {
    forall i :: 0 <= i < |blocks| ==> blocks[i].hash in tree && blocks[i] == BlockAt(tree, blocks[i].hash)
  }

  /** Consecutive numbers, each block naming the one before it as its parent. */
  ghost predicate Linked(blocks: seq<Block>) {
    forall i, j :: 0 <= i < j < |blocks| && j <= i + 1 ==> Follows(blocks[i], blocks[j])
  }

  ghost predicate Follows(parent: Block, child: Block) {
    child.number == parent.number + 1 && child.parent == parent.hash
  }

  ghost predicate IsChain(tree: Tree, blocks: seq<Block>) {
    InTree(tree, blocks) && Linked(blocks)
  }

  function Ref(b: Block): BlockRef {
    BlockRef(b.number, b.hash)
  }

  function Refs(blocks: seq<Block>): (r: seq<BlockRef>)
    ensures |r| == |blocks|
  {
    seq(|blocks|, i requires 0 <= i < |blocks| => Ref(blocks[i]))
  }

  function Last<T>(s: seq<T>): T
    requires s != []
  {
    s[|s| - 1]
  }

  // ---- Notifications ----

  /** A range of reverted host blocks; `RevertRange::new` panics on anything else. */
  datatype RevertRange = RevertRange(first: nat, tip: nat) {
    ghost predicate Valid() { 0 < first <= tip }
  }

  datatype Kind =
    | ChainCommitted(blocks: seq<Block>)
    | ChainReverted(range: RevertRange)
    | ChainReorged(range: RevertRange, blocks: seq<Block>)
  {
    function CommittedChain(): Option<seq<Block>> {
      if ChainReverted? then None else Some(blocks)
    }

    function Reverted(): Option<RevertRange> {
      if ChainCommitted? then None else Some(range)
    }
  }

  datatype Notification = Notification(kind: Kind, safe: Option<nat>, finalized: Option<nat>)

  // ---- The consumer ----

  /** Drop the blocks numbered `first` and above from the end of a chain. */
  function Truncate(chain: seq<Block>, first: nat): seq<Block> {
    if chain != [] && Last(chain).number >= first then Truncate(chain[..|chain| - 1], first) else chain
  }

  /** What a consumer holds after one more notification: truncate on revert, then append what is committed. */
  function Replay(chain: seq<Block>, kind: Kind): seq<Block> {
    match kind
    case ChainCommitted(blocks) => chain + blocks
    case ChainReverted(range) => Truncate(chain, range.first)
    case ChainReorged(range, blocks) => Truncate(chain, range.first) + blocks
  }

  // ---- Facts about chains ----

  lemma {:induction false} NumbersAreConsecutive(blocks: seq<Block>, i: nat)
    requires Linked(blocks) && i < |blocks|
    ensures blocks[i].number == blocks[0].number + i
  {
    if i > 0 {
      NumbersAreConsecutive(blocks, i - 1);
      assert Follows(blocks[i - 1], blocks[i]);
    }
  }

  lemma {:induction false} TruncateKeepsPrefix(chain: seq<Block>, keep: nat)
    requires Linked(chain) && 0 < keep <= |chain|
    ensures Truncate(chain, chain[keep - 1].number + 1) == chain[..keep]
    decreases |chain|
  {
    NumbersAreConsecutive(chain, keep - 1);
    NumbersAreConsecutive(chain, |chain| - 1);
    if keep == |chain| {
      assert chain[..keep] == chain;
    } else {
      var init := chain[..|chain| - 1];
      TruncateKeepsPrefix(init, keep);
      assert init[..keep] == chain[..keep];
    }
  }

  /** A hash determines its ancestry: two chains with the same tip hash and the same length are equal. */
  lemma {:induction false} SameTipSameChain(tree: Tree, a: seq<Block>, b: seq<Block>)
    requires IsChain(tree, a) && IsChain(tree, b) && |a| == |b| > 0
    requires Last(a).hash == Last(b).hash
    ensures a == b
    decreases |a|
  {
    var n := |a| - 1;
    assert a[n] == b[n];
    if n > 0 {
      assert Follows(a[n - 1], a[n]) && Follows(b[n - 1], b[n]);
      SameTipSameChain(tree, a[..n], b[..n]);
      assert a == a[..n] + [a[n]] && b == b[..n] + [b[n]];
    } else {
      assert a == [a[0]] && b == [b[0]];
    }
  }

  lemma AncestryIsUnique(tree: Tree, a: seq<Block>, b: seq<Block>)
    requires IsChain(tree, a) && IsChain(tree, b) && a != [] && b != []
    requires a[0].number == b[0].number && Last(a).hash == Last(b).hash
    ensures a == b
  {
    NumbersAreConsecutive(a, |a| - 1);
    NumbersAreConsecutive(b, |b| - 1);
    SameTipSameChain(tree, a, b);
  }

  lemma LinkedSuffix(blocks: seq<Block>, skip: nat)
    requires Linked(blocks) && skip <= |blocks|
    ensures Linked(blocks[skip..])
  {
    var rest := blocks[skip..];
    forall i, j | 0 <= i < j < |rest| && j <= i + 1
      ensures Follows(rest[i], rest[j])
    {
      assert Follows(blocks[skip + i], blocks[skip + j]);
    }
  }

  lemma LinkedAppend(a: seq<Block>, b: seq<Block>)
    requires Linked(a) && Linked(b) && a != [] && b != []
    ensures Linked(a + b) <==> Follows(Last(a), b[0])
  {
    var c := a + b;
    assert c[|a|] == b[0] && c[|a| - 1] == Last(a);
    forall i, j | 0 <= i < j < |c| && j <= i + 1 && j != |a|
      ensures Follows(c[i], c[j])
    {
      if i < |a| {
        assert c[i] == a[i] && c[j] == a[j];
      } else {
        assert c[i] == b[i - |a|] && c[j] == b[j - |a|];
      }
    }
  }
}
