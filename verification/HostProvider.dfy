/**
 * The host RPC provider as an oracle. The environment chooses, call by call, whether a request is
 * served, and which canonical chain the node behind it holds: nothing relates two calls except that
 * a hash always names the same block.
 */
module HostProvider {
  import opened Wrappers
  import opened Host

  datatype Error =
    | Rpc
    | MissingBlockByHash(hash: Hash)
    | MissingBlock
    | BackfillContinuityBreak

  datatype Service = Served | Absent | Broken

  /**
   * `service(i)` says how the `i`-th request fares and `canonical(i)` is the canonical chain it is
   * answered from, as the hashes of blocks 0, 1, 2, ...; `safe` and `finalized` answer the tag requests.
   */
  datatype Provider = Provider(
    tree: Tree,
    service: nat -> Service,
    canonical: nat -> seq<Hash>,
    safe: nat -> Option<nat>,
    finalized: nat -> Option<nat>
  )

  /** A genesis-to-tip path of the tree. */
  ghost predicate IsCanonical(tree: Tree, hashes: seq<Hash>) {
    && hashes != []
    && (forall n :: 0 <= n < |hashes| ==> hashes[n] in tree && tree[hashes[n]].number == n)
    && (forall m, n :: 0 <= m < n < |hashes| && n <= m + 1 ==> tree[hashes[n]].parent == hashes[m])
  }

  /** What every provider satisfies: a well-formed tree and a real chain behind every answer. */
  ghost predicate Honest(p: Provider) {
    && WellFormed(p.tree)
    && (forall i {:trigger IsCanonical(p.tree, p.canonical(i))} :: IsCanonical(p.tree, p.canonical(i)))
  }

  function HeaderByHash(p: Provider, call: nat, h: Hash): Result<Header, Error> {
    match p.service(call)
    case Broken => Err(Rpc)
    case Absent => Err(MissingBlockByHash(h))
    case Served => if h in p.tree then Ok(p.tree[h]) else Err(MissingBlockByHash(h))
  }

  function BlockByHash(p: Provider, call: nat, h: Hash): Result<Block, Error> {
    match HeaderByHash(p, call, h)
    case Err(e) => Err(e)
    case Ok(header) => Ok(Block(header.number, h, header.parent, header.timestamp))
  }

  function TipNumber(p: Provider, call: nat): Result<nat, Error> {
    if p.service(call).Broken? || p.canonical(call) == [] then Err(Rpc) else Ok(|p.canonical(call)| - 1)
  }

  function LatestHash(p: Provider, call: nat): Result<Hash, Error> {
    match p.service(call)
    case Broken => Err(Rpc)
    case Absent => Err(MissingBlock)
    case Served => if p.canonical(call) == [] then Err(MissingBlock) else Ok(Last(p.canonical(call)))
  }

  function BlockByNumber(p: Provider, call: nat, number: nat): Result<Block, Error> {
    match p.service(call)
    case Broken => Err(Rpc)
    case Absent => Err(MissingBlock)
    case Served =>
      if number < |p.canonical(call)| && p.canonical(call)[number] in p.tree
      then Ok(BlockAt(p.tree, p.canonical(call)[number]))
      else Err(MissingBlock)
  }

  /** Fetch one block for each entry, in order; the first failure wins. */
  function FetchByHash(p: Provider, call: nat, refs: seq<BlockRef>): Result<seq<Block>, Error>
    decreases |refs|
  {
    if refs == [] then Ok([]) else
    match BlockByHash(p, call, refs[0].hash)
    case Err(e) => Err(e)
    case Ok(b) =>
      match FetchByHash(p, call + 1, refs[1..])
      case Err(e) => Err(e)
      case Ok(rest) => Ok([b] + rest)
  }

  /** Fetch blocks `from..=upTo` by number, each with a request of its own. */
  function FetchRange(p: Provider, call: nat, from: nat, upTo: int): Result<seq<Block>, Error>
    decreases upTo - from
  {
    if from > upTo then Ok([]) else
    match BlockByNumber(p, call, from)
    case Err(e) => Err(e)
    case Ok(b) =>
      match FetchRange(p, call + 1, from + 1, upTo)
      case Err(e) => Err(e)
      case Ok(rest) => Ok([b] + rest)
  }

  // ---- By-hash fetches cannot be confused by reorgs ----

  /** The blocks a list of `(number, hash)` pairs stands for. */
  ghost predicate RefsIn(tree: Tree, refs: seq<BlockRef>) {
    forall i :: 0 <= i < |refs| ==> refs[i].hash in tree && tree[refs[i].hash].number == refs[i].number
  }

  function BlocksAt(tree: Tree, refs: seq<BlockRef>): (r: seq<Block>)
    requires forall i :: 0 <= i < |refs| ==> refs[i].hash in tree
    ensures |r| == |refs|
  {
    seq(|refs|, i requires 0 <= i < |refs| => BlockAt(tree, refs[i].hash))
  }

  ghost predicate RefsLinked(tree: Tree, refs: seq<BlockRef>)
    requires RefsIn(tree, refs)
  {
    forall i, j :: 0 <= i < j < |refs| && j <= i + 1 ==> tree[refs[j].hash].parent == refs[i].hash
  }

  lemma RefsToChain(tree: Tree, refs: seq<BlockRef>)
    requires WellFormed(tree) && RefsIn(tree, refs) && RefsLinked(tree, refs)
    ensures IsChain(tree, BlocksAt(tree, refs)) && Refs(BlocksAt(tree, refs)) == refs
  {
    var blocks := BlocksAt(tree, refs);
    forall i, j | 0 <= i < j < |blocks| && j <= i + 1
      ensures Follows(blocks[i], blocks[j])
    {
      assert tree[refs[j].hash].parent == refs[i].hash;
    }
  }

  /** Whatever the schedule does between requests, a successful by-hash fetch returns the named blocks. */
  lemma {:induction false} FetchByHashIsFixed(p: Provider, call: nat, refs: seq<BlockRef>)
    requires RefsIn(p.tree, refs) && FetchByHash(p, call, refs).Ok?
    ensures FetchByHash(p, call, refs).value == BlocksAt(p.tree, refs)
    decreases |refs|
  {
    if refs != [] {
      FetchByHashIsFixed(p, call + 1, refs[1..]);
      assert BlocksAt(p.tree, refs) == [BlockAt(p.tree, refs[0].hash)] + BlocksAt(p.tree, refs[1..]);
    }
  }

  // ---- By-number fetches can be ----

  /** What the provider answers at `call` about block `number`, when it does answer. */
  ghost predicate Answers(p: Provider, call: nat, number: nat, b: Block) {
    && number < |p.canonical(call)|
    && p.canonical(call)[number] in p.tree
    && b == BlockAt(p.tree, p.canonical(call)[number])
  }

  /** The chains seen by requests `k` and `k + 1` of a range agree on block `from + k`. */
  ghost predicate SeamAgrees(p: Provider, call: nat, from: nat, k: nat) {
    from + k < |p.canonical(call + k)| && from + k < |p.canonical(call + (k + 1))| ==>
      p.canonical(call + (k + 1))[from + k] == p.canonical(call + k)[from + k]
  }

  /** Neighbouring requests of one range agree on the lower of the two blocks they fetch. */
  ghost predicate SeamsAgree(p: Provider, call: nat, from: nat, upTo: nat) {
    forall k: nat :: k < upTo - from ==> SeamAgrees(p, call, from, k)
  }

  lemma {:induction false} FetchRangeAnswers(p: Provider, call: nat, from: nat, upTo: int)
    requires FetchRange(p, call, from, upTo).Ok? && from <= upTo + 1
    ensures |FetchRange(p, call, from, upTo).value| == upTo + 1 - from
    ensures forall k: nat :: k < upTo + 1 - from ==>
              Answers(p, call + k, from + k, FetchRange(p, call, from, upTo).value[k])
    decreases upTo + 1 - from
  {
    if from <= upTo {
      FetchRangeAnswers(p, call + 1, from + 1, upTo);
      var blocks := FetchRange(p, call, from, upTo).value;
      var rest := FetchRange(p, call + 1, from + 1, upTo).value;
      forall k: nat | k < upTo + 1 - from
        ensures Answers(p, call + k, from + k, blocks[k])
      {
        if k > 0 {
          assert Answers(p, call + 1 + (k - 1), from + 1 + (k - 1), rest[k - 1]);
        }
      }
    }
  }

  /** A by-number batch is hash-linked exactly when the chains behind neighbouring requests agree at the seam. */
  lemma BatchLinkedIffSeamsAgree(p: Provider, call: nat, from: nat, upTo: nat)
    requires Honest(p) && from <= upTo && FetchRange(p, call, from, upTo).Ok?
    ensures var blocks := FetchRange(p, call, from, upTo).value;
            && |blocks| == upTo + 1 - from
            && InTree(p.tree, blocks)
            && (forall k :: 0 <= k < |blocks| ==> blocks[k].number == from + k)
            && (Linked(blocks) <==> SeamsAgree(p, call, from, upTo))
  {
    FetchRangeAnswers(p, call, from, upTo);
    var blocks := FetchRange(p, call, from, upTo).value;
    forall k: nat | k < |blocks|
      ensures blocks[k].number == from + k && blocks[k].hash in p.tree && blocks[k] == BlockAt(p.tree, blocks[k].hash)
    {
      assert Answers(p, call + k, from + k, blocks[k]) && IsCanonical(p.tree, p.canonical(call + k));
    }
    forall k: nat | k < upTo - from
      ensures SeamAgrees(p, call, from, k) <==> blocks[k + 1].parent == blocks[k].hash
    {
      assert Answers(p, call + k, from + k, blocks[k]);
      assert Answers(p, call + (k + 1), from + (k + 1), blocks[k + 1]);
      assert IsCanonical(p.tree, p.canonical(call + (k + 1)));
    }
    if Linked(blocks) {
      forall k: nat | k < upTo - from
        ensures SeamAgrees(p, call, from, k)
      {
        assert Follows(blocks[k], blocks[k + 1]);
      }
    }
    if SeamsAgree(p, call, from, upTo) {
      forall i, j | 0 <= i < j < |blocks| && j <= i + 1
        ensures Follows(blocks[i], blocks[j])
      {
        assert SeamAgrees(p, call, from, i) && j == i + 1;
      }
    }
  }
}
