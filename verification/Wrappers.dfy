/** Optional values, fallible results, small numbers, and the sequence operations of rings and fetch loops. */
module Wrappers {

  datatype Option<+T> = None | Some(value: T)

  datatype Result<+T, +E> = Ok(value: T) | Err(error: E)

  type Positive = n: nat | n >= 1 witness 1

  function Min(a: nat, b: nat): nat {
    if a < b then a else b
  }

  function Max(a: nat, b: nat): nat {
    if a < b then b else a
  }

  /** A loop's state: what was fetched so far, then what is `left`, make up the `whole` result; a failure is final. */
  ghost predicate Continues<T(!new), E(!new)>(whole: Result<seq<T>, E>, fetched: seq<T>, left: Result<seq<T>, E>) {
    match left
    case Err(e) => whole == Err(e)
    case Ok(rest) => whole.Ok? && whole.value == fetched + rest
  }

  /** The last `n` elements of `s`, or all of them: what a ring of capacity `n` keeps. */
  function LastN<T>(s: seq<T>, n: nat): seq<T> {
    if |s| <= n then s else s[|s| - n..]
  }

  /** Feeding a ring in two pieces keeps what feeding it everything at once keeps. */
  lemma LastNOfLastN<T>(a: seq<T>, b: seq<T>, n: nat)
    ensures LastN(LastN(a, n) + b, n) == LastN(a + b, n)
  {
  }

  function Reverse<T>(s: seq<T>): (r: seq<T>)
    ensures |r| == |s|
    ensures forall i :: 0 <= i < |s| ==> r[i] == s[|s| - 1 - i]
  {
    if s == [] then [] else Reverse(s[1..]) + [s[0]]
  }
}
