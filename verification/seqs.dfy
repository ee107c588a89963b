/**
 * The array operations the front end builds its lists with: `find`,
 * `filter`, `map`, and `slice` from the start.
 */
module Seqs {
  import opened Wrappers

  /** `findIndex`: the position of the first element satisfying `p`, if any. */
  function FindIndex<T>(s: seq<T>, p: T -> bool): (r: Option<nat>)
    ensures r.Some? ==> r.value < |s| && p(s[r.value])
    ensures r.Some? ==> forall j :: 0 <= j < r.value ==> !p(s[j])
    ensures r.None? <==> forall j :: 0 <= j < |s| ==> !p(s[j])
  {
    if s == [] then None
    else if p(s[0]) then Some(0)
    else match FindIndex(s[1..], p)
      case None => None
      case Some(i) => Some(i + 1)
  }

  /** `find`: the first element satisfying `p`, or `None` (`undefined`). */
  function Find<T(!new)>(s: seq<T>, p: T -> bool): (r: Option<T>)
    ensures r.Some? ==> r.value in s && p(r.value)
    ensures r.None? <==> forall x :: x in s ==> !p(x)
    ensures r.Some? ==> exists i :: 0 <= i < |s| && s[i] == r.value && forall j :: 0 <= j < i ==> !p(s[j])
  {
    match FindIndex(s, p)
    case None => None
    case Some(i) => Some(s[i])
  }

  /** Every position moved one place on. */
  function Shifted(ix: seq<nat>): (r: seq<nat>)
    ensures |r| == |ix|
    ensures forall k :: 0 <= k < |ix| ==> r[k] == ix[k] + 1
  {
    seq(|ix|, k requires 0 <= k < |ix| => ix[k] + 1)
  }

  /** How many elements of `s` satisfy `p`. */
  function Count<T>(s: seq<T>, p: T -> bool): nat
    decreases |s|
  {
    if s == [] then 0 else (if p(s[0]) then 1 else 0) + Count(s[1..], p)
  }

  /**
   * `ix` lists the positions of `s` whose element satisfies `p`, each once
   * and in increasing order: increasing positions that all satisfy `p`, as
   * many as there are such elements.
   */
  predicate ArePositions<T>(ix: seq<nat>, s: seq<T>, p: T -> bool) {
    && |ix| == Count(s, p)
    && (forall k :: 0 <= k < |ix| ==> ix[k] < |s| && p(s[ix[k]]))
    && (forall k, l :: 0 <= k < l < |ix| ==> ix[k] < ix[l])
  }

  /** The positions of `s` whose element satisfies `p`, in increasing order. */
  function Positions<T>(s: seq<T>, p: T -> bool): (ix: seq<nat>)
    ensures ArePositions(ix, s, p)
    decreases |s|
  {
    if s == [] then []
    else
      PositionsStep(s, p);
      var shifted := Shifted(Positions(s[1..], p));
      if p(s[0]) then [0] + shifted else shifted
  }

  /** The positions of a non-empty `s`: maybe the first, then those of the tail moved one place on. */
  lemma PositionsStep<T>(s: seq<T>, p: T -> bool)
    requires s != []
    ensures ArePositions(if p(s[0]) then [0] + Shifted(Positions(s[1..], p)) else Shifted(Positions(s[1..], p)), s, p)
    decreases |s|, 0
  {
    var t := s[1..];
    var rest := Positions(t, p);
    var shifted := Shifted(rest);
    forall k | 0 <= k < |rest|
      ensures 0 < shifted[k] < |s| && p(s[shifted[k]])
    {
      assert t[rest[k]] == s[rest[k] + 1];
    }
    if p(s[0]) {
      var ix := [0] + shifted;
      forall k | 0 <= k < |ix|
        ensures ix[k] < |s| && p(s[ix[k]])
      {
        if k > 0 {
          assert ix[k] == shifted[k - 1];
        }
      }
    }
  }

  /**
   * `r` lists the elements of `s` that satisfy `p`, in their order in `s`
   * and with their multiplicity: its `k`-th element is the one at the
   * `k`-th position where `p` holds.
   */
  predicate KeptInOrder<T(==)>(r: seq<T>, s: seq<T>, p: T -> bool) {
    var ix := Positions(s, p);
    |r| == |ix| && forall k :: 0 <= k < |r| ==> r[k] == s[ix[k]]
  }

  /** `filter`: the elements satisfying `p`, in their original order. */
  function Filter<T(!new)>(s: seq<T>, p: T -> bool): (r: seq<T>)
    ensures |r| <= |s|
    ensures forall x :: x in r <==> x in s && p(x)
    ensures KeptInOrder(r, s, p)
    decreases |s|
  {
    if s == [] then []
    else
      var rest := Filter(s[1..], p);
      assert forall k :: 0 <= k < |rest| ==> rest[k] == s[Shifted(Positions(s[1..], p))[k]];
      if p(s[0]) then [s[0]] + rest else rest
  }

  /** Filtering works piecewise: the kept elements of `a + b` are those of `a`, then those of `b`. */
  lemma {:induction false} FilterConcat<T(!new)>(a: seq<T>, b: seq<T>, p: T -> bool)
    ensures Filter(a + b, p) == Filter(a, p) + Filter(b, p)
    decreases |a|
  {
    if a == [] {
      assert a + b == b;
    } else {
      assert (a + b)[1..] == a[1..] + b;
      FilterConcat(a[1..], b, p);
    }
  }

  /** Filtering keeps everything exactly when every element passes. */
  lemma {:induction false} FilterAll<T(!new)>(s: seq<T>, p: T -> bool)
    requires forall x :: x in s ==> p(x)
    ensures Filter(s, p) == s
    decreases |s|
  {
    if s != [] {
      assert s[0] in s;
      FilterAll(s[1..], p);
      assert Filter(s, p) == [s[0]] + s[1..];
    }
  }

  /** Filtering keeps nothing exactly when no element passes. */
  lemma {:induction false} FilterNone<T(!new)>(s: seq<T>, p: T -> bool)
    requires forall i :: 0 <= i < |s| ==> !p(s[i])
    ensures Filter(s, p) == []
    decreases |s|
  {
    if s != [] {
      FilterNone(s[1..], p);
    }
  }

  /** When exactly the first `n` elements pass, filtering keeps that prefix. */
  lemma {:induction false} FilterPrefix<T(!new)>(s: seq<T>, n: nat, p: T -> bool)
    requires n <= |s|
    requires forall i :: 0 <= i < n ==> p(s[i])
    requires forall i :: n <= i < |s| ==> !p(s[i])
    ensures Filter(s, p) == s[..n]
    decreases |s|
  {
    if n == 0 {
      FilterNone(s, p);
    } else {
      FilterPrefix(s[1..], n - 1, p);
      assert s[..n] == [s[0]] + s[1..][..n - 1];
    }
  }

  /** Filters that agree on every element keep the same elements. */
  lemma {:induction false} FilterSameOn<T(!new)>(s: seq<T>, p: T -> bool, q: T -> bool)
    requires forall x :: x in s ==> p(x) == q(x)
    ensures Filter(s, p) == Filter(s, q)
    decreases |s|
  {
    if s != [] {
      FilterSameOn(s[1..], p, q);
    }
  }

  /** Filtering twice by the same test is filtering once. */
  lemma FilterIdempotent<T(!new)>(s: seq<T>, p: T -> bool)
    ensures Filter(Filter(s, p), p) == Filter(s, p)
  {
    FilterAll(Filter(s, p), p);
  }

  /** `map`: `f` applied to every element, in order. */
  function Map<T, U>(s: seq<T>, f: T -> U): (r: seq<U>)
    ensures |r| == |s|
    ensures forall i :: 0 <= i < |s| ==> r[i] == f(s[i])
  {
    seq(|s|, i requires 0 <= i < |s| => f(s[i]))
  }

  function Min(a: int, b: int): int {
    if a <= b then a else b
  }

  /** `slice(0, n)`: the first `n` elements, or all of them when there are fewer. */
  function Take<T>(s: seq<T>, n: int): (r: seq<T>)
    ensures |r| == if n <= 0 then 0 else Min(n, |s|)
    ensures r <= s
  {
    if n <= 0 then [] else if n >= |s| then s else s[..n]
  }

  /** Cutting a three-part concatenation at the part boundaries gives the parts back. */
  lemma ConcatParts<T>(a: seq<T>, b: seq<T>, c: seq<T>)
    ensures (a + b + c)[|a|..] == b + c
    ensures (a + b + c)[..|a| + |b|] == a + b
    ensures (a + b + c)[|a| + |b|..] == c
  {
  }

  /** Mapping over three elements gives the three images, in order. */
  lemma MapOfThree<T, U>(a: T, b: T, c: T, f: T -> U)
    ensures Map([a, b, c], f) == [f(a), f(b), f(c)]
  {
    var r := Map([a, b, c], f);
    assert r[0] == f(a) && r[1] == f(b) && r[2] == f(c);
  }
}
