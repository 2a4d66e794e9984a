/**
 * The JavaScript array primitives the application is written with:
 * `filter`, `map` and `find`. Each walks the array from left to right.
 * `Filter`, `Map` and `Count` recurse on the LAST element: the result for
 * `s + [x]` is the result for `s` extended by what `x` contributes.
 * `FindFirst` recurses on the first element, since `find` stops at the
 * first match.
 */
module Sequences {

  import opened Wrappers

  /** `a` is obtained from `b` by dropping elements, keeping the order of the rest. */
  predicate IsSubsequence<T(==)>(a: seq<T>, b: seq<T>)
    decreases |b|
  {
    if a == [] then true
    else if b == [] then false
    else (a[|a| - 1] == b[|b| - 1] && IsSubsequence(a[..|a| - 1], b[..|b| - 1]))
         || IsSubsequence(a, b[..|b| - 1])
  }

  /** The number of elements of `s` that satisfy `p`. */
  function Count<T>(s: seq<T>, p: T -> bool): (n: nat)
    ensures n <= |s|
  {
    if s == [] then 0
    else Count(s[..|s| - 1], p) + (if p(s[|s| - 1]) then 1 else 0)
  }

  /**
   * `s.filter(p)`: the elements of `s` that satisfy `p`, in their order, each
   * as often as it occurs.
   */
  function Filter<T>(s: seq<T>, p: T -> bool): (r: seq<T>)
    ensures forall i :: 0 <= i < |r| ==> r[i] in s && p(r[i])
    ensures forall i :: 0 <= i < |s| && p(s[i]) ==> s[i] in r
    ensures |r| == Count(s, p)
    ensures IsSubsequence(r, s)
  {
    if s == [] then []
    else
      var init := Filter(s[..|s| - 1], p);
      if p(s[|s| - 1]) then init + [s[|s| - 1]] else init
  }

  /** `s.map(f)`. */
  function Map<T, U>(s: seq<T>, f: T -> U): (r: seq<U>)
    ensures |r| == |s|
    ensures forall i :: 0 <= i < |s| ==> r[i] == f(s[i])
  {
    if s == [] then []
    else Map(s[..|s| - 1], f) + [f(s[|s| - 1])]
  }

  /**
   * `s.find(p)`, reported as the position of the element it returns: the
   * first element satisfying `p`, or None when there is none.
   */
  function FindFirst<T>(s: seq<T>, p: T -> bool): (r: Option<nat>)
    ensures r.None? <==> forall i :: 0 <= i < |s| ==> !p(s[i])
    ensures r.Some? ==> r.value < |s| && p(s[r.value])
    ensures r.Some? ==> forall j :: 0 <= j < r.value ==> !p(s[j])
  {
    if s == [] then None
    else if p(s[0]) then Some(0)
    else
      match FindFirst(s[1..], p)
      case None => None
      case Some(k) => Some(k + 1)
  }

  /** Two filters of the same list, by complementary predicates, share its elements out. */
  lemma {:induction false} CountComplement<T>(s: seq<T>, p: T -> bool, q: T -> bool)
    requires forall x :: q(x) == !p(x)
    ensures Count(s, p) + Count(s, q) == |s|
  {
    if s != [] {
      CountComplement(s[..|s| - 1], p, q);
    }
  }

  /** A subsequence made only of elements satisfying `p` is no longer than the filter. */
  lemma {:induction false} SubsequenceBound<T>(t: seq<T>, s: seq<T>, p: T -> bool)
    requires IsSubsequence(t, s)
    requires forall i :: 0 <= i < |t| ==> p(t[i])
    ensures |t| <= Count(s, p)
    decreases |s|
  {
    if t != [] {
      var s', t' := s[..|s| - 1], t[..|t| - 1];
      if t[|t| - 1] == s[|s| - 1] && IsSubsequence(t', s') {
        SubsequenceBound(t', s', p);
      } else {
        SubsequenceBound(t, s', p);
      }
    }
  }

  /**
   * The filter is the ONLY subsequence of `s` that keeps exactly the elements
   * satisfying `p`: an independent description of `Filter`.
   */
  lemma {:induction false} FilterUnique<T>(t: seq<T>, s: seq<T>, p: T -> bool)
    requires IsSubsequence(t, s)
    requires forall i :: 0 <= i < |t| ==> p(t[i])
    requires |t| == Count(s, p)
    ensures t == Filter(s, p)
    decreases |s|
  {
    if t == [] {
      assert |Filter(s, p)| == 0;
    } else {
      var s', t' := s[..|s| - 1], t[..|t| - 1];
      var x := s[|s| - 1];
      if t[|t| - 1] == x && IsSubsequence(t', s') {
        FilterUnique(t', s', p);
        assert t == t' + [x];
      } else {
        assert IsSubsequence(t, s');
        SubsequenceBound(t, s', p);
        FilterUnique(t, s', p);
      }
    }
  }

  /** Filtering a list whose elements all pass gives the list back. */
  lemma {:induction false} FilterKeepsAll<T>(s: seq<T>, p: T -> bool)
    requires forall i :: 0 <= i < |s| ==> p(s[i])
    ensures Filter(s, p) == s
  {
    if s != [] {
      FilterKeepsAll(s[..|s| - 1], p);
      assert s == s[..|s| - 1] + [s[|s| - 1]];
    }
  }

  /** Filtering twice by the same predicate is filtering once. */
  lemma FilterIdempotent<T>(s: seq<T>, p: T -> bool)
    ensures Filter(Filter(s, p), p) == Filter(s, p)
  {
    FilterKeepsAll(Filter(s, p), p);
  }

  /** An element appended at the end is kept or dropped on its own. */
  lemma FilterSnoc<T>(s: seq<T>, x: T, p: T -> bool)
    ensures Filter(s + [x], p) == if p(x) then Filter(s, p) + [x] else Filter(s, p)
  {
    assert (s + [x])[..|s|] == s;
  }
}
