/** Sequence utilities shared by the news filter and the table operations:
    order-preserving filtering, subsequences, and the distinct keys of a group-by. */
module Seqs {
  import opened Wrappers

  /** `a` can be obtained from `b` by deleting elements, keeping the order. */
  ghost predicate IsSubsequence<T>(a: seq<T>, b: seq<T>)
    decreases |b|
  {
    if a == [] then true
    else if b == [] then false
    else (a[0] == b[0] && IsSubsequence(a[1..], b[1..])) || IsSubsequence(a, b[1..])
  }

  /** No element occurs twice. */
  ghost predicate Distinct<T>(s: seq<T>) {
    forall i, j :: 0 <= i < j < |s| ==> s[i] != s[j]
  }

  /** The elements of `s` that satisfy `p`, in their original order
      (a Python list comprehension with an `if` clause, or a pandas boolean query). */
  function Filter<T(!new)>(s: seq<T>, p: T -> bool): (r: seq<T>)
    ensures |r| <= |s|
    ensures forall x :: x in r <==> x in s && p(x)
    ensures forall x :: multiset(r)[x] == if p(x) then multiset(s)[x] else 0
    ensures IsSubsequence(r, s)
  {
    if s == [] then []
    else
      var rest := Filter(s[1..], p);
      assert s == [s[0]] + s[1..];
      if p(s[0]) then
        assert rest == ([s[0]] + rest)[1..];
        [s[0]] + rest
      else rest
  }

  /** Filtering twice is filtering once by the conjunction. */
  lemma {:induction false} FilterFilter<T(!new)>(s: seq<T>, p: T -> bool, q: T -> bool, both: T -> bool)
    requires forall x :: both(x) == (p(x) && q(x))
    ensures Filter(Filter(s, p), q) == Filter(s, both)
    decreases |s|
  {
    if s != [] {
      FilterFilter(s[1..], p, q, both);
      var rest := Filter(s[1..], p);
      if p(s[0]) {
        assert Filter(s, p) == [s[0]] + rest;
        assert ([s[0]] + rest)[0] == s[0] && ([s[0]] + rest)[1..] == rest;
      }
    }
  }

  /** The predicate "the key of `x` is `k`", used to select one group of a group-by. */
  function HasKey<T, K(==)>(key: T -> Option<K>, k: K): T -> bool {
    x => key(x) == Some(k)
  }

  /** The predicate "`x` has a key and `sel` accepts it". */
  function KeyWhere<T, K>(key: T -> Option<K>, sel: K -> bool): T -> bool {
    x => key(x).Some? && sel(key(x).value)
  }

  /** The distinct keys of `s` in order of first appearance; elements whose key is
      missing are dropped, as pandas `groupby` drops rows whose key is NaN. */
  function Keys<T, K(==,!new)>(s: seq<T>, key: T -> Option<K>): (ks: seq<K>)
    ensures Distinct(ks)
    ensures forall k :: k in ks <==> exists i :: 0 <= i < |s| && key(s[i]) == Some(k)
    decreases |s|
  {
    if s == [] then []
    else
      var init := s[..|s| - 1];
      var ks := Keys(init, key);
      assert forall i :: 0 <= i < |init| ==> init[i] == s[i];
      match key(s[|s| - 1])
      case None => ks
      case Some(k) => if k in ks then ks else ks + [k]
  }
}
