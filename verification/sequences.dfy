/** Row-level primitives the dashboards get from the dataframe library:
    boolean-mask selection, and the size cap that `.sample` enforces. */
module Sequences {

  function Min(a: int, b: int): int {
    if a <= b then a else b
  }

  /** `a` is obtained from `b` by deleting elements; the survivors keep their order. */
  ghost predicate IsSubsequence<T>(a: seq<T>, b: seq<T>)
    decreases |b|
  {
    if |a| == 0 then true
    else if |b| == 0 then false
    else (a[|a| - 1] == b[|b| - 1] && IsSubsequence(a[..|a| - 1], b[..|b| - 1]))
         || IsSubsequence(a, b[..|b| - 1])
  }

  lemma {:induction false} SubsequenceReflexive<T>(a: seq<T>)
    ensures IsSubsequence(a, a)
  {
    if |a| > 0 {
      SubsequenceReflexive(a[..|a| - 1]);
    }
  }

  /** Boolean-mask indexing `df[mask]`: the rows satisfying `p`, in their original order. */
  function Filter<T(==,!new)>(s: seq<T>, p: T -> bool): (r: seq<T>)
    ensures |r| <= |s|
    ensures forall i :: 0 <= i < |r| ==> p(r[i])
    ensures forall x :: multiset(r)[x] == if p(x) then multiset(s)[x] else 0
    ensures IsSubsequence(r, s)
  {
    if |s| == 0 then []
    else
      var init := s[..|s| - 1];
      var last := s[|s| - 1];
      assert s == init + [last];
      var rest := Filter(init, p);
      if p(last) then
        assert (rest + [last])[..|rest|] == rest;
        rest + [last]
      else rest
  }

  lemma {:induction false} FilterKeepsAll<T(!new)>(s: seq<T>, p: T -> bool)
    requires forall i :: 0 <= i < |s| ==> p(s[i])
    ensures Filter(s, p) == s
  {
    if |s| > 0 {
      FilterKeepsAll(s[..|s| - 1], p);
      assert s == s[..|s| - 1] + [s[|s| - 1]];
    }
  }

  /** Number of set flags. Grouping's row counters come after this module and are
      built on it, so the draw mask keeps a counter of its own. */
  function CountTrue(keep: seq<bool>): (n: nat)
    ensures n <= |keep|
  {
    if |keep| == 0 then 0
    else CountTrue(keep[..|keep| - 1]) + (if keep[|keep| - 1] then 1 else 0)
  }

  /** The rows whose flag is set. */
  function Select<T(==)>(s: seq<T>, keep: seq<bool>): (r: seq<T>)
    requires |keep| == |s|
    ensures |r| == CountTrue(keep)
    ensures IsSubsequence(r, s)
    ensures multiset(r) <= multiset(s)
    ensures CountTrue(keep) == |s| ==> r == s
  {
    if |s| == 0 then []
    else
      var init := s[..|s| - 1];
      var last := s[|s| - 1];
      assert s == init + [last];
      var rest := Select(init, keep[..|keep| - 1]);
      if keep[|keep| - 1] then
        assert (rest + [last])[..|rest|] == rest;
        rest + [last]
      else rest
  }

  /** A random draw of `k` of `n` rows without replacement, given as one flag per row. */
  predicate IsDraw(keep: seq<bool>, n: nat, k: nat) {
    |keep| == n && CountTrue(keep) == k
  }

  /** `s if len(s) < cap else s.sample(cap)`, the random choice supplied as `keep`. */
  function Cap<T(==)>(s: seq<T>, cap: nat, keep: seq<bool>): (r: seq<T>)
    requires |s| >= cap ==> IsDraw(keep, |s|, cap)
    ensures |r| == Min(|s|, cap)
    ensures IsSubsequence(r, s)
    ensures multiset(r) <= multiset(s)
    ensures |s| <= cap ==> r == s
  {
    if |s| < cap then SubsequenceReflexive(s); s
    else Select(s, keep)
  }
}
