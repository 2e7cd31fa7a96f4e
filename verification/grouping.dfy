/** The aggregation primitives the dashboards get from the dataframe library:
    `groupby(...).size()`, `value_counts()`, `sort_values(...).head(k)` and
    sorting by an ordered categorical column. */
module Grouping {
  import opened Sequences

  /** One row of a `groupby(...).size()` table: a key and how many rows carry it. */
  datatype Group<K> = Group(key: K, count: nat)

  /** Number of rows whose key is `k`. */
  function CountKey<T, K(==)>(s: seq<T>, key: T -> K, k: K): (n: nat)
    ensures n <= |s|
  {
    if |s| == 0 then 0
    else CountKey(s[..|s| - 1], key, k) + (if key(s[|s| - 1]) == k then 1 else 0)
  }

  /** Number of rows whose key satisfies `p`. */
  function CountKeyWhere<T, K>(s: seq<T>, key: T -> K, p: K -> bool): (n: nat)
    ensures n <= |s|
  {
    if |s| == 0 then 0
    else CountKeyWhere(s[..|s| - 1], key, p) + (if p(key(s[|s| - 1])) then 1 else 0)
  }

  /** Sum of the counts of a group table. */
  function Total<K>(g: seq<Group<K>>): nat {
    if |g| == 0 then 0 else Total(g[..|g| - 1]) + g[|g| - 1].count
  }

  /** Sum of the counts of the groups whose key satisfies `p`. */
  function TotalWhere<K>(g: seq<Group<K>>, p: K -> bool): nat {
    if |g| == 0 then 0
    else TotalWhere(g[..|g| - 1], p) + (if p(g[|g| - 1].key) then g[|g| - 1].count else 0)
  }

  ghost predicate NoDuplicates<K>(ks: seq<K>) {
    forall i, j :: 0 <= i < j < |ks| ==> ks[i] != ks[j]
  }

  ghost predicate DistinctKeys<K>(g: seq<Group<K>>) {
    forall i, j :: 0 <= i < j < |g| ==> g[i].key != g[j].key
  }

  ghost predicate HasKey<K>(g: seq<Group<K>>, k: K) {
    exists i :: 0 <= i < |g| && g[i].key == k
  }

  ghost predicate CountsNonIncreasing<K>(g: seq<Group<K>>) {
    forall i, j :: 0 <= i < j < |g| ==> g[i].count >= g[j].count
  }

  /** `Series.unique()`: the distinct keys, in order of first appearance. */
  function UniqueKeys<T, K(==)>(s: seq<T>, key: T -> K): (ks: seq<K>)
    ensures NoDuplicates(ks)
    ensures forall i :: 0 <= i < |s| ==> key(s[i]) in ks
    ensures forall j :: 0 <= j < |ks| ==> CountKey(s, key, ks[j]) > 0
  {
    if |s| == 0 then []
    else
      var init := s[..|s| - 1];
      var ks := UniqueKeys(init, key);
      var k := key(s[|s| - 1]);
      assert forall i :: 0 <= i < |init| ==> s[i] == init[i];
      if k in ks then ks else ks + [k]
  }

  /** One group per key of `ks`, counted over `s`. */
  function GroupsOf<T, K(==)>(s: seq<T>, key: T -> K, ks: seq<K>): (g: seq<Group<K>>)
    ensures |g| == |ks|
    ensures forall i :: 0 <= i < |g| ==> g[i] == Group(ks[i], CountKey(s, key, ks[i]))
  {
    if |ks| == 0 then []
    else GroupsOf(s, key, ks[..|ks| - 1]) + [Group(ks[|ks| - 1], CountKey(s, key, ks[|ks| - 1]))]
  }

  /** A key list read as a table whose rows are their own keys. */
  function Itself<K>(k: K): K {
    k
  }

  /** How many times `k` occurs in a key list. */
  function Occurrences<K(==)>(ks: seq<K>, k: K): nat {
    CountKey(ks, Itself, k)
  }

  lemma {:induction false} OccursOnce<K>(ks: seq<K>, k: K)
    requires NoDuplicates(ks)
    ensures Occurrences(ks, k) == if k in ks then 1 else 0
  {
    if |ks| > 0 {
      var init := ks[..|ks| - 1];
      OccursOnce(init, k);
      assert ks == init + [ks[|ks| - 1]];
      if ks[|ks| - 1] == k {
        assert k !in init;
      }
    }
  }

  lemma {:induction false} EmptyGroups<T, K>(key: T -> K, ks: seq<K>, p: K -> bool)
    ensures TotalWhere(GroupsOf([], key, ks), p) == 0
  {
    if |ks| > 0 {
      EmptyGroups(key, ks[..|ks| - 1], p);
      var g := GroupsOf([], key, ks);
      assert g[..|g| - 1] == GroupsOf([], key, ks[..|ks| - 1]);
    }
  }

  /** Appending one row adds one to exactly the groups that carry its key. */
  lemma {:induction false} GroupsStep<T, K>(s: seq<T>, x: T, key: T -> K, ks: seq<K>, p: K -> bool)
    ensures TotalWhere(GroupsOf(s + [x], key, ks), p)
         == TotalWhere(GroupsOf(s, key, ks), p) + (if p(key(x)) then Occurrences(ks, key(x)) else 0)
    decreases |ks|
  {
    if |ks| > 0 {
      var init := ks[..|ks| - 1];
      GroupsStep(s, x, key, init, p);
      assert (s + [x])[..|s|] == s;
      var g := GroupsOf(s + [x], key, ks);
      assert g[..|g| - 1] == GroupsOf(s + [x], key, init);
      var h := GroupsOf(s, key, ks);
      assert h[..|h| - 1] == GroupsOf(s, key, init);
    }
  }

  /** Partition sum: over groups whose keys cover every row exactly once, the counts of
      the groups selected by `p` add up to the number of rows selected by `p`. */
  lemma {:induction false} GroupTotals<T, K>(s: seq<T>, key: T -> K, ks: seq<K>, p: K -> bool)
    requires NoDuplicates(ks)
    requires forall i :: 0 <= i < |s| ==> key(s[i]) in ks
    ensures TotalWhere(GroupsOf(s, key, ks), p) == CountKeyWhere(s, key, p)
    decreases |s|
  {
    if |s| == 0 {
      EmptyGroups(key, ks, p);
    } else {
      var init := s[..|s| - 1];
      var x := s[|s| - 1];
      assert s == init + [x];
      GroupTotals(init, key, ks, p);
      GroupsStep(init, x, key, ks, p);
      OccursOnce(ks, key(x));
    }
  }

  lemma {:induction false} TotalWhereAll<K>(g: seq<Group<K>>, p: K -> bool)
    requires forall i :: 0 <= i < |g| ==> p(g[i].key)
    ensures TotalWhere(g, p) == Total(g)
  {
    if |g| > 0 {
      TotalWhereAll(g[..|g| - 1], p);
    }
  }

  lemma {:induction false} CountKeyWhereAll<T, K>(s: seq<T>, key: T -> K, p: K -> bool)
    requires forall i :: 0 <= i < |s| ==> p(key(s[i]))
    ensures CountKeyWhere(s, key, p) == |s|
  {
    if |s| > 0 {
      CountKeyWhereAll(s[..|s| - 1], key, p);
    }
  }

  /** `groupby(key).size()`: one group per distinct key, holding the number of rows
      with that key; the counts add up to the number of rows. */
  function GroupCount<T, K(==)>(s: seq<T>, key: T -> K): (g: seq<Group<K>>)
    ensures DistinctKeys(g)
    ensures forall i :: 0 <= i < |s| ==> HasKey(g, key(s[i]))
    ensures forall i :: 0 <= i < |g| ==> g[i].count == CountKey(s, key, g[i].key) && g[i].count > 0
    ensures Total(g) == |s|
  {
    var ks := UniqueKeys(s, key);
    var g := GroupsOf(s, key, ks);
    var all := (k: K) => true;
    GroupTotals(s, key, ks, all);
    TotalWhereAll(g, all);
    CountKeyWhereAll(s, key, all);
    g
  }

  /** Keeping some groups keeps at most the rows of all of them. */
  lemma {:induction false} TotalFilterAtMost<K(!new)>(g: seq<Group<K>>, p: Group<K> -> bool)
    ensures Total(Filter(g, p)) <= Total(g)
  {
    if |g| > 0 {
      var init := g[..|g| - 1];
      TotalFilterAtMost(init, p);
      var f := Filter(g, p);
      if p(g[|g| - 1]) {
        assert f[..|f| - 1] == Filter(init, p);
      }
    }
  }

  lemma {:induction false} AtMostOnce<K>(b: seq<Group<K>>, x: Group<K>)
    requires DistinctKeys(b)
    ensures multiset(b)[x] <= 1
  {
    if |b| > 0 {
      var init := b[..|b| - 1];
      AtMostOnce(init, x);
      assert b == init + [b[|b| - 1]];
      if b[|b| - 1] == x {
        assert x !in init;
      }
    }
  }

  /** Groups drawn from a table with distinct keys have distinct keys. */
  lemma DistinctUnderSubMultiset<K>(a: seq<Group<K>>, b: seq<Group<K>>)
    requires multiset(a) <= multiset(b)
    requires DistinctKeys(b)
    ensures DistinctKeys(a)
  {
    forall i, j | 0 <= i < j < |a| ensures a[i].key != a[j].key {
      if a[i].key == a[j].key {
        assert a[i] in multiset(b) && a[j] in multiset(b);
        var p :| 0 <= p < |b| && b[p] == a[i];
        var q :| 0 <= q < |b| && b[q] == a[j];
        assert a[i] == a[j];
        assert a == a[..j] + a[j..];
        assert a[i] in a[..j] && a[j] in a[j..];
        assert multiset(a)[a[i]] >= 2;
        AtMostOnce(b, a[i]);
        assert false;
      }
    }
  }

  /** Appending a group no larger than any before it keeps the order, and adds its count. */
  lemma AppendSmaller<K>(a: seq<Group<K>>, y: Group<K>)
    requires CountsNonIncreasing(a)
    requires forall i :: 0 <= i < |a| ==> a[i].count >= y.count
    ensures CountsNonIncreasing(a + [y])
    ensures Total(a + [y]) == Total(a) + y.count
  {
    assert (a + [y])[..|a|] == a;
  }

  function InsertByCount<K(==)>(x: Group<K>, g: seq<Group<K>>): (r: seq<Group<K>>)
    requires CountsNonIncreasing(g)
    ensures |r| == |g| + 1
    ensures CountsNonIncreasing(r)
    ensures multiset(r) == multiset(g) + multiset{x}
    ensures Total(r) == Total(g) + x.count
  {
    if |g| == 0 then [x]
    else
      var init := g[..|g| - 1];
      var last := g[|g| - 1];
      assert g == init + [last];
      if last.count >= x.count then
        AppendSmaller(g, x);
        g + [x]
      else
        var r := InsertByCount(x, init);
        InsertedAboveLast(r, init, x, last);
        AppendSmaller(r, last);
        r + [last]
  }

  lemma InsertedAboveLast<K>(r: seq<Group<K>>, init: seq<Group<K>>, x: Group<K>, last: Group<K>)
    requires multiset(r) == multiset(init) + multiset{x}
    requires forall i :: 0 <= i < |init| ==> init[i].count >= last.count
    requires x.count >= last.count
    ensures forall i :: 0 <= i < |r| ==> r[i].count >= last.count
  {
    forall i | 0 <= i < |r| ensures r[i].count >= last.count {
      assert r[i] in multiset(r);
      if r[i] != x {
        assert r[i] in multiset(init);
      }
    }
  }

  /** A rearrangement of `g` by non-increasing count; tied groups in no promised order. */
  function SortByCount<K(==)>(g: seq<Group<K>>): (r: seq<Group<K>>)
    ensures |r| == |g|
    ensures CountsNonIncreasing(r)
    ensures multiset(r) == multiset(g)
    ensures Total(r) == Total(g)
  {
    if |g| == 0 then []
    else
      assert g == g[..|g| - 1] + [g[|g| - 1]];
      InsertByCount(g[|g| - 1], SortByCount(g[..|g| - 1]))
  }

  lemma PrefixOfSorted<K>(sorted: seq<Group<K>>, m: nat, g: seq<Group<K>>)
    requires m <= |sorted|
    requires CountsNonIncreasing(sorted)
    requires multiset(sorted) == multiset(g)
    ensures CountsNonIncreasing(sorted[..m])
    ensures multiset(sorted[..m]) <= multiset(g)
    ensures m == |sorted| ==> multiset(sorted[..m]) == multiset(g)
    ensures forall x, y :: x in g && x !in sorted[..m] && y in sorted[..m] ==> y.count >= x.count
    ensures DistinctKeys(g) ==> DistinctKeys(sorted[..m])
  {
    assert sorted == sorted[..m] + sorted[m..];
    assert m == |sorted| ==> sorted[..m] == sorted;
    if DistinctKeys(g) {
      DistinctUnderSubMultiset(sorted[..m], g);
    }
    forall x, y | x in g && x !in sorted[..m] && y in sorted[..m] ensures y.count >= x.count {
      assert x in multiset(sorted);
      var q :| 0 <= q < |sorted| && sorted[q] == x;
      var p :| 0 <= p < m && sorted[..m][p] == y;
      assert p < q;
    }
  }

  /** `sort_values('count', ascending=False).head(k)`: at most `k` groups of `g`, largest
      first, and no group left out is larger than one kept. */
  function TopByCount<K(==)>(g: seq<Group<K>>, k: nat): (r: seq<Group<K>>)
    ensures |r| == Min(|g|, k)
    ensures CountsNonIncreasing(r)
    ensures multiset(r) <= multiset(g)
    ensures |g| <= k ==> multiset(r) == multiset(g)
    ensures forall x, y :: x in g && x !in r && y in r ==> y.count >= x.count
    ensures DistinctKeys(g) ==> DistinctKeys(r)
  {
    var sorted := SortByCount(g);
    var m := Min(|g|, k);
    PrefixOfSorted(sorted, m, g);
    sorted[..m]
  }

  /** The elements of rank `n`. */
  function HasRank<T>(rank: T -> nat, n: nat): T -> bool {
    x => rank(x) == n
  }

  /** The elements with rank in `lo..n-1`, grouped by ascending rank. */
  function Bucket<T(==,!new)>(s: seq<T>, rank: T -> nat, lo: nat, n: nat): (r: seq<T>)
    decreases n - lo
    ensures forall i :: 0 <= i < |r| ==> lo <= rank(r[i]) < n
    ensures forall i, j :: 0 <= i < j < |r| ==> rank(r[i]) <= rank(r[j])
    ensures forall x :: multiset(r)[x] == if lo <= rank(x) < n then multiset(s)[x] else 0
  {
    if lo >= n then []
    else
      var here := Filter(s, HasRank(rank, lo));
      var rest := Bucket(s, rank, lo + 1, n);
      BucketStep(s, rank, lo, n, here, rest);
      here + rest
  }

  lemma BucketStep<T(!new)>(s: seq<T>, rank: T -> nat, lo: nat, n: nat, here: seq<T>, rest: seq<T>)
    requires lo < n
    requires forall i :: 0 <= i < |here| ==> HasRank(rank, lo)(here[i])
    requires forall x :: multiset(here)[x] == if HasRank(rank, lo)(x) then multiset(s)[x] else 0
    requires forall i :: 0 <= i < |rest| ==> lo + 1 <= rank(rest[i]) < n
    requires forall i, j :: 0 <= i < j < |rest| ==> rank(rest[i]) <= rank(rest[j])
    requires forall x :: multiset(rest)[x] == if lo + 1 <= rank(x) < n then multiset(s)[x] else 0
    ensures forall i :: 0 <= i < |here + rest| ==> lo <= rank((here + rest)[i]) < n
    ensures forall i, j :: 0 <= i < j < |here + rest| ==> rank((here + rest)[i]) <= rank((here + rest)[j])
    ensures forall x :: multiset(here + rest)[x] == if lo <= rank(x) < n then multiset(s)[x] else 0
  {
    var r := here + rest;
    forall i | 0 <= i < |here| ensures rank(r[i]) == lo {
      assert r[i] == here[i];
      assert HasRank(rank, lo)(here[i]);
    }
    forall i | |here| <= i < |r| ensures lo + 1 <= rank(r[i]) < n {
      assert r[i] == rest[i - |here|];
    }
    forall i, j | 0 <= i < j < |r| ensures rank(r[i]) <= rank(r[j]) {
      if |here| <= i {
        assert r[i] == rest[i - |here|] && r[j] == rest[j - |here|];
      }
    }
    forall x ensures multiset(r)[x] == if lo <= rank(x) < n then multiset(s)[x] else 0 {
      assert HasRank(rank, lo)(x) == (rank(x) == lo);
    }
  }

  /** `sort_values` on an ordered categorical column with `n` categories: the same
      elements, rearranged by ascending category rank. */
  function OrderByRank<T(==,!new)>(s: seq<T>, rank: T -> nat, n: nat): (r: seq<T>)
    requires forall i :: 0 <= i < |s| ==> rank(s[i]) < n
    ensures multiset(r) == multiset(s)
    ensures forall i, j :: 0 <= i < j < |r| ==> rank(r[i]) <= rank(r[j])
  {
    var r := Bucket(s, rank, 0, n);
    assert forall x | x in multiset(s) :: rank(x) < n;
    assert multiset(r) == multiset(s);
    r
  }

  /** A key with a positive count is the key of some row. */
  lemma {:induction false} CountKeyOccurs<T, K>(s: seq<T>, key: T -> K, k: K)
    requires CountKey(s, key, k) > 0
    ensures exists i :: 0 <= i < |s| && key(s[i]) == k
  {
    var init := s[..|s| - 1];
    if key(s[|s| - 1]) != k {
      CountKeyOccurs(init, key, k);
      var i :| 0 <= i < |init| && key(init[i]) == k;
      assert s[i] == init[i];
    }
  }

  /** `g` is a group-count table of `s` by `key`: one group per key that occurs in `s`,
      no key twice, each group holding the number of rows with its key. */
  ghost predicate IsCountTable<T, K>(g: seq<Group<K>>, s: seq<T>, key: T -> K) {
    && DistinctKeys(g)
    && (forall i :: 0 <= i < |s| ==> HasKey(g, key(s[i])))
    && (forall i :: 0 <= i < |g| ==> g[i].count == CountKey(s, key, g[i].key) && g[i].count > 0)
  }

  /** Reordering the rows of a count table leaves a count table. */
  lemma RearrangedCountTable<T, K>(r: seq<Group<K>>, g: seq<Group<K>>, s: seq<T>, key: T -> K)
    requires multiset(r) == multiset(g)
    requires IsCountTable(g, s, key)
    ensures IsCountTable(r, s, key)
  {
    DistinctUnderSubMultiset(r, g);
    forall i | 0 <= i < |s| ensures HasKey(r, key(s[i])) {
      var j :| 0 <= j < |g| && g[j].key == key(s[i]);
      assert g[j] in multiset(r);
    }
    forall i | 0 <= i < |r| ensures r[i].count == CountKey(s, key, r[i].key) && r[i].count > 0 {
      assert r[i] in multiset(g);
    }
  }

  /** `value_counts()`: the group-count table, largest group first. */
  function ValueCounts<T, K(==)>(s: seq<T>, key: T -> K): (r: seq<Group<K>>)
    ensures IsCountTable(r, s, key)
    ensures Total(r) == |s|
    ensures CountsNonIncreasing(r)
  {
    var g := GroupCount(s, key);
    var r := SortByCount(g);
    RearrangedCountTable(r, g, s, key);
    r
  }

  /** The `k` most frequent keys: `value_counts().head(k)`, or equally
      `groupby(key).size().sort_values(ascending=False).head(k)`. No key left out
      occurs more often than a key kept, and fewer than `k` groups means every key is kept. */
  function TopCounts<T, K(==)>(s: seq<T>, key: T -> K, k: nat): (r: seq<Group<K>>)
    ensures |r| <= k
    ensures CountsNonIncreasing(r)
    ensures DistinctKeys(r)
    ensures forall j :: 0 <= j < |r| ==> r[j].count == CountKey(s, key, r[j].key) && r[j].count > 0
    ensures |r| < k ==> forall i :: 0 <= i < |s| ==> HasKey(r, key(s[i]))
    ensures forall i, j :: 0 <= i < |s| && 0 <= j < |r| && !HasKey(r, key(s[i]))
              ==> CountKey(s, key, key(s[i])) <= r[j].count
  {
    var g := GroupCount(s, key);
    var r := TopByCount(g, k);
    TopOfCountTable(s, key, g, r, k);
    r
  }

  lemma TopOfCountTable<T, K>(s: seq<T>, key: T -> K, g: seq<Group<K>>, r: seq<Group<K>>, k: nat)
    requires IsCountTable(g, s, key)
    requires |r| == Min(|g|, k)
    requires multiset(r) <= multiset(g)
    requires |g| <= k ==> multiset(r) == multiset(g)
    requires forall x, y :: x in g && x !in r && y in r ==> y.count >= x.count
    ensures forall j :: 0 <= j < |r| ==> r[j].count == CountKey(s, key, r[j].key) && r[j].count > 0
    ensures |r| < k ==> forall i :: 0 <= i < |s| ==> HasKey(r, key(s[i]))
    ensures forall i, j :: 0 <= i < |s| && 0 <= j < |r| && !HasKey(r, key(s[i]))
              ==> CountKey(s, key, key(s[i])) <= r[j].count
  {
    forall j | 0 <= j < |r| ensures r[j].count == CountKey(s, key, r[j].key) && r[j].count > 0 {
      assert r[j] in multiset(g);
    }
    if |r| < k {
      RearrangedCountTable(r, g, s, key);
    }
    forall i, j | 0 <= i < |s| && 0 <= j < |r| && !HasKey(r, key(s[i]))
      ensures CountKey(s, key, key(s[i])) <= r[j].count
    {
      var q :| 0 <= q < |g| && g[q].key == key(s[i]);
      assert g[q] !in r;
      assert g[q] in g && r[j] in r;
    }
  }
}
