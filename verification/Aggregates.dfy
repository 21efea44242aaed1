/** SQL NULL and the other optional values of the pipeline. */
module Options {
  datatype Option<+T> = None | Some(value: T) {
    /** `coalesce(this, d)`. */
    function Or(d: T): T { if Some? then value else d }

    /** `coalesce(this, other)` where the second argument may be NULL too. */
    function OrElse(other: Option<T>): Option<T> { if Some? then this else other }
  }
}

/** Bags of rows as sequences, the aggregates the jobs use, and the laws that let
    a grouped total be compared with a plain one. */
module Aggregates {
  function Sum<T>(s: seq<T>, f: T -> int): int {
    if s == [] then 0 else f(s[0]) + Sum(s[1..], f)
  }

  function Filter<T>(s: seq<T>, p: T -> bool): (r: seq<T>)
    ensures |r| <= |s|
    ensures forall x :: x in r ==> x in s && p(x)
    ensures forall x :: x in s && p(x) ==> x in r
  {
    if s == [] then [] else (if p(s[0]) then [s[0]] else []) + Filter(s[1..], p)
  }

  function Map<T, U>(s: seq<T>, f: T -> U): (r: seq<U>)
    ensures |r| == |s|
    ensures forall i :: 0 <= i < |s| ==> r[i] == f(s[i])
  {
    if s == [] then [] else [f(s[0])] + Map(s[1..], f)
  }

  lemma MapAt<T, U>(s: seq<T>, f: T -> U, i: nat)
    requires i < |s|
    ensures f(s[i]) in Map(s, f)
  {
    assert Map(s, f)[i] == f(s[i]);
  }

  lemma MapMember<T, U>(s: seq<T>, f: T -> U, y: U) returns (i: nat)
    requires y in Map(s, f)
    ensures i < |s| && y == f(s[i])
  {
    i :| 0 <= i < |s| && Map(s, f)[i] == y;
  }

  /** The rows of one group of a GROUP BY. */
  function Group<T, K(==)>(s: seq<T>, key: T -> K, k: K): (r: seq<T>)
    ensures |r| <= |s|
    ensures forall x :: x in r ==> x in s && key(x) == k
    ensures forall x :: x in s && key(x) == k ==> x in r
  {
    if s == [] then [] else (if key(s[0]) == k then [s[0]] else []) + Group(s[1..], key, k)
  }

  /** The group keys of a GROUP BY, one entry per group. */
  function Keys<T, K(==)>(s: seq<T>, key: T -> K): (ks: seq<K>)
    ensures Distinct(ks)
    ensures forall x :: x in s ==> key(x) in ks
    ensures forall k :: k in ks ==> exists x :: x in s && key(x) == k
  {
    if s == [] then []
    else
      var rest := Keys(s[1..], key);
      if key(s[0]) in rest then rest else [key(s[0])] + rest
  }

  ghost predicate Distinct<K>(ks: seq<K>) {
    forall i, j :: 0 <= i < j < |ks| ==> ks[i] != ks[j]
  }

  /** `key` is unique among the rows. */
  ghost predicate DistinctBy<T, K>(s: seq<T>, key: T -> K) {
    forall i, j :: 0 <= i < j < |s| ==> key(s[i]) != key(s[j])
  }

  lemma {:induction false} GroupWithoutKey<B, K>(s: seq<B>, key: B -> K, k: K)
    requires forall x :: x in s ==> key(x) != k
    ensures Group(s, key, k) == []
  {
    if s != [] { GroupWithoutKey(s[1..], key, k); }
  }

  lemma {:induction false} FilterAll<T>(s: seq<T>, p: T -> bool)
    requires forall x :: x in s ==> p(x)
    ensures Filter(s, p) == s
  {
    if s != [] { FilterAll(s[1..], p); }
  }

  lemma {:induction false} FilterNone<T>(s: seq<T>, p: T -> bool)
    requires forall x :: x in s ==> !p(x)
    ensures Filter(s, p) == []
  {
    if s != [] { FilterNone(s[1..], p); }
  }

  lemma {:induction false} SumAppend<T>(s: seq<T>, t: seq<T>, f: T -> int)
    ensures Sum(s + t, f) == Sum(s, f) + Sum(t, f)
  {
    if s == [] {
      assert s + t == t;
    } else {
      assert (s + t)[1..] == s[1..] + t;
      SumAppend(s[1..], t, f);
    }
  }

  lemma {:induction false} FilterAppend<T>(s: seq<T>, t: seq<T>, p: T -> bool)
    ensures Filter(s + t, p) == Filter(s, p) + Filter(t, p)
  {
    if s == [] {
      assert s + t == t;
    } else {
      assert (s + t)[1..] == s[1..] + t;
      FilterAppend(s[1..], t, p);
    }
  }

  lemma {:induction false} GroupAppend<T, K>(s: seq<T>, t: seq<T>, key: T -> K, k: K)
    ensures Group(s + t, key, k) == Group(s, key, k) + Group(t, key, k)
  {
    if s == [] {
      assert s + t == t;
    } else {
      assert (s + t)[1..] == s[1..] + t;
      GroupAppend(s[1..], t, key, k);
    }
  }

  lemma {:induction false} FilterKeepsDistinct<T, K>(s: seq<T>, p: T -> bool, id: T -> K)
    requires DistinctBy(s, id)
    ensures DistinctBy(Filter(s, p), id)
  {
    if s != [] {
      FilterKeepsDistinct(s[1..], p, id);
      forall x | x in Filter(s[1..], p) ensures id(x) != id(s[0]) {
        var i :| 0 <= i < |s| - 1 && s[1..][i] == x;
        assert s[i + 1] == x;
      }
    }
  }

  lemma BagWithout<T>(t: seq<T>, i: nat)
    requires i < |t|
    ensures multiset(t) == multiset(t[..i] + t[i + 1..]) + multiset{t[i]}
  {
    assert t == t[..i] + ([t[i]] + t[i + 1..]);
  }

  lemma BagCancel<T>(a: multiset<T>, b: multiset<T>, x: T)
    requires a + multiset{x} == b + multiset{x}
    ensures a == b
  {
    forall y ensures a[y] == b[y] { assert (a + multiset{x})[y] == (b + multiset{x})[y]; }
  }

  lemma SumWithout<T>(t: seq<T>, i: nat, f: T -> int)
    requires i < |t|
    ensures Sum(t, f) == f(t[i]) + Sum(t[..i] + t[i + 1..], f)
  {
    assert t == t[..i] + t[i..] && t[i..][1..] == t[i + 1..];
    SumAppend(t[..i], t[i..], f);
    SumAppend(t[..i], t[i + 1..], f);
  }

  /** The total does not depend on the order of the rows. */
  lemma {:induction false} SumOfBag<T>(s: seq<T>, t: seq<T>, f: T -> int)
    requires multiset(s) == multiset(t)
    ensures Sum(s, f) == Sum(t, f)
    decreases |s|
  {
    assert |multiset(s)| == |s| && |multiset(t)| == |t|;
    if s != [] {
      assert s[0] in multiset(t);
      var i :| 0 <= i < |t| && t[i] == s[0];
      SumWithout(t, i, f);
      BagWithout(t, i);
      assert s == [s[0]] + s[1..];
      BagCancel(multiset(s[1..]), multiset(t[..i] + t[i + 1..]), s[0]);
      SumOfBag(s[1..], t[..i] + t[i + 1..], f);
    }
  }

  lemma {:induction false} SumCong<T>(s: seq<T>, f: T -> int, g: T -> int)
    requires forall x :: x in s ==> f(x) == g(x)
    ensures Sum(s, f) == Sum(s, g)
  {
    if s != [] { SumCong(s[1..], f, g); }
  }

  lemma {:induction false} SumPlus<T>(s: seq<T>, f: T -> int, g: T -> int, h: T -> int)
    requires forall x :: x in s ==> h(x) == f(x) + g(x)
    ensures Sum(s, h) == Sum(s, f) + Sum(s, g)
  {
    if s != [] { SumPlus(s[1..], f, g, h); }
  }

  lemma {:induction false} SumMap<T, U>(s: seq<T>, p: T -> U, f: U -> int, g: T -> int)
    requires forall x :: x in s ==> g(x) == f(p(x))
    ensures Sum(Map(s, p), f) == Sum(s, g)
  {
    if s != [] {
      assert Map(s, p)[1..] == Map(s[1..], p);
      SumMap(s[1..], p, f, g);
    }
  }

  lemma {:induction false} SumBounds<T>(s: seq<T>, f: T -> int, lo: int, hi: int)
    requires forall x :: x in s ==> lo <= f(x) <= hi
    ensures lo * |s| <= Sum(s, f) <= hi * |s|
  {
    if s != [] {
      SumBounds(s[1..], f, lo, hi);
      assert lo * |s| == lo + lo * |s[1..]| && hi * |s| == hi + hi * |s[1..]|;
    }
  }

  lemma {:induction false} SumAtLeast<T>(s: seq<T>, f: T -> int)
    requires forall x :: x in s ==> f(x) >= 1
    ensures Sum(s, f) >= |s|
  {
    if s != [] { SumAtLeast(s[1..], f); }
  }

  /** Raising the value at one key of a duplicate-free key list raises the total by as much. */
  lemma {:induction false} SumBump<K>(ks: seq<K>, k: K, f: K -> int, g: K -> int, d: int)
    requires Distinct(ks) && k in ks
    requires forall x :: x in ks ==> g(x) == f(x) + if x == k then d else 0
    ensures Sum(ks, g) == Sum(ks, f) + d
  {
    if ks[0] == k {
      forall x | x in ks[1..] ensures g(x) == f(x) { }
      SumCong(ks[1..], f, g);
    } else {
      SumBump(ks[1..], k, f, g, d);
    }
  }

  function GroupSum<T, K(==)>(s: seq<T>, key: T -> K, f: T -> int, k: K): int {
    Sum(Group(s, key, k), f)
  }

  lemma GroupSumStep<T, K>(s: seq<T>, key: T -> K, f: T -> int, k: K)
    requires s != []
    ensures GroupSum(s, key, f, k) == GroupSum(s[1..], key, f, k) + if key(s[0]) == k then f(s[0]) else 0
  {
    var rest := Group(s[1..], key, k);
    if key(s[0]) == k {
      assert Group(s, key, k)[1..] == rest;
    } else {
      assert Group(s, key, k) == rest;
    }
  }

  /** Grouping neither loses nor duplicates: over any duplicate-free key list that
      covers the rows, the group totals add up to the plain total. */
  lemma {:induction false} PartitionSum<T, K>(s: seq<T>, key: T -> K, f: T -> int, ks: seq<K>)
    requires Distinct(ks)
    requires forall x :: x in s ==> key(x) in ks
    ensures Sum(ks, k => GroupSum(s, key, f, k)) == Sum(s, f)
  {
    if s == [] {
      SumCong(ks, k => GroupSum(s, key, f, k), _ => 0);
      SumBounds(ks, _ => 0, 0, 0);
    } else {
      PartitionSum(s[1..], key, f, ks);
      var k0 := key(s[0]);
      forall k | k in ks { GroupSumStep(s, key, f, k); }
      SumBump(ks, k0, k => GroupSum(s[1..], key, f, k), k => GroupSum(s, key, f, k), f(s[0]));
    }
  }

  /** The total over one group never exceeds the whole when nothing is negative. */
  lemma {:induction false} GroupSumBounded<T, K>(s: seq<T>, key: T -> K, f: T -> int, k: K)
    requires forall x :: x in s ==> f(x) >= 0
    ensures 0 <= GroupSum(s, key, f, k) <= Sum(s, f)
  {
    if s != [] {
      GroupSumStep(s, key, f, k);
      GroupSumBounded(s[1..], key, f, k);
    }
  }

  lemma {:induction false} GroupSumIsFilteredSum<T, K>(s: seq<T>, key: T -> K, f: T -> int, k: K, g: T -> int)
    requires forall x :: x in s ==> g(x) == if key(x) == k then f(x) else 0
    ensures GroupSum(s, key, f, k) == Sum(s, g)
  {
    if s != [] {
      GroupSumStep(s, key, f, k);
      GroupSumIsFilteredSum(s[1..], key, f, k, g);
    }
  }

  /** A group's total among the rows that pass a filter. */
  lemma {:induction false} FilteredGroupSum<T, K>(s: seq<T>, p: T -> bool, key: T -> K, f: T -> int, k: K, g: T -> int)
    requires forall x :: x in s ==> g(x) == if p(x) && key(x) == k then f(x) else 0
    ensures GroupSum(Filter(s, p), key, f, k) == Sum(s, g)
  {
    if s != [] {
      var rest := Filter(s[1..], p);
      FilteredGroupSum(s[1..], p, key, f, k, g);
      if p(s[0]) {
        assert Filter(s, p)[1..] == rest;
        GroupSumStep(Filter(s, p), key, f, k);
      } else {
        assert Filter(s, p) == rest;
      }
    }
  }

  lemma {:induction false} SumAtMost<T>(s: seq<T>, f: T -> int, g: T -> int)
    requires forall x :: x in s ==> f(x) <= g(x)
    ensures Sum(s, f) <= Sum(s, g)
  {
    if s != [] { SumAtMost(s[1..], f, g); }
  }

  lemma Pick<T>(s: set<T>) returns (x: T)
    requires s != {}
    ensures x in s
  {
    x :| x in s;
  }

  // ---- sums over the rows of a keyed table ------------------------------------

  ghost function MapSum<K, V>(m: map<K, V>, f: V -> int): int {
    if m == map[] then 0
    else
      var k :| k in m.Keys;
      f(m[k]) + MapSum(m - {k}, f)
  }

  lemma {:induction false} MapSumRemove<K, V>(m: map<K, V>, f: V -> int, k: K)
    requires k in m
    ensures MapSum(m, f) == f(m[k]) + MapSum(m - {k}, f)
    decreases |m|
  {
    var j :| j in m && MapSum(m, f) == f(m[j]) + MapSum(m - {j}, f);
    if j != k {
      MapSumRemove(m - {j}, f, k);
      MapSumRemove(m - {k}, f, j);
      assert m - {j} - {k} == m - {k} - {j};
    }
  }

  lemma {:induction false} MapSumPut<K, V>(m: map<K, V>, f: V -> int, k: K, v: V)
    ensures MapSum(m[k := v], f) == MapSum(m, f) + f(v) - if k in m then f(m[k]) else 0
  {
    MapSumRemove(m[k := v], f, k);
    if k in m {
      MapSumRemove(m, f, k);
      assert m[k := v] - {k} == m - {k};
    } else {
      assert m[k := v] - {k} == m;
    }
  }

  lemma {:induction false} MapSumCong<K, V>(m: map<K, V>, f: V -> int, g: V -> int)
    requires forall k :: k in m ==> f(m[k]) == g(m[k])
    ensures MapSum(m, f) == MapSum(m, g)
    decreases |m|
  {
    if m != map[] {
      var k :| k in m && MapSum(m, f) == f(m[k]) + MapSum(m - {k}, f);
      MapSumRemove(m, g, k);
      MapSumCong(m - {k}, f, g);
    }
  }

  lemma {:induction false} MapSumZero<K, V>(m: map<K, V>, f: V -> int)
    requires forall k :: k in m ==> f(m[k]) == 0
    ensures MapSum(m, f) == 0
    decreases |m|
  {
    if m != map[] {
      var k :| k in m && MapSum(m, f) == f(m[k]) + MapSum(m - {k}, f);
      MapSumZero(m - {k}, f);
    }
  }

  lemma {:induction false} MapSumNonNegative<K, V>(m: map<K, V>, f: V -> int)
    requires forall k :: k in m ==> f(m[k]) >= 0
    ensures MapSum(m, f) >= 0
    decreases |m|
  {
    if m != map[] {
      var k :| k in m && MapSum(m, f) == f(m[k]) + MapSum(m - {k}, f);
      MapSumNonNegative(m - {k}, f);
    }
  }

  lemma {:induction false} MapSumScaled<K, V>(m: map<K, V>, f: V -> int, g: V -> int, lo: int, hi: int)
    requires forall k :: k in m ==> lo * g(m[k]) <= f(m[k]) <= hi * g(m[k])
    ensures lo * MapSum(m, g) <= MapSum(m, f) <= hi * MapSum(m, g)
    decreases |m|
  {
    if m != map[] {
      var k :| k in m && MapSum(m, f) == f(m[k]) + MapSum(m - {k}, f);
      MapSumRemove(m, g, k);
      MapSumScaled(m - {k}, f, g, lo, hi);
      Distribute(lo, g(m[k]), MapSum(m - {k}, g));
      Distribute(hi, g(m[k]), MapSum(m - {k}, g));
    }
  }

  /** The total over a part of a table is the total with zeros elsewhere. */
  lemma {:induction false} MapSumOfPart<K, V>(m: map<K, V>, part: map<K, V>, f: V -> int, g: V -> int)
    requires forall k :: k in part ==> k in m && part[k] == m[k] && f(m[k]) == g(m[k])
    requires forall k :: k in m && k !in part ==> f(m[k]) == 0
    ensures MapSum(m, f) == MapSum(part, g)
    decreases |m|
  {
    if m != map[] {
      var k :| k in m && MapSum(m, f) == f(m[k]) + MapSum(m - {k}, f);
      MapSumOfPart(m - {k}, part - {k}, f, g);
      if k in part { MapSumRemove(part, g, k); } else { assert part - {k} == part; }
    }
  }

  lemma {:induction false} MapSumCounts<K, V>(m: map<K, V>, f: V -> int)
    requires forall k :: k in m ==> f(m[k]) == 1
    ensures MapSum(m, f) == |m|
    decreases |m|
  {
    if m != map[] {
      var k :| k in m && MapSum(m, f) == f(m[k]) + MapSum(m - {k}, f);
      MapSumCounts(m - {k}, f);
    }
  }

  lemma Distribute(c: int, x: int, y: int)
    ensures c * (x + y) == c * x + c * y
  {
  }

  /** A bag with one row per key of a table has the table's total. */
  lemma {:induction false} RowsSum<T, K, V>(rows: seq<T>, key: T -> K, g: T -> int, m: map<K, V>, f: V -> int)
    requires DistinctBy(rows, key)
    requires forall r :: r in rows ==> key(r) in m && g(r) == f(m[key(r)])
    requires forall k :: k in m ==> f(m[k]) == 0 || exists r :: r in rows && key(r) == k
    ensures Sum(rows, g) == MapSum(m, f)
    decreases |rows|
  {
    if rows == [] {
      MapSumZero(m, f);
    } else {
      var k := key(rows[0]);
      var rest := rows[1..];
      forall r | r in rest ensures key(r) != k {
        var i :| 0 <= i < |rest| && rest[i] == r;
        assert rows[i + 1] == r;
      }
      var m' := m - {k};
      forall x | x in m' ensures f(m'[x]) == 0 || exists r :: r in rest && key(r) == x {
        if f(m[x]) != 0 {
          var r :| r in rows && key(r) == x;
          assert r in rest;
        }
      }
      RowsSum(rest, key, g, m', f);
      MapSumRemove(m, f, k);
    }
  }
}
