/** The SQL operators both Gold implementations rely on, NULL semantics included. */
module Relational {
  import opened Options
  import opened Aggregates

  function Add(a: Option<int>, b: Option<int>): Option<int> {
    if a.None? then b else if b.None? then a else Some(a.value + b.value)
  }

  /** `SUM`: NULLs are skipped and a group without values sums to NULL. */
  function SumSql<T>(s: seq<T>, f: T -> Option<int>): Option<int> {
    if s == [] then None else Add(f(s[0]), SumSql(s[1..], f))
  }

  function Least(a: Option<int>, b: Option<int>): Option<int> {
    if a.None? then b else if b.None? then a else if a.value <= b.value then a else b
  }

  function Greatest(a: Option<int>, b: Option<int>): Option<int> {
    if a.None? then b else if b.None? then a else if a.value >= b.value then a else b
  }

  function MinSql<T>(s: seq<T>, f: T -> Option<int>): Option<int> {
    if s == [] then None else Least(f(s[0]), MinSql(s[1..], f))
  }

  function MaxSql<T>(s: seq<T>, f: T -> Option<int>): Option<int> {
    if s == [] then None else Greatest(f(s[0]), MaxSql(s[1..], f))
  }

  /** The right rows an equality join finds for a key: NULL equals nothing. */
  function Matches<B, K(==)>(right: seq<B>, key: B -> Option<K>, k: Option<K>): seq<B> {
    if k.None? then [] else Group(right, key, k)
  }

  /** `left LEFT JOIN right`: one row per match, or one unmatched row. */
  function LeftJoin<A, B, K(==)>(left: seq<A>, right: seq<B>, lk: A -> Option<K>, rk: B -> Option<K>): seq<(A, Option<B>)> {
    if left == [] then []
    else JoinRow(left[0], Matches(right, rk, lk(left[0]))) + LeftJoin(left[1..], right, lk, rk)
  }

  function JoinRow<A, B>(a: A, matches: seq<B>): seq<(A, Option<B>)> {
    if matches == [] then [(a, None)] else Map(matches, b => (a, Some(b)))
  }

  function Lookup<B, K(==)>(right: seq<B>, key: B -> Option<K>, k: Option<K>): Option<B> {
    var m := Matches(right, key, k);
    if m == [] then None else Some(m[0])
  }

  function Attach<A, B, K(==)>(right: seq<B>, lk: A -> Option<K>, rk: B -> Option<K>): A -> (A, Option<B>) {
    (a: A) => (a, Lookup(right, rk, lk(a)))
  }

  // ---- laws -----------------------------------------------------------------------------

  lemma AtMostOneIs<B>(s: seq<B>, x: B)
    requires |s| <= 1 && x in s
    ensures s == [x]
  {
  }

  lemma {:induction false} GroupAtMostOne<B, K>(s: seq<B>, key: B -> K, k: K)
    requires DistinctBy(s, key)
    ensures |Group(s, key, k)| <= 1
  {
    if s != [] {
      GroupAtMostOne(s[1..], key, k);
      if key(s[0]) == k {
        forall x | x in s[1..] ensures key(x) != k {
          var i :| 0 <= i < |s| - 1 && s[1..][i] == x;
          assert s[i + 1] == x;
        }
        GroupWithoutKey(s[1..], key, k);
      }
    }
  }

  /** Joining on a unique key has no fan-out: one output row per left row, in order. */
  lemma {:induction false} JoinOnUniqueKey<A, B, K>(left: seq<A>, right: seq<B>, lk: A -> Option<K>, rk: B -> Option<K>)
    requires DistinctBy(right, rk)
    ensures LeftJoin(left, right, lk, rk) == Map(left, Attach(right, lk, rk))
  {
    if left != [] {
      JoinOnUniqueKey(left[1..], right, lk, rk);
      GroupAtMostOne(right, rk, lk(left[0]));
      var m := Matches(right, rk, lk(left[0]));
      if m != [] { assert m == [m[0]]; }
      assert JoinRow(left[0], m) == [Attach(right, lk, rk)(left[0])];
    }
  }

  lemma {:induction false} KeysOfMap<T, U, K>(s: seq<T>, p: T -> U, ku: U -> K, kt: T -> K)
    requires forall x :: x in s ==> ku(p(x)) == kt(x)
    ensures Keys(Map(s, p), ku) == Keys(s, kt)
  {
    if s != [] {
      assert Map(s, p)[1..] == Map(s[1..], p);
      KeysOfMap(s[1..], p, ku, kt);
    }
  }

  lemma {:induction false} GroupOfMap<T, U, K>(s: seq<T>, p: T -> U, ku: U -> K, kt: T -> K, k: K)
    requires forall x :: x in s ==> ku(p(x)) == kt(x)
    ensures Group(Map(s, p), ku, k) == Map(Group(s, kt, k), p)
  {
    if s != [] {
      assert Map(s, p)[1..] == Map(s[1..], p);
      GroupOfMap(s[1..], p, ku, kt, k);
    }
  }

  lemma {:induction false} SumSqlOfMap<T, U>(s: seq<T>, p: T -> U, f: U -> Option<int>, g: T -> Option<int>)
    requires forall x :: x in s ==> f(p(x)) == g(x)
    ensures SumSql(Map(s, p), f) == SumSql(s, g)
  {
    if s != [] {
      assert Map(s, p)[1..] == Map(s[1..], p);
      SumSqlOfMap(s[1..], p, f, g);
    }
  }

  lemma {:induction false} SumSqlCong<T>(s: seq<T>, f: T -> Option<int>, g: T -> Option<int>)
    requires forall x :: x in s ==> f(x) == g(x)
    ensures SumSql(s, f) == SumSql(s, g)
  {
    if s != [] { SumSqlCong(s[1..], f, g); }
  }

  /** Without NULLs, SUM is the plain total (NULL only for the empty group). */
  lemma {:induction false} SumSqlIsSum<T>(s: seq<T>, f: T -> Option<int>, g: T -> int)
    requires forall x :: x in s ==> f(x) == Some(g(x))
    ensures SumSql(s, f) == if s == [] then None else Some(Sum(s, g))
  {
    if s != [] { SumSqlIsSum(s[1..], f, g); }
  }

  lemma {:induction false} MinIsAtMostMax<T>(s: seq<T>, f: T -> Option<int>)
    ensures MinSql(s, f).Some? <==> MaxSql(s, f).Some?
    ensures MinSql(s, f).Some? ==> MinSql(s, f).value <= MaxSql(s, f).value
    ensures MinSql(s, f).Some? ==> exists x :: x in s && f(x) == MinSql(s, f)
    ensures MaxSql(s, f).Some? ==> exists x :: x in s && f(x) == MaxSql(s, f)
    ensures forall x :: x in s && f(x).Some? ==> MinSql(s, f).Some? && MinSql(s, f).value <= f(x).value <= MaxSql(s, f).value
  {
    if s != [] { MinIsAtMostMax(s[1..], f); }
  }

  lemma MapCong<T, U>(s: seq<T>, f: T -> U, g: T -> U)
    requires forall x :: x in s ==> f(x) == g(x)
    ensures Map(s, f) == Map(s, g)
  {
  }

  lemma AggregatedKeysDistinct<K, R>(ks: seq<K>, f: K -> R, key: R -> K)
    requires Distinct(ks) && forall k :: k in ks ==> key(f(k)) == k
    ensures DistinctBy(Map(ks, f), key)
  {
  }

  /** Looking up an aggregate by its key finds the group's aggregate. */
  lemma {:induction false} LookupAggregate<K, R>(ks: seq<Option<K>>, f: Option<K> -> R, key: R -> Option<K>, k: Option<K>)
    requires Distinct(ks) && k.Some? && forall x :: x in ks ==> key(f(x)) == x
    ensures Lookup(Map(ks, f), key, k) == if k in ks then Some(f(k)) else None
  {
    AggregatedKeysDistinct(ks, f, key);
    var aggregates := Map(ks, f);
    GroupAtMostOne(aggregates, key, k);
    if k in ks {
      var i :| 0 <= i < |ks| && ks[i] == k;
      assert aggregates[i] == f(k) && f(k) in aggregates;
      AtMostOneIs(Group(aggregates, key, k), f(k));
    } else {
      GroupWithoutKey(aggregates, key, k);
    }
  }
}
