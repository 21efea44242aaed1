/** `latest_per_key`: `row_number() over (partition by key order by ts_ms desc) = 1`. */
module Dedup {
  import opened Aggregates

  datatype Row<V> = Row(id: int, ts: int, val: V)

  // ---- the window expression ---------------------------------------------------

  /** Rows in the order the window sees them. Rows with equal `ts` may come in any
      order, so one bag of rows has many window orders; what the job keeps may
      depend on which one the engine happens to use. */
  ghost predicate IsWindowOrder<V>(rows: seq<Row<V>>, sorted: seq<Row<V>>) {
    && multiset(sorted) == multiset(rows)
    && SortedDesc(sorted)
  }

  predicate SortedDesc<V>(s: seq<Row<V>>) {
    forall i, j :: 0 <= i < j < |s| ==> s[i].ts >= s[j].ts
  }

  /** `row_number()` of the row at index `i` within its partition. */
  function RowNumber<V>(s: seq<Row<V>>, i: nat): nat
    requires i < |s|
  {
    |Group(s[..i + 1], (r: Row<V>) => r.id, s[i].id)|
  }

  /** `filter(_rn == 1)`. */
  function RankOne<V>(s: seq<Row<V>>): (kept: seq<Row<V>>)
    ensures |kept| <= |s|
  {
    if s == [] then []
    else
      var n := |s| - 1;
      RankOne(s[..n]) + if RowNumber(s, n) == 1 then [s[n]] else []
  }

  // ---- what the job promises ---------------------------------------------------

  ghost predicate Newest<V>(rows: seq<Row<V>>, r: Row<V>) {
    r in rows && forall x :: x in rows && x.id == r.id ==> x.ts <= r.ts
  }

  ghost predicate DistinctIds<V>(rows: seq<Row<V>>) {
    forall i, j :: 0 <= i < j < |rows| ==> rows[i].id != rows[j].id
  }

  predicate HasId<V>(rows: seq<Row<V>>, id: int) {
    exists i :: 0 <= i < |rows| && rows[i].id == id
  }

  /** Exactly one row per key, and it is one with the highest `ts`. */
  ghost predicate IsLatestPerKey<V>(rows: seq<Row<V>>, out: seq<Row<V>>) {
    && DistinctIds(out)
    && (forall r :: r in out ==> Newest(rows, r))
    && (forall id :: HasId(rows, id) ==> HasId(out, id))
  }

  lemma RowNumberIsOne<V>(s: seq<Row<V>>, i: nat)
    requires i < |s|
    ensures RowNumber(s, i) == 1 <==> !HasId(s[..i], s[i].id)
  {
    var key := (r: Row<V>) => r.id;
    assert s[..i + 1] == s[..i] + [s[i]];
    GroupAppend(s[..i], [s[i]], key, s[i].id);
    var g := Group(s[..i], key, s[i].id);
    assert Group([s[i]], key, s[i].id) == [s[i]];
    if HasId(s[..i], s[i].id) {
      var j :| 0 <= j < i && s[..i][j].id == s[i].id;
      assert s[..i][j] in g;
    }
    if g != [] {
      assert g[0] in g;
      var j :| 0 <= j < i && s[..i][j] == g[0];
    }
  }

  /** `r` is the first row of its key in the window order. */
  ghost predicate IsFirst<V>(s: seq<Row<V>>, r: Row<V>) {
    exists i :: 0 <= i < |s| && s[i] == r && !HasId(s[..i], r.id)
  }

  lemma {:induction false} RankOneKeepsFirsts<V>(s: seq<Row<V>>, r: Row<V>)
    requires r in RankOne(s)
    ensures IsFirst(s, r)
  {
    var n := |s| - 1;
    if r in RankOne(s[..n]) {
      RankOneKeepsFirsts(s[..n], r);
      var i :| 0 <= i < n && s[..n][i] == r && !HasId(s[..n][..i], r.id);
      assert s[..i] == s[..n][..i] && s[i] == r;
    } else {
      RowNumberIsOne(s, n);
      assert s[n] == r && !HasId(s[..n], r.id);
    }
  }

  lemma {:induction false} RankOneCovers<V>(s: seq<Row<V>>, id: int)
    ensures HasId(s, id) <==> HasId(RankOne(s), id)
  {
    if s != [] {
      var n := |s| - 1;
      RankOneCovers(s[..n], id);
      RankOneCovers(s[..n], s[n].id);
      RowNumberIsOne(s, n);
      assert s == s[..n] + [s[n]];
      assert RowNumber(s, n) != 1 ==> RankOne(s) == RankOne(s[..n]);
      HasIdSnoc(s[..n], s[n], id);
      HasIdSnoc(RankOne(s[..n]), s[n], id);
    }
  }

  lemma {:induction false} RankOneDistinct<V>(s: seq<Row<V>>)
    ensures DistinctIds(RankOne(s))
  {
    if s != [] {
      var n := |s| - 1;
      RankOneDistinct(s[..n]);
      RowNumberIsOne(s, n);
      RankOneCovers(s[..n], s[n].id);
    }
  }

  lemma HasIdSnoc<V>(s: seq<Row<V>>, r: Row<V>, id: int)
    ensures HasId(s + [r], id) <==> HasId(s, id) || r.id == id
  {
    if HasId(s, id) {
      var i :| 0 <= i < |s| && s[i].id == id;
      assert (s + [r])[i].id == id;
    }
    assert (s + [r])[|s|] == r;
  }

  /** For every input and every order of ties, the window keeps one newest row per key. */
  lemma LatestPerKeyKeepsNewest<V>(rows: seq<Row<V>>, sorted: seq<Row<V>>)
    requires IsWindowOrder(rows, sorted)
    ensures IsLatestPerKey(rows, RankOne(sorted))
  {
    RankOneDistinct(sorted);
    forall r | r in rows ensures r in sorted { SameMembers(rows, sorted, r); }
    forall r | r in RankOne(sorted) ensures Newest(rows, r) {
      RankOneKeepsFirsts(sorted, r);
      SameMembers(rows, sorted, r);
      var i :| 0 <= i < |sorted| && sorted[i] == r && !HasId(sorted[..i], r.id);
      forall x | x in rows && x.id == r.id ensures x.ts <= r.ts {
        assert x in sorted;
        var j :| 0 <= j < |sorted| && sorted[j] == x;
        EarlierIds(sorted, i);
      }
    }
    forall id | HasId(rows, id) ensures HasId(RankOne(sorted), id) {
      var i :| 0 <= i < |rows| && rows[i].id == id;
      assert rows[i] in sorted;
      RankOneCovers(sorted, id);
    }
  }

  lemma EarlierIds<V>(s: seq<Row<V>>, i: nat)
    requires i <= |s|
    ensures forall j :: 0 <= j < i ==> HasId(s[..i], s[j].id)
  {
  }

  lemma SameMembers<V>(s: seq<Row<V>>, t: seq<Row<V>>, r: Row<V>)
    requires multiset(s) == multiset(t)
    ensures r in s <==> r in t
  {
    assert r in s <==> r in multiset(s);
    assert r in t <==> r in multiset(t);
  }

  // ---- when the result is determined --------------------------------------------

  /** All newest rows of the key carry the same value. */
  ghost predicate TiesAgree<V(!new)>(rows: seq<Row<V>>, id: int) {
    forall x, y :: Newest(rows, x) && Newest(rows, y) && x.id == id && y.id == id ==> x.val == y.val
  }

  /** Whatever the engine does with ties, the key ends up with the same value. */
  ghost predicate Determined<V(!new)>(rows: seq<Row<V>>, id: int) {
    forall s, t, x, y | IsWindowOrder(rows, s) && IsWindowOrder(rows, t) && x in RankOne(s) && y in RankOne(t) ::
      x.id == id && y.id == id ==> x.val == y.val
  }

  /** The position right before the first row that is not newer. */
  function InsertAt<V>(r: Row<V>, s: seq<Row<V>>): (k: nat)
    ensures k <= |s|
    ensures forall i :: 0 <= i < k ==> s[i].ts > r.ts
    ensures k < |s| ==> s[k].ts <= r.ts
  {
    if s == [] || s[0].ts <= r.ts then 0
    else
      var k := InsertAt(r, s[1..]);
      assert forall i :: 0 < i < k + 1 ==> s[i] == s[1..][i - 1];
      k + 1
  }

  function InsertDesc<V>(r: Row<V>, s: seq<Row<V>>): seq<Row<V>> {
    var k := InsertAt(r, s);
    s[..k] + [r] + s[k..]
  }

  function SortDesc<V>(s: seq<Row<V>>): seq<Row<V>> {
    if s == [] then [] else InsertDesc(s[0], SortDesc(s[1..]))
  }

  lemma InsertDescSorts<V>(r: Row<V>, s: seq<Row<V>>)
    requires SortedDesc(s)
    ensures SortedDesc(InsertDesc(r, s))
    ensures multiset(InsertDesc(r, s)) == multiset(s) + multiset{r}
  {
    var k := InsertAt(r, s);
    assert s == s[..k] + s[k..];
    forall i | k <= i < |s| ensures s[i].ts <= r.ts { if i > k { assert s[k].ts >= s[i].ts; } }
    InsertedSorted(r, s, k);
  }

  lemma InsertedSorted<V>(r: Row<V>, s: seq<Row<V>>, k: nat)
    requires SortedDesc(s) && k <= |s|
    requires forall i :: 0 <= i < k ==> s[i].ts > r.ts
    requires forall i :: k <= i < |s| ==> s[i].ts <= r.ts
    ensures SortedDesc(s[..k] + [r] + s[k..])
  {
  }

  lemma {:induction false} SortDescSorts<V>(s: seq<Row<V>>)
    ensures IsWindowOrder(s, SortDesc(s))
  {
    if s != [] {
      SortDescSorts(s[1..]);
      InsertDescSorts(s[0], SortDesc(s[1..]));
      assert s == [s[0]] + s[1..];
    }
  }

  lemma {:induction false} FirstIsKept<V>(s: seq<Row<V>>, i: nat)
    requires i < |s| && !HasId(s[..i], s[i].id)
    ensures s[i] in RankOne(s)
  {
    var n := |s| - 1;
    if i == n {
      RowNumberIsOne(s, n);
    } else {
      assert s[..n][..i] == s[..i];
      FirstIsKept(s[..n], i);
    }
  }

  /** Every newest row of a key is what some order of ties keeps. */
  lemma SomeOrderKeeps<V>(rows: seq<Row<V>>, x: Row<V>) returns (s: seq<Row<V>>)
    requires Newest(rows, x)
    ensures IsWindowOrder(rows, s) && x in RankOne(s)
  {
    var i :| 0 <= i < |rows| && rows[i] == x;
    var others := rows[..i] + rows[i + 1..];
    assert rows == rows[..i] + [x] + rows[i + 1..];
    var t := SortDesc(others);
    SortDescSorts(others);
    InsertDescSorts(x, t);
    s := InsertDesc(x, t);
    var k := InsertAt(x, t);
    assert s[k] == x && s[..k] == t[..k];
    forall j | 0 <= j < k ensures t[j].id != x.id {
      SameMembers(others, t, t[j]);
      assert t[j] in rows;
    }
    FirstIsKept(s, k);
  }

  /** The dedup is determined for a key exactly when the data decides it. */
  lemma DeterminedIffTiesAgree<V(!new)>(rows: seq<Row<V>>, id: int)
    ensures Determined(rows, id) <==> TiesAgree(rows, id)
  {
    if TiesAgree(rows, id) {
      forall s, t, x, y | IsWindowOrder(rows, s) && IsWindowOrder(rows, t) && x in RankOne(s) && y in RankOne(t) &&
                          x.id == id && y.id == id
        ensures x.val == y.val
      {
        LatestPerKeyKeepsNewest(rows, s);
        LatestPerKeyKeepsNewest(rows, t);
      }
    }
    if Determined(rows, id) {
      forall x, y | Newest(rows, x) && Newest(rows, y) && x.id == id && y.id == id ensures x.val == y.val {
        var s := SomeOrderKeeps(rows, x);
        var t := SomeOrderKeeps(rows, y);
      }
    }
  }

  /** Deduplicating twice keeps exactly the same rows, whatever happens with ties. */
  lemma DedupIsIdempotent<V>(rows: seq<Row<V>>, sorted: seq<Row<V>>, again: seq<Row<V>>)
    requires IsWindowOrder(rows, sorted) && IsWindowOrder(RankOne(sorted), again)
    ensures DistinctIds(RankOne(again))
    ensures forall r: Row<V> :: r in RankOne(again) <==> r in RankOne(sorted)
  {
    var once, twice := RankOne(sorted), RankOne(again);
    LatestPerKeyKeepsNewest(rows, sorted);
    LatestPerKeyKeepsNewest(once, again);
    forall r | r in once ensures r in twice {
      var i :| 0 <= i < |once| && once[i] == r;
      assert HasId(once, r.id);
      var k :| 0 <= k < |twice| && twice[k].id == r.id;
      assert twice[k] in twice && Newest(once, twice[k]);
      var j :| 0 <= j < |once| && once[j] == twice[k];
      assert once[i].id == once[j].id;
    }
  }

  // ---- one pass ------------------------------------------------------------------------

  /** The map holds exactly one newest row for every key of the rows. */
  ghost predicate HoldsNewest<V>(rows: seq<Row<V>>, newest: map<int, Row<V>>) {
    && (forall id :: id in newest ==> newest[id].id == id && Newest(rows, newest[id]))
    && (forall r :: r in rows ==> r.id in newest)
  }

  /** Last write wins, one row at a time. */
  method KeepNewest<V>(rows: seq<Row<V>>) returns (newest: map<int, Row<V>>)
    ensures HoldsNewest(rows, newest)
  {
    newest := map[];
    for i := 0 to |rows|
      invariant HoldsNewest(rows[..i], newest)
    {
      assert rows[..i + 1] == rows[..i] + [rows[i]];
      if rows[i].id !in newest || newest[rows[i].id].ts <= rows[i].ts {
        newest := newest[rows[i].id := rows[i]];
      }
    }
    assert rows[..|rows|] == rows;
  }

  /** Where ties agree, the one-pass map and `row_number() = 1` keep the same rows. */
  lemma OnePassIsRowNumber<V(!new)>(rows: seq<Row<V>>, newest: map<int, Row<V>>, sorted: seq<Row<V>>)
    requires HoldsNewest(rows, newest) && IsWindowOrder(rows, sorted) && forall id :: TiesAgree(rows, id)
    ensures forall r: Row<V> :: r in RankOne(sorted) <==> r.id in newest && newest[r.id] == r
  {
    var out := RankOne(sorted);
    LatestPerKeyKeepsNewest(rows, sorted);
    forall r | r in out ensures r.id in newest && newest[r.id] == r { assert Newest(rows, r) && TiesAgree(rows, r.id); }
    forall id | id in newest ensures newest[id] in out {
      var r := newest[id];
      var i :| 0 <= i < |rows| && rows[i] == r;
      assert HasId(rows, id) && HasId(out, id);
      var k :| 0 <= k < |out| && out[k].id == id;
      assert out[k] in out;
    }
  }
}
