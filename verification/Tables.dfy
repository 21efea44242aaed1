/** Iceberg tables under dynamic partition overwrite. */
module Tables {
  import opened Aggregates

  function InSomeRow<R, P(==)>(rows: seq<R>, partition: R -> P, p: P): bool {
    exists i :: 0 <= i < |rows| && partition(rows[i]) == p
  }

  function Kept<R, P(==)>(out: seq<R>, partition: R -> P): R -> bool {
    (r: R) => !InSomeRow(out, partition, partition(r))
  }

  /** `overwritePartitions()`: partitions present in the output are replaced, all
      others keep their rows. */
  function Overwrite<R, P(==)>(stored: seq<R>, out: seq<R>, partition: R -> P): seq<R> {
    Filter(stored, Kept(out, partition)) + out
  }

  ghost predicate Touched<R, P>(stored: seq<R>, out: seq<R>, partition: R -> P) {
    forall r :: r in stored ==> InSomeRow(out, partition, partition(r))
  }

  /** The stored table is the new output exactly when every old row's partition is touched. */
  lemma OverwriteIsRecomputeIffTouched<R, P>(stored: seq<R>, out: seq<R>, partition: R -> P)
    ensures Overwrite(stored, out, partition) == out <==> Touched(stored, out, partition)
    ensures multiset(Overwrite(stored, out, partition)) == multiset(out) <==> Touched(stored, out, partition)
  {
    var kept := Filter(stored, Kept(out, partition));
    assert |Overwrite(stored, out, partition)| == |kept| + |out|;
    assert |multiset(kept + out)| == |kept| + |out|;
    if Touched(stored, out, partition) {
      FilterNone(stored, Kept(out, partition));
      assert kept + out == out;
    } else {
      var r :| r in stored && !InSomeRow(out, partition, partition(r));
      assert r in kept && |kept| > 0;
    }
  }

  /** What replacing partitions means: in each partition that occurs in the output the
      output's rows, in every other one the rows stored before. */
  ghost predicate Replaced<R, P(!new)>(stored: seq<R>, out: seq<R>, partition: R -> P, now: seq<R>) {
    forall p :: Group(now, partition, p) == if InSomeRow(out, partition, p) then Group(out, partition, p) else Group(stored, partition, p)
  }

  lemma {:induction false} GroupOfKept<R, P>(stored: seq<R>, out: seq<R>, partition: R -> P, p: P)
    ensures Group(Filter(stored, Kept(out, partition)), partition, p)
         == if InSomeRow(out, partition, p) then [] else Group(stored, partition, p)
  {
    if stored != [] {
      var r, rest := stored[0], Filter(stored[1..], Kept(out, partition));
      GroupOfKept(stored[1..], out, partition, p);
      var first := if Kept(out, partition)(r) then [r] else [];
      assert Filter(stored, Kept(out, partition)) == first + rest && stored == [r] + stored[1..];
      GroupAppend(first, rest, partition, p);
      GroupAppend([r], stored[1..], partition, p);
    }
  }

  lemma GroupOutside<R, P>(out: seq<R>, partition: R -> P, p: P)
    requires !InSomeRow(out, partition, p)
    ensures Group(out, partition, p) == []
  {
    forall r | r in out ensures partition(r) != p { var i :| 0 <= i < |out| && out[i] == r; }
    GroupWithoutKey(out, partition, p);
  }

  lemma OverwriteReplaces<R, P(!new)>(stored: seq<R>, out: seq<R>, partition: R -> P)
    ensures Replaced(stored, out, partition, Overwrite(stored, out, partition))
  {
    var kept := Filter(stored, Kept(out, partition));
    forall p ensures Group(kept + out, partition, p)
      == if InSomeRow(out, partition, p) then Group(out, partition, p) else Group(stored, partition, p)
    {
      GroupAppend(kept, out, partition, p);
      GroupOfKept(stored, out, partition, p);
      if !InSomeRow(out, partition, p) { GroupOutside(out, partition, p); }
    }
  }

  class Table<R, P(==,!new)> {
    const partition: R -> P
    var rows: seq<R>

    constructor (partition: R -> P)
      ensures this.partition == partition && rows == []
    {
      this.partition := partition;
      rows := [];
    }

    method Append(more: seq<R>) returns (count: nat)
      modifies this
      ensures rows == old(rows) + more && count == |more|
    {
      count := |more|;
      if count == 0 {
        assert rows + more == rows;
        return;
      }
      rows := rows + more;
    }

    /** Rows of partitions that occur in the output are dropped, then the output is added. */
    method OverwritePartitions(out: seq<R>)
      modifies this
      ensures Replaced(old(rows), out, partition, rows)
      ensures rows == Overwrite(old(rows), out, partition)
    {
      var kept: seq<R> := [];
      for i := 0 to |rows|
        invariant rows == old(rows)
        invariant kept == Filter(rows[..i], Kept(out, partition))
      {
        assert rows[..i + 1] == rows[..i] + [rows[i]];
        FilterAppend(rows[..i], [rows[i]], Kept(out, partition));
        if !InSomeRow(out, partition, partition(rows[i])) { kept := kept + [rows[i]]; }
      }
      assert rows[..|rows|] == rows;
      rows := kept + out;
      OverwriteReplaces(old(rows), out, partition);
    }
  }
}
