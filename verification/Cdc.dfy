/** Change-log topics, the append-only Bronze table, and Silver's filter-then-dedup. */
module Cdc {
  import opened Options
  import opened Aggregates
  import opened Dedup

  /** The ops that carry a row image in `after`: UPSERT_OPS = ("c", "u", "r"). */
  datatype SourceOp = Create | Update | Read

  datatype Event<V> =
    | Upsert(op: SourceOp, key: int, before: Option<V>, after: V)
    | Delete(key: int, removed: V)
    | Tombstone(key: int)

  /** What Silver stores of an upsert: the row image and `_source_op`. */
  datatype Image<V> = Image(op: SourceOp, row: V)

  // ---- the source table behind a change log ---------------------------------------

  function Apply<V>(table: map<int, V>, e: Event<V>): map<int, V> {
    match e
    case Upsert(_, key, _, after) => table[key := after]
    case Delete(key, _) => table - {key}
    case Tombstone(_) => table
  }

  function Replay<V>(log: seq<Event<V>>): map<int, V> {
    if log == [] then map[] else Apply(Replay(log[..|log| - 1]), log[|log| - 1])
  }

  /** Every key's last upsert, deletes ignored. */
  function Upserts<V>(log: seq<Event<V>>): map<int, Image<V>> {
    if log == [] then map[]
    else
      var m, e := Upserts(log[..|log| - 1]), log[|log| - 1];
      if e.Upsert? then m[e.key := Image(e.op, e.after)] else m
  }

  function BusinessColumns<V>(m: map<int, Image<V>>): map<int, V> {
    map k | k in m :: m[k].row
  }

  /** The log of a table whose `before` images are the rows they replace
      (REPLICA IDENTITY FULL) and which never inserts a live key again. */
  ghost predicate WellFormed<V>(log: seq<Event<V>>) {
    forall i :: 0 <= i < |log| ==> Follows(Replay(log[..i]), log[i])
  }

  predicate Follows<V(==)>(table: map<int, V>, e: Event<V>) {
    match e
    case Upsert(Update, key, before, _) => key in table && before == Some(table[key])
    case Upsert(_, key, _, _) => key !in table
    case Delete(key, removed) => key in table && removed == table[key]
    case Tombstone(_) => true
  }

  // ---- Bronze ------------------------------------------------------------------------

  datatype BronzeRow<V> = BronzeRow(ts: int, event: Event<V>)

  /** `ts_ms` of the record at an offset. */
  type Clock = int -> int

  /** `ts_ms` never falls along the events of one key; events may tie. */
  ghost predicate InOrderPerKey<V>(log: seq<Event<V>>, clock: Clock) {
    forall i, j :: 0 <= i < j < |log| && log[i].key == log[j].key ==> clock(i) <= clock(j)
  }

  /** No upsert that ties with its key's last one carries another image. */
  ghost predicate LastIsClear<V>(log: seq<Event<V>>, clock: Clock) {
    forall i, j :: IsLastUpsert(log, j) && Ties(log, clock, i, j) ==> log[i].op == log[j].op && log[i].after == log[j].after
  }

  ghost predicate Ties<V>(log: seq<Event<V>>, clock: Clock, i: int, j: int)
    requires 0 <= j < |log|
  {
    0 <= i < |log| && log[i].Upsert? && log[i].key == log[j].key && clock(i) == clock(j)
  }

  predicate ValidOffsets<V>(log: seq<Event<V>>, offsets: seq<int>) {
    forall k :: 0 <= k < |offsets| ==> 0 <= offsets[k] < |log|
  }

  /** One bounded read of a topic: the records at the offsets that are still there, in
      whatever order, tombstones (empty values) dropped by the envelope parser. */
  function ReadTopic<V>(log: seq<Event<V>>, clock: Clock, offsets: seq<int>): (rows: seq<BronzeRow<V>>)
    requires ValidOffsets(log, offsets)
    ensures |rows| <= |offsets|
    ensures forall r :: r in rows ==> exists o :: o in offsets && !log[o].Tombstone? && r == BronzeRow(clock(o), log[o])
    ensures forall o :: o in offsets && !log[o].Tombstone? ==> BronzeRow(clock(o), log[o]) in rows
  {
    if offsets == [] then []
    else
      var rest := ReadTopic(log, clock, offsets[1..]);
      var o := offsets[0];
      if log[o].Tombstone? then rest else [BronzeRow(clock(o), log[o])] + rest
  }

  ghost predicate IsRecord<V>(log: seq<Event<V>>, clock: Clock, r: BronzeRow<V>) {
    exists i :: 0 <= i < |log| && !log[i].Tombstone? && r == BronzeRow(clock(i), log[i])
  }

  ghost predicate IsLastUpsert<V>(log: seq<Event<V>>, i: int) {
    0 <= i < |log| && log[i].Upsert? && forall j :: i < j < |log| && log[j].key == log[i].key ==> !log[j].Upsert?
  }

  /** Bronze holds nothing but records of the topic (any number of copies, any order)
      and, for every key, its last upsert. */
  ghost predicate Faithful<V>(bronze: seq<BronzeRow<V>>, log: seq<Event<V>>, clock: Clock) {
    && (forall r :: r in bronze ==> IsRecord(log, clock, r))
    && (forall i :: IsLastUpsert(log, i) ==> BronzeRow(clock(i), log[i]) in bronze)
  }

  /** What a bounded read must still find: the last upsert of every key, unless an
      earlier run already brought it into Bronze. */
  ghost predicate Retains<V>(bronze: seq<BronzeRow<V>>, log: seq<Event<V>>, clock: Clock, offsets: seq<int>) {
    && ValidOffsets(log, offsets)
    && forall i :: IsLastUpsert(log, i) ==> i in offsets || BronzeRow(clock(i), log[i]) in bronze
  }

  /** Re-appending the topic, in full or compacted, keeps Bronze faithful to the grown log. */
  lemma IngestKeepsFaithful<V>(
      bronze: seq<BronzeRow<V>>, older: seq<Event<V>>, log: seq<Event<V>>, clock: Clock, offsets: seq<int>)
    requires older <= log
    requires forall r :: r in bronze ==> IsRecord(older, clock, r)
    requires Retains(bronze, log, clock, offsets)
    ensures Faithful(bronze + ReadTopic(log, clock, offsets), log, clock)
  {
  }

  /** What `cleanup.policy: compact,delete` leaves of a topic: records before some offset may
      have expired, and of the others compaction keeps each key's last one. */
  ghost predicate Keeps<V>(log: seq<Event<V>>, offsets: seq<int>, expired: nat) {
    && ValidOffsets(log, offsets)
    && forall i :: expired <= i < |log| && LastOfKey(log, i) ==> i in offsets
  }

  ghost predicate LastOfKey<V>(log: seq<Event<V>>, i: nat)
    requires i < |log|
  {
    forall j :: i < j < |log| ==> log[j].key != log[i].key
  }

  /** As long as no key ends in a delete or tombstone, and some run had read the topic
      beyond every record that has expired since, nothing that Silver needs is lost. */
  lemma RetentionRetains<V>(bronze: seq<BronzeRow<V>>, log: seq<Event<V>>, clock: Clock, offsets: seq<int>, expired: nat, read: nat)
    requires Keeps(log, offsets, expired) && expired <= read <= |log| && Faithful(bronze, log[..read], clock)
    requires forall i :: 0 <= i < |log| ==> log[i].Upsert?
    ensures Retains(bronze, log, clock, offsets)
  {
    forall i | IsLastUpsert(log, i) ensures i in offsets || BronzeRow(clock(i), log[i]) in bronze {
      if i < expired { assert IsLastUpsert(log[..read], i); } else { assert LastOfKey(log, i); }
    }
  }

  // ---- Silver: filter, then deduplicate ------------------------------------------------

  /** `filter(op in UPSERT_OPS)` and the projection of `after`. */
  function UpsertRows<V>(bronze: seq<BronzeRow<V>>): (rows: seq<Row<Image<V>>>)
    ensures |rows| <= |bronze|
    ensures forall r :: r in rows ==> exists b :: b in bronze && b.event.Upsert? && r == UpsertRow(b)
    ensures forall b :: b in bronze && b.event.Upsert? ==> UpsertRow(b) in rows
  {
    if bronze == [] then []
    else
      var rest := UpsertRows(bronze[1..]);
      if bronze[0].event.Upsert? then [UpsertRow(bronze[0])] + rest else rest
  }

  function UpsertRow<V>(b: BronzeRow<V>): Row<Image<V>>
    requires b.event.Upsert?
  {
    Row(b.event.key, b.ts, Image(b.event.op, b.event.after))
  }

  /** The rows are the table: one row per key, nothing else. */
  ghost predicate Represents<V>(rows: seq<Row<V>>, table: map<int, V>) {
    && DistinctIds(rows)
    && (forall r :: r in rows ==> r.id in table && r.val == table[r.id])
    && (forall id :: id in table ==> HasId(rows, id))
  }

  lemma {:induction false} UpsertsHoldsLast<V>(log: seq<Event<V>>, i: int)
    requires IsLastUpsert(log, i)
    ensures log[i].key in Upserts(log) && Upserts(log)[log[i].key] == Image(log[i].op, log[i].after)
  {
    var n := |log| - 1;
    if i < n {
      assert IsLastUpsert(log[..n], i);
      UpsertsHoldsLast(log[..n], i);
    }
  }

  lemma {:induction false} LastUpsertOf<V>(log: seq<Event<V>>, key: int) returns (i: int)
    requires (exists j :: 0 <= j < |log| && log[j].Upsert? && log[j].key == key) || key in Upserts(log)
    ensures IsLastUpsert(log, i) && log[i].key == key
  {
    var n := |log| - 1;
    if log[n].Upsert? && log[n].key == key {
      i := n;
    } else {
      if j :| 0 <= j < |log| && log[j].Upsert? && log[j].key == key { assert log[..n][j] == log[j]; }
      i := LastUpsertOf(log[..n], key);
      assert log[i] == log[..n][i];
      forall j | i < j < |log| && log[j].key == key ensures !log[j].Upsert? {
        if j < n { assert log[..n][j] == log[j]; }
      }
    }
  }

  /** Every key's newest Bronze rows agree, so that ties do not matter. */
  ghost predicate Settled<V(!new)>(bronze: seq<BronzeRow<V>>) { forall id :: TiesAgree(UpsertRows(bronze), id) }

  /** The last upsert of a key is among its newest rows. */
  lemma LastIsNewest<V>(log: seq<Event<V>>, clock: Clock, bronze: seq<BronzeRow<V>>, last: int)
    requires InOrderPerKey(log, clock) && Faithful(bronze, log, clock) && IsLastUpsert(log, last)
    ensures Newest(UpsertRows(bronze), UpsertRow(BronzeRow(clock(last), log[last])))
  {
    var row := UpsertRow(BronzeRow(clock(last), log[last]));
    forall x | x in UpsertRows(bronze) && x.id == row.id ensures x.ts <= row.ts {
      var b :| b in bronze && b.event.Upsert? && x == UpsertRow(b);
      var i :| 0 <= i < |log| && !log[i].Tombstone? && b == BronzeRow(clock(i), log[i]);
      assert i <= last;
    }
  }

  /** From any faithful Bronze table and whatever the engine does with ties, Silver is
      exactly every key's last upsert. */
  lemma SilverIsLastUpserts<V(!new)>(
      log: seq<Event<V>>, clock: Clock, bronze: seq<BronzeRow<V>>, sorted: seq<Row<Image<V>>>)
    requires InOrderPerKey(log, clock) && Faithful(bronze, log, clock) && Settled(bronze)
    requires IsWindowOrder(UpsertRows(bronze), sorted)
    ensures Represents(RankOne(sorted), Upserts(log))
  {
    var rows, out := UpsertRows(bronze), RankOne(sorted);
    LatestPerKeyKeepsNewest(rows, sorted);
    forall r | r in out ensures r.id in Upserts(log) && r.val == Upserts(log)[r.id] {
      assert Newest(rows, r);
      var b :| b in bronze && b.event.Upsert? && r == UpsertRow(b);
      var i :| 0 <= i < |log| && !log[i].Tombstone? && b == BronzeRow(clock(i), log[i]);
      var last := LastUpsertOf(log, r.id);
      UpsertsHoldsLast(log, last);
      LastIsNewest(log, clock, bronze, last);
      assert TiesAgree(rows, r.id);
    }
    forall id | id in Upserts(log) ensures HasId(out, id) {
      var last := LastUpsertOf(log, id);
      var row := UpsertRow(BronzeRow(clock(last), log[last]));
      assert row in rows;
      var k :| 0 <= k < |rows| && rows[k] == row;
      assert rows[k].id == id;
      assert HasId(rows, id);
    }
  }

  /** Silver is every key's last upsert under every order of ties. */
  ghost predicate AlwaysLastUpserts<V(!new)>(log: seq<Event<V>>, bronze: seq<BronzeRow<V>>) {
    forall sorted :: IsWindowOrder(UpsertRows(bronze), sorted) ==> Represents(RankOne(sorted), Upserts(log))
  }

  lemma KeptRowIsLast<V(!new)>(log: seq<Event<V>>, bronze: seq<BronzeRow<V>>, x: Row<Image<V>>)
    requires AlwaysLastUpserts(log, bronze) && Newest(UpsertRows(bronze), x)
    ensures x.id in Upserts(log) && x.val == Upserts(log)[x.id]
  {
    var s := SomeOrderKeeps(UpsertRows(bronze), x);
    assert Represents(RankOne(s), Upserts(log));
  }

  lemma AlwaysSettled<V(!new)>(log: seq<Event<V>>, bronze: seq<BronzeRow<V>>)
    requires AlwaysLastUpserts(log, bronze)
    ensures Settled(bronze)
  {
    forall x, y | Newest(UpsertRows(bronze), x) && Newest(UpsertRows(bronze), y) && x.id == y.id ensures x.val == y.val {
      KeptRowIsLast(log, bronze, x);
      KeptRowIsLast(log, bronze, y);
    }
  }

  /** The exact condition: that is so if and only if each key's newest Bronze rows agree. */
  lemma LastUpsertsIffSettled<V(!new)>(log: seq<Event<V>>, clock: Clock, bronze: seq<BronzeRow<V>>)
    requires InOrderPerKey(log, clock) && Faithful(bronze, log, clock)
    ensures AlwaysLastUpserts(log, bronze) <==> Settled(bronze)
  {
    if Settled(bronze) {
      forall sorted | IsWindowOrder(UpsertRows(bronze), sorted) ensures Represents(RankOne(sorted), Upserts(log)) {
        SilverIsLastUpserts(log, clock, bronze, sorted);
      }
    }
    if AlwaysLastUpserts(log, bronze) { AlwaysSettled(log, bronze); }
  }

  /** A log whose last upserts are clear settles every Bronze table built from it, and
      one that holds all its records only then. */
  lemma SettledIfClear<V(!new)>(log: seq<Event<V>>, clock: Clock, bronze: seq<BronzeRow<V>>)
    requires InOrderPerKey(log, clock) && Faithful(bronze, log, clock)
    ensures LastIsClear(log, clock) ==> Settled(bronze)
    ensures (forall i :: 0 <= i < |log| && log[i].Upsert? ==> BronzeRow(clock(i), log[i]) in bronze) && Settled(bronze)
      ==> LastIsClear(log, clock)
  {
    var rows := UpsertRows(bronze);
    if LastIsClear(log, clock) {
      forall x, y | Newest(rows, x) && Newest(rows, y) && x.id == y.id ensures x.val == y.val {
        NewestIsLast(log, clock, bronze, x);
        NewestIsLast(log, clock, bronze, y);
      }
      assert forall id :: TiesAgree(rows, id);
    }
    if (forall i :: 0 <= i < |log| && log[i].Upsert? ==> BronzeRow(clock(i), log[i]) in bronze) && Settled(bronze) {
      forall i, j | IsLastUpsert(log, j) && Ties(log, clock, i, j) ensures log[i].op == log[j].op && log[i].after == log[j].after {
        LastIsNewest(log, clock, bronze, j);
        assert UpsertRow(BronzeRow(clock(i), log[i])) in rows && TiesAgree(rows, log[j].key);
        assert Newest(rows, UpsertRow(BronzeRow(clock(i), log[i])));
      }
    }
  }

  lemma NewestIsLast<V>(log: seq<Event<V>>, clock: Clock, bronze: seq<BronzeRow<V>>, x: Row<Image<V>>)
    requires InOrderPerKey(log, clock) && Faithful(bronze, log, clock) && LastIsClear(log, clock)
    requires Newest(UpsertRows(bronze), x)
    ensures x.id in Upserts(log) && x.val == Upserts(log)[x.id]
  {
    var b :| b in bronze && b.event.Upsert? && x == UpsertRow(b);
    var i :| 0 <= i < |log| && !log[i].Tombstone? && b == BronzeRow(clock(i), log[i]);
    var last := LastUpsertOf(log, x.id);
    UpsertsHoldsLast(log, last);
    LastIsNewest(log, clock, bronze, last);
    assert UpsertRow(BronzeRow(clock(last), log[last])) in UpsertRows(bronze);
    assert i <= last && Ties(log, clock, i, last);
  }

  // ---- deletes ---------------------------------------------------------------------------

  /** The key's last event, tombstones aside, is a delete. */
  ghost predicate EndsDeleted<V>(log: seq<Event<V>>, key: int) {
    exists i :: 0 <= i < |log| && log[i].Delete? && log[i].key == key &&
                forall j :: i < j < |log| && log[j].key == key ==> !log[j].Upsert?
  }

  lemma {:induction false} ReplayIsUpsertsButDeleted<V>(log: seq<Event<V>>, key: int)
    ensures key in Replay(log) <==> key in Upserts(log) && !EndsDeleted(log, key)
    ensures key in Replay(log) ==> Replay(log)[key] == Upserts(log)[key].row
  {
    if log != [] {
      var n := |log| - 1;
      var init, e := log[..n], log[n];
      ReplayIsUpsertsButDeleted(init, key);
      assert forall j :: 0 <= j < n ==> init[j] == log[j];
      if e.key == key && e.Delete? {
        assert EndsDeleted(log, key);
      } else if e.key == key && e.Upsert? {
        assert !EndsDeleted(log, key);
      } else {
        if EndsDeleted(init, key) {
          var i :| 0 <= i < n && init[i].Delete? && init[i].key == key &&
                   forall j :: i < j < n && init[j].key == key ==> !init[j].Upsert?;
          assert log[i].Delete? && forall j :: i < j < |log| && log[j].key == key ==> !log[j].Upsert?;
        }
        if EndsDeleted(log, key) {
          var i :| 0 <= i < |log| && log[i].Delete? && log[i].key == key &&
                   forall j :: i < j < |log| && log[j].key == key ==> !log[j].Upsert?;
          assert init[i].Delete?;
        }
      }
    }
  }

  lemma UpsertsAreTheTableIffNoDelete<V>(log: seq<Event<V>>)
    ensures BusinessColumns(Upserts(log)) == Replay(log) <==> forall key :: key in Upserts(log) ==> !EndsDeleted(log, key)
  {
    var columns, table := BusinessColumns(Upserts(log)), Replay(log);
    assert forall key :: key in columns <==> key in Upserts(log);
    forall key ensures key in table <==> key in columns && !EndsDeleted(log, key) {
      ReplayIsUpsertsButDeleted(log, key);
    }
    forall key | key in table ensures table[key] == columns[key] {
      ReplayIsUpsertsButDeleted(log, key);
    }
    if forall key :: key in Upserts(log) ==> !EndsDeleted(log, key) {
      forall key | key in columns ensures key in table { ReplayIsUpsertsButDeleted(log, key); }
      assert forall key :: key in columns ==> key in table;
      assert forall key :: key in table ==> key in columns;
      assert forall key :: key in columns ==> columns[key] == table[key];
      assert columns.Keys == table.Keys;
      assert columns == table;
    }
  }

  /** Filtering to upserts before the dedup gives the source table exactly when no
      upserted key ends in a delete; otherwise the deleted row survives in Silver. */
  lemma FilterThenDedupIffNoDelete<V(!new)>(
      log: seq<Event<V>>, clock: Clock, bronze: seq<BronzeRow<V>>, sorted: seq<Row<Image<V>>>)
    requires InOrderPerKey(log, clock) && Faithful(bronze, log, clock) && Settled(bronze)
    requires IsWindowOrder(UpsertRows(bronze), sorted)
    ensures Represents(RankOne(sorted), Upserts(log))
    ensures BusinessColumns(Upserts(log)) == Replay(log) <==> forall key :: key in Upserts(log) ==> !EndsDeleted(log, key)
  {
    SilverIsLastUpserts(log, clock, bronze, sorted);
    UpsertsAreTheTableIffNoDelete(log);
  }

  /** Silver refines the source: with no delete in the log, Silver's business columns
      are the source table. */
  lemma SilverRefinesSource<V(!new)>(
      log: seq<Event<V>>, clock: Clock, bronze: seq<BronzeRow<V>>, sorted: seq<Row<Image<V>>>)
    requires InOrderPerKey(log, clock) && Faithful(bronze, log, clock) && Settled(bronze)
    requires IsWindowOrder(UpsertRows(bronze), sorted)
    requires forall i :: 0 <= i < |log| ==> !log[i].Delete?
    ensures Represents(RankOne(sorted), Upserts(log))
    ensures BusinessColumns(Upserts(log)) == Replay(log)
  {
    FilterThenDedupIffNoDelete(log, clock, bronze, sorted);
  }

  /** Deleting any live row: it leaves the source table and stays in Silver unchanged. */
  lemma DeletedRowSurvives<V(!new)>(
      log: seq<Event<V>>, key: int, clock: Clock, bronze: seq<BronzeRow<V>>, sorted: seq<Row<Image<V>>>)
      returns (r: Row<Image<V>>)
    requires key in Replay(log)
    requires var longer := log + [Delete(key, Replay(log)[key])];
      InOrderPerKey(longer, clock) && Faithful(bronze, longer, clock)
    requires Settled(bronze) && IsWindowOrder(UpsertRows(bronze), sorted)
    ensures key !in Replay(log + [Delete(key, Replay(log)[key])])
    ensures r in RankOne(sorted) && r.id == key && r.val.row == Replay(log)[key]
  {
    var longer := log + [Delete(key, Replay(log)[key])];
    assert longer[..|log|] == log;
    ReplayIsUpsertsButDeleted(log, key);
    SilverIsLastUpserts(longer, clock, bronze, sorted);
    var out := RankOne(sorted);
    assert HasId(out, key);
    var k :| 0 <= k < |out| && out[k].id == key;
    r := out[k];
  }

  /** The smallest such log: one row, created and deleted. */
  lemma CreatedAndDeleted<V>(v: V) returns (log: seq<Event<V>>)
    ensures WellFormed(log) && |log| == 2
    ensures Replay(log) == map[] && BusinessColumns(Upserts(log)) == map[1 := v]
  {
    var created: Event<V> := Upsert(Create, 1, None, v);
    log := [created, Delete(1, v)];
    var none: seq<Event<V>> := [];
    assert log[..0] == none && log[..1] == [created] && [created][..0] == none;
    assert Replay(none) == map[] && Replay([created]) == map[1 := v] && Upserts([created]) == map[1 := Image(Create, v)];
  }
}
