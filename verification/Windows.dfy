/** The Flink job: one-minute tumbling windows over the orders changelog, with
    retractions, a bounded-out-of-orderness watermark, checkpoints and replay. */
module Windows {
  import opened Aggregates
  import opened Cdc
  import opened Source

  const WINDOW_MS := 60_000
  const OUT_OF_ORDERNESS_MS := 5_000

  /** Long.MIN_VALUE: no watermark yet. */
  const NO_WATERMARK := -0x8000_0000_0000_0000

  // ---- the debezium-json changelog ---------------------------------------------------------

  datatype RowChange = Insert(row: Order) | Retract(row: Order)

  /** An update without its `before` image makes the format fail. */
  predicate Decodable(e: Event<Order>) { e.Upsert? && e.op == Update ==> e.before.Some? }

  function Unwrap(e: Event<Order>): seq<RowChange>
    requires Decodable(e)
  {
    match e
    case Upsert(Update, _, before, after) => [Retract(before.value), Insert(after)]
    case Upsert(_, _, _, after) => [Insert(after)]
    case Delete(_, removed) => [Retract(removed)]
    case Tombstone(_) => []
  }

  // ---- the window operator --------------------------------------------------------------------

  /** TUMBLE_START. */
  function WindowStart(ts: int): int { ts - ts % WINDOW_MS }

  /** The watermark has passed the window's last millisecond. */
  predicate Passed(start: int, watermark: int) { start + WINDOW_MS - 1 <= watermark }

  datatype Acc = Acc(count: int, sum: int)

  datatype WindowRow = WindowRow(start: int, end: int, count: int, sum: int)

  datatype Operator = Operator(watermark: int, accs: map<int, Acc>)

  const INITIAL: Operator := Operator(NO_WATERMARK, map[])

  function AccOf(accs: map<int, Acc>, start: int): Acc { if start in accs then accs[start] else Acc(0, 0) }

  /** A change to a closed window is late and dropped. */
  function Accumulate(op: Operator, c: RowChange): Operator {
    var start := WindowStart(c.row.updatedAt);
    if Passed(start, op.watermark) then op
    else
      var a := AccOf(op.accs, start);
      var a' := if c.Insert? then Acc(a.count + 1, a.sum + c.row.total) else Acc(a.count - 1, a.sum - c.row.total);
      op.(accs := op.accs[start := a'])
  }

  function AccumulateAll(op: Operator, cs: seq<RowChange>): Operator
    decreases |cs|
  {
    if cs == [] then op else AccumulateAll(Accumulate(op, cs[0]), cs[1..])
  }

  lemma {:induction false} LeastExists(s: set<int>)
    requires s != {}
    ensures exists m :: m in s && forall x :: x in s ==> m <= x
  {
    var m := Pick(s);
    if s == {m} {
      assert forall x :: x in s ==> m <= x;
    } else {
      LeastExists(s - {m});
      var n :| n in s - {m} && forall x :: x in s - {m} ==> n <= x;
      var least := if m <= n then m else n;
      assert least in s && forall x :: x in s ==> least <= x by {
        forall x | x in s ensures least <= x { if x != m { assert x in s - {m}; } }
      }
    }
  }

  function Least(s: set<int>): (m: int)
    requires s != {}
    ensures m in s && forall x :: x in s ==> m <= x
  {
    LeastExists(s);
    var m :| m in s && forall x :: x in s ==> m <= x;
    m
  }

  function WindowOutput(start: int, a: Acc): seq<WindowRow> {
    if a.count != 0 then [WindowRow(start, start + WINDOW_MS, a.count, a.sum)] else []
  }

  /** One row per window in time order; a window without rows emits nothing. */
  function Emit(starts: set<int>, accs: map<int, Acc>): (rows: seq<WindowRow>)
    ensures forall r :: r in rows ==> r.start in starts && r.count != 0
    decreases |starts|
  {
    if starts == {} then []
    else
      var s := Least(starts);
      WindowOutput(s, AccOf(accs, s)) + Emit(starts - {s}, accs)
  }

  function Due(accs: map<int, Acc>, watermark: int): set<int> { set s | s in accs && Passed(s, watermark) }

  /** A watermark never goes back. */
  function NextWatermark(op: Operator, w: int): int { if w > op.watermark then w else op.watermark }

  /** A watermark fires every window it closes and drops its state. */
  function Fire(op: Operator, w: int): (Operator, seq<WindowRow>) {
    var next := NextWatermark(op, w);
    var due := Due(op.accs, next);
    (op.(watermark := next, accs := op.accs - due), Emit(due, op.accs))
  }

  /** What the operator reads: a topic record, or a watermark of the source, whatever it is. */
  datatype Input = Record(event: Event<Order>) | Tick(watermark: int)

  predicate AllDecodable(inputs: seq<Input>) {
    forall i :: 0 <= i < |inputs| && inputs[i].Record? ==> Decodable(inputs[i].event)
  }

  function Consume(op: Operator, i: Input): (Operator, seq<WindowRow>)
    requires i.Record? ==> Decodable(i.event)
  {
    match i
    case Record(e) => (AccumulateAll(op, Unwrap(e)), [])
    case Tick(w) => Fire(op, w)
  }

  /** The operator and everything it emitted after reading the inputs without a crash. */
  function CrashFree(inputs: seq<Input>): (Operator, seq<WindowRow>)
    requires AllDecodable(inputs)
  {
    if inputs == [] then (INITIAL, [])
    else
      var (op, out) := CrashFree(inputs[..|inputs| - 1]);
      var (op', rows) := Consume(op, inputs[|inputs| - 1]);
      (op', out + rows)
  }

  // ---- the specification: recompute from the live rows -------------------------------------------

  /** The row was last updated in the whole minute that begins at `start`. */
  predicate InMinute(o: Order, start: int) { start % 60_000 == 0 && start <= o.updatedAt < start + 60_000 }

  function InWindow(start: int): Order -> int { (o: Order) => if InMinute(o, start) then 1 else 0 }

  function RevenueIn(start: int): Order -> int { (o: Order) => if InMinute(o, start) then o.total else 0 }

  /** COUNT(*) and SUM(total_amount) over the currently live rows of a window. */
  ghost function LiveAcc(live: map<int, Order>, start: int): Acc {
    Acc(MapSum(live, InWindow(start)), MapSum(live, RevenueIn(start)))
  }

  function LiveWindows(live: map<int, Order>): set<int> { set k | k in live :: WindowStart(live[k].updatedAt) }

  /** The rows due when the watermark moves from `from` to `to`. */
  ghost function Recompute(live: map<int, Order>, from: int, to: int): seq<WindowRow> {
    Emit(Closing(live, from, to), LiveAccs(live, Closing(live, from, to)))
  }

  /** The windows with live rows that end between two watermarks. */
  ghost function Closing(live: map<int, Order>, from: int, to: int): set<int> {
    set s | s in LiveWindows(live) && !Passed(s, from) && Passed(s, to)
  }

  ghost function LiveAccs(live: map<int, Order>, starts: set<int>): map<int, Acc> { map s | s in starts :: LiveAcc(live, s) }

  /** Live rows, watermark and output, with no window state at all. */
  datatype Spec = Spec(live: map<int, Order>, watermark: int, out: seq<WindowRow>)

  ghost function SpecConsume(s: Spec, i: Input): Spec
    requires i.Record? ==> Decodable(i.event)
  {
    match i
    case Record(e) => s.(live := Apply(s.live, e))
    case Tick(w) =>
      var next := if w > s.watermark then w else s.watermark;
      s.(watermark := next, out := s.out + Recompute(s.live, s.watermark, next))
  }

  /** The inputs are a well-formed changelog interleaved with watermarks. */
  ghost predicate ValidInputs(inputs: seq<Input>)
    decreases |inputs|, 0
  {
    inputs == [] ||
    (var n := |inputs| - 1;
     ValidInputs(inputs[..n]) && (inputs[n].Record? ==> Follows(SpecRun(inputs[..n]).live, inputs[n].event)))
  }

  ghost function SpecRun(inputs: seq<Input>): Spec
    requires ValidInputs(inputs)
    decreases |inputs|, 1
  {
    if inputs == [] then Spec(map[], NO_WATERMARK, [])
    else SpecConsume(SpecRun(inputs[..|inputs| - 1]), inputs[|inputs| - 1])
  }

  // ---- incremental state equals the recompute ------------------------------------------------------

  /** The operator's window of a row is the minute the row falls in, and no other one. */
  lemma WindowIsMinute(o: Order, start: int)
    ensures WindowStart(o.updatedAt) == start <==> InMinute(o, start)
  {
    var ts := o.updatedAt;
    assert ts == 60_000 * (ts / 60_000) + ts % 60_000;
    if InMinute(o, start) { assert start == 60_000 * (start / 60_000) && ts / 60_000 == start / 60_000; }
  }

  /** Every open window's accumulator is the aggregate over the live rows in it. */
  ghost predicate Agrees(op: Operator, live: map<int, Order>) {
    && (forall s :: s in op.accs ==> !Passed(s, op.watermark))
    && (forall s :: !Passed(s, op.watermark) ==> AccOf(op.accs, s) == LiveAcc(live, s))
  }

  lemma LiveInsert(live: map<int, Order>, key: int, row: Order, s: int)
    requires key !in live
    ensures LiveAcc(live[key := row], s) == Acc(LiveAcc(live, s).count + InWindow(s)(row), LiveAcc(live, s).sum + RevenueIn(s)(row))
  {
    MapSumPut(live, InWindow(s), key, row);
    MapSumPut(live, RevenueIn(s), key, row);
  }

  lemma LiveRemove(live: map<int, Order>, key: int, s: int)
    requires key in live
    ensures var rest := LiveAcc(live - {key}, s);
      rest == Acc(LiveAcc(live, s).count - InWindow(s)(live[key]), LiveAcc(live, s).sum - RevenueIn(s)(live[key]))
  {
    MapSumRemove(live, InWindow(s), key);
    MapSumRemove(live, RevenueIn(s), key);
  }

  lemma InsertAgrees(op: Operator, live: map<int, Order>, key: int, row: Order)
    requires Agrees(op, live) && key !in live
    ensures Agrees(Accumulate(op, Insert(row)), live[key := row])
  {
    forall s ensures LiveAcc(live[key := row], s) ==
      Acc(LiveAcc(live, s).count + InWindow(s)(row), LiveAcc(live, s).sum + RevenueIn(s)(row))
    {
      LiveInsert(live, key, row, s);
    }
    forall s ensures InMinute(row, s) <==> WindowStart(row.updatedAt) == s { WindowIsMinute(row, s); }
  }

  lemma RetractAgrees(op: Operator, live: map<int, Order>, key: int)
    requires Agrees(op, live) && key in live
    ensures Agrees(Accumulate(op, Retract(live[key])), live - {key})
  {
    forall s ensures LiveAcc(live - {key}, s) ==
      Acc(LiveAcc(live, s).count - InWindow(s)(live[key]), LiveAcc(live, s).sum - RevenueIn(s)(live[key]))
    {
      LiveRemove(live, key, s);
    }
    forall s ensures InMinute(live[key], s) <==> WindowStart(live[key].updatedAt) == s { WindowIsMinute(live[key], s); }
  }

  /** An update is a retraction and an insertion, possibly of two different windows. */
  lemma EventAgrees(op: Operator, live: map<int, Order>, e: Event<Order>)
    requires Agrees(op, live) && Follows(live, e)
    ensures Decodable(e) && Agrees(AccumulateAll(op, Unwrap(e)), Apply(live, e))
  {
    match e
    case Upsert(Update, key, before, after) =>
      var mid := Accumulate(op, Retract(live[key]));
      RetractAgrees(op, live, key);
      InsertAgrees(mid, live - {key}, key, after);
      assert (live - {key})[key := after] == live[key := after];
      var last: seq<RowChange> := [Insert(after)];
      assert Unwrap(e)[1..] == last && last[1..] == [];
      assert AccumulateAll(mid, last) == AccumulateAll(Accumulate(mid, Insert(after)), []);
    case Upsert(_, key, _, after) => InsertAgrees(op, live, key, after);
    case Delete(key, removed) => RetractAgrees(op, live, key);
    case Tombstone(_) =>
  }

  lemma {:induction false} AccumulateKeepsWatermark(op: Operator, cs: seq<RowChange>)
    ensures AccumulateAll(op, cs).watermark == op.watermark
    decreases |cs|
  {
    if cs != [] { AccumulateKeepsWatermark(Accumulate(op, cs[0]), cs[1..]); }
  }

  /** Windows without rows do not matter for the output. */
  lemma {:induction false} EmitSkipsEmpty(all: set<int>, some: set<int>, a: map<int, Acc>, b: map<int, Acc>)
    requires some <= all
    requires forall s :: s in some ==> AccOf(a, s) == AccOf(b, s)
    requires forall s :: s in all && s !in some ==> AccOf(a, s).count == 0
    ensures Emit(all, a) == Emit(some, b)
    decreases |all|
  {
    if all != {} {
      var s := Least(all);
      if s in some {
        assert Least(some) == s;
        EmitSkipsEmpty(all - {s}, some - {s}, a, b);
      } else {
        assert some <= all - {s};
        EmitSkipsEmpty(all - {s}, some, a, b);
      }
    }
  }

  lemma NoLiveRows(live: map<int, Order>, s: int)
    requires s !in LiveWindows(live)
    ensures LiveAcc(live, s) == Acc(0, 0)
  {
    forall k | k in live ensures InWindow(s)(live[k]) == 0 && RevenueIn(s)(live[k]) == 0 {
      WindowIsMinute(live[k], s);
      assert WindowStart(live[k].updatedAt) in LiveWindows(live);
    }
    MapSumZero(live, InWindow(s));
    MapSumZero(live, RevenueIn(s));
  }

  lemma SomeLiveRow(live: map<int, Order>, s: int)
    requires s in LiveWindows(live)
    ensures LiveAcc(live, s).count > 0
  {
    var k :| k in live && WindowStart(live[k].updatedAt) == s;
    WindowIsMinute(live[k], s);
    MapSumRemove(live, InWindow(s), k);
    MapSumNonNegative(live - {k}, InWindow(s));
  }

  /** A watermark fires exactly the newly closed windows that have live rows, each with
      the aggregate over those rows. */
  lemma FireIsRecompute(op: Operator, live: map<int, Order>, w: int)
    requires Agrees(op, live)
    ensures Fire(op, w).1 == Recompute(live, op.watermark, NextWatermark(op, w))
    ensures Agrees(Fire(op, w).0, live)
  {
    var next := NextWatermark(op, w);
    var all := Due(op.accs, next);
    var some := Closing(live, op.watermark, next);
    var values := LiveAccs(live, some);
    forall s | s in some ensures s in all && AccOf(op.accs, s) == AccOf(values, s) { SomeLiveRow(live, s); }
    forall s | s in all && s !in some ensures AccOf(op.accs, s).count == 0 { NoLiveRows(live, s); }
    EmitSkipsEmpty(all, some, op.accs, values);
  }

  lemma {:induction false} ValidIsDecodable(inputs: seq<Input>)
    requires ValidInputs(inputs)
    ensures AllDecodable(inputs)
  {
    if inputs != [] { ValidIsDecodable(inputs[..|inputs| - 1]); }
  }

  /** For every well-formed changelog and whatever watermarks come in between, the incremental
      operator emits exactly the rows of the recompute, and every open window's state is
      the aggregate over the live rows in it. */
  lemma {:induction false} IncrementalIsRecompute(inputs: seq<Input>)
    requires ValidInputs(inputs)
    ensures AllDecodable(inputs)
    ensures CrashFree(inputs).1 == SpecRun(inputs).out
    ensures Agrees(CrashFree(inputs).0, SpecRun(inputs).live)
    ensures CrashFree(inputs).0.watermark == SpecRun(inputs).watermark
  {
    ValidIsDecodable(inputs);
    if inputs == [] {
      forall s ensures LiveAcc(map[], s) == Acc(0, 0) { NoLiveRows(map[], s); }
    } else {
      var init, i := inputs[..|inputs| - 1], inputs[|inputs| - 1];
      IncrementalIsRecompute(init);
      var op, spec := CrashFree(init).0, SpecRun(init);
      match i
      case Record(e) =>
        EventAgrees(op, spec.live, e);
        AccumulateKeepsWatermark(op, Unwrap(e));
      case Tick(w) => FireIsRecompute(op, spec.live, w);
    }
  }

  // ---- the same by the clock -----------------------------------------------------------------------

  /** The highest watermark so far. */
  function Highest(inputs: seq<Input>): int {
    if inputs == [] then NO_WATERMARK
    else
      var highest, i := Highest(inputs[..|inputs| - 1]), inputs[|inputs| - 1];
      if i.Tick? && i.watermark > highest then i.watermark else highest
  }

  lemma {:induction false} WatermarkIsHighest(inputs: seq<Input>)
    requires AllDecodable(inputs)
    ensures CrashFree(inputs).0.watermark == Highest(inputs)
  {
    if inputs != [] {
      WatermarkIsHighest(inputs[..|inputs| - 1]);
      var i := inputs[|inputs| - 1];
      if i.Record? { AccumulateKeepsWatermark(CrashFree(inputs[..|inputs| - 1]).0, Unwrap(i.event)); }
    }
  }

  /** The orders last updated from `from` up to `to`. */
  function Between(live: map<int, Order>, from: int, to: int): map<int, Order> {
    map k | k in live && from <= live[k].updatedAt < to :: live[k]
  }

  lemma MinuteSums(live: map<int, Order>, start: int)
    requires start % 60_000 == 0
    ensures MapSum(live, InWindow(start)) == |Between(live, start, start + 60_000)|
    ensures MapSum(live, RevenueIn(start)) == MapSum(Between(live, start, start + 60_000), TotalAmount)
  {
    var rows := Between(live, start, start + 60_000);
    MapSumOfPart(live, rows, InWindow(start), (o: Order) => 1);
    MapSumCounts(rows, (o: Order) => 1);
    MapSumOfPart(live, rows, RevenueIn(start), TotalAmount);
  }

  /** The row of a whole minute: how many live orders were last updated in it, and their
      total; there is none for a minute without orders. */
  ghost predicate IsMinute(r: WindowRow, live: map<int, Order>) {
    && r.start % 60_000 == 0 && r.end == r.start + 60_000
    && r.count == |Between(live, r.start, r.end)| > 0
    && r.sum == MapSum(Between(live, r.start, r.end), TotalAmount)
  }

  lemma EmptyMinute(live: map<int, Order>, s: int)
    ensures s in LiveWindows(live) <==> s % 60_000 == 0 && |Between(live, s, s + 60_000)| > 0
  {
    if s in LiveWindows(live) {
      var k :| k in live && WindowStart(live[k].updatedAt) == s;
      WindowIsMinute(live[k], s);
      assert k in Between(live, s, s + 60_000);
    }
    if s % 60_000 == 0 && |Between(live, s, s + 60_000)| > 0 {
      var k := Pick(Between(live, s, s + 60_000).Keys);
      WindowIsMinute(live[k], s);
    }
  }

  lemma {:induction false} EmitHas(starts: set<int>, accs: map<int, Acc>, r: WindowRow)
    ensures r in Emit(starts, accs) <==>
      r.start in starts && r.end == r.start + 60_000
      && r.count == AccOf(accs, r.start).count != 0 && r.sum == AccOf(accs, r.start).sum
    decreases |starts|
  {
    if starts != {} { EmitHas(starts - {Least(starts)}, accs, r); }
  }

  lemma ClosingHas(live: map<int, Order>, from: int, to: int, s: int)
    ensures s in Closing(live, from, to) <==>
      s % 60_000 == 0 && |Between(live, s, s + 60_000)| > 0 && from < s + 60_000 - 1 <= to
  {
    EmptyMinute(live, s);
  }

  lemma RecomputeHas(live: map<int, Order>, from: int, to: int, r: WindowRow)
    ensures r in Recompute(live, from, to) <==> IsMinute(r, live) && from < r.end - 1 <= to
  {
    var starts := Closing(live, from, to);
    ClosingHas(live, from, to, r.start);
    assert r in Recompute(live, from, to) <==> r.start in starts && IsMinute(r, live) by {
      if r.start in starts { RowIsMinute(live, starts, r); } else { EmitHas(starts, LiveAccs(live, starts), r); }
    }
  }

  lemma RowIsMinute(live: map<int, Order>, starts: set<int>, r: WindowRow)
    requires r.start in starts && r.start % 60_000 == 0
    ensures r in Emit(starts, LiveAccs(live, starts)) <==> IsMinute(r, live)
  {
    EmitHas(starts, LiveAccs(live, starts), r);
    AccIsMinute(live, starts, r.start);
  }

  lemma AccIsMinute(live: map<int, Order>, starts: set<int>, s: int)
    requires s in starts && s % 60_000 == 0
    ensures var a, rows := AccOf(LiveAccs(live, starts), s), Between(live, s, s + 60_000);
      a.count == |rows| && a.sum == MapSum(rows, TotalAmount)
  {
    MinuteSums(live, s);
  }

  // ---- emitted once ------------------------------------------------------------------------------------

  const StartOf: WindowRow -> int := (r: WindowRow) => r.start

  ghost predicate EmittedOnce(out: seq<WindowRow>, watermark: int) {
    && DistinctBy(out, StartOf)
    && forall r :: r in out ==> Passed(r.start, watermark)
  }

  lemma {:induction false} EmitAscends(starts: set<int>, accs: map<int, Acc>)
    ensures forall i, j :: 0 <= i < j < |Emit(starts, accs)| ==> Emit(starts, accs)[i].start < Emit(starts, accs)[j].start
    decreases |starts|
  {
    if starts != {} {
      var s := Least(starts);
      EmitAscends(starts - {s}, accs);
      var rest := Emit(starts - {s}, accs);
      forall j | 0 <= j < |rest| ensures s < rest[j].start { assert rest[j] in rest; }
    }
  }

  lemma FireKeepsOnce(op: Operator, out: seq<WindowRow>, w: int)
    requires EmittedOnce(out, op.watermark)
    requires forall s :: s in op.accs ==> !Passed(s, op.watermark)
    ensures EmittedOnce(out + Fire(op, w).1, Fire(op, w).0.watermark)
  {
    var rows := Fire(op, w).1;
    EmitAscends(Due(op.accs, NextWatermark(op, w)), op.accs);
    forall i, j | 0 <= i < j < |out + rows| ensures StartOf((out + rows)[i]) != StartOf((out + rows)[j]) {
      if i < |out| && j < |out| {
        assert StartOf(out[i]) != StartOf(out[j]);
      } else if i < |out| {
        assert out[i] in out && rows[j - |out|] in rows;
      }
    }
  }

  /** No window is ever emitted twice. */
  lemma {:induction false} EachWindowOnce(inputs: seq<Input>)
    requires ValidInputs(inputs)
    ensures AllDecodable(inputs) && EmittedOnce(CrashFree(inputs).1, CrashFree(inputs).0.watermark)
  {
    IncrementalIsRecompute(inputs);
    if inputs != [] {
      var init := inputs[..|inputs| - 1];
      EachWindowOnce(init);
      IncrementalIsRecompute(init);
      var (op, out) := CrashFree(init);
      if inputs[|inputs| - 1].Tick? {
        FireKeepsOnce(op, out, inputs[|inputs| - 1].watermark);
      } else {
        AccumulateKeepsWatermark(op, Unwrap(inputs[|inputs| - 1].event));
        assert out + [] == out;
      }
    }
  }

  // ---- the watermarks the job has ----------------------------------------------------------------------

  function MaxTs(maxTs: int, cs: seq<RowChange>): int
    decreases |cs|
  {
    if cs == [] then maxTs else MaxTs(if cs[0].row.updatedAt > maxTs then cs[0].row.updatedAt else maxTs, cs[1..])
  }

  /** The newest row read from one partition of the topic; keys hash to partitions. */
  function NewestIn(inputs: seq<Input>, partition: int -> int, p: int): int
    requires AllDecodable(inputs)
  {
    if inputs == [] then NO_WATERMARK
    else
      var newest, i := NewestIn(inputs[..|inputs| - 1], partition, p), inputs[|inputs| - 1];
      if i.Record? && partition(i.event.key) == p then MaxTs(newest, Unwrap(i.event)) else newest
  }

  /** The change was read from that partition. */
  ghost predicate WasRead(inputs: seq<Input>, partition: int -> int, p: int, ts: int)
    requires AllDecodable(inputs)
  {
    exists k, i :: 0 <= k < |inputs| && inputs[k].Record? && partition(inputs[k].event.key) == p && ChangeAt(inputs[k].event, i, ts)
  }

  predicate ChangeAt(e: Event<Order>, i: int, ts: int)
    requires Decodable(e)
  {
    0 <= i < |Unwrap(e)| && Unwrap(e)[i].row.updatedAt == ts
  }

  lemma {:induction false} MaxTsIsMax(maxTs: int, cs: seq<RowChange>)
    ensures MaxTs(maxTs, cs) >= maxTs && forall i :: 0 <= i < |cs| ==> cs[i].row.updatedAt <= MaxTs(maxTs, cs)
    ensures MaxTs(maxTs, cs) == maxTs || exists i :: 0 <= i < |cs| && cs[i].row.updatedAt == MaxTs(maxTs, cs)
    decreases |cs|
  {
    if cs != [] {
      var next := if cs[0].row.updatedAt > maxTs then cs[0].row.updatedAt else maxTs;
      MaxTsIsMax(next, cs[1..]);
      assert forall i :: 0 < i < |cs| ==> cs[i] == cs[1..][i - 1];
    }
  }

  /** One of the changes of the event has this time. */
  ghost predicate Changes(e: Event<Order>, ts: int)
    requires Decodable(e)
  {
    exists i :: ChangeAt(e, i, ts)
  }

  lemma ReadLast(inputs: seq<Input>, partition: int -> int, p: int, ts: int)
    requires inputs != [] && AllDecodable(inputs)
    ensures var init, e := inputs[..|inputs| - 1], inputs[|inputs| - 1];
      WasRead(inputs, partition, p, ts) <==>
        (WasRead(init, partition, p, ts) || (e.Record? && partition(e.event.key) == p && Changes(e.event, ts)))
  {
    var init := inputs[..|inputs| - 1];
    if k, i :| 0 <= k < |init| && init[k].Record? && partition(init[k].event.key) == p && ChangeAt(init[k].event, i, ts) {
      assert inputs[k] == init[k];
    }
  }

  lemma MaxTsOfEvent(maxTs: int, e: Event<Order>)
    requires Decodable(e)
    ensures MaxTs(maxTs, Unwrap(e)) >= maxTs && forall ts :: Changes(e, ts) ==> ts <= MaxTs(maxTs, Unwrap(e))
    ensures MaxTs(maxTs, Unwrap(e)) == maxTs || Changes(e, MaxTs(maxTs, Unwrap(e)))
  {
    MaxTsIsMax(maxTs, Unwrap(e));
    if i :| 0 <= i < |Unwrap(e)| && Unwrap(e)[i].row.updatedAt == MaxTs(maxTs, Unwrap(e)) { assert ChangeAt(e, i, MaxTs(maxTs, Unwrap(e))); }
  }

  /** It is the newest indeed. */
  lemma {:induction false} NewestIsNewest(inputs: seq<Input>, partition: int -> int, p: int)
    requires AllDecodable(inputs)
    ensures NewestIn(inputs, partition, p) == NO_WATERMARK || WasRead(inputs, partition, p, NewestIn(inputs, partition, p))
    ensures NewestIn(inputs, partition, p) >= NO_WATERMARK
    ensures forall ts :: WasRead(inputs, partition, p, ts) ==> ts <= NewestIn(inputs, partition, p)
  {
    if inputs != [] {
      var init, e := inputs[..|inputs| - 1], inputs[|inputs| - 1];
      NewestIsNewest(init, partition, p);
      if e.Record? { MaxTsOfEvent(NewestIn(init, partition, p), e.event); }
      ReadLast(inputs, partition, p, NewestIn(inputs, partition, p));
      forall ts | WasRead(inputs, partition, p, ts) ensures ts <= NewestIn(inputs, partition, p) { ReadLast(inputs, partition, p, ts); }
    }
  }

  /** `updated_at - INTERVAL '5' SECOND` a partition, the source sends on the minimum over its
      `n` partitions: no watermark is ahead of any, though it may lag behind. */
  ghost predicate JobWatermarks(inputs: seq<Input>, partition: int -> int, n: nat)
    requires AllDecodable(inputs)
  {
    forall k, p :: 0 <= k < |inputs| && inputs[k].Tick? && 0 <= p < n ==> Behind(inputs, partition, k, p)
  }

  predicate Behind(inputs: seq<Input>, partition: int -> int, k: int, p: int)
    requires AllDecodable(inputs) && 0 <= k < |inputs| && inputs[k].Tick?
  {
    inputs[k].watermark <= NewestIn(inputs[..k], partition, p) - OUT_OF_ORDERNESS_MS
  }

  /** A row less than five seconds behind the newest one of its own partition is never
      dropped, however far ahead the others are: it counts in its minute. */
  lemma OnTimeIsNeverDropped(inputs: seq<Input>, partition: int -> int, n: nat, p: nat, c: RowChange)
    requires AllDecodable(inputs) && p < n && JobWatermarks(inputs, partition, n)
    requires c.row.updatedAt > NewestIn(inputs, partition, p) - OUT_OF_ORDERNESS_MS
    requires c.row.updatedAt > NO_WATERMARK
    ensures forall start :: InMinute(c.row, start) ==>
      var op, next := CrashFree(inputs).0, Accumulate(CrashFree(inputs).0, c);
      && op.watermark < start + 60_000 - 1
      && AccOf(next.accs, start).count - AccOf(op.accs, start).count == (if c.Insert? then 1 else -1)
      && AccOf(next.accs, start).sum - AccOf(op.accs, start).sum == (if c.Insert? then c.row.total else 0 - c.row.total)
  {
    WatermarkBehind(inputs, partition, n, p);
    forall start ensures InMinute(c.row, start) <==> WindowStart(c.row.updatedAt) == start { WindowIsMinute(c.row, start); }
  }

  lemma {:induction false} WatermarkBehind(inputs: seq<Input>, partition: int -> int, n: nat, p: nat)
    requires AllDecodable(inputs) && p < n && JobWatermarks(inputs, partition, n)
    ensures var w := CrashFree(inputs).0.watermark;
      w <= NewestIn(inputs, partition, p) - OUT_OF_ORDERNESS_MS || w == NO_WATERMARK
  {
    if inputs != [] {
      var init, i := inputs[..|inputs| - 1], inputs[|inputs| - 1];
      forall k, q | 0 <= k < |init| && init[k].Tick? && 0 <= q < n ensures Behind(init, partition, k, q) {
        assert init[..k] == inputs[..k] && Behind(inputs, partition, k, q);
      }
      WatermarkBehind(init, partition, n, p);
      if i.Record? {
        AccumulateKeepsWatermark(CrashFree(init).0, Unwrap(i.event));
        MaxTsGrows(NewestIn(init, partition, p), Unwrap(i.event));
      } else {
        assert Behind(inputs, partition, |init|, p);
      }
    }
  }

  lemma {:induction false} MaxTsGrows(maxTs: int, cs: seq<RowChange>)
    ensures MaxTs(maxTs, cs) >= maxTs
    decreases |cs|
  {
    if cs != [] { MaxTsGrows(if cs[0].row.updatedAt > maxTs then cs[0].row.updatedAt else maxTs, cs[1..]); }
  }
}
