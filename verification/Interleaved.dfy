/** The orders topic as its partitions deliver it: any interleaving, re-snapshots included. */
module Interleaved {
  import opened Options
  import opened Aggregates
  import opened Cdc
  import opened Source
  import opened SourceRuns
  import opened Windows
  import opened Streaming

  // ---- interleavings that keep the order of each key ------------------------------------------

  function OfKey<V>(key: int): Event<V> -> bool { (e: Event<V>) => e.key == key }

  function KeyEvents<V>(log: seq<Event<V>>, key: int): seq<Event<V>> { Filter(log, OfKey(key)) }

  /** Keys hash to partitions: two deliveries of a topic agree on the events of each key. */
  ghost predicate SamePerKey<V>(log: seq<Event<V>>, delivered: seq<Event<V>>) {
    forall key :: KeyEvents(delivered, key) == KeyEvents(log, key)
  }

  lemma KeyEventsSnoc<V>(log: seq<Event<V>>, key: int)
    requires log != []
    ensures var n := |log| - 1;
      KeyEvents(log, key) == if log[n].key == key then KeyEvents(log[..n], key) + [log[n]] else KeyEvents(log[..n], key)
  {
    var n := |log| - 1;
    assert log == log[..n] + [log[n]];
    FilterAppend(log[..n], [log[n]], OfKey<V>(key));
  }

  /** What a key replays to is decided by its own events. */
  lemma {:induction false} ReplayOfKey<V>(log: seq<Event<V>>, key: int)
    ensures key in Replay(log) <==> key in Replay(KeyEvents(log, key))
    ensures key in Replay(log) ==> Replay(log)[key] == Replay(KeyEvents(log, key))[key]
  {
    if log != [] {
      var n := |log| - 1;
      ReplayOfKey(log[..n], key);
      KeyEventsSnoc(log, key);
      if log[n].key == key { ReplaySnoc(KeyEvents(log[..n], key), log[n]); }
    }
  }

  /** A rule on events that looks at nothing but the event's own key. */
  type Rule = (map<int, Order>, Event<Order>) -> bool

  ghost predicate Local(rule: Rule) {
    forall t, u, e :: SameAt(t, u, e) ==> (rule(t, e) <==> rule(u, e))
  }

  predicate SameAt(t: map<int, Order>, u: map<int, Order>, e: Event<Order>) {
    (e.key in t <==> e.key in u) && (e.key in t ==> t[e.key] == u[e.key])
  }

  /** Every event obeys the rule on the table before it. */
  ghost predicate Obeys(log: seq<Event<Order>>, rule: Rule) {
    forall i :: 0 <= i < |log| ==> rule(Replay(log[..i]), log[i])
  }

  const FOLLOWS: Rule := (t: map<int, Order>, e: Event<Order>) => Follows(t, e)

  lemma RuleByKey(log: seq<Event<Order>>, e: Event<Order>, rule: Rule)
    requires Local(rule)
    ensures rule(Replay(log), e) <==> rule(Replay(KeyEvents(log, e.key)), e)
  {
    ReplayOfKey(log, e.key);
    assert SameAt(Replay(log), Replay(KeyEvents(log, e.key)), e);
  }

  lemma ObeysSnoc(log: seq<Event<Order>>, e: Event<Order>, rule: Rule)
    ensures Obeys(log + [e], rule) <==> Obeys(log, rule) && rule(Replay(log), e)
  {
    var longer := log + [e];
    InitOfSnoc(log, e);
    forall i | 0 <= i < |log| ensures rule(Replay(longer[..i]), longer[i]) <==> rule(Replay(log[..i]), log[i]) {
      assert longer[..i] == log[..i];
    }
    if Obeys(longer, rule) {
      assert rule(Replay(longer[..|log|]), longer[|log|]);
      forall i | 0 <= i < |log| ensures rule(Replay(log[..i]), log[i]) { assert rule(Replay(longer[..i]), longer[i]); }
    }
  }

  lemma ObeysLast(log: seq<Event<Order>>, rule: Rule)
    requires log != []
    ensures Obeys(log, rule) <==> Obeys(log[..|log| - 1], rule) && rule(Replay(log[..|log| - 1]), log[|log| - 1])
  {
    assert log == log[..|log| - 1] + [log[|log| - 1]];
    ObeysSnoc(log[..|log| - 1], log[|log| - 1], rule);
  }

  lemma InitOfSnoc<T>(s: seq<T>, x: T)
    ensures (s + [x])[..|s|] == s && (s + [x])[|s|] == x && |s + [x]| == |s| + 1
  {
  }

  lemma ObeysOfKeyLast(log: seq<Event<Order>>, key: int, rule: Rule)
    requires log != [] && Local(rule)
    ensures var init, e := log[..|log| - 1], log[|log| - 1];
      Obeys(KeyEvents(log, key), rule) <==> Obeys(KeyEvents(init, key), rule) && (e.key == key ==> rule(Replay(init), e))
  {
    var init, e := log[..|log| - 1], log[|log| - 1];
    KeyEventsSnoc(log, key);
    if e.key == key {
      ObeysSnoc(KeyEvents(init, key), e, rule);
      RuleByKey(init, e, rule);
    }
  }

  lemma {:induction false} ObeysOfKey(log: seq<Event<Order>>, key: int, rule: Rule)
    requires Obeys(log, rule) && Local(rule)
    ensures Obeys(KeyEvents(log, key), rule)
  {
    if log != [] {
      ObeysLast(log, rule);
      ObeysOfKey(log[..|log| - 1], key, rule);
      ObeysOfKeyLast(log, key, rule);
    }
  }

  lemma {:induction false} ObeysByKeys(log: seq<Event<Order>>, rule: Rule)
    requires Local(rule) && forall key :: Obeys(KeyEvents(log, key), rule)
    ensures Obeys(log, rule)
  {
    if log != [] {
      var init, e := log[..|log| - 1], log[|log| - 1];
      forall key ensures Obeys(KeyEvents(init, key), rule) {
        assert Obeys(KeyEvents(log, key), rule);
        ObeysOfKeyLast(log, key, rule);
      }
      ObeysByKeys(init, rule);
      assert Obeys(KeyEvents(log, e.key), rule);
      ObeysOfKeyLast(log, e.key, rule);
      ObeysLast(log, rule);
    }
  }

  /** A local rule survives every delivery that keeps the order of each key. */
  lemma DeliveryObeys(log: seq<Event<Order>>, delivered: seq<Event<Order>>, rule: Rule)
    requires SamePerKey(log, delivered) && Local(rule) && Obeys(log, rule)
    ensures Obeys(delivered, rule)
  {
    forall key ensures Obeys(KeyEvents(delivered, key), rule) { ObeysOfKey(log, key, rule); }
    ObeysByKeys(delivered, rule);
  }

  lemma WellFormedIsRule(log: seq<Event<Order>>)
    ensures WellFormed(log) <==> Obeys(log, FOLLOWS)
  {
    forall i | 0 <= i < |log| ensures Follows(Replay(log[..i]), log[i]) <==> FOLLOWS(Replay(log[..i]), log[i]) { }
  }

  /** Whatever order the partitions are read in, the delivered orders topic is a
      well-formed changelog that replays to the orders table. */
  lemma DeliveredTopicIsValid(now: int, acts: seq<Action>, inputs: seq<Input>)
    requires ValidRun(Seed(now), acts) && NoReread(acts)
    requires SamePerKey(Run(Seed(now), acts).orderLog, Events(inputs))
    ensures ValidInputs(inputs) && SpecRun(inputs).live == Run(Seed(now), acts).orders
  {
    var log := Run(Seed(now), acts).orderLog;
    OrdersTopicIsWellFormed(now, acts);
    WellFormedIsRule(log);
    DeliveryObeys(log, Events(inputs), FOLLOWS);
    WellFormedIsRule(Events(inputs));
    ChangelogIsValidInput(inputs);
    SeedIsConsistent(now);
    RunKeepsConsistent(Seed(now), acts);
    SameReplay(log, Events(inputs));
  }

  lemma SameReplay<V>(log: seq<Event<V>>, delivered: seq<Event<V>>)
    requires SamePerKey(log, delivered)
    ensures Replay(delivered) == Replay(log)
  {
    forall key ensures key in Replay(delivered) <==> key in Replay(log)
      ensures key in Replay(log) ==> Replay(delivered)[key] == Replay(log)[key]
    {
      ReplayOfKey(log, key);
      ReplayOfKey(delivered, key);
    }
  }

  // ---- what a topic adds to a window -------------------------------------------------------------

  /** The net effect of an event on a column: the new row in, the old one out. */
  function NetOf(e: Event<Order>, f: Order -> int): int {
    match e
    case Upsert(op, _, before, after) => f(after) - (if op == Update && before.Some? then f(before.value) else 0)
    case Delete(_, removed) => 0 - f(removed)
    case Tombstone(_) => 0
  }

  function Net(f: Order -> int): Event<Order> -> int { (e: Event<Order>) => NetOf(e, f) }

  /** The accumulator of a window is this much in its two columns. */
  predicate Holds(op: Operator, start: int, count: int, sum: int) {
    AccOf(op.accs, start).count == count && AccOf(op.accs, start).sum == sum
  }

  function Signed(c: RowChange, f: Order -> int): int { if c.Insert? then f(c.row) else 0 - f(c.row) }

  lemma AccumulateOne(op: Operator, c: RowChange, start: int, count: int, sum: int)
    requires !Passed(start, op.watermark) && Holds(op, start, count, sum)
    ensures Holds(Accumulate(op, c), start, count + Signed(c, InWindow(start)), sum + Signed(c, RevenueIn(start)))
  {
    WindowIsMinute(c.row, start);
  }

  lemma AccumulateTwo(op: Operator, c: RowChange, d: RowChange)
    ensures AccumulateAll(op, [c]) == Accumulate(op, c)
    ensures AccumulateAll(op, [c, d]) == Accumulate(Accumulate(op, c), d)
  {
    assert [c][1..] == [] && [c, d][1..] == [d];
    assert AccumulateAll(Accumulate(op, c), [d]) == AccumulateAll(Accumulate(Accumulate(op, c), d), [d][1..]) && [d][1..] == [];
  }

  lemma AccumulateUpdate(op: Operator, before: Order, after: Order, start: int, count: int, sum: int)
    requires !Passed(start, op.watermark) && Holds(op, start, count, sum)
    ensures Holds(AccumulateAll(op, [Retract(before), Insert(after)]), start,
                  count - InWindow(start)(before) + InWindow(start)(after), sum - RevenueIn(start)(before) + RevenueIn(start)(after))
  {
    AccumulateTwo(op, Retract(before), Insert(after));
    AccumulateOne(op, Retract(before), start, count, sum);
    AccumulateOne(Accumulate(op, Retract(before)), Insert(after), start, count - InWindow(start)(before), sum - RevenueIn(start)(before));
  }

  lemma AccumulateEvent(op: Operator, e: Event<Order>, start: int, count: int, sum: int)
    requires Decodable(e) && !Passed(start, op.watermark) && Holds(op, start, count, sum)
    ensures Holds(AccumulateAll(op, Unwrap(e)), start, count + NetOf(e, InWindow(start)), sum + NetOf(e, RevenueIn(start)))
  {
    if e.Upsert? && e.op == Update {
      AccumulateUpdate(op, e.before.value, e.after, start, count, sum);
    } else if !e.Tombstone? {
      var c := if e.Upsert? then Insert(e.after) else Retract(e.removed);
      AccumulateTwo(op, c, c);
      AccumulateOne(op, c, start, count, sum);
    }
  }

  lemma SumSnoc<T>(s: seq<T>, x: T, f: T -> int)
    ensures Sum(s + [x], f) == Sum(s, f) + f(x)
  {
    SumAppend(s, [x], f);
  }

  /** The window's accumulator is what these events added to its columns. */
  predicate HoldsAdded(op: Operator, start: int, log: seq<Event<Order>>) {
    Holds(op, start, Sum(log, Net(InWindow(start))), Sum(log, Net(RevenueIn(start))))
  }

  lemma RecordAdds(op: Operator, log: seq<Event<Order>>, e: Event<Order>, start: int)
    requires Decodable(e) && (!Passed(start, op.watermark) ==> HoldsAdded(op, start, log))
    ensures var next := AccumulateAll(op, Unwrap(e));
      next.watermark == op.watermark && (!Passed(start, op.watermark) ==> HoldsAdded(next, start, log + [e]))
  {
    AccumulateKeepsWatermark(op, Unwrap(e));
    if !Passed(start, op.watermark) {
      SumSnoc(log, e, Net(InWindow(start)));
      SumSnoc(log, e, Net(RevenueIn(start)));
      AccumulateEvent(op, e, start, Sum(log, Net(InWindow(start))), Sum(log, Net(RevenueIn(start))));
    }
  }

  lemma TickKeepsOpen(op: Operator, w: int, start: int)
    requires !Passed(start, Fire(op, w).0.watermark)
    ensures !Passed(start, op.watermark) && AccOf(Fire(op, w).0.accs, start) == AccOf(op.accs, start)
  {
  }

  /** An open window never dropped anything, so its state is what the topic added to it. */
  lemma {:induction false} OpenWindowIsAdded(inputs: seq<Input>, start: int)
    requires AllDecodable(inputs)
    ensures !Passed(start, CrashFree(inputs).0.watermark) ==> HoldsAdded(CrashFree(inputs).0, start, Events(inputs))
  {
    if inputs != [] {
      var init, i := inputs[..|inputs| - 1], inputs[|inputs| - 1];
      OpenWindowIsAdded(init, start);
      var op := CrashFree(init).0;
      if i.Record? {
        RecordAdds(op, Events(init), i.event, start);
      } else {
        assert Events(inputs) == Events(init);
        if !Passed(start, Fire(op, i.watermark).0.watermark) { TickKeepsOpen(op, i.watermark, start); }
      }
    }
  }

  // ---- against the source table ----------------------------------------------------------------------

  /** The event inserts a row whose key is already live: a re-snapshot. */
  predicate Repeats(table: map<int, Order>, e: Event<Order>) { e.Upsert? && e.op != Update && e.key in table }

  /** What it counts once more in a column. */
  function RepeatOf(table: map<int, Order>, e: Event<Order>, f: Order -> int): int { if Repeats(table, e) then f(table[e.key]) else 0 }

  /** What re-snapshots counted once more in a column. */
  function Repeated(log: seq<Event<Order>>, f: Order -> int): int {
    if log == [] then 0
    else Repeated(log[..|log| - 1], f) + RepeatOf(Replay(log[..|log| - 1]), log[|log| - 1], f)
  }

  /** Event `i` re-read a row of this window. */
  predicate RepeatsIn(log: seq<Event<Order>>, start: int, i: int) {
    0 <= i < |log| && Repeats(Replay(log[..i]), log[i]) && InMinute(Replay(log[..i])[log[i].key], start)
  }

  ghost predicate AnyRepeats(log: seq<Event<Order>>, start: int) { exists i :: RepeatsIn(log, start, i) }

  lemma RepeatsInPrefix(log: seq<Event<Order>>, start: int, i: int)
    requires log != [] && i < |log| - 1
    ensures RepeatsIn(log, start, i) <==> RepeatsIn(log[..|log| - 1], start, i)
  {
    if 0 <= i { assert log[..|log| - 1][..i] == log[..i]; }
  }

  lemma AnyRepeatsLast(log: seq<Event<Order>>, start: int)
    requires log != []
    ensures AnyRepeats(log, start) <==> AnyRepeats(log[..|log| - 1], start) || RepeatsIn(log, start, |log| - 1)
  {
    var n := |log| - 1;
    if i :| RepeatsIn(log, start, i) && i < n { RepeatsInPrefix(log, start, i); }
    if i :| RepeatsIn(log[..n], start, i) { RepeatsInPrefix(log, start, i); }
  }

  /** The count is off exactly if some re-snapshot read a row of the window; if it is
      not, neither is the revenue. */
  lemma {:induction false} RepeatedIff(log: seq<Event<Order>>, start: int)
    ensures Repeated(log, InWindow(start)) >= 0
    ensures Repeated(log, InWindow(start)) == 0 <==> !AnyRepeats(log, start)
    ensures !AnyRepeats(log, start) ==> Repeated(log, RevenueIn(start)) == 0
  {
    if log != [] {
      var init, e := log[..|log| - 1], log[|log| - 1];
      RepeatedIff(init, start);
      AnyRepeatsLast(log, start);
      var once := RepeatOf(Replay(init), e, InWindow(start));
      assert once >= 0 && (once == 0 <==> !RepeatsIn(log, start, |log| - 1));
    }
  }

  lemma LiveStep(table: map<int, Order>, e: Event<Order>, f: Order -> int)
    requires LegalOrFirst(table, e)
    ensures MapSum(Apply(table, e), f) + RepeatOf(table, e, f) == MapSum(table, f) + NetOf(e, f)
  {
    MapSumPut(table, f, e.key, e.after);
  }

  /** A legal step from the table before it, or the first read of a row. */
  predicate LegalOrFirst(table: map<int, Order>, e: Event<Order>) {
    var legal := Legal(table, e) || (e.Upsert? && e.op == Read && e.before == None && e.key !in table);
    legal
  }

  const LEGAL: Rule := (t: map<int, Order>, e: Event<Order>) => LegalOrFirst(t, e)

  ghost predicate LegalLog(log: seq<Event<Order>>) { Obeys(log, LEGAL) }

  lemma RepeatedSnoc(init: seq<Event<Order>>, e: Event<Order>, f: Order -> int)
    ensures Repeated(init + [e], f) == Repeated(init, f) + RepeatOf(Replay(init), e, f)
  {
    InitOfSnoc(init, e);
  }

  /** In every column a legal log adds up to the rows that are live, and the repeated ones. */
  lemma {:induction false} AddedIsLiveAndRepeated(log: seq<Event<Order>>, f: Order -> int)
    requires LegalLog(log)
    ensures Sum(log, Net(f)) == MapSum(Replay(log), f) + Repeated(log, f)
  {
    if log != [] {
      var init, e := log[..|log| - 1], log[|log| - 1];
      assert log == init + [e] && Replay(log) == Apply(Replay(init), e);
      ObeysLast(log, LEGAL);
      AddedIsLiveAndRepeated(init, f);
      SumSnoc(init, e, Net(f));
      LiveStep(Replay(init), e, f);
      RepeatedSnoc(init, e, f);
    }
  }

  lemma LegalHead(table: map<int, Order>, events: seq<Event<Order>>)
    requires LegalFrom(table, events) && events != []
    ensures LegalOrFirst(table, events[0]) && LegalFrom(Apply(table, events[0]), events[1..])
  {
  }

  lemma AppendHead<T>(s: seq<T>, t: seq<T>)
    requires t != []
    ensures s + [t[0]] + t[1..] == s + t
  {
  }

  lemma {:induction false} LegalAppend(log: seq<Event<Order>>, events: seq<Event<Order>>)
    requires LegalLog(log) && LegalFrom(Replay(log), events)
    ensures LegalLog(log + events)
    decreases |events|
  {
    if events == [] {
      assert log + events == log;
    } else {
      var longer := log + [events[0]];
      LegalHead(Replay(log), events);
      ObeysSnoc(log, events[0], LEGAL);
      ReplaySnoc(log, events[0]);
      LegalAppend(longer, events[1..]);
      AppendHead(log, events);
    }
  }

  lemma TwoFirstReads(first: Event<Order>, second: Event<Order>)
    requires first.Upsert? && first.op == Read && first.before == None
    requires second.Upsert? && second.op == Read && second.before == None && second.key != first.key
    ensures LegalLog([first, second])
  {
    ObeysSnoc([], first, LEGAL);
    ReplaySnoc([], first);
    assert [] + [first] == [first] && [first] + [second] == [first, second];
    ObeysSnoc([first], second, LEGAL);
  }

  /** On every run, re-snapshots included, the orders topic is such a log. */
  lemma {:induction false} OrdersTopicIsLegal(now: int, acts: seq<Action>)
    requires ValidRun(Seed(now), acts)
    ensures LegalLog(Run(Seed(now), acts).orderLog)
  {
    if acts == [] {
      TwoFirstReads(Seed(now).orderLog[0], Seed(now).orderLog[1]);
    } else {
      var init := acts[..|acts| - 1];
      OrdersTopicIsLegal(now, init);
      SeedIsConsistent(now);
      RunKeepsConsistent(Seed(now), init);
      var s := Run(Seed(now), init);
      var events := OrderEvents(s, acts[|acts| - 1]);
      LegalAppend(s.orderLog, events);
    }
  }

  lemma {:induction false} RecordsAreEvents(inputs: seq<Input>, i: nat)
    requires i < |inputs| && inputs[i].Record?
    ensures inputs[i].event in Events(inputs)
  {
    var n := |inputs| - 1;
    if i < n { RecordsAreEvents(inputs[..n], i); }
  }

  lemma DeliveredIsDecodable(log: seq<Event<Order>>, inputs: seq<Input>)
    requires LegalLog(log) && multiset(Events(inputs)) == multiset(log)
    ensures AllDecodable(inputs)
  {
    forall i | 0 <= i < |inputs| && inputs[i].Record? ensures Decodable(inputs[i].event) {
      RecordsAreEvents(inputs, i);
      assert inputs[i].event in multiset(log);
      var k :| 0 <= k < |log| && log[k] == inputs[i].event;
      assert LEGAL(Replay(log[..k]), log[k]);
    }
  }

  /** Only open windows keep state, and each is a whole minute. */
  ghost predicate OpenMinutesOnly(op: Operator) { forall s :: s in op.accs ==> !Passed(s, op.watermark) && s % 60_000 == 0 }

  lemma {:induction false} OnlyOpenWindows(inputs: seq<Input>)
    requires AllDecodable(inputs)
    ensures OpenMinutesOnly(CrashFree(inputs).0)
  {
    if inputs != [] {
      var init, i := inputs[..|inputs| - 1], inputs[|inputs| - 1];
      OnlyOpenWindows(init);
      if i.Record? { StaysOpen(CrashFree(init).0, Unwrap(i.event)); }
    }
  }

  lemma {:induction false} StaysOpen(op: Operator, cs: seq<RowChange>)
    requires OpenMinutesOnly(op)
    ensures OpenMinutesOnly(AccumulateAll(op, cs))
    decreases |cs|
  {
    if cs != [] {
      WindowIsMinute(cs[0].row, WindowStart(cs[0].row.updatedAt));
      StaysOpen(Accumulate(op, cs[0]), cs[1..]);
    }
  }

  lemma FiredRow(op: Operator, w: int, r: WindowRow)
    requires OpenMinutesOnly(op) && r in Fire(op, w).1
    ensures r.start % 60_000 == 0 && r.end == r.start + 60_000 && op.watermark < r.end - 1 <= NextWatermark(op, w)
    ensures !Passed(r.start, op.watermark) && Holds(op, r.start, r.count, r.sum)
  {
    EmitHas(Due(op.accs, NextWatermark(op, w)), op.accs, r);
  }

  lemma OpenWindowIsLive(inputs: seq<Input>, start: int)
    requires LegalLog(Events(inputs)) && AllDecodable(inputs) && !Passed(start, CrashFree(inputs).0.watermark)
    ensures var seen := Events(inputs);
      Holds(CrashFree(inputs).0, start, MapSum(Replay(seen), InWindow(start)) + Repeated(seen, InWindow(start)),
            MapSum(Replay(seen), RevenueIn(start)) + Repeated(seen, RevenueIn(start)))
  {
    OpenWindowIsAdded(inputs, start);
    AddedIsLiveAndRepeated(Events(inputs), InWindow(start));
    AddedIsLiveAndRepeated(Events(inputs), RevenueIn(start));
  }

  /** Every row a step of the input adds to the output, re-snapshots or not: a whole minute that
      ends under this watermark and not under an earlier one, with the count and revenue of
      the orders then live in it, and once more each row re-read in it. */
  lemma EmittedIsLiveAndRepeated(inputs: seq<Input>, k: nat, rows: seq<WindowRow>, r: WindowRow)
    requires LegalLog(Events(inputs)) && AllDecodable(inputs) && k < |inputs|
    requires CrashFree(inputs[..k + 1]).1 == CrashFree(inputs[..k]).1 + rows && r in rows
    ensures inputs[k].Tick? && r.start % 60_000 == 0 && r.end == r.start + 60_000
    ensures Highest(inputs[..k]) < r.end - 1 <= Highest(inputs[..k + 1])
    ensures var seen := Events(inputs[..k]);
      && r.count == MapSum(Replay(seen), InWindow(r.start)) + Repeated(seen, InWindow(r.start))
      && r.sum == MapSum(Replay(seen), RevenueIn(r.start)) + Repeated(seen, RevenueIn(r.start))
  {
    NextWrites(inputs, k);
    SameTail(CrashFree(inputs[..k]).1, rows, if inputs[k].Tick? then Fire(CrashFree(inputs[..k]).0, inputs[k].watermark).1 else []);
    OnlyOpenWindows(inputs[..k]);
    FiredRow(CrashFree(inputs[..k]).0, inputs[k].watermark, r);
    PrefixIsLegal(inputs, k);
    OpenWindowIsLive(inputs[..k], r.start);
  }

  lemma SameTail<T>(s: seq<T>, t: seq<T>, u: seq<T>)
    requires s + t == s + u
    ensures t == u
  {
    assert t == (s + t)[|s|..] && u == (s + u)[|s|..];
  }

  lemma {:induction false} PrefixIsLegal(inputs: seq<Input>, k: nat)
    requires LegalLog(Events(inputs)) && k <= |inputs|
    ensures LegalLog(Events(inputs[..k]))
  {
    if k < |inputs| {
      var init := inputs[..|inputs| - 1];
      if inputs[|inputs| - 1].Record? {
        ObeysSnoc(Events(init), inputs[|inputs| - 1].event, LEGAL);
      } else {
        assert Events(inputs) == Events(init);
      }
      assert init[..k] == inputs[..k];
      PrefixIsLegal(init, k);
    } else {
      assert inputs[..k] == inputs;
    }
  }

  /** Whatever order the partitions are read in, re-snapshots included, the delivered
      orders topic is a legal log that replays to the orders table. */
  lemma DeliveredTopicIsLegal(now: int, acts: seq<Action>, inputs: seq<Input>)
    requires ValidRun(Seed(now), acts) && SamePerKey(Run(Seed(now), acts).orderLog, Events(inputs))
    ensures LegalLog(Events(inputs)) && AllDecodable(inputs) && Replay(Events(inputs)) == Run(Seed(now), acts).orders
  {
    var log := Run(Seed(now), acts).orderLog;
    OrdersTopicIsLegal(now, acts);
    DeliveryObeys(log, Events(inputs), LEGAL);
    SameReplay(log, Events(inputs));
    SeedIsConsistent(now);
    RunKeepsConsistent(Seed(now), acts);
    LegalIsDecodable(inputs);
  }

  lemma LegalIsDecodable(inputs: seq<Input>)
    requires LegalLog(Events(inputs))
    ensures AllDecodable(inputs)
  {
    DeliveredIsDecodable(Events(inputs), inputs);
  }

  lemma AddedByRun(now: int, acts: seq<Action>, f: Order -> int)
    requires ValidRun(Seed(now), acts)
    ensures var s := Run(Seed(now), acts); Sum(s.orderLog, Net(f)) == MapSum(s.orders, f) + Repeated(s.orderLog, f)
  {
    OrdersTopicIsLegal(now, acts);
    AddedIsLiveAndRepeated(Run(Seed(now), acts).orderLog, f);
    SeedIsConsistent(now);
    RunKeepsConsistent(Seed(now), acts);
  }

  /** For every run of the source, re-snapshots included, every interleaving of its orders
      topic and whatever watermarks: an open window holds the count and revenue
      of the orders in the source table last updated in it, plus once more each row that a
      re-snapshot read while it was in the window. So it matches the table if and only
      if there was no such row. */
  lemma OpenWindowsMatchOrdersTable(now: int, acts: seq<Action>, inputs: seq<Input>, start: int)
    requires ValidRun(Seed(now), acts) && multiset(Events(inputs)) == multiset(Run(Seed(now), acts).orderLog)
    ensures AllDecodable(inputs)
    ensures Highest(inputs) < start + 60_000 - 1 ==>
      var s := Run(Seed(now), acts);
      var window, live := AccOf(CrashFree(inputs).0.accs, start), LiveAcc(s.orders, start);
      && window.count == live.count + Repeated(s.orderLog, InWindow(start))
      && window.sum == live.sum + Repeated(s.orderLog, RevenueIn(start))
      && (window == live <==> !AnyRepeats(s.orderLog, start))
  {
    var log := Run(Seed(now), acts).orderLog;
    OrdersTopicIsLegal(now, acts);
    DeliveredIsDecodable(log, inputs);
    WatermarkIsHighest(inputs);
    OpenWindowIsAdded(inputs, start);
    SumOfBag(Events(inputs), log, Net(InWindow(start)));
    SumOfBag(Events(inputs), log, Net(RevenueIn(start)));
    AddedByRun(now, acts, InWindow(start));
    AddedByRun(now, acts, RevenueIn(start));
    RepeatedIff(log, start);
  }
}
