/** What goes wrong: equal time stamps, skewed cuts, a month that loses its last order. */
module Skew {
  import opened Options
  import opened Dedup
  import opened Cdc
  import opened Source
  import opened SourceRuns
  import opened Gold
  import opened Lakehouse
  import opened LakehouseRuns
  import opened Leftovers
  import opened EndToEnd

  function Everything<V>(log: seq<Event<V>>): seq<int> { seq(|log|, i => i) }

  lemma EverythingKeeps<V>(log: seq<Event<V>>)
    ensures Keeps(log, Everything(log), 0)
  {
    forall i | 0 <= i < |log| ensures i in Everything(log) { assert Everything(log)[i] == i; }
  }

  // ---- equal time stamps ---------------------------------------------------------------------

  lemma {:induction false} KeysWereTables<V>(log: seq<Event<V>>, i: nat)
    requires OnlyUpserts(log) && i < |log|
    ensures log[i].key in Replay(log)
  {
    var n := |log| - 1;
    if i < n {
      assert OnlyUpserts(log[..n]) by { assert forall j :: 0 <= j < n ==> log[..n][j] == log[j]; }
      KeysWereTables(log[..n], i);
    }
    assert log[n].Upsert?;
  }

  /** A row image that ties with every later event of its key may be the one kept. */
  lemma TiedEventMayBeKept<V>(log: seq<Event<V>>, clock: Clock, n: nat) returns (ties: seq<Row<Image<V>>>)
    requires n < |log| && log[n].Upsert?
    requires forall i :: 0 <= i < |log| && log[i].key == log[n].key ==> clock(i) <= clock(n)
    ensures IsWindowOrder(UpsertRows(ReadTopic(log, clock, Everything(log))), ties)
    ensures Row(log[n].key, clock(n), Image(log[n].op, log[n].after)) in RankOne(ties)
  {
    var bronze := ReadTopic(log, clock, Everything(log));
    var rows := UpsertRows(bronze);
    var x := UpsertRow(BronzeRow(clock(n), log[n]));
    assert Everything(log)[n] == n && BronzeRow(clock(n), log[n]) in bronze;
    forall y | y in rows && y.id == x.id ensures y.ts <= x.ts {
      var b :| b in bronze && b.event.Upsert? && y == UpsertRow(b);
      var i :| i in Everything(log) && !log[i].Tombstone? && b == BronzeRow(clock(i), log[i]);
    }
    assert Newest(rows, x);
    ties := SomeOrderKeeps(rows, x);
  }

  /** `create_order` inserts with total 0 and updates to the real total in one
      transaction. If both events carry the same `ts_ms`, the engine may keep the 0. */
  lemma EqualStampsLoseTheTotal(s: Db, customer: int, lines: seq<Line>, now: int, clock: Clock)
      returns (ties: seq<Row<Image<Order>>>)
    requires Consistent(s) && s.customers != map[]
    requires Enabled(s, CreateOrder(customer, "", "", lines, now))
    requires clock(|s.orderLog|) == clock(|s.orderLog| + 1)
    ensures var log := Step(s, CreateOrder(customer, "", "", lines, now)).orderLog;
      && IsWindowOrder(UpsertRows(ReadTopic(log, clock, Everything(log))), ties)
      && Row(s.nextOrder, clock(|s.orderLog|), Image(Create, Order(customer, Pending, 0, now, now))) in RankOne(ties)
  {
    var n, o := |s.orderLog|, s.nextOrder;
    var log := Step(s, CreateOrder(customer, "", "", lines, now)).orderLog;
    var draft := Order(customer, Pending, 0, now, now);
    assert log[..n] == s.orderLog && |log| == n + 2 && log[n] == Upsert(Create, o, None, draft);
    forall i | 0 <= i < |log| && log[i].key == o ensures clock(i) <= clock(n) {
      if i < n { KeysWereTables(s.orderLog, i); }
    }
    ties := TiedEventMayBeKept(log, clock, n);
  }

  // ---- schedules exist ------------------------------------------------------------------------------

  /** At these cuts no upsert ties with its key's last one unless they agree. */
  ghost predicate ClearAt(w: World, cuts: Cuts)
    requires ValidWorld(w) && InOrder(w, cuts)
  {
    var clear := LastIsClear(At(w, cuts.orders).orderLog, w.orderClock)
      && LastIsClear(At(w, cuts.customers).customerLog, w.customerClock)
      && LastIsClear(At(w, cuts.items).itemLog, w.itemClock);
    clear
  }

  /** What is left of the three topics, and how much of each has expired. */
  datatype Kept = Kept(orders: seq<int>, customers: seq<int>, items: seq<int>)
  datatype Expired = Expired(orders: nat, customers: nat, items: nat)

  /** The topics as the last run read them. */
  ghost function Seen(w: World, bs: seq<Batch>): Topics
    requires ValidWorld(w) && ValidSchedule(w, bs)
  {
    if bs == [] then Topics([], [], [], w.orderClock, w.customerClock, w.itemClock) else TopicsAt(w, bs[|bs| - 1].cuts)
  }

  /** Compaction keeps each key's last record, and only what was read has expired. */
  ghost predicate KeptAt(w: World, bs: seq<Batch>, cuts: Cuts, kept: Kept, expired: Expired)
    requires ValidWorld(w) && ValidSchedule(w, bs) && InOrder(w, cuts)
  {
    var t, seen := TopicsAt(w, cuts), Seen(w, bs);
    var orders := Keeps(t.orders, kept.orders, expired.orders) && expired.orders <= |seen.orders|;
    var customers := Keeps(t.customers, kept.customers, expired.customers) && expired.customers <= |seen.customers|;
    var items := Keeps(t.items, kept.items, expired.items) && expired.items <= |seen.items|;
    orders && customers && items
  }

  /** Reading what is left of a clear log leaves Bronze settled. */
  lemma ReadSettles<V(!new)>(
      raw: seq<BronzeRow<V>>, older: seq<Event<V>>, log: seq<Event<V>>, clock: Clock, offsets: seq<int>, expired: nat)
    requires Faithful(raw, older, clock) && older <= log && expired <= |older| && Keeps(log, offsets, expired)
    requires OnlyUpserts(log) && InOrderPerKey(log, clock) && LastIsClear(log, clock)
    ensures Retains(raw, log, clock, offsets) && Settled(raw + ReadTopic(log, clock, offsets))
  {
    assert log[..|older|] == older;
    RetentionRetains(raw, log, clock, offsets, expired, |older|);
    IngestKeepsFaithful(raw, older, log, clock, offsets);
    SettledIfClear(log, clock, raw + ReadTopic(log, clock, offsets));
  }

  /** Bronze is faithful to what was seen, and that is still the start of every topic. */
  lemma SeenIsFaithful(w: World, bs: seq<Batch>, next: Cuts)
    requires ValidWorld(w) && ValidSchedule(w, bs) && InOrder(w, next)
    requires bs != [] ==> bs[|bs| - 1].cuts.items <= next.orders
    ensures var seen, t := Seen(w, bs), TopicsAt(w, next);
      && seen.orders <= t.orders && seen.customers <= t.customers && seen.items <= t.items
      && Faithful(After(bs).rawOrders, seen.orders, w.orderClock)
      && Faithful(After(bs).rawCustomers, seen.customers, w.customerClock)
      && Faithful(After(bs).rawItems, seen.items, w.itemClock)
  {
    if bs != [] {
      var init, b := bs[..|bs| - 1], bs[|bs| - 1];
      LastRunCarries(w, bs);
      OrdersStep(w, After(init), b);
      CustomersStep(w, After(init), b);
      ItemsStep(w, After(init), b);
      SourceGrows(w, b.cuts.orders, next.orders);
      SourceGrows(w, b.cuts.customers, next.customers);
      SourceGrows(w, b.cuts.items, next.items);
    }
  }

  lemma ReadsSettle(w: World, bs: seq<Batch>, cuts: Cuts, kept: Kept, expired: Expired)
    requires ValidWorld(w) && ValidSchedule(w, bs) && InOrder(w, cuts) && ClearAt(w, cuts)
    requires bs != [] ==> bs[|bs| - 1].cuts.items <= cuts.orders
    requires KeptAt(w, bs, cuts, kept, expired)
    ensures var t, lake := TopicsAt(w, cuts), After(bs);
      && Retains(lake.rawOrders, t.orders, t.orderClock, kept.orders)
      && Retains(lake.rawCustomers, t.customers, t.customerClock, kept.customers)
      && Retains(lake.rawItems, t.items, t.itemClock, kept.items)
      && Settled(lake.rawOrders + ReadTopic(t.orders, t.orderClock, kept.orders))
      && Settled(lake.rawCustomers + ReadTopic(t.customers, t.customerClock, kept.customers))
      && Settled(lake.rawItems + ReadTopic(t.items, t.itemClock, kept.items))
  {
    var t, seen, lake := TopicsAt(w, cuts), Seen(w, bs), After(bs);
    SourceAt(w, cuts.orders);
    SourceAt(w, cuts.customers);
    SourceAt(w, cuts.items);
    SeenIsFaithful(w, bs, cuts);
    ReadSettles(lake.rawOrders, seen.orders, t.orders, t.orderClock, kept.orders, expired.orders);
    ReadSettles(lake.rawCustomers, seen.customers, t.customers, t.customerClock, kept.customers, expired.customers);
    ReadSettles(lake.rawItems, seen.items, t.items, t.itemClock, kept.items, expired.items);
  }

  /** Any clear cuts can be ingested from what is left of the topics, ties in some order. */
  lemma FeasibleBatch(w: World, bs: seq<Batch>, cuts: Cuts, kept: Kept, expired: Expired) returns (b: Batch)
    requires ValidWorld(w) && ValidSchedule(w, bs) && InOrder(w, cuts) && ClearAt(w, cuts)
    requires bs != [] ==> bs[|bs| - 1].cuts.items <= cuts.orders
    requires KeptAt(w, bs, cuts, kept, expired)
    ensures b.cuts == cuts && Feasible(w, After(bs), b) && b.left == NextLake(w, After(bs), b)
    ensures b.choices.orderOffsets == kept.orders && b.choices.customerOffsets == kept.customers && b.choices.itemOffsets == kept.items
  {
    var t, lake := TopicsAt(w, cuts), After(bs);
    ReadsSettle(w, bs, cuts, kept, expired);
    var blank := Choices(kept.orders, kept.customers, kept.items, [], [], [], [], 0);
    var raw := Bronze(lake, t, blank);
    SortDescSorts(UpsertRows(raw.rawOrders));
    SortDescSorts(UpsertRows(raw.rawCustomers));
    SortDescSorts(UpsertRows(raw.rawItems));
    var choices := blank.(orderTies := SortDesc(UpsertRows(raw.rawOrders)),
                          customerTies := SortDesc(UpsertRows(raw.rawCustomers)),
                          itemTies := SortDesc(UpsertRows(raw.rawItems)));
    b := Batch(cuts, choices, RunBatch(lake, w.layout, t, choices));
  }

  lemma ScheduleSnoc(w: World, init: seq<Batch>, b: Batch)
    requires ValidWorld(w) && ValidSchedule(w, init) && Feasible(w, After(init), b) && b.left == NextLake(w, After(init), b)
    requires init != [] ==> init[|init| - 1].cuts.items <= b.cuts.orders
    ensures ValidSchedule(w, init + [b])
  {
    var bs := init + [b];
    assert bs[..|init|] == init;
    forall k | 0 <= k < |bs| ensures InOrder(w, bs[k].cuts) && RunAt(w, bs, k) {
      if k < |init| { assert RunAt(w, init, k); assert Before(bs, k) == Before(init, k); }
    }
  }

  /** Every schedule can go on, at any later clear cuts and on whatever compaction and
      expiry have left of the topics: the theorems about schedules are about all of these. */
  lemma AnyScheduleGoesOn(w: World, bs: seq<Batch>, cuts: Cuts, kept: Kept, expired: Expired) returns (b: Batch)
    requires ValidWorld(w) && ValidSchedule(w, bs) && InOrder(w, cuts) && ClearAt(w, cuts)
    requires bs != [] ==> bs[|bs| - 1].cuts.items <= cuts.orders
    requires KeptAt(w, bs, cuts, kept, expired)
    ensures b.cuts == cuts && ValidSchedule(w, bs + [b])
    ensures b.choices.orderOffsets == kept.orders && b.choices.customerOffsets == kept.customers && b.choices.itemOffsets == kept.items
  {
    b := FeasibleBatch(w, bs, cuts, kept, expired);
    ScheduleSnoc(w, bs, b);
  }

  /** A full read, with nothing expired. */
  lemma FullReadGoesOn(w: World, bs: seq<Batch>, cuts: Cuts) returns (b: Batch)
    requires ValidWorld(w) && ValidSchedule(w, bs) && InOrder(w, cuts) && ClearAt(w, cuts)
    requires bs != [] ==> bs[|bs| - 1].cuts.items <= cuts.orders
    ensures b.cuts == cuts && ValidSchedule(w, bs + [b])
  {
    var t := TopicsAt(w, cuts);
    EverythingKeeps(t.orders);
    EverythingKeeps(t.customers);
    EverythingKeeps(t.items);
    b := AnyScheduleGoesOn(w, bs, cuts, Kept(Everything(t.orders), Everything(t.customers), Everything(t.items)), Expired(0, 0, 0));
  }

  /** Two batch runs with given cuts. */
  lemma TwoRuns(w: World, first: Cuts, second: Cuts) returns (bs: seq<Batch>)
    requires ValidWorld(w) && InOrder(w, first) && InOrder(w, second) && first.items <= second.orders
    requires ClearAt(w, first) && ClearAt(w, second)
    ensures ValidSchedule(w, bs) && |bs| == 2 && bs[0].cuts == first && bs[1].cuts == second
  {
    var b := FullReadGoesOn(w, [], first);
    assert [] + [b] == [b];
    var c := FullReadGoesOn(w, [b], second);
    bs := [b] + [c];
  }

  // ---- a source run to batch over -------------------------------------------------------------------

  /** Stamps that never repeat leave nothing to settle. */
  lemma GrowingClockIsClear<V>(log: seq<Event<V>>, clock: Clock)
    requires forall i, j :: i < j ==> clock(i) < clock(j)
    ensures InOrderPerKey(log, clock) && LastIsClear(log, clock)
  {
  }

  lemma GrowingClocksAreClear(w: World, cuts: Cuts)
    requires ValidWorld(w) && InOrder(w, cuts) && w.customerClock == w.orderClock && w.itemClock == w.orderClock
    requires forall i, j :: i < j ==> w.orderClock(i) < w.orderClock(j)
    ensures ClearAt(w, cuts)
  {
    GrowingClockIsClear(At(w, cuts.orders).orderLog, w.orderClock);
    GrowingClockIsClear(At(w, cuts.customers).customerLog, w.customerClock);
    GrowingClockIsClear(At(w, cuts.items).itemLog, w.itemClock);
  }

  lemma OneLine(s: Db, o: int, l: Line, now: int)
    requires l.productId in PRODUCTS
    ensures InsertLines(s, o, [l], now) == InsertItem(s, Item(o, l.productId, l.quantity, PRODUCTS[l.productId], now))
  {
    assert [l][..0] == [];
  }

  /** An order with one line is created. */
  lemma Created(s: Db, customer: int, l: Line, now: int) returns (t: Db)
    requires Consistent(s) && customer in s.customers && l.productId in PRODUCTS && 1 <= l.quantity <= 3
    ensures Commits(s, t) && s.nextOrder !in s.orders
    ensures t.orders == s.orders[s.nextOrder := Order(customer, Pending, LinesTotal([l]), now, now)]
    ensures t.items == s.items[s.nextItem := Item(s.nextOrder, l.productId, l.quantity, PRODUCTS[l.productId], now)]
  {
    var a := CreateOrder(customer, "", "", [l], now);
    OneLine(InsertOrder(s, Order(customer, Pending, 0, now, now)), s.nextOrder, l, now);
    assert Enabled(s, a);
    t := Step(s, a);
  }

  lemma Progressed(s: Db, o: int, next: Status, now: int) returns (t: Db)
    requires o in s.orders && !Terminal(s.orders[o].status) && next in Successors(s.orders[o].status)
    ensures Commits(s, t) && t.items == s.items
    ensures t.orders == s.orders[o := s.orders[o].(status := next, updatedAt := now)]
  {
    var a := ProgressOrder(Some(o), next, now);
    assert Enabled(s, a);
    t := Step(s, a);
  }

  ghost predicate HasItem(s: Db, o: int) { exists i :: i in s.items && s.items[i].orderId == o }

  /** The seed's next day: an order is created, confirmed and cancelled by three commits. */
  ghost predicate OrderOfADay(commits: seq<Db>, o: int) {
    && History(commits) && |commits| == 4 && |commits[3].orders| <= 3
    && o !in commits[0].orders && HasItem(commits[1], o)
    && o in commits[2].orders && commits[2].orders[o].status == Confirmed && commits[2].orders[o].createdAt == MS_PER_DAY
    && o in commits[3].orders && commits[3].orders[o].status == Cancelled
    && (forall x :: x in commits[3].orders && x != o ==> commits[3].orders[x].createdAt == 0)
  }

  lemma ThreeCommits(s: Db, t: Db, u: Db, v: Db)
    requires Consistent(s) && Commits(s, t) && Commits(t, u) && Commits(u, v)
    ensures History([s, t, u, v])
  {
    var commits := [s, t, u, v];
    forall k | 0 <= k < |commits| ensures StateAt(commits, k) { }
  }

  lemma Overwritten(orders: map<int, Order>, o: int, before: Order, after: Order)
    ensures orders[o := before][o := after] == orders[o := after]
  {
  }

  lemma CreatedConfirmedCancelled(s: Db, customer: int, now: int) returns (commits: seq<Db>, row: Order)
    requires Consistent(s) && customer in s.customers
    ensures History(commits) && |commits| == 4 && commits[0] == s && s.nextOrder !in s.orders && row.createdAt == now
    ensures HasItem(commits[1], s.nextOrder)
    ensures commits[2].orders == s.orders[s.nextOrder := row.(status := Confirmed)]
    ensures commits[3].orders == s.orders[s.nextOrder := row.(status := Cancelled)]
  {
    var o, l := s.nextOrder, Line(101, 1);
    row := Order(customer, Pending, LinesTotal([l]), now, now);
    var t := Created(s, customer, l, now);
    var u := Progressed(t, o, Confirmed, now);
    Overwritten(s.orders, o, row, row.(status := Confirmed));
    var v := Progressed(u, o, Cancelled, now);
    Overwritten(s.orders, o, row.(status := Confirmed), row.(status := Cancelled));
    ThreeCommits(s, t, u, v);
    commits := [s, t, u, v];
    assert HasItem(t, o) by { assert s.nextItem in t.items && t.items[s.nextItem].orderId == o; }
  }

  lemma SeedRows()
    ensures var s := Seed(0); 1 in s.customers && |s.orders| == 2 && forall x :: x in s.orders ==> s.orders[x].createdAt == 0
  {
  }

  lemma DayOfCommits(commits: seq<Db>, row: Order, o: int)
    requires History(commits) && |commits| == 4 && o !in commits[0].orders && row.createdAt == MS_PER_DAY
    requires HasItem(commits[1], o)
    requires commits[2].orders == commits[0].orders[o := row.(status := Confirmed)]
    requires commits[3].orders == commits[0].orders[o := row.(status := Cancelled)]
    requires |commits[0].orders| == 2
    requires forall x :: x in commits[0].orders ==> commits[0].orders[x].createdAt == 0
    ensures OrderOfADay(commits, o)
  {
  }

  lemma SuchADay() returns (commits: seq<Db>, o: int)
    ensures OrderOfADay(commits, o)
  {
    var s := Seed(0);
    SeedIsConsistent(0);
    SeedRows();
    var row;
    commits, row := CreatedConfirmedCancelled(s, 1, MS_PER_DAY);
    o := s.nextOrder;
    DayOfCommits(commits, row, o);
  }

  /** With stamps that never repeat and a partition per day. */
  lemma DailyWorld(commits: seq<Db>, o: int) returns (w: World)
    requires OrderOfADay(commits, o)
    ensures ValidWorld(w) && w.commits == commits && w.layout.month == ((day: int) => day)
    ensures forall cuts :: InOrder(w, cuts) ==> ClearAt(w, cuts)
  {
    var clock: Clock := k => k;
    w := World(commits, clock, clock, clock, Layout(x => 0, x => 0, (day: int) => day));
    GrowingClockIsClear(Latest(w).orderLog, clock);
    GrowingClockIsClear(Latest(w).customerLog, clock);
    GrowingClockIsClear(Latest(w).itemLog, clock);
    forall cuts | InOrder(w, cuts) ensures ClearAt(w, cuts) { GrowingClocksAreClear(w, cuts); }
  }

  // ---- skewed cuts ------------------------------------------------------------------------------

  lemma OrphanIsBookedTwice(w: World, o: int, bs: seq<Batch>)
    requires ValidWorld(w) && OrderOfADay(w.commits, o)
    requires |bs| == 2 && bs[0].cuts == Cuts(0, 0, 1) && bs[1].cuts == Cuts(2, 2, 2)
    ensures BookedTwice(w, bs)
  {
    NoOrphanAtCommonCut(w, bs[1].cuts);
    var i :| i in w.commits[1].items && w.commits[1].items[i].orderId == o;
    assert i in At(w, 1).items && InOrder(w, bs[0].cuts) && OrphanOrder(w, bs[0].cuts, o);
    assert OrphanUntil(w, bs, o, 0, |bs|);
    assert EarnsRevenue(w, bs[|bs| - 1].cuts, o) && LeftBehind(w, bs, o);
  }

  lemma BookedTwiceBreaks(w: World, bs: seq<Batch>)
    requires ValidWorld(w) && ValidSchedule(w, bs) && bs != [] && FewOrders(w) && BookedTwice(w, bs)
    ensures !Conserved(After(bs)) && !StoredConserved(After(bs))
  {
    ConservationIff(w, bs);
    StoredConservationIff(w, bs);
  }

  /** Conservation is false in general: after a schedule of two runs, the first with
      skewed cuts, a line of a revenue order is stored twice, and neither the recomputed
      nor the stored daily revenue is the lifetime revenue. */
  lemma ConservationNeedsCommonCuts() returns (w: World, bs: seq<Batch>)
    ensures ValidWorld(w) && ValidSchedule(w, bs) && !Conserved(After(bs)) && !StoredConserved(After(bs))
  {
    var commits, o := SuchADay();
    w := DailyWorld(commits, o);
    bs := TwoRuns(w, Cuts(0, 0, 1), Cuts(2, 2, 2));
    OrphanIsBookedTwice(w, o, bs);
    BookedTwiceBreaks(w, bs);
  }

  // ---- a cancelled month ---------------------------------------------------------------------------

  lemma MonthIsLost(w: World, o: int, bs: seq<Batch>)
    requires ValidWorld(w) && OrderOfADay(w.commits, o) && w.layout.month == ((day: int) => day)
    requires |bs| == 2 && bs[0].cuts == Cuts(2, 2, 2) && bs[1].cuts == Cuts(3, 3, 3)
    ensures !EveryMonthStillEarns(w, bs)
  {
    assert RevenueIn(At(w, 2), w.layout, o, 1) && EarnsAt(w, bs[0].cuts, 1);
    assert EarnedAtSomeRun(w, bs, 1);
    forall x ensures !RevenueIn(At(w, 3), w.layout, x, 1) { }
  }

  lemma LostMonthStays(w: World, bs: seq<Batch>)
    requires ValidWorld(w) && ValidSchedule(w, bs) && bs != [] && !EveryMonthStillEarns(w, bs)
    requires CommonCuts(bs) && |Latest(w).orders| <= 1_000_000_000_000
    ensures After(bs).daily != DailyRevenue(After(bs).orders, After(bs).items) && !StoredConserved(After(bs))
  {
    DailyEqualsRecomputeIff(w, bs);
    StoredConservationAtCommonCuts(w, bs);
  }

  /** Even at common cuts the stored daily table can go wrong: the only order of a month
      is confirmed, a batch runs, the order is cancelled, a batch runs. The month's rows
      stay, and the stored Gold tables disagree. */
  lemma CancelledMonthKeepsItsRows() returns (w: World, bs: seq<Batch>)
    ensures ValidWorld(w) && ValidSchedule(w, bs) && bs != [] && CommonCuts(bs)
    ensures After(bs).daily != DailyRevenue(After(bs).orders, After(bs).items) && !StoredConserved(After(bs))
  {
    var commits, o := SuchADay();
    w := DailyWorld(commits, o);
    bs := TwoRuns(w, Cuts(2, 2, 2), Cuts(3, 3, 3));
    MonthIsLost(w, o, bs);
    LostMonthStays(w, bs);
  }
}
