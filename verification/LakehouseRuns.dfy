/** Sequences of batch runs against a live source, each topic read at its own cut. */
module LakehouseRuns {
  import opened Options
  import opened Aggregates
  import opened Relational
  import opened Rounding
  import opened Dedup
  import opened Cdc
  import opened Source
  import opened SourceRuns
  import opened Gold
  import opened GoldLaws
  import opened Tables
  import opened Lakehouse

  // ---- schedules ---------------------------------------------------------------------------

  /** A run of the source, as its state after each commit, together with the time stamps
      its events got, in order per key. */
  datatype World = World(commits: seq<Db>, orderClock: Clock, customerClock: Clock, itemClock: Clock, layout: Layout)

  /** One action of the generator leads from `s` to `t`. */
  ghost predicate Commits(s: Db, t: Db) { exists a :: Enabled(s, a) && t == Step(s, a) }

  /** The first state is consistent, every other one is a commit after the one before. */
  ghost predicate StateAt(commits: seq<Db>, k: int)
    requires 0 <= k < |commits|
  {
    if k == 0 then Consistent(commits[0]) else Commits(commits[k - 1], commits[k])
  }

  ghost predicate History(commits: seq<Db>) {
    commits != [] && forall k {:trigger StateAt(commits, k)} :: 0 <= k < |commits| ==> StateAt(commits, k)
  }

  ghost predicate ValidWorld(w: World) {
    History(w.commits) &&
    var inOrder := InOrderPerKey(Latest(w).orderLog, w.orderClock)
      && InOrderPerKey(Latest(w).customerLog, w.customerClock)
      && InOrderPerKey(Latest(w).itemLog, w.itemClock);
    inOrder
  }

  function Latest(w: World): Db
    requires w.commits != []
  {
    w.commits[|w.commits| - 1]
  }

  /** The source after its first `k` commits. */
  ghost function At(w: World, k: nat): Db
    requires k < |w.commits|
  {
    w.commits[k]
  }

  /** The states of a run of the generator are such a history. */
  lemma RunIsHistory(s: Db, acts: seq<Action>) returns (commits: seq<Db>)
    requires Consistent(s) && ValidRun(s, acts)
    ensures History(commits) && |commits| == |acts| + 1
    ensures forall k :: 0 <= k <= |acts| ==> ValidRun(s, acts[..k]) && commits[k] == Run(s, acts[..k])
  {
    if acts == [] {
      commits := [s];
    } else {
      var init, a := acts[..|acts| - 1], acts[|acts| - 1];
      var before := RunIsHistory(s, init);
      assert init[..|init|] == init && acts[..|acts|] == acts;
      commits := before + [Run(s, acts)];
      assert Commits(before[|init|], Run(s, acts));
      forall k | 0 <= k < |commits| ensures StateAt(commits, k) { if k < |before| { assert StateAt(before, k); } }
      forall k | 0 <= k <= |acts| ensures ValidRun(s, acts[..k]) && commits[k] == Run(s, acts[..k]) {
        if k < |acts| { assert acts[..k] == init[..k]; }
      }
    }
  }

  /** How many commits each topic read sees. One run reads orders, then customers, then
      items, while the source goes on committing. */
  datatype Cuts = Cuts(orders: nat, customers: nat, items: nat)

  ghost predicate InOrder(w: World, cuts: Cuts) { cuts.orders <= cuts.customers <= cuts.items < |w.commits| }

  ghost function TopicsAt(w: World, cuts: Cuts): Topics
    requires ValidWorld(w) && InOrder(w, cuts)
  {
    Topics(At(w, cuts.orders).orderLog, At(w, cuts.customers).customerLog, At(w, cuts.items).itemLog,
           w.orderClock, w.customerClock, w.itemClock)
  }

  /** One batch run: what it reads, what it does not control, and the tables it leaves. */
  datatype Batch = Batch(cuts: Cuts, choices: Choices, left: Lake)

  /** Wherever rows tie for the newest of a key they agree. */
  ghost predicate TiesSettled(lake: Lake) {
    Settled(lake.rawOrders) && Settled(lake.rawCustomers) && Settled(lake.rawItems)
  }

  /** Retention leaves what is needed, the ties are a window order of Bronze, and they
      are settled. */
  ghost predicate Feasible(w: World, lake: Lake, b: Batch)
    requires ValidWorld(w)
  {
    InOrder(w, b.cuts) &&
    var t, c := TopicsAt(w, b.cuts), b.choices;
    var retained := Retains(lake.rawOrders, t.orders, t.orderClock, c.orderOffsets)
      && Retains(lake.rawCustomers, t.customers, t.customerClock, c.customerOffsets)
      && Retains(lake.rawItems, t.items, t.itemClock, c.itemOffsets);
    retained &&
    var settled := ValidTies(Bronze(lake, t, c), c) && TiesSettled(Bronze(lake, t, c));
    settled
  }

  ghost function NextLake(w: World, lake: Lake, b: Batch): Lake
    requires ValidWorld(w) && Feasible(w, lake, b)
  {
    RunBatch(lake, w.layout, TopicsAt(w, b.cuts), b.choices)
  }

  /** The tables a schedule of runs leaves. */
  function After(bs: seq<Batch>): Lake { if bs == [] then EMPTY else bs[|bs| - 1].left }

  /** A run on these tables leaves what it should. */
  ghost predicate Runs(w: World, lake: Lake, b: Batch)
    requires ValidWorld(w)
  {
    var runs := Feasible(w, lake, b) && b.left == NextLake(w, lake, b);
    runs
  }

  /** The tables run `k` finds. */
  function Before(bs: seq<Batch>, k: nat): Lake
    requires k <= |bs|
  {
    if k == 0 then EMPTY else bs[k - 1].left
  }

  /** Runs follow one another, each on the tables the one before left. */
  ghost predicate RunAt(w: World, bs: seq<Batch>, k: int)
    requires ValidWorld(w) && 0 <= k < |bs|
  {
    Runs(w, Before(bs, k), bs[k]) && (k > 0 ==> bs[k - 1].cuts.items <= bs[k].cuts.orders)
  }

  ghost predicate ValidSchedule(w: World, bs: seq<Batch>)
    requires ValidWorld(w)
  {
    && (forall k :: 0 <= k < |bs| ==> InOrder(w, bs[k].cuts))
    && (forall k {:trigger RunAt(w, bs, k)} :: 0 <= k < |bs| ==> RunAt(w, bs, k))
  }

  lemma ScheduleInit(w: World, bs: seq<Batch>)
    requires ValidWorld(w) && ValidSchedule(w, bs) && bs != []
    ensures ValidSchedule(w, bs[..|bs| - 1])
  {
    var init := bs[..|bs| - 1];
    forall k | 0 <= k < |init| ensures RunAt(w, init, k) { SameRun(w, bs, init, k); }
  }

  lemma SameRun(w: World, bs: seq<Batch>, init: seq<Batch>, k: nat)
    requires ValidWorld(w) && k < |init| && init <= bs && RunAt(w, bs, k)
    ensures RunAt(w, init, k)
  {
    assert init[k] == bs[k] && Before(init, k) == Before(bs, k);
  }

  lemma BeforeLast(bs: seq<Batch>)
    requires bs != []
    ensures Before(bs, |bs| - 1) == After(bs[..|bs| - 1])
    ensures |bs| > 1 ==> bs[..|bs| - 1][|bs| - 2] == bs[|bs| - 2]
  {
  }

  lemma LastRun(w: World, bs: seq<Batch>)
    requires ValidWorld(w) && ValidSchedule(w, bs) && bs != []
    ensures Runs(w, After(bs[..|bs| - 1]), bs[|bs| - 1])
    ensures |bs| > 1 ==> bs[|bs| - 2].cuts.items <= bs[|bs| - 1].cuts.orders
  {
    BeforeLast(bs);
    assert RunAt(w, bs, |bs| - 1);
  }

  // ---- tables that mirror the source ---------------------------------------------------------

  /** One row per key of the table, each the image of its source row. */
  ghost predicate Mirrors<V, R>(rows: seq<R>, key: R -> Option<int>, p: (int, Image<V>) -> R, table: map<int, V>) {
    && DistinctBy(rows, key)
    && (forall r :: r in rows ==> IsImage(r, key, p, table))
    && (forall id :: id in table ==> HasKey(rows, key, id))
  }

  ghost predicate IsImage<V, R>(r: R, key: R -> Option<int>, p: (int, Image<V>) -> R, table: map<int, V>) {
    key(r).Some? && key(r).value in table && exists op :: r == p(key(r).value, Image(op, table[key(r).value]))
  }

  ghost predicate HasKey<R>(rows: seq<R>, key: R -> Option<int>, id: int) {
    exists r :: r in rows && key(r) == Some(id)
  }

  const ItemKey: ItemRow -> Option<int> := (r: ItemRow) => Some(r.itemId)

  /** Whatever the engine does with ties, the deduplicated rows mirror the source table. */
  lemma SilverMirrorsSource<V(!new), R>(
      log: seq<Event<V>>, clock: Clock, bronze: seq<BronzeRow<V>>, ties: seq<Row<Image<V>>>,
      key: R -> Option<int>, p: (int, Image<V>) -> R)
    requires InOrderPerKey(log, clock) && Faithful(bronze, log, clock) && Settled(bronze) && OnlyUpserts(log)
    requires IsWindowOrder(UpsertRows(bronze), ties)
    requires forall id, i :: key(p(id, i)) == Some(id)
    ensures Mirrors(SilverRows(ties, p), key, p, Replay(log))
  {
    SilverRefinesSource(log, clock, bronze, ties);
    var out, ups, rows := RankOne(ties), Upserts(log), SilverRows(ties, p);
    var table := BusinessColumns(ups);
    forall r | r in rows ensures IsImage(r, key, p, table) {
      var i :| 0 <= i < |rows| && rows[i] == r;
      assert out[i] in out && out[i].val == ups[out[i].id];
      assert r == p(out[i].id, Image(out[i].val.op, table[out[i].id]));
    }
    forall id | id in table ensures HasKey(rows, key, id) {
      assert HasId(out, id);
      var i :| 0 <= i < |out| && out[i].id == id;
      assert rows[i] in rows && key(rows[i]) == Some(id);
    }
  }

  // ---- the source between two cuts --------------------------------------------------------------

  lemma {:induction false} HistoryIsConsistent(commits: seq<Db>, k: nat)
    requires History(commits) && k < |commits|
    ensures Consistent(commits[k]) && (k > 0 ==> Grows(commits[k - 1], commits[k]))
  {
    assert StateAt(commits, k);
    if k > 0 {
      HistoryIsConsistent(commits, k - 1);
      var a :| Enabled(commits[k - 1], a) && commits[k] == Step(commits[k - 1], a);
      StepKeepsConsistent(commits[k - 1], a);
    }
  }

  lemma {:induction false} HistoryGrows(commits: seq<Db>, j: nat, k: nat)
    requires History(commits) && j <= k < |commits|
    ensures Grows(commits[j], commits[k])
    decreases k
  {
    if j == k {
      GrowsReflexive(commits[j]);
    } else {
      HistoryGrows(commits, j, k - 1);
      HistoryIsConsistent(commits, k);
      GrowsTransitive(commits[j], commits[k - 1], commits[k]);
    }
  }

  lemma SourceAt(w: World, k: nat)
    requires ValidWorld(w) && k < |w.commits|
    ensures Consistent(At(w, k))
    ensures InOrderPerKey(At(w, k).orderLog, w.orderClock)
    ensures InOrderPerKey(At(w, k).customerLog, w.customerClock)
    ensures InOrderPerKey(At(w, k).itemLog, w.itemClock)
  {
    HistoryIsConsistent(w.commits, k);
    HistoryGrows(w.commits, k, |w.commits| - 1);
    InOrderOnPrefix(At(w, k).orderLog, Latest(w).orderLog, w.orderClock);
    InOrderOnPrefix(At(w, k).customerLog, Latest(w).customerLog, w.customerClock);
    InOrderOnPrefix(At(w, k).itemLog, Latest(w).itemLog, w.itemClock);
  }

  lemma InOrderOnPrefix<V>(older: seq<Event<V>>, log: seq<Event<V>>, clock: Clock)
    requires older <= log && InOrderPerKey(log, clock)
    ensures InOrderPerKey(older, clock)
  {
  }

  lemma SourceGrows(w: World, j: nat, k: nat)
    requires ValidWorld(w) && j <= k < |w.commits|
    ensures Grows(At(w, j), At(w, k))
  {
    HistoryGrows(w.commits, j, k);
  }

  // ---- what the stored tables carry from run to run ----------------------------------------------

  ghost predicate RawCarried<V>(raw: seq<BronzeRow<V>>, log: seq<Event<V>>, clock: Clock) {
    forall r :: r in raw ==> IsRecord(log, clock, r)
  }

  ghost predicate OrdersCarried(rows: seq<OrderRow>, s: Db) {
    forall r :: r in rows ==> r.orderId in s.orders && r.createdAt == Some(s.orders[r.orderId].createdAt)
  }

  ghost predicate CustomersCarried(rows: seq<CustomerRow>, s: Db) {
    forall r :: r in rows ==> r.customerId in s.customers && r.createdAt == Some(s.customers[r.customerId].createdAt)
  }

  /** `s` is the source at the cut of the orders, `t` at the cut of the items. */
  ghost predicate ItemCarried(r: ItemRow, s: Db, t: Db) {
    && r.itemId in t.items && t.items[r.itemId].orderId == r.orderId
    && r.lineTotal.Some? && 1 <= r.lineTotal.value <= MAX_QUANTITY * MAX_PRICE
    && (r.orderCreatedAt.Some? ==> r.orderId in s.orders && r.orderCreatedAt == Some(s.orders[r.orderId].createdAt))
  }

  ghost predicate Carries(w: World, lake: Lake, cuts: Cuts)
    requires ValidWorld(w) && InOrder(w, cuts)
  {
    var t := TopicsAt(w, cuts);
    var raw := RawCarried(lake.rawOrders, t.orders, t.orderClock)
      && RawCarried(lake.rawCustomers, t.customers, t.customerClock)
      && RawCarried(lake.rawItems, t.items, t.itemClock);
    var stored := OrdersCarried(lake.orders, At(w, cuts.orders))
      && CustomersCarried(lake.customers, At(w, cuts.customers))
      && (forall r :: r in lake.items ==> ItemCarried(r, At(w, cuts.orders), At(w, cuts.items)))
      && (forall m :: m in lake.metrics ==> m.customerId in At(w, cuts.customers).customers);
    raw && stored
  }

  lemma RawCarriedOn<V>(raw: seq<BronzeRow<V>>, older: seq<Event<V>>, log: seq<Event<V>>, clock: Clock)
    requires older <= log && RawCarried(raw, older, clock)
    ensures RawCarried(raw, log, clock)
  {
  }

  /** What holds at one run's cuts still holds at the next one's. */
  lemma CarriesOn(w: World, lake: Lake, cuts: Cuts, next: Cuts)
    requires ValidWorld(w) && InOrder(w, cuts) && InOrder(w, next) && cuts.items <= next.orders
    requires Carries(w, lake, cuts)
    ensures Carries(w, lake, next)
  {
    SourceGrows(w, cuts.orders, next.orders);
    SourceGrows(w, cuts.customers, next.customers);
    SourceGrows(w, cuts.items, next.items);
    var t, u := TopicsAt(w, cuts), TopicsAt(w, next);
    RawCarriedOn(lake.rawOrders, t.orders, u.orders, w.orderClock);
    RawCarriedOn(lake.rawCustomers, t.customers, u.customers, w.customerClock);
    RawCarriedOn(lake.rawItems, t.items, u.items, w.itemClock);
    forall o | o in At(w, cuts.orders).orders
      ensures o in At(w, next.orders).orders && At(w, next.orders).orders[o].createdAt == At(w, cuts.orders).orders[o].createdAt
    {
      assert OrderGrows(At(w, cuts.orders), At(w, next.orders), o);
    }
  }

  // ---- one batch, table by table ------------------------------------------------------------------

  /** Creation dates never change, so a row is rewritten in its own partition. */
  lemma OrdersAreReplaced(stored: seq<OrderRow>, out: seq<OrderRow>, s: Db)
    requires OrdersCarried(stored, s) && Mirrors(out, OrderKey, OrderImage, s.orders)
    ensures Touched(stored, out, OrderPartition)
  {
  }

  lemma OrdersStep(w: World, lake: Lake, b: Batch)
    requires ValidWorld(w) && Feasible(w, lake, b) && Carries(w, lake, b.cuts)
    ensures NextLake(w, lake, b).orders == SilverRows(b.choices.orderTies, OrderImage)
    ensures Mirrors(NextLake(w, lake, b).orders, OrderKey, OrderImage, At(w, b.cuts.orders).orders)
    ensures Faithful(NextLake(w, lake, b).rawOrders, TopicsAt(w, b.cuts).orders, w.orderClock)
  {
    var t, s := TopicsAt(w, b.cuts), At(w, b.cuts.orders);
    SourceAt(w, b.cuts.orders);
    IngestKeepsFaithful(lake.rawOrders, t.orders, t.orders, w.orderClock, b.choices.orderOffsets);
    var raw := Bronze(lake, t, b.choices).rawOrders;
    SilverMirrorsSource(t.orders, w.orderClock, raw, b.choices.orderTies, OrderKey, OrderImage);
    var out := SilverRows(b.choices.orderTies, OrderImage);
    OrdersAreReplaced(lake.orders, out, s);
    OverwriteIsRecomputeIffTouched(lake.orders, out, OrderPartition);
  }

  /** Creation dates never change, so a row is rewritten in its own partition. */
  lemma CustomersAreReplaced(stored: seq<CustomerRow>, out: seq<CustomerRow>, s: Db)
    requires CustomersCarried(stored, s) && Mirrors(out, CustomerKey, CustomerImage, s.customers)
    ensures Touched(stored, out, CustomerPartition)
  {
  }

  lemma CustomersStep(w: World, lake: Lake, b: Batch)
    requires ValidWorld(w) && Feasible(w, lake, b) && Carries(w, lake, b.cuts)
    ensures NextLake(w, lake, b).customers == SilverRows(b.choices.customerTies, CustomerImage)
    ensures Mirrors(NextLake(w, lake, b).customers, CustomerKey, CustomerImage, At(w, b.cuts.customers).customers)
    ensures Faithful(NextLake(w, lake, b).rawCustomers, TopicsAt(w, b.cuts).customers, w.customerClock)
  {
    var t, s := TopicsAt(w, b.cuts), At(w, b.cuts.customers);
    SourceAt(w, b.cuts.customers);
    IngestKeepsFaithful(lake.rawCustomers, t.customers, t.customers, w.customerClock, b.choices.customerOffsets);
    var raw := Bronze(lake, t, b.choices).rawCustomers;
    SilverMirrorsSource(t.customers, w.customerClock, raw, b.choices.customerTies, CustomerKey, CustomerImage);
    var out := SilverRows(b.choices.customerTies, CustomerImage);
    CustomersAreReplaced(lake.customers, out, s);
    OverwriteIsRecomputeIffTouched(lake.customers, out, CustomerPartition);
  }

  ghost predicate SameIds(left: seq<CustomerRow>, out: seq<MetricsRow>) {
    |out| == |left| && forall i :: 0 <= i < |left| ==> out[i].customerId == left[i].customerId
  }

  /** A metrics row has the id of the customer it is computed from. */
  lemma MetricsIds(orders: seq<OrderRow>, customers: seq<CustomerRow>, today: int)
    ensures SameIds(Filter(customers, IsUpserted), CustomerMetrics(orders, customers, today))
  {
    MetricsRowsAre(orders, customers, today);
  }

  lemma RowFor(left: seq<CustomerRow>, out: seq<MetricsRow>, c: CustomerRow) returns (i: nat)
    requires SameIds(left, out) && c in left
    ensures i < |out| && out[i].customerId == c.customerId
  {
    i :| 0 <= i < |left| && left[i] == c;
  }

  lemma MetricsRowFor(orders: seq<OrderRow>, customers: seq<CustomerRow>, today: int, c: CustomerRow) returns (i: nat)
    requires c in customers && c.op.Some?
    ensures i < |CustomerMetrics(orders, customers, today)|
    ensures CustomerMetrics(orders, customers, today)[i].customerId == c.customerId
  {
    MetricsIds(orders, customers, today);
    assert IsUpserted(c);
    i := RowFor(Filter(customers, IsUpserted), CustomerMetrics(orders, customers, today), c);
  }

  lemma MetricsRowFrom(orders: seq<OrderRow>, customers: seq<CustomerRow>, today: int, m: MetricsRow) returns (c: CustomerRow)
    requires m in CustomerMetrics(orders, customers, today)
    ensures c in customers && c.customerId == m.customerId
  {
    MetricsIds(orders, customers, today);
    var left, out := Filter(customers, IsUpserted), CustomerMetrics(orders, customers, today);
    var i :| 0 <= i < |out| && out[i] == m;
    c := left[i];
    assert c in left;
  }

  /** Customers are never removed, so a new metrics table touches every old bucket. */
  lemma MetricsTouchAll(
      stored: seq<MetricsRow>, orders: seq<OrderRow>, customers: seq<CustomerRow>, table: map<int, Customer>, l: Layout, today: int)
    requires Mirrors(customers, CustomerKey, CustomerImage, table)
    requires forall m :: m in stored ==> m.customerId in table
    ensures Touched(stored, CustomerMetrics(orders, customers, today), MetricsPartition(l))
    ensures forall m :: m in CustomerMetrics(orders, customers, today) ==> m.customerId in table
  {
    var out := CustomerMetrics(orders, customers, today);
    forall r | r in stored ensures InSomeRow(out, MetricsPartition(l), MetricsPartition(l)(r)) {
      assert HasKey(customers, CustomerKey, r.customerId);
      var c :| c in customers && CustomerKey(c) == Some(r.customerId);
      assert IsImage(c, CustomerKey, CustomerImage, table);
      var i := MetricsRowFor(orders, customers, today, c);
      assert MetricsPartition(l)(out[i]) == MetricsPartition(l)(r);
    }
    forall m | m in out ensures m.customerId in table {
      var c := MetricsRowFrom(orders, customers, today, m);
      assert IsImage(c, CustomerKey, CustomerImage, table);
    }
  }

  lemma MetricsStep(w: World, lake: Lake, b: Batch)
    requires ValidWorld(w) && Feasible(w, lake, b) && Carries(w, lake, b.cuts)
    ensures NextLake(w, lake, b).metrics
         == CustomerMetrics(NextLake(w, lake, b).orders, NextLake(w, lake, b).customers, b.choices.today)
    ensures forall m :: m in NextLake(w, lake, b).metrics ==> m.customerId in At(w, b.cuts.customers).customers
  {
    CustomersStep(w, lake, b);
    var next := NextLake(w, lake, b);
    MetricsTouchAll(lake.metrics, next.orders, next.customers, At(w, b.cuts.customers).customers, w.layout, b.choices.today);
    OverwriteIsRecomputeIffTouched(lake.metrics, CustomerMetrics(next.orders, next.customers, b.choices.today), MetricsPartition(w.layout));
  }

  // ---- order items: the left join can leave orphans behind ---------------------------------------------

  /** The image of an item with its order's date, NULL while the order is not in Silver. */
  function DatedItem(orders: map<int, Order>): (int, Image<Item>) -> ItemRow {
    (id: int, i: Image<Item>) =>
      ItemImage(id, i).(orderCreatedAt := if i.row.orderId in orders then Some(orders[i.row.orderId].createdAt) else None)
  }

  /** What this run computes for silver.order_items. */
  ghost function ItemsOut(w: World, lake: Lake, b: Batch): seq<ItemRow>
    requires ValidWorld(w) && Feasible(w, lake, b)
  {
    EnrichItems(SilverRows(b.choices.itemTies, ItemImage), NextLake(w, lake, b).orders)
  }

  /** What it leaves of the rows stored before. */
  ghost function Stale(w: World, lake: Lake, b: Batch): seq<ItemRow>
    requires ValidWorld(w) && Feasible(w, lake, b)
  {
    Filter(lake.items, Kept(ItemsOut(w, lake, b), ItemPartition(w.layout)))
  }

  /** Joining mirrored items with mirrored orders: no fan-out, and each item gets the
      date of its order if Silver has it. */
  lemma EnrichedItemsMirror(rows: seq<ItemRow>, items: map<int, Item>, orderRows: seq<OrderRow>, orders: map<int, Order>)
    requires Mirrors(rows, ItemKey, ItemImage, items)
    requires Mirrors(orderRows, OrderKey, OrderImage, orders)
    ensures Mirrors(EnrichItems(rows, orderRows), ItemKey, DatedItem(orders), items)
  {
    JoinOnUniqueKey(rows, orderRows, ItemOrder, OrderKey);
    var out := EnrichItems(rows, orderRows);
    forall i | 0 <= i < |rows| ensures IsImage(out[i], ItemKey, DatedItem(orders), items) && out[i].itemId == rows[i].itemId {
      assert IsImage(rows[i], ItemKey, ItemImage, items);
      OrderDateFound(orderRows, orders, rows[i].orderId);
      var op :| rows[i] == ItemImage(rows[i].itemId, Image(op, items[rows[i].itemId]));
      assert out[i] == DatedItem(orders)(rows[i].itemId, Image(op, items[rows[i].itemId]));
    }
    forall id | id in items ensures HasKey(out, ItemKey, id) {
      assert HasKey(rows, ItemKey, id);
      var r :| r in rows && ItemKey(r) == Some(id);
      var i :| 0 <= i < |rows| && rows[i] == r;
      assert out[i] in out && ItemKey(out[i]) == Some(id);
    }
  }

  lemma OrderDateFound(rows: seq<OrderRow>, orders: map<int, Order>, o: int)
    requires Mirrors(rows, OrderKey, OrderImage, orders)
    ensures var found := Lookup(rows, OrderKey, Some(o));
      && (o in orders ==> found.Some? && found.value.createdAt == Some(orders[o].createdAt))
      && (o !in orders ==> found.None?)
  {
    var g := Group(rows, OrderKey, Some(o));
    if o in orders {
      assert HasKey(rows, OrderKey, o);
      var r :| r in rows && OrderKey(r) == Some(o);
      assert r in g && g[0] in g;
      assert IsImage(g[0], OrderKey, OrderImage, orders);
    } else {
      forall r | r in rows ensures OrderKey(r) != Some(o) { assert IsImage(r, OrderKey, OrderImage, orders); }
      GroupWithoutKey(rows, OrderKey, Some(o));
    }
  }

  lemma ItemsStep(w: World, lake: Lake, b: Batch)
    requires ValidWorld(w) && Feasible(w, lake, b) && Carries(w, lake, b.cuts)
    ensures NextLake(w, lake, b).items == Stale(w, lake, b) + ItemsOut(w, lake, b)
    ensures Mirrors(ItemsOut(w, lake, b), ItemKey, DatedItem(At(w, b.cuts.orders).orders), At(w, b.cuts.items).items)
    ensures Faithful(NextLake(w, lake, b).rawItems, TopicsAt(w, b.cuts).items, w.itemClock)
  {
    var t := TopicsAt(w, b.cuts);
    SourceAt(w, b.cuts.items);
    IngestKeepsFaithful(lake.rawItems, t.items, t.items, w.itemClock, b.choices.itemOffsets);
    SilverMirrorsSource(t.items, w.itemClock, Bronze(lake, t, b.choices).rawItems, b.choices.itemTies, ItemKey, ItemImage);
    OrdersStep(w, lake, b);
    EnrichedItemsMirror(SilverRows(b.choices.itemTies, ItemImage), At(w, b.cuts.items).items,
                        NextLake(w, lake, b).orders, At(w, b.cuts.orders).orders);
  }

  /** A row of the new output: what ItemCarried asks of it. */
  lemma OutputCarried(out: seq<ItemRow>, s: Db, t: Db, r: ItemRow)
    requires Consistent(t) && Mirrors(out, ItemKey, DatedItem(s.orders), t.items) && r in out
    ensures ItemCarried(r, s, t)
    ensures r.lineTotal == Some(t.items[r.itemId].quantity * t.items[r.itemId].unitPrice)
    ensures r.orderCreatedAt.Some? <==> r.orderId in s.orders
  {
    assert IsImage(r, ItemKey, DatedItem(s.orders), t.items);
    var i := t.items[r.itemId];
    LineBounds(i.quantity, i.unitPrice);
    var op :| r == DatedItem(s.orders)(r.itemId, Image(op, i));
    assert r.lineTotal == Cast(Some(i.quantity * i.unitPrice));
    assert Fits(i.quantity * i.unitPrice);
  }

  lemma LineBounds(quantity: int, price: int)
    requires 1 <= quantity <= MAX_QUANTITY && 1 <= price <= MAX_PRICE
    ensures 1 <= quantity * price <= MAX_QUANTITY * MAX_PRICE
  {
  }

  /** An item whose order was already in Silver keeps its partition, so every later
      run replaces it: only orphans can go stale. */
  lemma DatedRowIsReplaced(out: seq<ItemRow>, s: Db, t: Db, l: Layout, r: ItemRow)
    requires Mirrors(out, ItemKey, DatedItem(s.orders), t.items)
    requires ItemCarried(r, s, t) && r.orderCreatedAt.Some?
    ensures InSomeRow(out, ItemPartition(l), ItemPartition(l)(r))
  {
  }

  lemma DatedItemsAreReplaced(w: World, lake: Lake, b: Batch, r: ItemRow)
    requires ValidWorld(w) && Feasible(w, lake, b) && Carries(w, lake, b.cuts)
    requires r in lake.items && r.orderCreatedAt.Some?
    ensures InSomeRow(ItemsOut(w, lake, b), ItemPartition(w.layout), ItemPartition(w.layout)(r))
  {
    ItemsStep(w, lake, b);
    DatedRowIsReplaced(ItemsOut(w, lake, b), At(w, b.cuts.orders), At(w, b.cuts.items), w.layout, r);
  }

  lemma OrdersMirrorCarries(rows: seq<OrderRow>, s: Db)
    requires Mirrors(rows, OrderKey, OrderImage, s.orders)
    ensures OrdersCarried(rows, s)
  {
    forall r | r in rows ensures r.orderId in s.orders && r.createdAt == Some(s.orders[r.orderId].createdAt) {
      assert IsImage(r, OrderKey, OrderImage, s.orders);
    }
  }

  lemma CustomersMirrorCarries(rows: seq<CustomerRow>, s: Db)
    requires Mirrors(rows, CustomerKey, CustomerImage, s.customers)
    ensures CustomersCarried(rows, s)
  {
    forall r | r in rows ensures r.customerId in s.customers && r.createdAt == Some(s.customers[r.customerId].createdAt) {
      assert IsImage(r, CustomerKey, CustomerImage, s.customers);
    }
  }

  lemma ItemsCarried(w: World, lake: Lake, b: Batch)
    requires ValidWorld(w) && Feasible(w, lake, b) && Carries(w, lake, b.cuts)
    ensures forall r :: r in NextLake(w, lake, b).items ==> ItemCarried(r, At(w, b.cuts.orders), At(w, b.cuts.items))
  {
    ItemsStep(w, lake, b);
    SourceAt(w, b.cuts.items);
    var out, s, t := ItemsOut(w, lake, b), At(w, b.cuts.orders), At(w, b.cuts.items);
    forall r | r in NextLake(w, lake, b).items ensures ItemCarried(r, s, t) {
      if r in out { OutputCarried(out, s, t, r); }
    }
  }

  lemma FaithfulIsCarried<V>(raw: seq<BronzeRow<V>>, log: seq<Event<V>>, clock: Clock)
    requires Faithful(raw, log, clock)
    ensures RawCarried(raw, log, clock)
  {
  }

  lemma RawStaysCarried(w: World, lake: Lake, b: Batch)
    requires ValidWorld(w) && Feasible(w, lake, b) && Carries(w, lake, b.cuts)
    ensures var next, t := NextLake(w, lake, b), TopicsAt(w, b.cuts);
      && RawCarried(next.rawOrders, t.orders, t.orderClock) && RawCarried(next.rawCustomers, t.customers, t.customerClock)
      && RawCarried(next.rawItems, t.items, t.itemClock)
  {
    OrdersStep(w, lake, b);
    CustomersStep(w, lake, b);
    ItemsStep(w, lake, b);
    var next, t := NextLake(w, lake, b), TopicsAt(w, b.cuts);
    FaithfulIsCarried(next.rawOrders, t.orders, t.orderClock);
    FaithfulIsCarried(next.rawCustomers, t.customers, t.customerClock);
    FaithfulIsCarried(next.rawItems, t.items, t.itemClock);
  }

  lemma OrdersAndCustomersCarried(w: World, lake: Lake, b: Batch)
    requires ValidWorld(w) && Feasible(w, lake, b) && Carries(w, lake, b.cuts)
    ensures OrdersCarried(NextLake(w, lake, b).orders, At(w, b.cuts.orders))
    ensures CustomersCarried(NextLake(w, lake, b).customers, At(w, b.cuts.customers))
  {
    OrdersStep(w, lake, b);
    CustomersStep(w, lake, b);
    OrdersMirrorCarries(NextLake(w, lake, b).orders, At(w, b.cuts.orders));
    CustomersMirrorCarries(NextLake(w, lake, b).customers, At(w, b.cuts.customers));
  }

  /** After a batch every stored row is again the image of a source row at the cuts. */
  lemma BatchCarries(w: World, lake: Lake, b: Batch)
    requires ValidWorld(w) && Feasible(w, lake, b) && Carries(w, lake, b.cuts)
    ensures Carries(w, NextLake(w, lake, b), b.cuts)
  {
    RawStaysCarried(w, lake, b);
    OrdersAndCustomersCarried(w, lake, b);
    ItemsCarried(w, lake, b);
    MetricsStep(w, lake, b);
  }

  // ---- whole schedules -----------------------------------------------------------------------------------

  /** The lake as a run finds it. */
  lemma {:induction false} ScheduleCarries(w: World, bs: seq<Batch>, next: Cuts)
    requires ValidWorld(w) && ValidSchedule(w, bs) && InOrder(w, next)
    requires bs != [] ==> bs[|bs| - 1].cuts.items <= next.orders
    ensures Carries(w, After(bs), next)
  {
    if bs == [] {
      EmptyCarries(w, next);
    } else {
      ScheduleInit(w, bs);
      LastRun(w, bs);
      ScheduleCarries(w, bs[..|bs| - 1], bs[|bs| - 1].cuts);
      CarriesThrough(w, After(bs[..|bs| - 1]), bs[|bs| - 1], next);
    }
  }

  lemma EmptyCarries(w: World, cuts: Cuts)
    requires ValidWorld(w) && InOrder(w, cuts)
    ensures Carries(w, EMPTY, cuts)
  {
  }

  lemma CarriesThrough(w: World, lake: Lake, b: Batch, next: Cuts)
    requires ValidWorld(w) && Feasible(w, lake, b) && Carries(w, lake, b.cuts)
    requires InOrder(w, next) && b.cuts.items <= next.orders
    ensures Carries(w, NextLake(w, lake, b), next)
  {
    BatchCarries(w, lake, b);
    CarriesOn(w, NextLake(w, lake, b), b.cuts, next);
  }

  /** What the last run of a schedule computed for silver.order_items. */
  function ItemsComputed(b: Batch): seq<ItemRow> { EnrichItems(SilverRows(b.choices.itemTies, ItemImage), b.left.orders) }

  /** The last run of a schedule, ready for the lemmas on one batch. */
  lemma LastRunCarries(w: World, bs: seq<Batch>)
    requires ValidWorld(w) && ValidSchedule(w, bs) && bs != []
    ensures var init, b := bs[..|bs| - 1], bs[|bs| - 1];
      && ValidSchedule(w, init) && Feasible(w, After(init), b) && Carries(w, After(init), b.cuts)
      && After(bs) == NextLake(w, After(init), b) && ItemsComputed(b) == ItemsOut(w, After(init), b)
  {
    ScheduleInit(w, bs);
    LastRun(w, bs);
    ScheduleCarries(w, bs[..|bs| - 1], bs[|bs| - 1].cuts);
  }

  /** For every run of the source and every schedule of batches: silver.orders,
      silver.customers and gold.customer_metrics are what this run recomputes, and the
      Silver tables mirror the source at their cuts, one row per key. */
  lemma StoredEqualsRecompute(w: World, bs: seq<Batch>)
    requires ValidWorld(w) && ValidSchedule(w, bs) && bs != []
    ensures var b, lake := bs[|bs| - 1], After(bs);
      && lake.orders == SilverRows(b.choices.orderTies, OrderImage)
      && Mirrors(lake.orders, OrderKey, OrderImage, At(w, b.cuts.orders).orders)
      && lake.customers == SilverRows(b.choices.customerTies, CustomerImage)
      && Mirrors(lake.customers, CustomerKey, CustomerImage, At(w, b.cuts.customers).customers)
      && lake.metrics == CustomerMetrics(lake.orders, lake.customers, b.choices.today)
  {
    var init, b := bs[..|bs| - 1], bs[|bs| - 1];
    LastRunCarries(w, bs);
    OrdersStep(w, After(init), b);
    CustomersStep(w, After(init), b);
    MetricsStep(w, After(init), b);
  }

  /** What the last run computed for silver.order_items mirrors the source too, each item
      dated if its order was seen; when the runs read their topics at one commit, that is
      the stored table. */
  lemma ItemsMirrorSource(w: World, bs: seq<Batch>)
    requires ValidWorld(w) && ValidSchedule(w, bs) && bs != []
    ensures var init, b := bs[..|bs| - 1], bs[|bs| - 1];
      Mirrors(ItemsComputed(b), ItemKey, DatedItem(At(w, b.cuts.orders).orders), At(w, b.cuts.items).items)
    ensures var b := bs[|bs| - 1];
      CommonCuts(bs) ==> Mirrors(After(bs).items, ItemKey, DatedItem(At(w, b.cuts.orders).orders), At(w, b.cuts.items).items)
  {
    LastRunCarries(w, bs);
    ItemsStep(w, After(bs[..|bs| - 1]), bs[|bs| - 1]);
    if CommonCuts(bs) { CommonCutsRecomputeItems(w, bs); }
  }

  /** The rows are exactly one for each key of the source table. */
  ghost predicate OneRowEach<V, R>(rows: seq<R>, key: R -> Option<int>, table: map<int, V>) {
    && DistinctBy(rows, key)
    && (forall r :: r in rows ==> key(r).Some? && key(r).value in table)
    && (forall id :: id in table ==> HasKey(rows, key, id))
  }

  lemma MetricsMirror(orders: seq<OrderRow>, customers: seq<CustomerRow>, table: map<int, Customer>, today: int)
    requires Mirrors(customers, CustomerKey, CustomerImage, table)
    ensures OneRowEach(CustomerMetrics(orders, customers, today), MetricsKey, table)
  {
    forall c | c in customers ensures IsUpserted(c) && c.customerId in table { assert IsImage(c, CustomerKey, CustomerImage, table); }
    OneRowPerCustomer(orders, customers, today);
    var metrics := CustomerMetrics(orders, customers, today);
    forall m | m in metrics ensures m.customerId in table {
      var i :| 0 <= i < |metrics| && metrics[i] == m;
      assert customers[i] in customers;
    }
    forall id | id in table ensures HasKey(metrics, MetricsKey, id) {
      assert HasKey(customers, CustomerKey, id);
      var c :| c in customers && CustomerKey(c) == Some(id);
      var i :| 0 <= i < |customers| && customers[i] == c;
      assert metrics[i] in metrics && MetricsKey(metrics[i]) == Some(id);
    }
  }

  /** gold.customer_metrics has exactly one row per customer of the source. */
  lemma MetricsHaveOneRowEach(w: World, bs: seq<Batch>)
    requires ValidWorld(w) && ValidSchedule(w, bs) && bs != []
    ensures OneRowEach(After(bs).metrics, MetricsKey, At(w, bs[|bs| - 1].cuts.customers).customers)
  {
    StoredEqualsRecompute(w, bs);
    var b := bs[|bs| - 1];
    MetricsMirror(After(bs).orders, After(bs).customers, At(w, b.cuts.customers).customers, b.choices.today);
  }

  /** A bucket of orphans is rewritten only while it still holds an orphan. */
  ghost predicate OrphanBucketsTouched(stored: seq<ItemRow>, out: seq<ItemRow>, l: Layout) {
    forall r :: r in stored && r.orderCreatedAt.None? ==>
      exists x :: x in out && x.orderCreatedAt.None? && l.bucket16(x.orderId) == l.bucket16(r.orderId)
  }

  lemma TouchedIffOrphanBucketsAre(stored: seq<ItemRow>, out: seq<ItemRow>, l: Layout)
    requires forall r :: r in stored && r.orderCreatedAt.Some? ==> InSomeRow(out, ItemPartition(l), ItemPartition(l)(r))
    ensures Touched(stored, out, ItemPartition(l)) <==> OrphanBucketsTouched(stored, out, l)
  {
    forall r | r in stored && r.orderCreatedAt.None?
      ensures InSomeRow(out, ItemPartition(l), ItemPartition(l)(r)) <==>
        exists x :: x in out && x.orderCreatedAt.None? && l.bucket16(x.orderId) == l.bucket16(r.orderId)
    {
      OrphanTouched(out, l, r);
    }
  }

  lemma OrphanTouched(out: seq<ItemRow>, l: Layout, r: ItemRow)
    requires r.orderCreatedAt.None?
    ensures InSomeRow(out, ItemPartition(l), ItemPartition(l)(r)) <==>
      exists x :: x in out && x.orderCreatedAt.None? && l.bucket16(x.orderId) == l.bucket16(r.orderId)
  {
    var part := ItemPartition(l);
    if InSomeRow(out, part, part(r)) {
      var i :| 0 <= i < |out| && part(out[i]) == part(r);
      assert part(out[i]) == (ToDate(out[i].orderCreatedAt), l.bucket16(out[i].orderId));
      assert part(r) == (None, l.bucket16(r.orderId));
      assert out[i] in out && l.bucket16(out[i].orderId) == l.bucket16(r.orderId);
    }
    if x :| x in out && x.orderCreatedAt.None? && l.bucket16(x.orderId) == l.bucket16(r.orderId) {
      var i :| 0 <= i < |out| && out[i] == x;
      assert part(out[i]) == (None, l.bucket16(x.orderId)) && part(r) == (None, l.bucket16(r.orderId));
      assert InSomeRow(out, part, part(r));
    }
  }

  lemma ItemsEqualRecomputeIffStep(w: World, lake: Lake, b: Batch)
    requires ValidWorld(w) && Feasible(w, lake, b) && Carries(w, lake, b.cuts)
    ensures NextLake(w, lake, b).items == ItemsOut(w, lake, b) <==> OrphanBucketsTouched(lake.items, ItemsOut(w, lake, b), w.layout)
  {
    forall r | r in lake.items && r.orderCreatedAt.Some?
      ensures InSomeRow(ItemsOut(w, lake, b), ItemPartition(w.layout), ItemPartition(w.layout)(r))
    {
      DatedItemsAreReplaced(w, lake, b, r);
    }
    TouchedIffOrphanBucketsAre(lake.items, ItemsOut(w, lake, b), w.layout);
    OverwriteIsRecomputeIffTouched(lake.items, ItemsOut(w, lake, b), ItemPartition(w.layout));
  }

  ghost predicate CommonCuts(bs: seq<Batch>) { forall k :: 0 <= k < |bs| ==> bs[k].cuts.items == bs[k].cuts.orders }

  lemma CommonCutLeavesNoOrphans(w: World, lake: Lake, b: Batch)
    requires ValidWorld(w) && Feasible(w, lake, b) && Carries(w, lake, b.cuts)
    requires b.cuts.items == b.cuts.orders && forall r :: r in lake.items ==> r.orderCreatedAt.Some?
    ensures NextLake(w, lake, b).items == ItemsOut(w, lake, b)
    ensures forall r :: r in NextLake(w, lake, b).items ==> r.orderCreatedAt.Some?
  {
    ItemsEqualRecomputeIffStep(w, lake, b);
    ItemsStep(w, lake, b);
    SourceAt(w, b.cuts.items);
    var s := At(w, b.cuts.items);
    forall r | r in ItemsOut(w, lake, b) ensures r.orderCreatedAt.Some? {
      OutputCarried(ItemsOut(w, lake, b), s, s, r);
    }
  }

  lemma CommonCutsInit(bs: seq<Batch>)
    requires CommonCuts(bs) && bs != []
    ensures CommonCuts(bs[..|bs| - 1]) && bs[|bs| - 1].cuts.items == bs[|bs| - 1].cuts.orders
  {
  }

  lemma {:induction false} CommonCutsLeaveNoOrphans(w: World, bs: seq<Batch>)
    requires ValidWorld(w) && ValidSchedule(w, bs) && CommonCuts(bs)
    ensures forall r :: r in After(bs).items ==> r.orderCreatedAt.Some?
  {
    if bs != [] {
      CommonCutsInit(bs);
      LastRunCarries(w, bs);
      CommonCutsLeaveNoOrphans(w, bs[..|bs| - 1]);
      CommonCutLeavesNoOrphans(w, After(bs[..|bs| - 1]), bs[|bs| - 1]);
    }
  }

  /** When every run reads its topics at one commit, no item is ever an orphan (above)
      and silver.order_items always equals its recompute. */
  lemma CommonCutsRecomputeItems(w: World, bs: seq<Batch>)
    requires ValidWorld(w) && ValidSchedule(w, bs) && CommonCuts(bs) && bs != []
    ensures After(bs).items == ItemsComputed(bs[|bs| - 1])
  {
    CommonCutsInit(bs);
    LastRunCarries(w, bs);
    CommonCutsLeaveNoOrphans(w, bs[..|bs| - 1]);
    CommonCutLeavesNoOrphans(w, After(bs[..|bs| - 1]), bs[|bs| - 1]);
  }

  /** `s`, `c` and `t` are the source at the cuts of orders, customers and items. */
  lemma MirrorsAreClosed(orders: seq<OrderRow>, customers: seq<CustomerRow>, out: seq<ItemRow>, s: Db, c: Db, t: Db, r: OrderRow)
    requires Consistent(s) && Grows(s, c) && Grows(s, t) && r in orders
    requires Mirrors(orders, OrderKey, OrderImage, s.orders) && Mirrors(customers, CustomerKey, CustomerImage, c.customers)
    requires Mirrors(out, ItemKey, DatedItem(s.orders), t.items)
    ensures HasKey(customers, CustomerKey, r.customerId)
    ensures forall i :: i in s.items ==> HasKey(out, ItemKey, i)
  {
    assert IsImage(r, OrderKey, OrderImage, s.orders);
  }

  lemma ClosedAt(w: World, lake: Lake, b: Batch, r: OrderRow)
    requires ValidWorld(w) && Feasible(w, lake, b) && Carries(w, lake, b.cuts)
    requires r in NextLake(w, lake, b).orders
    ensures HasKey(NextLake(w, lake, b).customers, CustomerKey, r.customerId)
    ensures forall i :: i in At(w, b.cuts.orders).items ==> HasKey(NextLake(w, lake, b).items, ItemKey, i)
  {
    OrdersStep(w, lake, b);
    CustomersStep(w, lake, b);
    ItemsStep(w, lake, b);
    SourceAt(w, b.cuts.orders);
    SourceGrows(w, b.cuts.orders, b.cuts.customers);
    SourceGrows(w, b.cuts.orders, b.cuts.items);
    var next, out := NextLake(w, lake, b), ItemsOut(w, lake, b);
    MirrorsAreClosed(next.orders, next.customers, out, At(w, b.cuts.orders), At(w, b.cuts.customers), At(w, b.cuts.items), r);
    forall i | i in At(w, b.cuts.orders).items ensures HasKey(next.items, ItemKey, i) {
      KeyInAppended(Stale(w, lake, b), out, i);
    }
  }

  lemma KeyInAppended(stale: seq<ItemRow>, out: seq<ItemRow>, i: int)
    requires HasKey(out, ItemKey, i)
    ensures HasKey(stale + out, ItemKey, i)
  {
    var x :| x in out && ItemKey(x) == Some(i);
    assert x in stale + out;
  }

  /** Topics read in the order orders, customers, items: every order in Silver has its
      customer there, and every line it had at the orders' cut. */
  lemma SkewedCutsAreClosed(w: World, bs: seq<Batch>, r: OrderRow)
    requires ValidWorld(w) && ValidSchedule(w, bs) && bs != []
    requires r in After(bs).orders
    ensures HasKey(After(bs).customers, CustomerKey, r.customerId)
    ensures forall i :: i in At(w, bs[|bs| - 1].cuts.orders).items ==> HasKey(After(bs).items, ItemKey, i)
  {
    var init, b := bs[..|bs| - 1], bs[|bs| - 1];
    LastRunCarries(w, bs);
    ClosedAt(w, After(init), b, r);
  }
}
