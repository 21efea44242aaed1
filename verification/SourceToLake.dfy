/** The Silver and Gold tables of a schedule, column by column against the source. */
module SourceToLake {
  import opened Options
  import opened Aggregates
  import opened Rounding
  import opened Cdc
  import opened Source
  import opened Gold
  import opened Lakehouse
  import opened LakehouseRuns
  import opened Books

  // ---- silver ----------------------------------------------------------------------------------

  /** One row for each key of the source table, with the columns it should have. */
  ghost predicate TableIs<V, R>(rows: seq<R>, id: R -> int, same: (R, V) -> bool, table: map<int, V>) {
    && DistinctBy(rows, id)
    && (forall r :: r in rows ==> id(r) in table && same(r, table[id(r)]))
    && (forall k :: k in table ==> HasRow(rows, id, k))
  }

  ghost predicate HasRow<R>(rows: seq<R>, id: R -> int, k: int) { exists r :: r in rows && id(r) == k }

  const OrderId: OrderRow -> int := (r: OrderRow) => r.orderId
  const CustomerId: CustomerRow -> int := (r: CustomerRow) => r.customerId

  const SameOrder: (OrderRow, Order) -> bool :=
    (r: OrderRow, o: Order) =>
      && r.customerId == o.customerId && r.status == Some(o.status) && r.total == Some(o.total) && r.currency == None
      && r.createdAt == Some(o.createdAt) && r.updatedAt == Some(o.updatedAt) && r.op.Some?

  const SameCustomer: (CustomerRow, Customer) -> bool :=
    (r: CustomerRow, c: Customer) =>
      && r.name == Some(c.name) && r.email == Some(c.email)
      && r.createdAt == Some(c.createdAt) && r.updatedAt == Some(c.updatedAt) && r.op.Some?

  /** With the date of its order, if Silver has the order. */
  function SameItem(orders: map<int, Order>): (ItemRow, Item) -> bool {
    (r: ItemRow, i: Item) =>
      && r.orderId == i.orderId && r.productId == i.productId && r.quantity == Some(i.quantity) && r.unitPrice == Some(i.unitPrice)
      && r.lineTotal == Some(i.quantity * i.unitPrice)
      && r.orderCreatedAt == (if i.orderId in orders then Some(orders[i.orderId].createdAt) else None)
  }

  lemma KeyIsId<V, R>(rows: seq<R>, key: R -> Option<int>, id: R -> int, same: (R, V) -> bool, p: (int, Image<V>) -> R, table: map<int, V>)
    requires Mirrors(rows, key, p, table) && forall r :: key(r) == Some(id(r))
    requires forall r :: r in rows && IsImage(r, key, p, table) ==> same(r, table[id(r)])
    ensures TableIs(rows, id, same, table)
  {
    forall i, j | 0 <= i < j < |rows| ensures id(rows[i]) != id(rows[j]) { assert key(rows[i]) != key(rows[j]); }
    forall r | r in rows ensures id(r) in table && same(r, table[id(r)]) { assert IsImage(r, key, p, table); }
    forall k | k in table ensures HasRow(rows, id, k) { assert HasKey(rows, key, k); }
  }

  lemma OrdersAre(rows: seq<OrderRow>, s: Db)
    requires Consistent(s) && Mirrors(rows, OrderKey, OrderImage, s.orders)
    ensures TableIs(rows, OrderId, SameOrder, s.orders)
  {
    forall r | r in rows && IsImage(r, OrderKey, OrderImage, s.orders) ensures SameOrder(r, s.orders[r.orderId]) {
      TotalBounds(s, r.orderId);
    }
    KeyIsId(rows, OrderKey, OrderId, SameOrder, OrderImage, s.orders);
  }

  lemma CustomersAre(rows: seq<CustomerRow>, s: Db)
    requires Mirrors(rows, CustomerKey, CustomerImage, s.customers)
    ensures TableIs(rows, CustomerId, SameCustomer, s.customers)
  {
    KeyIsId(rows, CustomerKey, CustomerId, SameCustomer, CustomerImage, s.customers);
  }

  lemma ItemIs(id: int, orders: map<int, Order>, i: Image<Item>)
    requires Fits(i.row.unitPrice) && Fits(i.row.quantity * i.row.unitPrice)
    ensures SameItem(orders)(DatedItem(orders)(id, i), i.row)
  {
    var r := DatedItem(orders)(id, i);
    assert r.lineTotal == Cast(Some(i.row.quantity * i.row.unitPrice));
    assert r.unitPrice == Cast(Some(i.row.unitPrice));
  }

  lemma ItemsAre(rows: seq<ItemRow>, orders: map<int, Order>, t: Db)
    requires Consistent(t) && Mirrors(rows, ItemKey, DatedItem(orders), t.items)
    ensures TableIs(rows, ItemId, SameItem(orders), t.items)
  {
    forall r | r in rows && IsImage(r, ItemKey, DatedItem(orders), t.items) ensures SameItem(orders)(r, t.items[r.itemId]) {
      var i := t.items[r.itemId];
      LineBounds(i.quantity, i.unitPrice);
      var op :| r == DatedItem(orders)(r.itemId, Image(op, i));
      ItemIs(r.itemId, orders, Image(op, i));
    }
    KeyIsId(rows, ItemKey, ItemId, SameItem(orders), DatedItem(orders), t.items);
  }

  /** For every run of the source and every schedule: each Silver order and customer has
      the columns of its source row at the cut of its topic, and each source row its row. */
  lemma SilverColumns(w: World, bs: seq<Batch>)
    requires ValidWorld(w) && ValidSchedule(w, bs) && bs != []
    ensures var c := bs[|bs| - 1].cuts;
      && TableIs(After(bs).orders, OrderId, SameOrder, At(w, c.orders).orders)
      && TableIs(After(bs).customers, CustomerId, SameCustomer, At(w, c.customers).customers)
  {
    StoredEqualsRecompute(w, bs);
    var c := bs[|bs| - 1].cuts;
    SourceAt(w, c.orders);
    OrdersAre(After(bs).orders, At(w, c.orders));
    CustomersAre(After(bs).customers, At(w, c.customers));
  }

  /** Likewise for the items the last run computed, and for the stored ones when the runs
      read their topics at one commit. */
  lemma ItemColumns(w: World, bs: seq<Batch>)
    requires ValidWorld(w) && ValidSchedule(w, bs) && bs != []
    ensures var b := bs[|bs| - 1];
      && TableIs(ItemsComputed(b), ItemId, SameItem(At(w, b.cuts.orders).orders), At(w, b.cuts.items).items)
      && (CommonCuts(bs) ==> TableIs(After(bs).items, ItemId, SameItem(At(w, b.cuts.orders).orders), At(w, b.cuts.items).items))
  {
    ItemsMirrorSource(w, bs);
    var b := bs[|bs| - 1];
    SourceAt(w, b.cuts.items);
    ItemsAre(ItemsComputed(b), At(w, b.cuts.orders).orders, At(w, b.cuts.items));
    if CommonCuts(bs) { ItemsAre(After(bs).items, At(w, b.cuts.orders).orders, At(w, b.cuts.items)); }
  }

  // ---- partitions ----------------------------------------------------------------------------------

  /** Both missing, or on one day of the millisecond clock. */
  ghost predicate SameDay(a: Option<int>, b: Option<int>) {
    (a.None? && b.None?) || (a.Some? && b.Some? && exists d :: DayHolds(d, a.value) && DayHolds(d, b.value))
  }

  predicate DayHolds(d: int, ts: int) { 86_400_000 * d <= ts < 86_400_000 * (d + 1) }

  lemma DatesAreDays(a: Option<int>, b: Option<int>)
    ensures ToDate(a) == ToDate(b) <==> SameDay(a, b)
  {
    if a.Some? && b.Some? {
      assert DayHolds(a.value / MS_PER_DAY, a.value) && DayHolds(b.value / MS_PER_DAY, b.value);
    }
  }

  /** The Gold tables are partitioned as their DDL says: by the month of the report date, and
      by the bucket of the customer's id. */
  lemma GoldPartitionsOfTheDdl(l: Layout, d: DailyRow, d': DailyRow, m: MetricsRow, m': MetricsRow)
    ensures DailyPartition(l)(d) == DailyPartition(l)(d') <==>
      (d.reportDate.None? && d'.reportDate.None?)
      || (d.reportDate.Some? && d'.reportDate.Some? && l.month(d.reportDate.value) == l.month(d'.reportDate.value))
    ensures MetricsPartition(l)(m) == MetricsPartition(l)(m') <==> l.bucket32(m.customerId) == l.bucket32(m'.customerId)
  {
  }

  /** The Silver tables are: by the day of creation, and items by their order's day and the
      bucket of its id. */
  lemma PartitionsOfTheDdl(l: Layout, o: OrderRow, o': OrderRow, c: CustomerRow, c': CustomerRow, i: ItemRow, i': ItemRow)
    ensures OrderPartition(o) == OrderPartition(o') <==> SameDay(o.createdAt, o'.createdAt)
    ensures CustomerPartition(c) == CustomerPartition(c') <==> SameDay(c.createdAt, c'.createdAt)
    ensures ItemPartition(l)(i) == ItemPartition(l)(i') <==>
      SameDay(i.orderCreatedAt, i'.orderCreatedAt) && l.bucket16(i.orderId) == l.bucket16(i'.orderId)
  {
    DatesAreDays(o.createdAt, o'.createdAt);
    DatesAreDays(c.createdAt, c'.createdAt);
    DatesAreDays(i.orderCreatedAt, i'.orderCreatedAt);
  }

  // ---- the generic events ------------------------------------------------------------------------

  /** What the runs found in the generic-events topic. */
  function EventsFound(bs: seq<Batch>): seq<KafkaRecord> {
    if bs == [] then [] else EventsFound(bs[..|bs| - 1]) + bs[|bs| - 1].choices.events
  }

  lemma {:induction false} GenericEventsAreKept(w: World, bs: seq<Batch>)
    requires ValidWorld(w) && ValidSchedule(w, bs)
    ensures After(bs).rawEvents == EventsFound(bs)
  {
    if bs != [] {
      LastRunCarries(w, bs);
      GenericEventsAreKept(w, bs[..|bs| - 1]);
      BatchAddsEvents(w, After(bs[..|bs| - 1]), bs[|bs| - 1]);
    }
  }

  lemma BatchAddsEvents(w: World, lake: Lake, b: Batch)
    requires ValidWorld(w) && Feasible(w, lake, b)
    ensures NextLake(w, lake, b).rawEvents == lake.rawEvents + b.choices.events
  {
  }
}
