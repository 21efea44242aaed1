/** The transactional order source: three tables, the change logs Debezium captures
    from them, and the traffic generator's actions, one commit each. */
module Source {
  import opened Options
  import opened Aggregates
  import opened Cdc

  // ---- order lifecycle ------------------------------------------------------------

  /** `Other` stands for any status the generator does not know. */
  datatype Status = Pending | Confirmed | Shipped | Delivered | Completed | Cancelled | Other(name: string)

  /** STATUS_FLOW without its weights; `{}` where `.get` finds no entry. */
  function Successors(s: Status): set<Status> {
    match s
    case Pending => {Confirmed, Cancelled}
    case Confirmed => {Shipped, Cancelled}
    case Shipped => {Delivered}
    case Delivered => {Completed}
    case _ => {}
  }

  /** TERMINAL_STATUSES. */
  predicate Terminal(s: Status) { s in {Completed, Cancelled} }

  // ---- tables ------------------------------------------------------------------------

  datatype Customer = Customer(name: string, email: string, createdAt: int, updatedAt: int)
  datatype Order = Order(customerId: int, status: Status, total: int, createdAt: int, updatedAt: int)
  datatype Item = Item(orderId: int, productId: int, quantity: int, unitPrice: int, createdAt: int)

  const TotalAmount: Order -> int := (o: Order) => o.total

  datatype Db = Db(
    customers: map<int, Customer>, orders: map<int, Order>, items: map<int, Item>,
    nextCustomer: int, nextOrder: int, nextItem: int,
    customerLog: seq<Event<Customer>>, orderLog: seq<Event<Order>>, itemLog: seq<Event<Item>>)

  /** PRODUCTS: prices in cents by product id. */
  const PRODUCTS: map<int, int> := map[
    101 := 89_90, 102 := 349_00, 103 := 129_50, 104 := 199_99, 105 := 59_90,
    106 := 39_00, 107 := 49_90, 108 := 19_90, 109 := 9_90, 110 := 109_00]

  const MAX_PRICE := 349_00
  const MAX_QUANTITY := 5
  const MAX_LINES := 4

  // ---- row changes, each with its change event ------------------------------------------

  function InsertCustomer(s: Db, c: Customer): Db {
    s.(customers := s.customers[s.nextCustomer := c],
       nextCustomer := s.nextCustomer + 1,
       customerLog := s.customerLog + [Upsert(Create, s.nextCustomer, None, c)])
  }

  function InsertOrder(s: Db, o: Order): Db {
    s.(orders := s.orders[s.nextOrder := o],
       nextOrder := s.nextOrder + 1,
       orderLog := s.orderLog + [Upsert(Create, s.nextOrder, None, o)])
  }

  function InsertItem(s: Db, i: Item): Db {
    s.(items := s.items[s.nextItem := i],
       nextItem := s.nextItem + 1,
       itemLog := s.itemLog + [Upsert(Create, s.nextItem, None, i)])
  }

  function UpdateOrder(s: Db, id: int, o: Order): Db
    requires id in s.orders
  {
    s.(orders := s.orders[id := o],
       orderLog := s.orderLog + [Upsert(Update, id, Some(s.orders[id]), o)])
  }

  function UpdateItem(s: Db, id: int, i: Item): Db
    requires id in s.items
  {
    s.(items := s.items[id := i],
       itemLog := s.itemLog + [Upsert(Update, id, Some(s.items[id]), i)])
  }

  // ---- actions -----------------------------------------------------------------------------

  datatype Line = Line(productId: int, quantity: int)

  /** One pass of the commit loop with the random draws and the clock made explicit.
      A pick is None exactly when the SELECT finds no row. `Reread` is one row of a
      connector snapshot: an event of op `r` and no change. */
  datatype Action =
    | CreateCustomer(name: string, email: string, now: int)
    | CreateOrder(customer: int, name: string, email: string, lines: seq<Line>, now: int)
    | ProgressOrder(order: Option<int>, next: Status, now: int)
    | UpdateItemQuantity(item: Option<int>, quantity: int, now: int)
    | RereadCustomer(id: int)
    | RereadOrder(id: int)
    | RereadItem(id: int)

  predicate ValidLines(lines: seq<Line>) {
    && 1 <= |lines| <= MAX_LINES
    && forall l :: l in lines ==> l.productId in PRODUCTS && 1 <= l.quantity <= 3
  }

  predicate Progressable(s: Db, o: int) { o in s.orders && !Terminal(s.orders[o].status) }

  predicate Editable(s: Db, i: int) {
    i in s.items && s.items[i].orderId in s.orders && s.orders[s.items[i].orderId].status == Pending
  }

  ghost predicate Enabled(s: Db, a: Action) {
    match a
    case CreateCustomer(_, _, _) => true
    case CreateOrder(customer, _, _, lines, _) => (s.customers == map[] || customer in s.customers) && ValidLines(lines)
    case ProgressOrder(None, _, _) => forall o :: o in s.orders ==> !Progressable(s, o)
    case ProgressOrder(Some(o), next, _) =>
      Progressable(s, o) && (Successors(s.orders[o].status) != {} ==> next in Successors(s.orders[o].status))
    case UpdateItemQuantity(None, _, _) => forall i :: i in s.items ==> !Editable(s, i)
    case UpdateItemQuantity(Some(i), quantity, _) => Editable(s, i) && 1 <= quantity <= MAX_QUANTITY
    case RereadCustomer(id) => id in s.customers
    case RereadOrder(id) => id in s.orders
    case RereadItem(id) => id in s.items
  }

  function InsertLines(s: Db, order: int, lines: seq<Line>, now: int): (s': Db)
    requires forall l :: l in lines ==> l.productId in PRODUCTS
    ensures s'.orders == s.orders && s'.customers == s.customers
    ensures s'.orderLog == s.orderLog && s'.customerLog == s.customerLog
    ensures s'.nextOrder == s.nextOrder && s'.nextCustomer == s.nextCustomer
  {
    if lines == [] then s
    else
      var l := lines[|lines| - 1];
      InsertItem(InsertLines(s, order, lines[..|lines| - 1], now),
                 Item(order, l.productId, l.quantity, PRODUCTS[l.productId], now))
  }

  function LinesTotal(lines: seq<Line>): int
    requires forall l :: l in lines ==> l.productId in PRODUCTS
  {
    if lines == [] then 0
    else
      var l := lines[|lines| - 1];
      LinesTotal(lines[..|lines| - 1]) + l.quantity * PRODUCTS[l.productId]
  }

  /** SELECT SUM(quantity * unit_price) FROM order_items WHERE order_id = o. */
  ghost function OrderSum(items: map<int, Item>, o: int): int { MapSum(items, LineOf(o)) }

  ghost function OrderCount(items: map<int, Item>, o: int): int { MapSum(items, OneOf(o)) }

  function LineOf(o: int): Item -> int { (i: Item) => if i.orderId == o then i.quantity * i.unitPrice else 0 }

  function OneOf(o: int): Item -> int { (i: Item) => if i.orderId == o then 1 else 0 }

  /** The state before the order itself is inserted, and the customer it is for. */
  function WithCustomer(s: Db, customer: int, name: string, email: string, now: int): (Db, int) {
    if s.customers == map[] then (InsertCustomer(s, Customer(name, email, now, now)), s.nextCustomer) else (s, customer)
  }

  function OrderWithLines(s: Db, customer: int, lines: seq<Line>, now: int): Db
    requires forall l :: l in lines ==> l.productId in PRODUCTS
  {
    InsertLines(InsertOrder(s, Order(customer, Pending, 0, now, now)), s.nextOrder, lines, now)
  }

  ghost function Step(s: Db, a: Action): Db
    requires Enabled(s, a)
  {
    match a
    case CreateCustomer(name, email, now) => InsertCustomer(s, Customer(name, email, now, now))
    case CreateOrder(customer, name, email, lines, now) =>
      var (s0, c) := WithCustomer(s, customer, name, email, now);
      var s1 := OrderWithLines(s0, c, lines, now);
      UpdateOrder(s1, s0.nextOrder, Order(c, Pending, LinesTotal(lines), now, now))
    case ProgressOrder(None, _, _) => s
    case ProgressOrder(Some(o), next, now) =>
      if Successors(s.orders[o].status) == {} then s
      else UpdateOrder(s, o, s.orders[o].(status := next, updatedAt := now))
    case UpdateItemQuantity(None, _, _) => s
    case UpdateItemQuantity(Some(i), quantity, now) =>
      var o := s.items[i].orderId;
      var s1 := UpdateItem(s, i, s.items[i].(quantity := quantity));
      UpdateOrder(s1, o, s1.orders[o].(total := OrderSum(s1.items, o), updatedAt := now))
    case RereadCustomer(id) => s.(customerLog := s.customerLog + [Upsert(Read, id, None, s.customers[id])])
    case RereadOrder(id) => s.(orderLog := s.orderLog + [Upsert(Read, id, None, s.orders[id])])
    case RereadItem(id) => s.(itemLog := s.itemLog + [Upsert(Read, id, None, s.items[id])])
  }

  /** init.sql, with the connector's initial snapshot of it already in the logs. */
  function Seed(now: int): Db {
    var alice := Customer("Alice Martin", "alice@example.com", now, now);
    var bob := Customer("Bob Dupont", "bob@example.com", now, now);
    var first, second := Order(1, Completed, 129_99, now, now), Order(2, Pending, 49_50, now, now);
    var i1, i2, i3 := Item(1, 101, 2, 49_99, now), Item(1, 202, 1, 30_01, now), Item(2, 303, 1, 49_50, now);
    Db(map[1 := alice, 2 := bob], map[1 := first, 2 := second], map[1 := i1, 2 := i2, 3 := i3], 3, 3, 4,
       [Upsert(Read, 1, None, alice), Upsert(Read, 2, None, bob)],
       [Upsert(Read, 1, None, first), Upsert(Read, 2, None, second)],
       [Upsert(Read, 1, None, i1), Upsert(Read, 2, None, i2), Upsert(Read, 3, None, i3)])
  }

  /** `acts` is a run the generator can make from `s`. */
  ghost predicate ValidRun(s: Db, acts: seq<Action>)
    decreases |acts|, 0
  {
    acts == [] || (ValidRun(s, acts[..|acts| - 1]) && Enabled(Run(s, acts[..|acts| - 1]), acts[|acts| - 1]))
  }

  ghost function Run(s: Db, acts: seq<Action>): Db
    requires ValidRun(s, acts)
    decreases |acts|, 1
  {
    if acts == [] then s else Step(Run(s, acts[..|acts| - 1]), acts[|acts| - 1])
  }

  // ---- what every commit keeps ---------------------------------------------------------------

  /** Keys, foreign keys and ranges. */
  ghost predicate Closed(s: Db) {
    && (forall c :: c in s.customers ==> c < s.nextCustomer)
    && (forall o :: o in s.orders ==> o < s.nextOrder && s.orders[o].customerId in s.customers)
    && (forall i :: i in s.items ==> i < s.nextItem && s.items[i].orderId in s.orders)
    && (forall i :: i in s.items ==> 1 <= s.items[i].quantity <= MAX_QUANTITY && 1 <= s.items[i].unitPrice <= MAX_PRICE)
  }

  /** Every order's total is the sum of its lines, and it has one to four of them. */
  ghost predicate Totalled(s: Db) {
    forall o :: o in s.orders ==> s.orders[o].total == OrderSum(s.items, o) && 1 <= OrderCount(s.items, o) <= MAX_LINES
  }

  predicate OnlyUpserts<V>(log: seq<Event<V>>) { forall i :: 0 <= i < |log| ==> log[i].Upsert? }

  /** The logs replay to the tables and hold no delete. */
  ghost predicate Logged(s: Db) {
    && Replay(s.customerLog) == s.customers && OnlyUpserts(s.customerLog)
    && Replay(s.orderLog) == s.orders && OnlyUpserts(s.orderLog)
    && Replay(s.itemLog) == s.items && OnlyUpserts(s.itemLog)
  }

  ghost predicate Consistent(s: Db) { Closed(s) && Totalled(s) && Logged(s) }

  lemma ReplaySnoc<V>(log: seq<Event<V>>, e: Event<V>)
    ensures Replay(log + [e]) == Apply(Replay(log), e)
  {
  }

  lemma PutItem(items: map<int, Item>, k: int, i: Item, o: int)
    ensures OrderSum(items[k := i], o) == OrderSum(items, o)
      + (if i.orderId == o then i.quantity * i.unitPrice else 0)
      - (if k in items && items[k].orderId == o then items[k].quantity * items[k].unitPrice else 0)
    ensures OrderCount(items[k := i], o) == OrderCount(items, o)
      + (if i.orderId == o then 1 else 0) - (if k in items && items[k].orderId == o then 1 else 0)
  {
    MapSumPut(items, LineOf(o), k, i);
    MapSumPut(items, OneOf(o), k, i);
  }

  lemma NoItems(items: map<int, Item>, o: int)
    requires forall i :: i in items ==> items[i].orderId != o
    ensures OrderSum(items, o) == 0 && OrderCount(items, o) == 0
  {
    forall i | i in items ensures LineOf(o)(items[i]) == 0 && OneOf(o)(items[i]) == 0 { }
    MapSumZero(items, LineOf(o));
    MapSumZero(items, OneOf(o));
  }

  lemma InsertItemKeeps(s: Db, i: Item)
    requires Closed(s) && Logged(s) && i.orderId in s.orders
    requires 1 <= i.quantity <= MAX_QUANTITY && 1 <= i.unitPrice <= MAX_PRICE
    ensures Closed(InsertItem(s, i)) && Logged(InsertItem(s, i))
    ensures forall k :: k in s.items ==> k in InsertItem(s, i).items && InsertItem(s, i).items[k] == s.items[k]
  {
  }

  /** The lines of a new order are added to it and to nothing else. */
  lemma {:induction false} InsertLinesKeeps(s: Db, order: int, lines: seq<Line>, now: int)
    requires Closed(s) && Logged(s) && order in s.orders
    requires forall l :: l in lines ==> l.productId in PRODUCTS && 1 <= l.quantity <= 3
    ensures Closed(InsertLines(s, order, lines, now)) && Logged(InsertLines(s, order, lines, now))
    ensures AddsTo(s, InsertLines(s, order, lines, now), order)
  {
    if lines != [] {
      var n := |lines| - 1;
      InsertLinesKeeps(s, order, lines[..n], now);
      assert lines[n] in lines;
      assert 1 <= PRODUCTS[lines[n].productId] <= MAX_PRICE;
      InsertItemKeeps(InsertLines(s, order, lines[..n], now),
                      Item(order, lines[n].productId, lines[n].quantity, PRODUCTS[lines[n].productId], now));
    }
  }

  /** Items are only added, and only to one order. */
  ghost predicate AddsTo(s: Db, s': Db, order: int) {
    && (forall i :: i in s.items ==> i in s'.items && s'.items[i] == s.items[i])
    && (forall i :: i in s'.items && s'.items[i].orderId != order ==> i in s.items)
    && s.itemLog <= s'.itemLog
    && s.nextItem <= s'.nextItem
  }

  lemma {:induction false} InsertLinesTotals(s: Db, order: int, lines: seq<Line>, now: int, o: int)
    requires Closed(s) && Logged(s) && order in s.orders
    requires forall l :: l in lines ==> l.productId in PRODUCTS && 1 <= l.quantity <= 3
    ensures OrderSum(InsertLines(s, order, lines, now).items, o) == OrderSum(s.items, o) + if o == order then LinesTotal(lines) else 0
    ensures OrderCount(InsertLines(s, order, lines, now).items, o) == OrderCount(s.items, o) + if o == order then |lines| else 0
  {
    if lines != [] {
      var n := |lines| - 1;
      InsertLinesTotals(s, order, lines[..n], now, o);
      InsertLinesKeeps(s, order, lines[..n], now);
      var s1 := InsertLines(s, order, lines[..n], now);
      PutItem(s1.items, s1.nextItem, Item(order, lines[n].productId, lines[n].quantity, PRODUCTS[lines[n].productId], now), o);
    }
  }
}
