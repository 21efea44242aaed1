/** What every commit of the source keeps, and what follows for whole runs. */
module SourceRuns {
  import opened Options
  import opened Cdc
  import opened Source

  // ---- order lifecycle -------------------------------------------------------------

  /** Transitions an order in this status can still make. */
  function Rank(s: Status): nat {
    match s
    case Pending => 4
    case Confirmed => 3
    case Shipped => 2
    case Delivered => 1
    case _ => 0
  }

  /** Statuses reachable along STATUS_FLOW. */
  function Reachable(s: Status): set<Status>
    decreases Rank(s)
  {
    {s} + set t, u | t in Successors(s) && u in Reachable(t) :: u
  }

  lemma ReachableStep(a: Status, t: Status, c: Status)
    requires t in Successors(a) && c in Reachable(t)
    ensures c in Reachable(a)
  {
  }

  lemma ReachableTransitive(a: Status, b: Status, c: Status)
    requires b in Reachable(a) && c in Reachable(b)
    ensures c in Reachable(a)
    decreases Rank(a)
  {
    if b != a {
      var t :| t in Successors(a) && b in Reachable(t);
      ReachableTransitive(t, b, c);
      ReachableStep(a, t, c);
    }
  }

  /** Terminal statuses are the known ones without a successor, every transition
      lowers the rank, and after `shipped` an order is never cancelled. */
  lemma LifecycleShape(s: Status, t: Status)
    ensures Terminal(s) <==> Successors(s) == {} && !s.Other?
    ensures t in Successors(s) ==> Rank(t) < Rank(s) && !Terminal(s)
    ensures Cancelled in Reachable(s) <==> s in {Pending, Confirmed, Cancelled}
    ensures t in Reachable(s) ==> t == s || Rank(t) < Rank(s)
    decreases Rank(s)
  {
    assert Successors(Cancelled) == {} && Reachable(Cancelled) == {Cancelled};
    if s == Pending || s == Confirmed { assert Cancelled in Successors(s) && Cancelled in Reachable(Cancelled); }
    forall u | u in Successors(s) { LifecycleShape(u, t); }
    match s {
      case Pending => assert Confirmed in Successors(s);
      case Confirmed => assert Shipped in Successors(s);
      case Shipped => assert Delivered in Successors(s);
      case Delivered => assert Completed in Successors(s);
      case _ =>
    }
  }

  // ---- one commit ----------------------------------------------------------------------

  /** The later state extends the earlier one: rows are never removed, keys that the
      lakehouse partitions or joins on never change, logs only grow, and an order that
      has left `pending` keeps its total and its items. */
  ghost predicate Grows(s: Db, t: Db) {
    && s.customerLog <= t.customerLog && s.orderLog <= t.orderLog && s.itemLog <= t.itemLog
    && (forall c :: c in s.customers ==> c in t.customers && t.customers[c] == s.customers[c])
    && (forall o :: o in s.orders ==> OrderGrows(s, t, o))
    && (forall i :: i in s.items ==> i in t.items && t.items[i].orderId == s.items[i].orderId)
    && (forall i :: i in t.items && i !in s.items ==> t.items[i].orderId !in s.orders)
  }

  ghost predicate OrderGrows(s: Db, t: Db, o: int)
    requires o in s.orders
  {
    && o in t.orders
    && t.orders[o].customerId == s.orders[o].customerId
    && t.orders[o].createdAt == s.orders[o].createdAt
    && t.orders[o].status in Reachable(s.orders[o].status)
    && (s.orders[o].status != Pending ==> Frozen(s, t, o))
  }

  ghost predicate Frozen(s: Db, t: Db, o: int)
    requires o in s.orders && o in t.orders
  {
    && t.orders[o].status != Pending
    && t.orders[o].total == s.orders[o].total
    && (forall i :: i in s.items && s.items[i].orderId == o ==> i in t.items && t.items[i] == s.items[i])
    && (forall i :: i in t.items && t.items[i].orderId == o ==> i in s.items)
  }

  lemma GrowsReflexive(s: Db)
    ensures Grows(s, s)
  {
  }

  lemma GrowsTransitive(s: Db, t: Db, u: Db)
    requires Grows(s, t) && Grows(t, u)
    ensures Grows(s, u)
  {
    forall o | o in s.orders ensures OrderGrows(s, u, o) {
      assert OrderGrows(s, t, o) && OrderGrows(t, u, o);
      ReachableTransitive(s.orders[o].status, t.orders[o].status, u.orders[o].status);
    }
    forall i | i in u.items && i !in s.items ensures u.items[i].orderId !in s.orders {
      if i in t.items { assert t.items[i].orderId !in s.orders; }
    }
  }

  lemma InsertOrderLogged(s: Db, o: Order)
    requires Logged(s)
    ensures Logged(InsertOrder(s, o))
  {
  }

  lemma UpdateOrderLogged(s: Db, id: int, o: Order)
    requires Logged(s) && id in s.orders
    ensures Logged(UpdateOrder(s, id, o))
  {
  }

  lemma UpdateItemLogged(s: Db, id: int, i: Item)
    requires Logged(s) && id in s.items
    ensures Logged(UpdateItem(s, id, i))
  {
  }

  lemma NewOrderTotal(s: Db, customer: int, lines: seq<Line>, now: int, k: int)
    requires Consistent(s) && customer in s.customers && ValidLines(lines)
    ensures var t := OrderWithLines(s, customer, lines, now);
      && (k in s.orders ==> s.orders[k].total == OrderSum(t.items, k) && 1 <= OrderCount(t.items, k) <= MAX_LINES)
      && (k == s.nextOrder ==> LinesTotal(lines) == OrderSum(t.items, k) && 1 <= OrderCount(t.items, k) <= MAX_LINES)
  {
    var o := s.nextOrder;
    InsertOrderLogged(s, Order(customer, Pending, 0, now, now));
    InsertLinesTotals(InsertOrder(s, Order(customer, Pending, 0, now, now)), o, lines, now, k);
    NoItems(s.items, o);
  }

  /** The state after `create_order` for an existing customer. */
  function NewOrder(s: Db, customer: int, lines: seq<Line>, now: int): Db
    requires ValidLines(lines)
  {
    UpdateOrder(OrderWithLines(s, customer, lines, now), s.nextOrder, Order(customer, Pending, LinesTotal(lines), now, now))
  }

  lemma LinesKeepClosed(s: Db, customer: int, lines: seq<Line>, now: int)
    requires Closed(s) && Logged(s) && customer in s.customers && ValidLines(lines)
    ensures var t := OrderWithLines(s, customer, lines, now);
      Closed(t) && Logged(t) && AddsTo(InsertOrder(s, Order(customer, Pending, 0, now, now)), t, s.nextOrder)
  {
    InsertOrderLogged(s, Order(customer, Pending, 0, now, now));
    InsertLinesKeeps(InsertOrder(s, Order(customer, Pending, 0, now, now)), s.nextOrder, lines, now);
  }

  lemma NewOrderClosed(s: Db, customer: int, lines: seq<Line>, now: int)
    requires Consistent(s) && customer in s.customers && ValidLines(lines)
    ensures Closed(NewOrder(s, customer, lines, now)) && Logged(NewOrder(s, customer, lines, now))
  {
    LinesKeepClosed(s, customer, lines, now);
    UpdateOrderLogged(OrderWithLines(s, customer, lines, now), s.nextOrder, Order(customer, Pending, LinesTotal(lines), now, now));
  }

  lemma NewOrderTotalled(s: Db, customer: int, lines: seq<Line>, now: int)
    requires Consistent(s) && customer in s.customers && ValidLines(lines)
    ensures Totalled(NewOrder(s, customer, lines, now))
  {
    var u := NewOrder(s, customer, lines, now);
    forall k | k in u.orders ensures u.orders[k].total == OrderSum(u.items, k) && 1 <= OrderCount(u.items, k) <= MAX_LINES {
      NewOrderTotal(s, customer, lines, now, k);
    }
  }

  lemma CreateOrderConsistent(s: Db, customer: int, lines: seq<Line>, now: int)
    requires Consistent(s) && customer in s.customers && ValidLines(lines)
    ensures Consistent(NewOrder(s, customer, lines, now))
  {
    NewOrderClosed(s, customer, lines, now);
    NewOrderTotalled(s, customer, lines, now);
  }

  lemma CreateOrderGrows(s: Db, customer: int, lines: seq<Line>, now: int)
    requires Consistent(s) && customer in s.customers && ValidLines(lines)
    ensures Grows(s, NewOrder(s, customer, lines, now))
  {
    LinesKeepClosed(s, customer, lines, now);
    AddedOrderGrows(s, NewOrder(s, customer, lines, now));
  }

  /** Adding one order and items to it leaves everything else as it was. */
  lemma AddedOrderGrows(s: Db, u: Db)
    requires Closed(s) && u.customers == s.customers && u.customerLog == s.customerLog && s.orderLog <= u.orderLog && s.itemLog <= u.itemLog
    requires s.nextOrder in u.orders && u.orders == s.orders[s.nextOrder := u.orders[s.nextOrder]]
    requires forall i :: i in s.items ==> i in u.items && u.items[i] == s.items[i]
    requires forall i :: i in u.items && u.items[i].orderId != s.nextOrder ==> i in s.items
    ensures Grows(s, u)
  {
    forall k | k in s.orders ensures OrderGrows(s, u, k) {
      assert k != s.nextOrder && u.orders[k] == s.orders[k];
    }
  }

  lemma RequantifiedSums(s: Db, i: int, row: Item, k: int)
    requires i in s.items && row.orderId == s.items[i].orderId
    ensures OrderCount(UpdateItem(s, i, row).items, k) == OrderCount(s.items, k)
    ensures k != row.orderId ==> OrderSum(UpdateItem(s, i, row).items, k) == OrderSum(s.items, k)
  {
    PutItem(s.items, i, row, k);
  }

  /** The state after `update_item_quantity`: the order's total is summed again. */
  ghost function Requantified(s: Db, i: int, quantity: int, now: int): Db
    requires Editable(s, i)
  {
    var o, s1 := s.items[i].orderId, UpdateItem(s, i, s.items[i].(quantity := quantity));
    UpdateOrder(s1, o, s.orders[o].(total := OrderSum(s1.items, o), updatedAt := now))
  }

  lemma RequantifiedTotalled(s: Db, i: int, quantity: int, now: int)
    requires Totalled(s) && Editable(s, i)
    ensures Totalled(Requantified(s, i, quantity, now))
  {
    var row, t := s.items[i].(quantity := quantity), Requantified(s, i, quantity, now);
    forall k | k in t.orders ensures t.orders[k].total == OrderSum(t.items, k) && 1 <= OrderCount(t.items, k) <= MAX_LINES {
      RequantifiedSums(s, i, row, k);
    }
  }

  lemma RequantifiedLogged(s: Db, i: int, quantity: int, now: int)
    requires Logged(s) && Editable(s, i)
    ensures Logged(Requantified(s, i, quantity, now))
  {
    var row, o := s.items[i].(quantity := quantity), s.items[i].orderId;
    var s1 := UpdateItem(s, i, row);
    UpdateItemLogged(s, i, row);
    UpdateOrderLogged(s1, o, s.orders[o].(total := OrderSum(s1.items, o), updatedAt := now));
  }

  lemma RequantifiedClosed(s: Db, i: int, quantity: int, now: int)
    requires Closed(s) && Editable(s, i) && 1 <= quantity <= MAX_QUANTITY
    ensures Closed(Requantified(s, i, quantity, now))
  {
  }

  lemma UpdateQuantityConsistent(s: Db, i: int, quantity: int, now: int)
    requires Consistent(s) && Editable(s, i) && 1 <= quantity <= MAX_QUANTITY
    ensures Consistent(Requantified(s, i, quantity, now))
  {
    RequantifiedClosed(s, i, quantity, now);
    RequantifiedTotalled(s, i, quantity, now);
    RequantifiedLogged(s, i, quantity, now);
  }

  lemma UpdateItemGrows(s: Db, i: int, row: Item)
    requires Closed(s) && Editable(s, i) && row.orderId == s.items[i].orderId
    ensures Grows(s, UpdateItem(s, i, row))
  {
  }

  lemma UpdateOrderGrows(s: Db, o: int, row: Order)
    requires o in s.orders
    requires row.customerId == s.orders[o].customerId && row.createdAt == s.orders[o].createdAt
    requires row.status in Reachable(s.orders[o].status)
    requires s.orders[o].status != Pending ==> row.status != Pending && row.total == s.orders[o].total
    ensures Grows(s, UpdateOrder(s, o, row))
  {
  }

  lemma UpdateQuantityGrows(s: Db, i: int, quantity: int, now: int)
    requires Consistent(s) && Editable(s, i) && 1 <= quantity <= MAX_QUANTITY
    ensures Grows(s, Requantified(s, i, quantity, now))
  {
    var row, o := s.items[i].(quantity := quantity), s.items[i].orderId;
    var s1 := UpdateItem(s, i, row);
    UpdateItemGrows(s, i, row);
    var order := s.orders[o].(total := OrderSum(s1.items, o), updatedAt := now);
    UpdateOrderGrows(s1, o, order);
    GrowsTransitive(s, s1, UpdateOrder(s1, o, order));
  }

  lemma ProgressKeeps(s: Db, o: int, next: Status, now: int)
    requires Consistent(s) && o in s.orders && next in Successors(s.orders[o].status)
    ensures Consistent(UpdateOrder(s, o, s.orders[o].(status := next, updatedAt := now)))
    ensures Grows(s, UpdateOrder(s, o, s.orders[o].(status := next, updatedAt := now)))
  {
    UpdateOrderLogged(s, o, s.orders[o].(status := next, updatedAt := now));
    SuccessorIsReachable(s.orders[o].status, next);
    UpdateOrderGrows(s, o, s.orders[o].(status := next, updatedAt := now));
  }

  lemma SuccessorIsReachable(s: Status, t: Status)
    requires t in Successors(s)
    ensures t in Reachable(s) && t != Pending
  {
    assert t in Reachable(t);
  }

  lemma InsertCustomerKeeps(s: Db, c: Customer)
    requires Consistent(s)
    ensures Consistent(InsertCustomer(s, c)) && Grows(s, InsertCustomer(s, c))
  {
  }

  lemma RereadKeeps(s: Db, a: Action)
    requires Consistent(s) && Enabled(s, a) && (a.RereadCustomer? || a.RereadOrder? || a.RereadItem?)
    ensures Consistent(Step(s, a)) && Grows(s, Step(s, a))
  {
    var t := Step(s, a);
    assert Logged(t) by {
      if a.RereadCustomer? { RereadReplays(s.customerLog, a.id); }
      if a.RereadOrder? { RereadReplays(s.orderLog, a.id); }
      if a.RereadItem? { RereadReplays(s.itemLog, a.id); }
    }
    SameTablesKeep(s, t);
  }

  lemma RereadReplays<V>(log: seq<Event<V>>, id: int)
    requires id in Replay(log)
    ensures Replay(log + [Upsert(Read, id, None, Replay(log)[id])]) == Replay(log)
  {
  }

  lemma SameTablesKeep(s: Db, t: Db)
    requires Consistent(s) && Logged(t)
    requires t.customers == s.customers && t.orders == s.orders && t.items == s.items
    requires t.nextCustomer == s.nextCustomer && t.nextOrder == s.nextOrder && t.nextItem == s.nextItem
    requires s.customerLog <= t.customerLog && s.orderLog <= t.orderLog && s.itemLog <= t.itemLog
    ensures Consistent(t) && Grows(s, t)
  {
  }

  /** A buyer is created first if there is none. */
  lemma CreateOrderKeeps(s: Db, customer: int, name: string, email: string, lines: seq<Line>, now: int)
    requires Consistent(s) && Enabled(s, CreateOrder(customer, name, email, lines, now))
    ensures var t := Step(s, CreateOrder(customer, name, email, lines, now)); Consistent(t) && Grows(s, t)
  {
    var (s0, c) := WithCustomer(s, customer, name, email, now);
    InsertCustomerKeeps(s, Customer(name, email, now, now));
    CreateOrderConsistent(s0, c, lines, now);
    CreateOrderGrows(s0, c, lines, now);
    GrowsReflexive(s);
    GrowsTransitive(s, s0, NewOrder(s0, c, lines, now));
  }

  /** At each commit: totals equal the sum of the lines, foreign keys are closed, the
      logs replay to the tables, and the new state extends the old one. */
  lemma StepKeepsConsistent(s: Db, a: Action)
    requires Consistent(s) && Enabled(s, a)
    ensures Consistent(Step(s, a)) && Grows(s, Step(s, a))
  {
    match a
    case CreateCustomer(name, email, now) => InsertCustomerKeeps(s, Customer(name, email, now, now));
    case CreateOrder(customer, name, email, lines, now) => CreateOrderKeeps(s, customer, name, email, lines, now);
    case ProgressOrder(Some(o), next, now) =>
      if Successors(s.orders[o].status) != {} { ProgressKeeps(s, o, next, now); }
    case UpdateItemQuantity(Some(i), quantity, now) =>
      UpdateQuantityConsistent(s, i, quantity, now);
      UpdateQuantityGrows(s, i, quantity, now);
    case ProgressOrder(None, _, _) =>
    case UpdateItemQuantity(None, _, _) =>
    case RereadCustomer(_) => RereadKeeps(s, a);
    case RereadOrder(_) => RereadKeeps(s, a);
    case RereadItem(_) => RereadKeeps(s, a);
  }

  // ---- whole runs -----------------------------------------------------------------------

  lemma SeedIsConsistent(now: int)
    ensures Consistent(Seed(now))
  {
    var s := Seed(now);
    var i1, i2, i3 := s.items[1], s.items[2], s.items[3];
    assert s.items == map[1 := i1][2 := i2][3 := i3];
    SeedSum(i1, i2, i3, 1);
    SeedSum(i1, i2, i3, 2);
    SeedReplays(now);
  }

  lemma SeedSum(i1: Item, i2: Item, i3: Item, o: int)
    ensures OrderSum(map[1 := i1][2 := i2][3 := i3], o) == LineOf(o)(i1) + LineOf(o)(i2) + LineOf(o)(i3)
    ensures OrderCount(map[1 := i1][2 := i2][3 := i3], o) == OneOf(o)(i1) + OneOf(o)(i2) + OneOf(o)(i3)
  {
    var none: map<int, Item> := map[];
    NoItems(none, o);
    assert map[1 := i1] == none[1 := i1];
    PutItem(none, 1, i1, o);
    PutItem(map[1 := i1], 2, i2, o);
    PutItem(map[1 := i1][2 := i2], 3, i3, o);
  }

  lemma SeedReplays(now: int)
    ensures Logged(Seed(now))
  {
    var s := Seed(now);
    ReplaySnoc(s.customerLog[..0], s.customerLog[0]);
    assert s.customerLog[..1] == s.customerLog[..0] + [s.customerLog[0]];
    ReplaySnoc(s.orderLog[..0], s.orderLog[0]);
    assert s.orderLog[..1] == s.orderLog[..0] + [s.orderLog[0]];
    ReplaySnoc(s.itemLog[..0], s.itemLog[0]);
    assert s.itemLog[..1] == s.itemLog[..0] + [s.itemLog[0]];
    ReplaySnoc(s.itemLog[..1], s.itemLog[1]);
    assert s.itemLog[..2] == s.itemLog[..1] + [s.itemLog[1]];
  }

  lemma {:induction false} RunKeepsConsistent(s: Db, acts: seq<Action>)
    requires Consistent(s) && ValidRun(s, acts)
    ensures Consistent(Run(s, acts)) && Grows(s, Run(s, acts))
  {
    if acts == [] {
      GrowsReflexive(s);
    } else {
      var init := acts[..|acts| - 1];
      RunKeepsConsistent(s, init);
      StepKeepsConsistent(Run(s, init), acts[|acts| - 1]);
      GrowsTransitive(s, Run(s, init), Run(s, acts));
    }
  }

  /** On every run from the seed, at every commit, every order's total is the sum of
      quantity times unit price over its items. */
  lemma TotalsMatchLines(now: int, acts: seq<Action>, o: int)
    requires ValidRun(Seed(now), acts) && o in Run(Seed(now), acts).orders
    ensures Run(Seed(now), acts).orders[o].total == OrderSum(Run(Seed(now), acts).items, o)
  {
    SeedIsConsistent(now);
    RunKeepsConsistent(Seed(now), acts);
  }

  lemma {:induction false} PrefixIsValid(s: Db, acts: seq<Action>, k: nat)
    requires ValidRun(s, acts) && k <= |acts|
    ensures ValidRun(s, acts[..k])
  {
    if k == |acts| {
      assert acts[..k] == acts;
    } else {
      var init := acts[..|acts| - 1];
      assert acts[..k] == init[..k];
      PrefixIsValid(s, init, k);
    }
  }

  lemma OneMoreCommit(s: Db, acts: seq<Action>, k: nat)
    requires Consistent(s) && k < |acts| && ValidRun(s, acts[..k]) && ValidRun(s, acts[..k + 1])
    ensures Grows(Run(s, acts[..k]), Run(s, acts[..k + 1]))
  {
    assert acts[..k + 1][..k] == acts[..k];
    RunKeepsConsistent(s, acts[..k]);
    StepKeepsConsistent(Run(s, acts[..k]), acts[k]);
  }

  /** The source at two commits of one run: the later extends the earlier. */
  lemma {:induction false} LaterExtendsEarlier(s: Db, acts: seq<Action>, j: nat, k: nat)
    requires Consistent(s) && ValidRun(s, acts) && j <= k <= |acts|
    requires ValidRun(s, acts[..j]) && ValidRun(s, acts[..k])
    ensures Grows(Run(s, acts[..j]), Run(s, acts[..k]))
    decreases k
  {
    if j == k {
      GrowsReflexive(Run(s, acts[..j]));
    } else {
      PrefixIsValid(s, acts, k - 1);
      LaterExtendsEarlier(s, acts, j, k - 1);
      OneMoreCommit(s, acts, k - 1);
      GrowsTransitive(Run(s, acts[..j]), Run(s, acts[..k - 1]), Run(s, acts[..k]));
    }
  }

  /** Once an order has left `pending`, no later commit changes its total or its items,
      and a shipped order is never cancelled. */
  lemma FrozenOncePlaced(now: int, acts: seq<Action>, j: nat, k: nat, o: int)
    requires ValidRun(Seed(now), acts) && j <= k <= |acts|
    requires ValidRun(Seed(now), acts[..j]) && ValidRun(Seed(now), acts[..k])
    requires o in Run(Seed(now), acts[..j]).orders
    requires Run(Seed(now), acts[..j]).orders[o].status != Pending
    ensures var s, t := Run(Seed(now), acts[..j]), Run(Seed(now), acts[..k]);
      && o in t.orders && Frozen(s, t, o)
      && (s.orders[o].status !in {Confirmed, Cancelled} ==> t.orders[o].status != Cancelled)
  {
    SeedIsConsistent(now);
    LaterExtendsEarlier(Seed(now), acts, j, k);
    var s, t := Run(Seed(now), acts[..j]), Run(Seed(now), acts[..k]);
    assert OrderGrows(s, t, o);
    LifecycleShape(s.orders[o].status, t.orders[o].status);
  }

  /** Status changes recorded for an order in the change log. */
  function StatusChanges(log: seq<Event<Order>>, o: int): nat {
    if log == [] then 0
    else
      var e := log[|log| - 1];
      StatusChanges(log[..|log| - 1], o) +
      if e.Upsert? && e.key == o && e.before.Some? && e.before.value.status != e.after.status then 1 else 0
  }

  lemma StatusChangesSnoc(log: seq<Event<Order>>, e: Event<Order>, o: int)
    ensures StatusChanges(log + [e], o) == StatusChanges(log, o) +
      if e.Upsert? && e.key == o && e.before.Some? && e.before.value.status != e.after.status then 1 else 0
  {
  }

  /** One event of the orders topic, seen from the table before it: an insert of a
      pending order, or an update that keeps the status or follows STATUS_FLOW. */
  predicate Legal(orders: map<int, Order>, e: Event<Order>) {
    e.Upsert? &&
    match e.op
    case Create => e.key !in orders && e.before == None && e.after.status == Pending
    case Update =>
      && e.key in orders && e.before == Some(orders[e.key])
      && (e.after.status == orders[e.key].status || e.after.status in Successors(orders[e.key].status))
    case Read => e.key in orders && e.before == None && e.after == orders[e.key]
  }

  predicate LegalFrom(orders: map<int, Order>, events: seq<Event<Order>>)
    decreases |events|
  {
    events == [] || (Legal(orders, events[0]) && LegalFrom(Apply(orders, events[0]), events[1..]))
  }

  lemma NewOrderEvents(s: Db, customer: int, lines: seq<Line>, now: int) returns (events: seq<Event<Order>>)
    requires Closed(s) && ValidLines(lines)
    ensures NewOrder(s, customer, lines, now).orderLog == s.orderLog + events && LegalFrom(s.orders, events)
    ensures forall e :: e in events ==> e.Upsert? && e.op != Read
  {
    var draft, final := Order(customer, Pending, 0, now, now), Order(customer, Pending, LinesTotal(lines), now, now);
    var second := Upsert(Update, s.nextOrder, Some(draft), final);
    events := [Upsert(Create, s.nextOrder, None, draft), second];
    assert events[1..] == [second];
  }

  /** The order events of one commit. */
  lemma OrderEvents(s: Db, a: Action) returns (events: seq<Event<Order>>)
    requires Consistent(s) && Enabled(s, a)
    ensures Step(s, a).orderLog == s.orderLog + events
    ensures LegalFrom(s.orders, events)
    ensures !a.RereadOrder? ==> forall e :: e in events ==> e.Upsert? && e.op != Read
  {
    events := [];
    match a
    case CreateOrder(customer, name, email, lines, now) =>
      var (s0, c) := WithCustomer(s, customer, name, email, now);
      events := NewOrderEvents(s0, c, lines, now);
    case ProgressOrder(Some(o), next, now) =>
      if Successors(s.orders[o].status) != {} {
        events := [Upsert(Update, o, Some(s.orders[o]), s.orders[o].(status := next, updatedAt := now))];
      }
    case UpdateItemQuantity(Some(i), quantity, now) =>
      events := [Step(s, a).orderLog[|s.orderLog|]];
    case RereadOrder(id) => events := [Upsert(Read, id, None, s.orders[id])];
    case _ =>
  }

  /** Status changes so far plus transitions left never exceed four. */
  ghost predicate WithinLifecycle(orders: map<int, Order>, log: seq<Event<Order>>) {
    && (forall o :: o in orders ==> StatusChanges(log, o) + Rank(orders[o].status) <= 4)
    && (forall o :: o !in orders ==> StatusChanges(log, o) == 0)
  }

  lemma EventKeepsLifecycle(orders: map<int, Order>, log: seq<Event<Order>>, e: Event<Order>)
    requires WithinLifecycle(orders, log) && Legal(orders, e)
    ensures WithinLifecycle(Apply(orders, e), log + [e])
  {
    forall o ensures StatusChanges(log + [e], o) == StatusChanges(log, o) +
      if e.key == o && e.before.Some? && e.before.value.status != e.after.status then 1 else 0
    {
      StatusChangesSnoc(log, e, o);
    }
    if e.op == Update { LifecycleShape(orders[e.key].status, e.after.status); }
  }

  lemma {:induction false} EventsKeepLifecycle(orders: map<int, Order>, log: seq<Event<Order>>, events: seq<Event<Order>>)
    requires WithinLifecycle(orders, log) && LegalFrom(orders, events) && Replay(log) == orders
    ensures WithinLifecycle(Replay(log + events), log + events)
    decreases |events|
  {
    if events == [] {
      assert log + events == log;
    } else {
      EventKeepsLifecycle(orders, log, events[0]);
      ReplaySnoc(log, events[0]);
      EventsKeepLifecycle(Apply(orders, events[0]), log + [events[0]], events[1..]);
      assert log + [events[0]] + events[1..] == log + events;
    }
  }

  /** No order makes more than four status changes on any run. */
  lemma {:induction false} AtMostFourTransitions(now: int, acts: seq<Action>)
    requires ValidRun(Seed(now), acts)
    ensures WithinLifecycle(Run(Seed(now), acts).orders, Run(Seed(now), acts).orderLog)
  {
    SeedIsConsistent(now);
    if acts == [] {
      var log := Seed(now).orderLog;
      forall o ensures StatusChanges(log, o) == 0 {
        StatusChangesSnoc([], log[0], o);
        StatusChangesSnoc([log[0]], log[1], o);
        assert log == [log[0]] + [log[1]] && [] + [log[0]] == [log[0]];
      }
    } else {
      var init := acts[..|acts| - 1];
      AtMostFourTransitions(now, init);
      RunKeepsConsistent(Seed(now), init);
      var s := Run(Seed(now), init);
      var events := OrderEvents(s, acts[|acts| - 1]);
      EventsKeepLifecycle(s.orders, s.orderLog, events);
      RunKeepsConsistent(Seed(now), acts);
    }
  }

  // ---- the orders topic as a changelog ------------------------------------------------------

  predicate NoReread(acts: seq<Action>) { forall k :: 0 <= k < |acts| ==> !acts[k].RereadOrder? }

  lemma WellFormedSnoc(log: seq<Event<Order>>, e: Event<Order>)
    requires WellFormed(log) && Follows(Replay(log), e)
    ensures WellFormed(log + [e])
  {
    var longer := log + [e];
    forall i | 0 <= i < |longer| ensures Follows(Replay(longer[..i]), longer[i]) {
      assert longer[..i] == log[..i];
      if i == |log| { assert log[..i] == log; }
    }
  }

  lemma LegalFollows(orders: map<int, Order>, e: Event<Order>)
    requires Legal(orders, e) && e.op != Read
    ensures Follows(orders, e)
  {
  }

  lemma {:induction false} WellFormedAppend(log: seq<Event<Order>>, events: seq<Event<Order>>)
    requires WellFormed(log) && LegalFrom(Replay(log), events)
    requires forall e :: e in events ==> e.Upsert? && e.op != Read
    ensures WellFormed(log + events)
    decreases |events|
  {
    if events == [] {
      assert log + events == log;
    } else {
      LegalFollows(Replay(log), events[0]);
      WellFormedSnoc(log, events[0]);
      ReplaySnoc(log, events[0]);
      WellFormedAppend(log + [events[0]], events[1..]);
      assert log + [events[0]] + events[1..] == log + events;
    }
  }

  /** Without re-snapshots, the orders topic is a changelog whose `before` images are
      the rows they replace. */
  lemma {:induction false} OrdersTopicIsWellFormed(now: int, acts: seq<Action>)
    requires ValidRun(Seed(now), acts) && NoReread(acts)
    ensures WellFormed(Run(Seed(now), acts).orderLog)
  {
    SeedIsConsistent(now);
    if acts == [] {
      var log := Seed(now).orderLog;
      WellFormedSnoc([], log[0]);
      ReplaySnoc([], log[0]);
      assert [] + [log[0]] == [log[0]];
      WellFormedSnoc([log[0]], log[1]);
      assert log == [log[0]] + [log[1]];
    } else {
      var init := acts[..|acts| - 1];
      OrdersTopicIsWellFormed(now, init);
      RunKeepsConsistent(Seed(now), init);
      var s := Run(Seed(now), init);
      var events := OrderEvents(s, acts[|acts| - 1]);
      WellFormedAppend(s.orderLog, events);
    }
  }
}
