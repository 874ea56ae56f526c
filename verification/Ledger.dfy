/**
 Whole-database soundness and the conservation of units, for one transaction after another.
 Module Transactions shows that interleaved transactions always amount to such a sequence.
 */
module Ledger {
  import opened Base
  import opened StockPlan
  import opened Tables

  // ------------------------------------------------------------------ units in orders

  function UnitsOf(o: Order, p: string): nat {
    if o.status == Cancelled then 0 else SumFor(LinesOf(o.lines), p)
  }

  /** Units of p held by all orders that are not cancelled. */
  ghost function ActiveUnits(orders: map<string, Order>, p: string): nat
    decreases |orders|
  {
    if orders == map[] then 0
    else
      var id :| id in orders;
      UnitsOf(orders[id], p) + ActiveUnits(orders - {id}, p)
  }

  lemma {:induction false} ActiveRemove(orders: map<string, Order>, id: string, p: string)
    requires id in orders
    ensures ActiveUnits(orders, p) == UnitsOf(orders[id], p) + ActiveUnits(orders - {id}, p)
    decreases |orders|
  {
    var k :| k in orders && ActiveUnits(orders, p) == UnitsOf(orders[k], p) + ActiveUnits(orders - {k}, p);
    if k != id {
      ActiveRemove(orders - {k}, id, p);
      ActiveRemove(orders - {id}, k, p);
      assert orders - {k} - {id} == orders - {id} - {k};
    }
  }

  lemma ActivePut(orders: map<string, Order>, id: string, o: Order, p: string)
    ensures ActiveUnits(orders[id := o], p) ==
              UnitsOf(o, p) + ActiveUnits(orders, p) - if id in orders then UnitsOf(orders[id], p) else 0
  {
    ActiveRemove(orders[id := o], id, p);
    assert orders[id := o] - {id} == orders - {id};
    if id in orders { ActiveRemove(orders, id, p); } else { assert orders - {id} == orders; }
  }

  // ------------------------------------------------------------------ invariants of committed rows

  predicate StockInRange(stock: map<string, int>) {
    forall p :: p in stock ==> 0 <= stock[p] <= MAX_INT64
  }

  predicate OrdersKeyed(orders: map<string, Order>) {
    forall id :: id in orders ==> orders[id].id == id
  }

  /** The unique index on (user, key hash). */
  predicate UniqueKeys(orders: map<string, Order>) {
    forall a, b :: a in orders && b in orders && SameKey(orders[a], orders[b]) ==> a == b
  }

  predicate SameKey(a: Order, b: Order) {
    a.user == b.user && a.idem.Some? && b.idem.Some? && a.idem.value.keyHash == b.idem.value.keyHash
  }

  predicate OrdersAddUp(orders: map<string, Order>) {
    forall id :: id in orders ==> AddsUp(orders[id])
  }

  predicate AddsUp(o: Order) { 0 <= o.total == SumOfPrices(o.lines) <= MAX_INT64 }

  predicate EventsHaveOrders(t: Tables) {
    forall e :: e in t.outbox ==>
      t.outbox[e].aggregateId in t.orders && t.outbox[e] == CreatedEvent(t.orders[t.outbox[e].aggregateId])
  }

  predicate OneEventEach(t: Tables) {
    && (forall e, f :: e in t.outbox && f in t.outbox && t.outbox[e].aggregateId == t.outbox[f].aggregateId ==> e == f)
    && (forall id :: id in t.orders ==> HasEvent(t.outbox, id))
  }

  predicate HasEvent(outbox: map<string, Event>, orderId: string) {
    exists e :: e in outbox && outbox[e].aggregateId == orderId
  }

  ghost predicate Sound(t: Tables) {
    && StockInRange(t.stock)
    && OrdersKeyed(t.orders)
    && UniqueKeys(t.orders)
    && OrdersAddUp(t.orders)
    && EventsHaveOrders(t)
    && OneEventEach(t)
  }

  function Supplied(supplied: map<string, int>, p: string): int {
    if p in supplied then supplied[p] else 0
  }

  /** Stock plus units in live orders is what administrators supplied. */
  ghost predicate Conserved(t: Tables, supplied: map<string, int>) {
    forall p :: Balanced(t, supplied, p)
  }

  ghost predicate Balanced(t: Tables, supplied: map<string, int>, p: string) {
    StockOf(t.stock, p) + ActiveUnits(t.orders, p) == Supplied(supplied, p)
  }

  // ------------------------------------------------------------------ atomic operations

  datatype Op =
    | Place(order: Order, eventId: string)
    | Cancel(orderId: string, user: string)
    | SetTo(product: string, quantity: int)
    | Adjust(product: string, delta: int)

  /** What the code and the UUID generator guarantee about an operation before it runs. */
  predicate Admissible(t: Tables, op: Op) {
    match op
    case Place(o, eventId) => o.id !in t.orders && eventId !in t.outbox && o.status == New && AddsUp(o)
    case SetTo(_, q) => 0 <= q <= MAX_INT64
    case _ => true
  }

  function Atomic(t: Tables, op: Op): Result<Tables, Error> {
    match op
    case Place(o, eventId) => PlaceTx(t, o, eventId)
    case Cancel(orderId, user) => CancelTx(t, orderId, user)
    case SetTo(p, q) => Ok(t.(stock := t.stock[p := q]))
    case Adjust(p, delta) =>
      match AdjustRow(t.stock, p, delta)
      case Err(e) => Err(e)
      case Ok(stock) => Ok(t.(stock := stock))
  }

  /** Net units an administrator adds; a set counts as its difference when it is written. */
  function Supply(t: Tables, op: Op): Option<(string, int)> {
    match op
    case SetTo(p, q) => Some((p, q - StockOf(t.stock, p)))
    case Adjust(p, delta) => Some((p, delta))
    case _ => None
  }

  datatype World = World(tables: Tables, supplied: map<string, int>)

  /** One operation, all or nothing, with the supply ledger. */
  function Step(w: World, op: Op): World {
    match Atomic(w.tables, op)
    case Err(_) => w
    case Ok(t) =>
      match Supply(w.tables, op)
      case None => World(t, w.supplied)
      case Some((p, n)) => World(t, w.supplied[p := Supplied(w.supplied, p) + n])
  }

  function Serial(w: World, ops: seq<Op>): World {
    if ops == [] then w else Step(Serial(w, ops[..|ops| - 1]), ops[|ops| - 1])
  }

  ghost predicate AllAdmissible(w: World, ops: seq<Op>) {
    forall i :: 0 <= i < |ops| ==> Admissible(Serial(w, ops[..i]).tables, ops[i])
  }

  // ------------------------------------------------------------------ each operation keeps both

  lemma ConsumeAllBalance(stock: map<string, int>, plan: seq<Item>, after: map<string, int>)
    requires Ascending(plan) && StockInRange(stock) && ConsumeAll(stock, plan) == Ok(after)
    ensures StockInRange(after)
    ensures forall p :: StockOf(after, p) == StockOf(stock, p) - QuantityIn(plan, p)
  {
    AscendingIsDistinct(plan);
    ConsumeAllRows(stock, plan);
    forall p ensures StockOf(after, p) == StockOf(stock, p) - QuantityIn(plan, p)
      ensures p in after ==> 0 <= after[p] <= MAX_INT64
    {
      if Covers(plan, p) {
        var i :| 0 <= i < |plan| && plan[i].productId == p;
        QuantityAt(plan, i);
      } else {
        QuantityNone(plan, p);
      }
    }
  }

  lemma RestockAllBalance(stock: map<string, int>, plan: seq<Item>, after: map<string, int>)
    requires Ascending(plan) && StockInRange(stock) && RestockAll(stock, plan) == Ok(after)
    ensures StockInRange(after)
    ensures forall p :: StockOf(after, p) == StockOf(stock, p) + QuantityIn(plan, p)
  {
    AscendingIsDistinct(plan);
    RestockAllRows(stock, plan);
    forall p ensures StockOf(after, p) == StockOf(stock, p) + QuantityIn(plan, p)
      ensures p in after ==> 0 <= after[p] <= MAX_INT64
    {
      assert Restocked(stock, after, plan, p);
      if Covers(plan, p) {
        var i :| 0 <= i < |plan| && plan[i].productId == p;
        QuantityAt(plan, i);
      } else {
        QuantityNone(plan, p);
      }
    }
  }

  lemma InsertKeepsUnique(orders: map<string, Order>, o: Order)
    requires UniqueKeys(orders) && o.id !in orders && InsertOrder(orders, o).Ok?
    ensures UniqueKeys(orders[o.id := o])
  {
    var after := orders[o.id := o];
    forall a, b | a in after && b in after && SameKey(after[a], after[b]) ensures a == b {
      if a == o.id && b != o.id { assert HasKey(orders[b], o.user, o.idem.value.keyHash); }
      if b == o.id && a != o.id { assert HasKey(orders[a], o.user, o.idem.value.keyHash); }
      if a != o.id && b != o.id { assert SameKey(orders[a], orders[b]); }
    }
  }

  lemma InsertKeepsEvents(t: Tables, o: Order, eventId: string, after: Tables)
    requires EventsHaveOrders(t) && OneEventEach(t) && o.id !in t.orders && eventId !in t.outbox
    requires after.orders == t.orders[o.id := o] && after.outbox == t.outbox[eventId := CreatedEvent(o)]
    ensures EventsHaveOrders(after) && OneEventEach(after)
  {
    assert after.outbox[eventId].aggregateId == o.id;
    forall id | id in after.orders ensures HasEvent(after.outbox, id) {
      if id == o.id {
        assert eventId in after.outbox;
      } else {
        assert HasEvent(t.outbox, id);
        var e :| e in t.outbox && t.outbox[e].aggregateId == id;
        assert e in after.outbox && after.outbox[e].aggregateId == id;
      }
    }
  }

  lemma PlaceBalances(t: Tables, o: Order, eventId: string, after: Tables, supplied: map<string, int>)
    requires StockInRange(t.stock) && Conserved(t, supplied)
    requires o.id !in t.orders && o.status == New && PlaceTx(t, o, eventId) == Ok(after)
    ensures StockInRange(after.stock) && Conserved(after, supplied)
  {
    var plan := OrderPlan(o);
    PlanOfIsPlan(LinesOf(o.lines));
    ConsumeAllBalance(t.stock, plan, after.stock);
    forall p ensures Balanced(after, supplied, p) {
      assert Balanced(t, supplied, p);
      ActivePut(t.orders, o.id, o, p);
    }
  }

  lemma PlaceKeeps(w: World, o: Order, eventId: string, after: Tables)
    requires Sound(w.tables) && Conserved(w.tables, w.supplied)
    requires Admissible(w.tables, Place(o, eventId)) && PlaceTx(w.tables, o, eventId) == Ok(after)
    ensures Sound(after) && Conserved(after, w.supplied)
  {
    InsertKeepsUnique(w.tables.orders, o);
    InsertKeepsEvents(w.tables, o, eventId, after);
    PlaceBalances(w.tables, o, eventId, after, w.supplied);
  }

  lemma CancelKeepsKeys(t: Tables, orderId: string, user: string, after: Tables)
    requires OrdersKeyed(t.orders) && UniqueKeys(t.orders) && OrdersAddUp(t.orders) && CancelTx(t, orderId, user)
        == Ok(after)
    ensures OrdersKeyed(after.orders) && UniqueKeys(after.orders) && OrdersAddUp(after.orders)
  {
    forall a, b | a in after.orders && b in after.orders && SameKey(after.orders[a], after.orders[b]) ensures a == b {
      assert SameKey(t.orders[a], t.orders[b]);
    }
  }

  lemma CancelKeepsEvents(t: Tables, orderId: string, user: string, after: Tables)
    requires EventsHaveOrders(t) && OneEventEach(t) && CancelTx(t, orderId, user) == Ok(after)
    ensures EventsHaveOrders(after) && OneEventEach(after)
  {
    forall id | id in after.orders ensures CreatedEvent(after.orders[id]) == CreatedEvent(t.orders[id]) {}
    forall id | id in after.orders ensures HasEvent(after.outbox, id) { assert HasEvent(t.outbox, id); }
  }

  lemma CancelBalances(t: Tables, orderId: string, user: string, after: Tables, supplied: map<string, int>)
    requires StockInRange(t.stock) && Conserved(t, supplied) && CancelTx(t, orderId, user) == Ok(after)
    ensures StockInRange(after.stock) && Conserved(after, supplied)
  {
    var o := t.orders[orderId];
    var plan := OrderPlan(o);
    PlanOfIsPlan(LinesOf(o.lines));
    RestockAllBalance(t.stock, plan, after.stock);
    forall p ensures Balanced(after, supplied, p) {
      assert Balanced(t, supplied, p);
      ActivePut(t.orders, orderId, o.(status := Cancelled), p);
    }
  }

  lemma CancelKeeps(w: World, orderId: string, user: string, after: Tables)
    requires Sound(w.tables) && Conserved(w.tables, w.supplied) && CancelTx(w.tables, orderId, user) == Ok(after)
    ensures Sound(after) && Conserved(after, w.supplied)
  {
    CancelKeepsKeys(w.tables, orderId, user, after);
    CancelKeepsEvents(w.tables, orderId, user, after);
    CancelBalances(w.tables, orderId, user, after, w.supplied);
  }

  /** Every operation, applied or refused, keeps the database sound and the units balanced. */
  lemma StepKeeps(w: World, op: Op)
    requires Sound(w.tables) && Conserved(w.tables, w.supplied) && Admissible(w.tables, op)
    ensures Sound(Step(w, op).tables) && Conserved(Step(w, op).tables, Step(w, op).supplied)
  {
    if Atomic(w.tables, op).Ok? {
      var after := Atomic(w.tables, op).value;
      match op
      case Place(o, eventId) => PlaceKeeps(w, o, eventId, after);
      case Cancel(orderId, user) => CancelKeeps(w, orderId, user, after);
      case SetTo(p, q) => SupplyKeeps(w, op, after);
      case Adjust(p, delta) => SupplyKeeps(w, op, after);
    }
  }

  lemma SupplyKeeps(w: World, op: Op, after: Tables)
    requires Sound(w.tables) && Conserved(w.tables, w.supplied) && Admissible(w.tables, op)
    requires op.SetTo? || op.Adjust?
    requires Atomic(w.tables, op) == Ok(after)
    ensures Sound(Step(w, op).tables) && Conserved(Step(w, op).tables, Step(w, op).supplied)
  {
    var next := Step(w, op);
    SupplySound(w, op, after);
    SupplyRow(w, op, after);
    forall p ensures Balanced(next.tables, next.supplied, p) {
      assert Balanced(w.tables, w.supplied, p);
    }
  }

  lemma SupplySound(w: World, op: Op, after: Tables)
    requires Sound(w.tables) && Admissible(w.tables, op) && (op.SetTo? || op.Adjust?) && Atomic(w.tables, op)
        == Ok(after)
    ensures Sound(after) && Step(w, op).tables == after
  {
  }

  /** Administration changes one row, and counts what it changed as supplied. */
  lemma SupplyRow(w: World, op: Op, after: Tables)
    requires (op.SetTo? || op.Adjust?) && Atomic(w.tables, op) == Ok(after)
    ensures after.orders == w.tables.orders && Step(w, op).tables == after
    ensures forall p :: StockOf(after.stock, p) - StockOf(w.tables.stock, p)
                        == Supplied(Step(w, op).supplied, p) - Supplied(w.supplied, p)
  {
  }

  // ------------------------------------------------------------------ placing and cancelling

  /** Returning a plan that was consumed gives every row back exactly. */
  lemma RestockUndoesConsume(stock: map<string, int>, plan: seq<Item>, mid: map<string, int>)
    requires Ascending(plan) && StockInRange(stock) && ConsumeAll(stock, plan) == Ok(mid)
    ensures PlanFits(plan)
    ensures RestockAll(mid, plan).Ok? && RestockAll(mid, plan).value == stock
  {
    AscendingIsDistinct(plan);
    ConsumeAllRows(stock, plan);
    ConsumeAllBalance(stock, plan, mid);
    forall i | 0 <= i < |plan|
      ensures plan[i].quantity > 0 && StockOf(mid, plan[i].productId) + plan[i].quantity <= MAX_INT64
      ensures plan[i].quantity <= MAX_INT64
    {
      QuantityAt(plan, i);
      assert StockOf(mid, plan[i].productId) >= 0;
    }
    RestockAllRows(mid, plan);
    var after := RestockAll(mid, plan).value;
    forall p ensures p in after <==> p in stock { assert Restocked(mid, after, plan, p); }
    forall p | p in after ensures after[p] == stock[p] { assert Restocked(mid, after, plan, p); }
  }

  /** Cancelling undoes placing: the stock rows are exactly what they were. */
  lemma CancelUndoesPlace(t: Tables, o: Order, eventId: string, placed: Tables)
    requires Sound(t) && Admissible(t, Place(o, eventId)) && PlaceTx(t, o, eventId) == Ok(placed)
    ensures CancelTx(placed, o.id, o.user).Ok?
    ensures CancelTx(placed, o.id, o.user).value.stock == t.stock
  {
    PlanOfIsPlan(LinesOf(o.lines));
    RestockUndoesConsume(t.stock, OrderPlan(o), placed.stock);
  }

  /** No operation forgets an order or changes what it is; only its status can move to cancelled. */
  predicate Preserves(before: map<string, Order>, after: map<string, Order>) {
    forall id :: id in before ==>
      && id in after
      && after[id].(status := New) == before[id].(status := New)
      && (after[id].status == before[id].status || after[id].status == Cancelled)
  }

  lemma {:induction false} SerialPreserves(w: World, ops: seq<Op>)
    requires AllAdmissible(w, ops)
    ensures Preserves(w.tables.orders, Serial(w, ops).tables.orders)
    decreases |ops|
  {
    if ops != [] {
      var front := ops[..|ops| - 1];
      forall i | 0 <= i < |front| ensures Admissible(Serial(w, front[..i]).tables, front[i]) {
        assert front[..i] == ops[..i];
      }
      SerialPreserves(w, front);
      assert Admissible(Serial(w, ops[..|front|]).tables, ops[|front|]);
    }
  }

  /** An order is cancelled at most once: after any further operations, cancelling it again fails. */
  lemma CancelledOnce(w: World, orderId: string, user: string, ops: seq<Op>)
    requires OrdersKeyed(w.tables.orders)
    requires CancelTx(w.tables, orderId, user).Ok?
    requires AllAdmissible(Step(w, Cancel(orderId, user)), ops)
    ensures CancelTx(Serial(Step(w, Cancel(orderId, user)), ops).tables, orderId, user) == Err(InvalidState)
  {
    SerialPreserves(Step(w, Cancel(orderId, user)), ops);
  }
}
