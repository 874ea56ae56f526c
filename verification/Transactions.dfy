/**
 Any number of placements, cancellations and stock administrations interleaved statement by
 statement over one PostgreSQL database.

 A transaction buffers its writes and holds the inventory rows it wrote, its order row or its unique
 index entry until it commits or fails; a statement that needs a row held by another transaction
 waits, which here means that the event changes nothing. Guarded updates see the row as it is once
 it is free. Committed rows become visible only at commit. Every event list is a run, so each theorem
 about `Run` holds for every schedule.
 */
module Transactions {
  import opened Base
  import opened StockPlan
  import opened Tables
  import opened Ledger

  datatype Phase = Active | Committed | Failed(error: Error)

  /** A cancellation remembers the order as it was read, before any lock. */
  datatype Kind =
    | Placing(order: Order, eventId: string)
    | Cancelling(order: Order, user: string)

  /**
   `writes` are uncommitted inventory rows; `guarded` says that the order row is inserted
   (placing) or updated (cancelling), and held.
   */
  datatype Tx = Tx(
    kind: Kind, plan: seq<Item>, next: nat, writes: map<string, int>, guarded: bool, recorded: bool, phase: Phase)

  datatype Sys = Sys(world: World, txs: map<string, Tx>)

  datatype Event =
    | BeginPlace(t: string, user: string, lines: seq<Line>, quotes: seq<Quote>, idem: Option<Idempotency>,
                 orderId: string, eventId: string)
    | BeginCancel(t: string, orderId: string, user: string)
    | Guard(t: string)
    | Take(t: string)
    | Insert(t: string)
    | Record(t: string)
    | Commit(t: string)
    | Abort(t: string, error: Error)
    | AdminSet(product: string, quantity: int)
    | AdminAdjust(product: string, delta: int)

  // ------------------------------------------------------------------ locks

  predicate HoldsRow(tx: Tx, p: string) { tx.phase.Active? && p in tx.writes }

  predicate HoldsOrder(tx: Tx, orderId: string) {
    tx.phase.Active? && tx.kind.Cancelling? && tx.guarded && tx.kind.order.id == orderId
  }

  predicate HoldsKey(tx: Tx, user: string, keyHash: string) {
    tx.phase.Active? && tx.kind.Placing? && tx.guarded && HasKey(tx.kind.order, user, keyHash)
  }

  predicate RowFree(txs: map<string, Tx>, t: string, p: string) {
    forall u :: u in txs && u != t ==> !HoldsRow(txs[u], p)
  }

  predicate Unlocked(txs: map<string, Tx>, p: string) {
    forall u :: u in txs ==> !HoldsRow(txs[u], p)
  }

  predicate OrderFree(txs: map<string, Tx>, t: string, orderId: string) {
    forall u :: u in txs && u != t ==> !HoldsOrder(txs[u], orderId)
  }

  predicate KeyFree(txs: map<string, Tx>, t: string, user: string, keyHash: string) {
    forall u :: u in txs && u != t ==> !HoldsKey(txs[u], user, keyHash)
  }

  /** UUIDs do not repeat and are never empty. */
  predicate Unused(s: Sys, orderId: string, eventId: string) {
    && orderId != "" && eventId != ""
    && orderId !in s.world.tables.orders
    && eventId !in s.world.tables.outbox
    && forall u :: u in s.txs && s.txs[u].kind.Placing? ==>
         s.txs[u].kind.order.id != orderId && s.txs[u].kind.eventId != eventId
  }

  predicate Running(s: Sys, t: string) { t in s.txs && s.txs[t].phase.Active? }

  /** The transaction's next statement is about inventory row `plan[next]`. */
  predicate Taking(tx: Tx) {
    tx.phase.Active? && tx.next < |tx.plan| && (tx.kind.Placing? <==> !tx.guarded)
  }

  // ------------------------------------------------------------------ steps

  function Put(s: Sys, t: string, tx: Tx): Sys { s.(txs := s.txs[t := tx]) }

  function Fail(s: Sys, t: string, e: Error): Sys
    requires t in s.txs
  {
    Put(s, t, s.txs[t].(phase := Failed(e)))
  }

  ghost function BeginPlaceStep(s: Sys, ev: Event): Sys
    requires ev.BeginPlace?
  {
    if ev.t in s.txs || !Unused(s, ev.orderId, ev.eventId) || |ev.lines| != |ev.quotes| then s
    else
      var blank := Order(ev.orderId, ev.user, [], 0, New, ev.idem);
      match PriceAll(ev.lines, ev.quotes)
      case Err(e) => Put(s, ev.t, Tx(Placing(blank, ev.eventId), [], 0, map[], false, false, Failed(e)))
      case Ok(priced) =>
        var o := blank.(lines := priced.lines, total := priced.total);
        var phase := if Fits(ev.lines) then Active else Failed(InvalidQuantity);
        Put(s, ev.t, Tx(Placing(o, ev.eventId), OrderPlan(o), 0, map[], false, false, phase))
  }

  function BeginCancelStep(s: Sys, t: string, orderId: string, user: string): Sys {
    var orders := s.world.tables.orders;
    if t in s.txs || orderId !in orders then s
    else
      var o := orders[orderId];
      var phase :=
        if user != o.user then Failed(PermissionDenied)
        else if !Cancellable(o.status) then Failed(InvalidState)
        else Active;
      Put(s, t, Tx(Cancelling(o, user), OrderPlan(o), 0, map[], false, false, phase))
  }

  /** `UPDATE orders SET status = cancelled WHERE id, user and a cancellable status`, rechecked once free. */
  function GuardStep(s: Sys, t: string): Sys {
    if !Running(s, t) || !s.txs[t].kind.Cancelling? || s.txs[t].guarded then s
    else
      var tx := s.txs[t];
      var orders := s.world.tables.orders;
      var id := tx.kind.order.id;
      if !OrderFree(s.txs, t, id) then s
      else if id in orders && orders[id].user == tx.kind.user && Cancellable(orders[id].status) then
        if PlanFits(tx.plan) then Put(s, t, tx.(guarded := true)) else Fail(s, t, InvalidQuantity)
      else Fail(s, t, InvalidState)
  }

  function TakeStep(s: Sys, t: string): Sys {
    if !Running(s, t) || !Taking(s.txs[t]) then s
    else
      var tx := s.txs[t];
      var p, q := tx.plan[tx.next].productId, tx.plan[tx.next].quantity;
      if !RowFree(s.txs, t, p) then s
      else
        var stock := s.world.tables.stock;
        match if tx.kind.Placing? then ConsumeRow(stock, p, q) else RestockRow(stock, p, q)
        case Err(e) => Fail(s, t, e)
        case Ok(after) => Put(s, t, tx.(next := tx.next + 1, writes := tx.writes[p := StockOf(after, p)]))
  }

  function InsertStep(s: Sys, t: string): Sys {
    if !Running(s, t) || !s.txs[t].kind.Placing? || s.txs[t].guarded || s.txs[t].next != |s.txs[t].plan| then s
    else
      var tx := s.txs[t];
      var o := tx.kind.order;
      if o.idem.Some? && !KeyFree(s.txs, t, o.user, o.idem.value.keyHash) then s
      else
        match InsertOrder(s.world.tables.orders, o)
        case Err(e) => Fail(s, t, e)
        case Ok(_) => Put(s, t, tx.(guarded := true))
  }

  function RecordStep(s: Sys, t: string): Sys {
    if !Running(s, t) || !s.txs[t].kind.Placing? || !s.txs[t].guarded then s
    else Put(s, t, s.txs[t].(recorded := true))
  }

  predicate ReadyToCommit(s: Sys, t: string) {
    && Running(s, t)
    && var tx := s.txs[t];
       if tx.kind.Placing? then tx.recorded else tx.guarded && tx.next == |tx.plan|
  }

  /** The buffered writes, applied: inventory rows, then the order row, then the outbox row. */
  function Applied(tables: Tables, tx: Tx): Tables {
    match tx.kind
    case Placing(o, eventId) =>
      Tables(tables.orders[o.id := o], tables.stock + tx.writes, tables.outbox[eventId := CreatedEvent(o)])
    case Cancelling(o, _) =>
      if o.id !in tables.orders then tables
      else
        tables.(orders := tables.orders[o.id := tables.orders[o.id].(status := Cancelled)],
                stock := tables.stock + tx.writes)
  }

  function CommitStep(s: Sys, t: string): Sys {
    if !ReadyToCommit(s, t) then s
    else
      Sys(World(Applied(s.world.tables, s.txs[t]), s.world.supplied), s.txs[t := s.txs[t].(phase := Committed)])
  }

  function AdminStep(s: Sys, p: string, op: Op): Sys {
    if Unlocked(s.txs, p) && Admissible(s.world.tables, op) then s.(world := Step(s.world, op)) else s
  }

  ghost function Apply(s: Sys, ev: Event): Sys {
    match ev
    case BeginPlace(_, _, _, _, _, _, _) => BeginPlaceStep(s, ev)
    case BeginCancel(t, orderId, user) => BeginCancelStep(s, t, orderId, user)
    case Guard(t) => GuardStep(s, t)
    case Take(t) => TakeStep(s, t)
    case Insert(t) => InsertStep(s, t)
    case Record(t) => RecordStep(s, t)
    case Commit(t) => CommitStep(s, t)
    case Abort(t, e) => if Running(s, t) then Fail(s, t, e) else s
    case AdminSet(p, q) => AdminStep(s, p, SetTo(p, q))
    case AdminAdjust(p, delta) => AdminStep(s, p, Adjust(p, delta))
  }

  ghost function Run(s: Sys, events: seq<Event>): Sys {
    if events == [] then s else Apply(Run(s, events[..|events| - 1]), events[|events| - 1])
  }

  // ------------------------------------------------------------------ invariant

  /** The inventory rows an active transaction has taken, against the committed rows. */
  predicate Took(tables: Tables, tx: Tx, i: nat)
    requires i < |tx.plan|
  {
    var p, q := tx.plan[i].productId, tx.plan[i].quantity;
    && q > 0
    && p in tx.writes
    && if tx.kind.Placing? then p in tables.stock && tables.stock[p] >= q && tx.writes[p] == tables.stock[p] - q
       else tx.writes[p] == StockOf(tables.stock, p) + q <= MAX_INT64
  }

  predicate RowsOk(tables: Tables, tx: Tx) {
    && tx.next <= |tx.plan|
    && Ascending(tx.plan)
    && tx.plan == OrderPlan(tx.kind.order)
    && (forall i :: 0 <= i < tx.next ==> Took(tables, tx, i))
    && (forall p :: p in tx.writes ==> Covers(tx.plan[..tx.next], p))
  }

  predicate PlacingOk(tables: Tables, tx: Tx)
    requires tx.kind.Placing?
  {
    var o := tx.kind.order;
    && o.id != "" && tx.kind.eventId != ""
    && o.id !in tables.orders
    && tx.kind.eventId !in tables.outbox
    && o.status == New
    && AddsUp(o)
    && (tx.recorded ==> tx.guarded)
    && (tx.guarded ==> tx.next == |tx.plan|)
    && (tx.guarded && o.idem.Some? ==> !KeyTaken(tables.orders, o.user, o.idem.value.keyHash))
  }

  predicate CancellingOk(tables: Tables, tx: Tx)
    requires tx.kind.Cancelling?
  {
    var o := tx.kind.order;
    && o.id in tables.orders
    && SameOrder(tables.orders[o.id], o)
    && o.user == tx.kind.user
    && (tx.guarded ==> Cancellable(tables.orders[o.id].status))
    && (!tx.guarded ==> tx.next == 0)
  }

  /** Equal but for the status. */
  predicate SameOrder(a: Order, b: Order) { a.(status := New) == b.(status := New) }

  predicate TxOk(tables: Tables, tx: Tx) {
    match tx.phase
    case Active => RowsOk(tables, tx) && if tx.kind.Placing? then PlacingOk(tables, tx) else CancellingOk(tables, tx)
    case Committed => tx.kind.order.id in tables.orders && SameOrder(tables.orders[tx.kind.order.id], tx.kind.order)
    case Failed(_) => true
  }

  /** No two active transactions hold the same row, key, order or identifier. */
  predicate Apart(a: Tx, b: Tx) {
    a.phase.Active? && b.phase.Active? ==>
      && a.writes.Keys !! b.writes.Keys
      && (a.kind.Placing? && b.kind.Placing? ==>
            a.kind.order.id != b.kind.order.id && a.kind.eventId != b.kind.eventId)
      && (a.kind.Placing? && b.kind.Placing? && a.guarded && b.guarded ==> !SameKey(a.kind.order, b.kind.order))
      && (a.kind.Cancelling? && b.kind.Cancelling? && a.guarded && b.guarded ==> a.kind.order.id != b.kind.order.id)
  }

  predicate TxsOk(s: Sys) {
    forall t :: t in s.txs ==> TxOk(s.world.tables, s.txs[t])
  }

  predicate AllApart(s: Sys) {
    forall t, u :: t in s.txs && u in s.txs && t != u ==> Apart(s.txs[t], s.txs[u])
  }

  ghost predicate Inv(s: Sys) {
    && Sound(s.world.tables)
    && Conserved(s.world.tables, s.world.supplied)
    && TxsOk(s)
    && AllApart(s)
  }

  // ------------------------------------------------------------------ steps that touch one transaction

  /** Replacing one transaction keeps the invariant when the new state is fine and apart from the rest. */
  lemma PutKeeps(s: Sys, t: string, tx: Tx)
    requires Inv(s) && TxOk(s.world.tables, tx)
    requires forall u :: u in s.txs && u != t ==> Apart(tx, s.txs[u]) && Apart(s.txs[u], tx)
    ensures Inv(Put(s, t, tx))
  {
  }

  lemma FailKeeps(s: Sys, t: string, e: Error)
    requires Inv(s) && t in s.txs
    ensures Inv(Fail(s, t, e))
  {
    PutKeeps(s, t, s.txs[t].(phase := Failed(e)));
  }

  /** A placement that begins has written nothing; priced and planned, it is consistent. */
  lemma NewPlacement(s: Sys, ev: Event, tx: Tx)
    requires ev.BeginPlace? && ev.t !in s.txs && Unused(s, ev.orderId, ev.eventId) && |ev.lines| == |ev.quotes|
    requires tx == BeginPlaceStep(s, ev).txs[ev.t]
    ensures BeginPlaceStep(s, ev) == Put(s, ev.t, tx)
    ensures tx.kind.Placing? && tx.kind.order.id == ev.orderId && tx.kind.eventId == ev.eventId
    ensures tx.writes == map[] && !tx.guarded
    ensures TxOk(s.world.tables, tx)
  {
    if tx.phase.Active? {
      PricedAddsUp(ev.lines, ev.quotes);
      PlanOfIsPlan(LinesOf(tx.kind.order.lines));
    }
  }

  lemma NewIsApart(tx: Tx, other: Tx)
    requires tx.kind.Placing? && tx.writes == map[] && !tx.guarded
    requires other.kind.Placing? ==> other.kind.order.id != tx.kind.order.id && other.kind.eventId != tx.kind.eventId
    ensures Apart(tx, other) && Apart(other, tx)
  {
  }

  lemma BeginPlaceKeeps(s: Sys, ev: Event)
    requires Inv(s) && ev.BeginPlace?
    ensures Inv(BeginPlaceStep(s, ev))
  {
    if ev.t !in s.txs && Unused(s, ev.orderId, ev.eventId) && |ev.lines| == |ev.quotes| {
      var tx := BeginPlaceStep(s, ev).txs[ev.t];
      NewPlacement(s, ev, tx);
      forall u | u in s.txs && u != ev.t ensures Apart(tx, s.txs[u]) && Apart(s.txs[u], tx) {
        NewIsApart(tx, s.txs[u]);
      }
      PutKeeps(s, ev.t, tx);
    }
  }

  lemma BeginCancelKeeps(s: Sys, t: string, orderId: string, user: string)
    requires Inv(s)
    ensures Inv(BeginCancelStep(s, t, orderId, user))
  {
    if t !in s.txs && orderId in s.world.tables.orders {
      var tx := BeginCancelStep(s, t, orderId, user).txs[t];
      PlanOfIsPlan(LinesOf(tx.kind.order.lines));
      PutKeeps(s, t, tx);
    }
  }

  lemma GuardKeeps(s: Sys, t: string)
    requires Inv(s)
    ensures Inv(GuardStep(s, t))
  {
    if Running(s, t) && s.txs[t].kind.Cancelling? && !s.txs[t].guarded && OrderFree(s.txs, t, s.txs[t].kind.order.id) {
      var tx := s.txs[t];
      var o := s.world.tables.orders[tx.kind.order.id];
      if o.user == tx.kind.user && Cancellable(o.status) && !PlanFits(tx.plan) {
        FailKeeps(s, t, InvalidQuantity);
      } else if o.user == tx.kind.user && Cancellable(o.status) {
        forall u | u in s.txs && u != t ensures Apart(tx.(guarded := true), s.txs[u])
            && Apart(s.txs[u], tx.(guarded := true)) {
          assert !HoldsOrder(s.txs[u], tx.kind.order.id);
          assert Apart(tx, s.txs[u]) && Apart(s.txs[u], tx);
        }
        PutKeeps(s, t, tx.(guarded := true));
      } else {
        FailKeeps(s, t, InvalidState);
      }
    }
  }

  lemma TakenRowsOk(tables: Tables, tx: Tx, after: map<string, int>)
    requires RowsOk(tables, tx) && Taking(tx)
    requires StockInRange(tables.stock)
    requires var p, q := tx.plan[tx.next].productId, tx.plan[tx.next].quantity;
             (if tx.kind.Placing? then ConsumeRow(tables.stock, p, q) else RestockRow(tables.stock, p, q)) == Ok(after)
    ensures var p := tx.plan[tx.next].productId;
            RowsOk(tables, tx.(next := tx.next + 1, writes := tx.writes[p := StockOf(after, p)]))
  {
    var p := tx.plan[tx.next].productId;
    var more := tx.(next := tx.next + 1, writes := tx.writes[p := StockOf(after, p)]);
    AscendingIsDistinct(tx.plan);
    forall i | 0 <= i < more.next ensures Took(tables, more, i) {
      if i < tx.next { assert Took(tables, tx, i); }
    }
    forall x | x in more.writes ensures Covers(more.plan[..more.next], x) {
      if x == p {
        assert more.plan[..more.next][tx.next].productId == x;
      } else {
        var k :| 0 <= k < tx.next && tx.plan[..tx.next][k].productId == x;
        assert more.plan[..more.next][k].productId == x;
      }
    }
  }

  lemma TakeKeeps(s: Sys, t: string)
    requires Inv(s)
    ensures Inv(TakeStep(s, t))
  {
    if Running(s, t) && Taking(s.txs[t]) && RowFree(s.txs, t, s.txs[t].plan[s.txs[t].next].productId) {
      var tx := s.txs[t];
      var p, q := tx.plan[tx.next].productId, tx.plan[tx.next].quantity;
      var stock := s.world.tables.stock;
      match if tx.kind.Placing? then ConsumeRow(stock, p, q) else RestockRow(stock, p, q)
      case Err(e) => FailKeeps(s, t, e);
      case Ok(after) =>
        var more := tx.(next := tx.next + 1, writes := tx.writes[p := StockOf(after, p)]);
        TakenRowsOk(s.world.tables, tx, after);
        forall u | u in s.txs && u != t ensures Apart(more, s.txs[u]) && Apart(s.txs[u], more) {
          TakenApart(tx, s.txs[u], p, tx.next + 1, StockOf(after, p));
        }
        PutKeeps(s, t, more);
    }
  }

  lemma TakenApart(tx: Tx, other: Tx, p: string, next: nat, x: int)
    requires tx.phase.Active? && Apart(tx, other) && Apart(other, tx) && !HoldsRow(other, p)
    ensures var more := tx.(next := next, writes := tx.writes[p := x]); Apart(more, other) && Apart(other, more)
  {
  }

  lemma FlagsKeepRows(tables: Tables, tx: Tx, guarded: bool, recorded: bool)
    requires RowsOk(tables, tx)
    ensures RowsOk(tables, tx.(guarded := guarded, recorded := recorded))
  {
    forall i | 0 <= i < tx.next ensures Took(tables, tx.(guarded := guarded, recorded := recorded), i) {
      assert Took(tables, tx, i);
    }
  }

  lemma InsertKeeps(s: Sys, t: string)
    requires Inv(s)
    ensures Inv(InsertStep(s, t))
  {
    if Running(s, t) && s.txs[t].kind.Placing? && !s.txs[t].guarded && s.txs[t].next == |s.txs[t].plan| {
      var tx := s.txs[t];
      var o := tx.kind.order;
      if !o.idem.Some? || KeyFree(s.txs, t, o.user, o.idem.value.keyHash) {
        match InsertOrder(s.world.tables.orders, o)
        case Err(e) => FailKeeps(s, t, e);
        case Ok(_) =>
          var held := tx.(guarded := true);
          forall u | u in s.txs && u != t ensures Apart(held, s.txs[u]) && Apart(s.txs[u], held) {
            assert o.idem.Some? ==> !HoldsKey(s.txs[u], o.user, o.idem.value.keyHash);
            assert Apart(tx, s.txs[u]) && Apart(s.txs[u], tx);
          }
          FlagsKeepRows(s.world.tables, tx, true, tx.recorded);
          PutKeeps(s, t, held);
      }
    }
  }

  lemma RecordKeeps(s: Sys, t: string)
    requires Inv(s)
    ensures Inv(RecordStep(s, t))
  {
    if Running(s, t) && s.txs[t].kind.Placing? && s.txs[t].guarded {
      var tx := s.txs[t].(recorded := true);
      forall u | u in s.txs && u != t ensures Apart(tx, s.txs[u]) && Apart(s.txs[u], tx) {
        assert Apart(s.txs[t], s.txs[u]) && Apart(s.txs[u], s.txs[t]);
      }
      FlagsKeepRows(s.world.tables, s.txs[t], true, true);
      PutKeeps(s, t, tx);
    }
  }

  // ------------------------------------------------------------------ commit

  /** A transaction that took its whole plan wrote exactly what the plan asks of the committed stock. */
  lemma PlannedWrite(tables: Tables, tx: Tx, p: string)
    requires RowsOk(tables, tx) && tx.next == |tx.plan|
    ensures p in tx.writes <==> Covers(tx.plan, p)
    ensures p in tx.writes ==>
              if tx.kind.Placing? then p in tables.stock && tx.writes[p] == tables.stock[p] - QuantityIn(tx.plan, p)
              else tx.writes[p] == StockOf(tables.stock, p) + QuantityIn(tx.plan, p)
    ensures p !in tx.writes ==> QuantityIn(tx.plan, p) == 0
  {
    assert tx.plan[..tx.next] == tx.plan;
    if Covers(tx.plan, p) {
      var i :| 0 <= i < |tx.plan| && tx.plan[i].productId == p;
      assert Took(tables, tx, i);
      QuantityAt(tx.plan, i);
    } else {
      QuantityNone(tx.plan, p);
    }
  }

  /** Committing a placement is running it atomically at the moment of the commit. */
  lemma CommitIsPlace(tables: Tables, tx: Tx)
    requires Sound(tables) && tx.phase.Active? && tx.kind.Placing? && TxOk(tables, tx) && tx.recorded
    ensures PlaceTx(tables, tx.kind.order, tx.kind.eventId) == Ok(Applied(tables, tx))
  {
    var plan := tx.plan;
    AscendingIsDistinct(plan);
    forall i | 0 <= i < |plan|
      ensures plan[i].quantity > 0 && plan[i].productId in tables.stock
          && tables.stock[plan[i].productId] >= plan[i].quantity
    {
      assert Took(tables, tx, i);
    }
    ConsumeAllRows(tables.stock, plan);
    var stock := ConsumeAll(tables.stock, plan).value;
    assert stock == tables.stock + tx.writes by {
      forall p ensures p in stock <==> p in tables.stock + tx.writes { PlannedWrite(tables, tx, p); }
      forall p | p in stock ensures stock[p] == (tables.stock + tx.writes)[p] { PlannedWrite(tables, tx, p); }
    }
  }

  lemma RestockIsApplied(tables: Tables, tx: Tx, stock: map<string, int>)
    requires RowsOk(tables, tx) && tx.next == |tx.plan| && tx.kind.Cancelling?
    requires forall p :: Restocked(tables.stock, stock, tx.plan, p)
    ensures stock == tables.stock + tx.writes
  {
    forall p ensures p in stock <==> p in tables.stock + tx.writes {
      assert Restocked(tables.stock, stock, tx.plan, p);
      PlannedWrite(tables, tx, p);
    }
    forall p | p in stock ensures stock[p] == (tables.stock + tx.writes)[p] {
      assert Restocked(tables.stock, stock, tx.plan, p);
      PlannedWrite(tables, tx, p);
    }
  }

  lemma TakenIsRestock(tables: Tables, tx: Tx)
    requires RowsOk(tables, tx) && tx.next == |tx.plan| && tx.kind.Cancelling? && StockInRange(tables.stock)
    ensures PlanFits(tx.plan)
    ensures var r := RestockAll(tables.stock, tx.plan); r.Ok? && r.value == tables.stock + tx.writes
  {
    var plan := tx.plan;
    AscendingIsDistinct(plan);
    forall i | 0 <= i < |plan|
      ensures plan[i].quantity > 0 && StockOf(tables.stock, plan[i].productId) + plan[i].quantity <= MAX_INT64
    {
      assert Took(tables, tx, i);
    }
    RestockAllRows(tables.stock, plan);
    RestockIsApplied(tables, tx, RestockAll(tables.stock, plan).value);
  }

  /** Committing a cancellation is running it atomically at the moment of the commit. */
  lemma CommitIsCancel(tables: Tables, tx: Tx)
    requires Sound(tables) && tx.phase.Active? && tx.kind.Cancelling? && TxOk(tables, tx)
    requires tx.guarded && tx.next == |tx.plan|
    ensures CancelTx(tables, tx.kind.order.id, tx.kind.user) == Ok(Applied(tables, tx))
  {
    var o := tables.orders[tx.kind.order.id];
    assert o.lines == tx.kind.order.lines;
    TakenIsRestock(tables, tx);
  }

  /** A commit of one transaction leaves every other one as consistent as it was. */
  lemma OthersUnaffected(tables: Tables, tx: Tx, other: Tx)
    requires Sound(tables) && tx.phase.Active? && TxOk(tables, tx) && TxOk(tables, other)
    requires Apart(tx, other)
    requires if tx.kind.Placing? then tx.recorded else tx.guarded && tx.next == |tx.plan|
    ensures TxOk(Applied(tables, tx), other)
  {
    if other.phase.Active? {
      OtherRows(tables, Applied(tables, tx), other, tx.writes);
      if other.kind.Placing? { OtherPlacement(tables, tx, other); }
    }
  }

  /** Writes to other rows do not matter to what a transaction took. */
  lemma OtherRows(tables: Tables, after: Tables, other: Tx, writes: map<string, int>)
    requires RowsOk(tables, other) && other.writes.Keys !! writes.Keys
    requires after.stock == tables.stock + writes
    ensures RowsOk(after, other)
  {
    forall i | 0 <= i < other.next ensures Took(after, other, i) {
      assert Took(tables, other, i);
      assert other.plan[i].productId !in writes;
    }
  }

  lemma OtherPlacement(tables: Tables, tx: Tx, other: Tx)
    requires Sound(tables) && tx.phase.Active? && TxOk(tables, tx) && TxOk(tables, other)
    requires other.phase.Active? && other.kind.Placing? && Apart(tx, other)
    requires if tx.kind.Placing? then tx.recorded else tx.guarded && tx.next == |tx.plan|
    ensures PlacingOk(Applied(tables, tx), other)
  {
    var after := Applied(tables, tx);
    var o := other.kind.order;
    if other.guarded && o.idem.Some? {
      var user, keyHash := o.user, o.idem.value.keyHash;
      forall id | id in after.orders ensures !HasKey(after.orders[id], user, keyHash) {
        if id == tx.kind.order.id && tx.kind.Placing? {
          assert HasKey(tx.kind.order, user, keyHash) ==> SameKey(tx.kind.order, o);
        } else {
          assert HasKey(tables.orders[id], user, keyHash) ==> KeyTaken(tables.orders, user, keyHash);
        }
      }
    }
  }

  function OpOf(tx: Tx): Op {
    match tx.kind
    case Placing(o, eventId) => Place(o, eventId)
    case Cancelling(o, user) => Cancel(o.id, user)
  }

  lemma CommitIsStep(s: Sys, t: string)
    requires Inv(s) && ReadyToCommit(s, t)
    ensures Admissible(s.world.tables, OpOf(s.txs[t]))
    ensures Atomic(s.world.tables, OpOf(s.txs[t])).Ok?
    ensures CommitStep(s, t).world == Step(s.world, OpOf(s.txs[t]))
  {
    if s.txs[t].kind.Placing? { CommitIsPlace(s.world.tables, s.txs[t]); } else {
        CommitIsCancel(s.world.tables, s.txs[t]); }
  }

  lemma CommitKeeps(s: Sys, t: string)
    requires Inv(s)
    ensures Inv(CommitStep(s, t))
  {
    if ReadyToCommit(s, t) {
      CommitIsStep(s, t);
      StepKeeps(s.world, OpOf(s.txs[t]));
      CommitKeepsTxs(s, t);
      CommitKeepsApart(s, t);
    }
  }

  lemma CommitKeepsApart(s: Sys, t: string)
    requires AllApart(s) && ReadyToCommit(s, t)
    ensures AllApart(CommitStep(s, t))
  {
    var after := CommitStep(s, t);
    forall u, v | u in after.txs && v in after.txs && u != v ensures Apart(after.txs[u], after.txs[v]) {
      assert Apart(s.txs[u], s.txs[v]);
    }
  }

  lemma CommitKeepsTxs(s: Sys, t: string)
    requires Sound(s.world.tables) && TxsOk(s) && AllApart(s) && ReadyToCommit(s, t)
    ensures TxsOk(CommitStep(s, t))
  {
    var after := CommitStep(s, t);
    forall u | u in after.txs ensures TxOk(after.world.tables, after.txs[u]) {
      if u != t {
        assert Apart(s.txs[t], s.txs[u]);
        OthersUnaffected(s.world.tables, s.txs[t], s.txs[u]);
      }
    }
  }

  // ------------------------------------------------------------------ administration

  /** Tables that differ in one inventory row at most. */
  ghost predicate SameButRow(a: Tables, b: Tables, p: string) {
    && b.orders == a.orders && b.outbox == a.outbox
    && forall x :: x != p ==> (x in a.stock <==> x in b.stock) && (x in a.stock ==> a.stock[x] == b.stock[x])
  }

  lemma AdminFrame(w: World, op: Op, p: string)
    requires op == SetTo(p, if op.SetTo? then op.quantity else 0) || op == Adjust(p, if op.Adjust? then op.delta else 0)
    ensures SameButRow(w.tables, Step(w, op).tables, p)
  {
  }

  lemma OtherRowChanges(a: Tables, b: Tables, tx: Tx, p: string)
    requires SameButRow(a, b, p) && TxOk(a, tx) && !HoldsRow(tx, p)
    ensures TxOk(b, tx)
  {
    if tx.phase.Active? {
      forall i | 0 <= i < tx.next ensures Took(b, tx, i) { assert Took(a, tx, i); }
    }
  }

  lemma AdminKeeps(s: Sys, p: string, op: Op)
    requires Inv(s)
    requires op == SetTo(p, if op.SetTo? then op.quantity else 0) || op == Adjust(p, if op.Adjust? then op.delta else 0)
    ensures Inv(AdminStep(s, p, op))
  {
    if Unlocked(s.txs, p) && Admissible(s.world.tables, op) {
      StepKeeps(s.world, op);
      AdminFrame(s.world, op, p);
      var after := Step(s.world, op);
      assert AdminStep(s, p, op) == s.(world := after);
      forall u | u in s.txs ensures TxOk(after.tables, s.txs[u]) {
        assert TxOk(s.world.tables, s.txs[u]) && !HoldsRow(s.txs[u], p);
        OtherRowChanges(s.world.tables, after.tables, s.txs[u], p);
      }
    }
  }

  lemma ApplyKeeps(s: Sys, ev: Event)
    requires Inv(s)
    ensures Inv(Apply(s, ev))
  {
    match ev
    case BeginPlace(_, _, _, _, _, _, _) => BeginPlaceKeeps(s, ev);
    case BeginCancel(t, orderId, user) => BeginCancelKeeps(s, t, orderId, user);
    case Guard(t) => GuardKeeps(s, t);
    case Take(t) => TakeKeeps(s, t);
    case Insert(t) => InsertKeeps(s, t);
    case Record(t) => RecordKeeps(s, t);
    case Commit(t) => CommitKeeps(s, t);
    case Abort(t, e) => if Running(s, t) { FailKeeps(s, t, e); }
    case AdminSet(p, q) => AdminKeeps(s, p, SetTo(p, q));
    case AdminAdjust(p, delta) => AdminKeeps(s, p, Adjust(p, delta));
  }

  // ------------------------------------------------------------------ theorems over every run

  /** The operation an event makes visible, if it makes one visible. */
  function Effect(s: Sys, ev: Event): Option<Op> {
    match ev
    case Commit(t) => if ReadyToCommit(s, t) then Some(OpOf(s.txs[t])) else None
    case AdminSet(p, q) =>
      if Unlocked(s.txs, p) && Admissible(s.world.tables, SetTo(p, q)) then Some(SetTo(p, q)) else None
    case AdminAdjust(p, delta) => if Unlocked(s.txs, p) then Some(Adjust(p, delta)) else None
    case _ => None
  }

  /** The serial history of a run: visible operations in the order of their commits. */
  ghost function History(s: Sys, events: seq<Event>): seq<Op> {
    if events == [] then []
    else
      var front := events[..|events| - 1];
      match Effect(Run(s, front), events[|events| - 1])
      case None => History(s, front)
      case Some(op) => History(s, front) + [op]
  }

  lemma {:induction false} RunKeeps(s: Sys, events: seq<Event>)
    requires Inv(s)
    ensures Inv(Run(s, events))
    decreases |events|
  {
    if events != [] {
      RunKeeps(s, events[..|events| - 1]);
      ApplyKeeps(Run(s, events[..|events| - 1]), events[|events| - 1]);
    }
  }

  /** An event either leaves the committed world alone or performs exactly its visible operation. */
  lemma EffectIsStep(s: Sys, ev: Event)
    requires Inv(s)
    ensures Effect(s, ev).None? ==> Apply(s, ev).world == s.world
    ensures Effect(s, ev).Some? ==>
              && Apply(s, ev).world == Step(s.world, Effect(s, ev).value)
              && Admissible(s.world.tables, Effect(s, ev).value)
  {
    if ev.Commit? && ReadyToCommit(s, ev.t) { CommitIsStep(s, ev.t); }
  }

  lemma AdmissibleSnoc(w: World, ops: seq<Op>, op: Op)
    requires AllAdmissible(w, ops) && Admissible(Serial(w, ops).tables, op)
    ensures AllAdmissible(w, ops + [op]) && Serial(w, ops + [op]) == Step(Serial(w, ops), op)
  {
    var more := ops + [op];
    assert more[..|ops|] == ops;
    forall i | 0 <= i < |more| ensures Admissible(Serial(w, more[..i]).tables, more[i]) {
      if i < |ops| { assert more[..i] == ops[..i]; }
    }
  }

  /**
   Serializability: whatever the interleaving, the committed database and the supply ledger are those
   of running the visible operations one at a time, atomically, in commit order. Everything failed,
   aborted or unfinished left no trace.
   */
  lemma {:induction false} Serializable(s: Sys, events: seq<Event>)
    requires Inv(s)
    ensures Run(s, events).world == Serial(s.world, History(s, events))
    ensures AllAdmissible(s.world, History(s, events))
    decreases |events|
  {
    if events != [] {
      var front, ev := events[..|events| - 1], events[|events| - 1];
      Serializable(s, front);
      RunKeeps(s, front);
      var mid := Run(s, front);
      EffectIsStep(mid, ev);
      if Effect(mid, ev).Some? { AdmissibleSnoc(s.world, History(s, front), Effect(mid, ev).value); }
    }
  }

  /**
   Conservation over every schedule: for each product, stock plus units in live orders equals what
   administrators supplied, and stock is never negative.
   */
  lemma UnitsConserved(s: Sys, events: seq<Event>, p: string)
    requires Inv(s)
    ensures var w := Run(s, events).world;
            && StockOf(w.tables.stock, p) >= 0
            && StockOf(w.tables.stock, p) + ActiveUnits(w.tables.orders, p) == Supplied(w.supplied, p)
  {
    RunKeeps(s, events);
    assert Balanced(Run(s, events).world.tables, Run(s, events).world.supplied, p);
  }

  /** Orders are never lost or rewritten by any schedule. */
  lemma OrdersPreserved(s: Sys, events: seq<Event>)
    requires Inv(s)
    ensures Preserves(s.world.tables.orders, Run(s, events).world.tables.orders)
  {
    Serializable(s, events);
    SerialPreserves(s.world, History(s, events));
  }

  /** Two committed orders of one user never carry the same idempotency key. */
  lemma OneOrderPerKey(s: Sys, events: seq<Event>, a: string, b: string)
    requires Inv(s)
    requires var orders := Run(s, events).world.tables.orders;
             a in orders && b in orders && SameKey(orders[a], orders[b])
    ensures a == b
  {
    RunKeeps(s, events);
  }

  predicate Remembers(a: Tables, b: Tables) { Preserves(a.orders, b.orders) && a.outbox.Keys <= b.outbox.Keys }

  lemma {:induction false} ChainRemembers(states: seq<Tables>, i: nat, j: nat)
    requires i <= j < |states|
    requires forall k :: 0 < k < |states| ==> Remembers(states[k - 1], states[k])
    ensures Remembers(states[i], states[j])
    decreases j
  {
    if i < j {
      ChainRemembers(states, i, j - 1);
      assert Remembers(states[j - 1], states[j]);
    }
  }

  /** Between two points of a serial history nothing is forgotten. */
  lemma HistoryPreserves(w: World, ops: seq<Op>, i: nat, j: nat)
    requires AllAdmissible(w, ops) && i <= j <= |ops|
    ensures Preserves(Serial(w, ops[..i]).tables.orders, Serial(w, ops[..j]).tables.orders)
    ensures Serial(w, ops[..i]).tables.outbox.Keys <= Serial(w, ops[..j]).tables.outbox.Keys
  {
    var states := seq(|ops| + 1, k requires 0 <= k <= |ops| => Serial(w, ops[..k]).tables);
    forall k | 0 < k < |states| ensures Remembers(states[k - 1], states[k]) { StepAtRemembers(w, ops, k); }
    ChainRemembers(states, i, j);
  }

  lemma StepAtRemembers(w: World, ops: seq<Op>, j: nat)
    requires AllAdmissible(w, ops) && 0 < j <= |ops|
    ensures Remembers(Serial(w, ops[..j - 1]).tables, Serial(w, ops[..j]).tables)
  {
    assert ops[..j][..j - 1] == ops[..j - 1];
    assert Serial(w, ops[..j]) == Step(Serial(w, ops[..j - 1]), ops[j - 1]);
    StepPreserves(Serial(w, ops[..j - 1]), ops[j - 1]);
  }

  lemma StepPreserves(w: World, op: Op)
    requires Admissible(w.tables, op)
    ensures Preserves(w.tables.orders, Step(w, op).tables.orders)
    ensures w.tables.outbox.Keys <= Step(w, op).tables.outbox.Keys
  {
  }

  /** Among cancellations of one order that are visible in a run, there is at most one. */
  lemma CancelledAtMostOnce(w: World, ops: seq<Op>, i: nat, j: nat)
    requires AllAdmissible(w, ops) && i < j < |ops|
    requires ops[i].Cancel? && ops[j].Cancel? && ops[i].orderId == ops[j].orderId
    requires Atomic(Serial(w, ops[..i]).tables, ops[i]).Ok?
    ensures Atomic(Serial(w, ops[..j]).tables, ops[j]).Err?
  {
    assert ops[..i + 1][..i] == ops[..i];
    CancelMarks(Serial(w, ops[..i]), ops[i].orderId, ops[i].user);
    HistoryPreserves(w, ops, i + 1, j);
  }

  lemma CancelMarks(w: World, orderId: string, user: string)
    requires CancelTx(w.tables, orderId, user).Ok?
    ensures var orders := Step(w, Cancel(orderId, user)).tables.orders;
            orderId in orders && orders[orderId].status == Cancelled
  {
  }

  /** Every visible cancellation took effect, so in any run an order's units return exactly once. */
  lemma {:induction false} VisibleMeansApplied(s: Sys, events: seq<Event>, i: nat)
    requires Inv(s) && i < |History(s, events)|
    requires History(s, events)[i].Place? || History(s, events)[i].Cancel?
    ensures Atomic(Serial(s.world, History(s, events)[..i]).tables, History(s, events)[i]).Ok?
    decreases |events|
  {
    var front, ev := events[..|events| - 1], events[|events| - 1];
    var ops := History(s, front);
    if i < |ops| {
      VisibleMeansApplied(s, front, i);
      assert History(s, events)[..i] == ops[..i];
    } else {
      RunKeeps(s, front);
      Serializable(s, front);
      assert History(s, events)[..i] == ops;
      CommitIsStep(Run(s, front), ev.t);
    }
  }

  lemma UnitsReturnOnce(s: Sys, events: seq<Event>, i: nat, j: nat)
    requires Inv(s) && i < j < |History(s, events)|
    requires History(s, events)[i].Cancel? && History(s, events)[j].Cancel?
    ensures History(s, events)[i].orderId != History(s, events)[j].orderId
  {
    var ops := History(s, events);
    Serializable(s, events);
    VisibleMeansApplied(s, events, i);
    VisibleMeansApplied(s, events, j);
    if ops[i].orderId == ops[j].orderId { CancelledAtMostOnce(s.world, ops, i, j); }
  }

  /** A placed order is placed by one commit only: its stock is deducted once. */
  lemma StockDeductedOnce(s: Sys, events: seq<Event>, i: nat, j: nat)
    requires Inv(s) && i < j < |History(s, events)|
    requires History(s, events)[i].Place? && History(s, events)[j].Place?
    ensures History(s, events)[i].order.id != History(s, events)[j].order.id
    ensures History(s, events)[i].eventId != History(s, events)[j].eventId
  {
    var ops := History(s, events);
    Serializable(s, events);
    VisibleMeansApplied(s, events, i);
    PlacedOnce(s.world, ops, i, j);
  }

  lemma PlacedOnce(w: World, ops: seq<Op>, i: nat, j: nat)
    requires AllAdmissible(w, ops) && i < j < |ops| && ops[i].Place? && ops[j].Place?
    requires Atomic(Serial(w, ops[..i]).tables, ops[i]).Ok?
    ensures ops[i].order.id != ops[j].order.id && ops[i].eventId != ops[j].eventId
  {
    assert ops[..i + 1][..i] == ops[..i];
    PlaceMarks(Serial(w, ops[..i]), ops[i].order, ops[i].eventId);
    HistoryPreserves(w, ops, i + 1, j);
    assert Admissible(Serial(w, ops[..j]).tables, ops[j]);
  }

  /** A visible placement is still there at the end of the history, equal but for its status. */
  lemma PlacementStays(w: World, ops: seq<Op>, i: nat)
    requires AllAdmissible(w, ops) && i < |ops| && ops[i].Place?
    requires Atomic(Serial(w, ops[..i]).tables, ops[i]).Ok?
    ensures var orders := Serial(w, ops).tables.orders;
            ops[i].order.id in orders && SameOrder(orders[ops[i].order.id], ops[i].order)
  {
    var o := ops[i].order;
    assert ops[..i + 1][..i] == ops[..i] && ops[..|ops|] == ops;
    PlaceMarks(Serial(w, ops[..i]), o, ops[i].eventId);
    HistoryPreserves(w, ops, i + 1, |ops|);
    assert Serial(w, ops[..i + 1]).tables.orders[o.id] == o;
  }

  /** An order that was not there at first is the work of one placement in the history. */
  lemma {:induction false} PlacedBySomeone(w: World, ops: seq<Op>, id: string) returns (i: nat)
    requires id in Serial(w, ops).tables.orders && id !in w.tables.orders
    ensures i < |ops| && ops[i].Place? && ops[i].order.id == id
    decreases |ops|
  {
    var front, last := ops[..|ops| - 1], ops[|ops| - 1];
    if id in Serial(w, front).tables.orders {
      i := PlacedBySomeone(w, front, id);
    } else {
      OnlyPlacingAdds(Serial(w, front), last, id);
      i := |ops| - 1;
    }
  }

  lemma OnlyPlacingAdds(w: World, op: Op, id: string)
    requires id in Step(w, op).tables.orders && id !in w.tables.orders
    ensures op.Place? && op.order.id == id
  {
  }

  lemma PlaceMarks(w: World, o: Order, eventId: string)
    requires PlaceTx(w.tables, o, eventId).Ok?
    ensures o.id in Step(w, Place(o, eventId)).tables.orders && eventId in Step(w, Place(o, eventId)).tables.outbox
    ensures Step(w, Place(o, eventId)).tables.orders[o.id] == o
  {
  }

  // ------------------------------------------------------------------ no deadlock on inventory rows

  predicate Wants(s: Sys, t: string, p: string) {
    t in s.txs && Taking(s.txs[t]) && s.txs[t].plan[s.txs[t].next].productId == p
  }

  /** t's next statement waits for an inventory row that u holds. */
  predicate WaitsFor(s: Sys, t: string, u: string) {
    && t != u
    && t in s.txs && u in s.txs
    && Taking(s.txs[t])
    && HoldsRow(s.txs[u], s.txs[t].plan[s.txs[t].next].productId)
  }

  /** Locks are taken upwards: everything held is below the row wanted next. */
  lemma HeldBelowWanted(s: Sys, t: string, held: string, wanted: string)
    requires Inv(s) && Wants(s, t, wanted) && HoldsRow(s.txs[t], held)
    ensures Less(held, wanted)
  {
    var tx := s.txs[t];
    assert TxOk(s.world.tables, tx);
    assert Covers(tx.plan[..tx.next], held);
    var i :| 0 <= i < |tx.plan[..tx.next]| && tx.plan[..tx.next][i].productId == held;
    assert tx.plan[i].productId == held;
  }

  predicate IsWaitCycle(s: Sys, cycle: seq<string>) {
    && |cycle| > 0
    && (forall i :: 0 <= i < |cycle| - 1 ==> WaitsFor(s, cycle[i], cycle[i + 1]))
    && WaitsFor(s, cycle[|cycle| - 1], cycle[0])
  }

  function Wanted(s: Sys, t: string): string {
    if t in s.txs && Taking(s.txs[t]) then s.txs[t].plan[s.txs[t].next].productId else ""
  }

  predicate WantsRow(s: Sys, t: string) { t in s.txs && Taking(s.txs[t]) }

  /** Who waits wants less than what the holder it waits for wants. */
  ghost predicate WaitsUpwards(s: Sys) {
    forall t, u :: WaitsFor(s, t, u) && WantsRow(s, u) ==> Less(Wanted(s, t), Wanted(s, u))
  }

  lemma AlwaysUpwards(s: Sys, events: seq<Event>)
    requires Inv(s)
    ensures WaitsUpwards(Run(s, events))
  {
    RunKeeps(s, events);
    var r := Run(s, events);
    forall t, u | WaitsFor(r, t, u) && WantsRow(r, u) ensures Less(Wanted(r, t), Wanted(r, u)) {
      HeldBelowWanted(r, u, Wanted(r, t), Wanted(r, u));
    }
  }

  lemma {:induction false} WantedIncreases(s: Sys, chain: seq<string>, k: nat)
    requires WaitsUpwards(s) && 0 < k < |chain|
    requires forall i :: 0 <= i < |chain| - 1 ==> WaitsFor(s, chain[i], chain[i + 1])
    requires WantsRow(s, chain[|chain| - 1])
    ensures Less(Wanted(s, chain[0]), Wanted(s, chain[k]))
    decreases k
  {
    assert WaitsFor(s, chain[k - 1], chain[k]);
    assert WantsRow(s, chain[k]) by { if k < |chain| - 1 { assert WaitsFor(s, chain[k], chain[k + 1]); } }
    if k > 1 {
      WantedIncreases(s, chain, k - 1);
      LessTransitive(Wanted(s, chain[0]), Wanted(s, chain[k - 1]), Wanted(s, chain[k]));
    }
  }

  /** The wait-for relation on inventory rows is acyclic in every reachable state. */
  lemma NoWaitCycle(s: Sys, events: seq<Event>, cycle: seq<string>)
    requires Inv(s)
    ensures !IsWaitCycle(Run(s, events), cycle)
  {
    AlwaysUpwards(s, events);
    var r := Run(s, events);
    if IsWaitCycle(r, cycle) {
      var n := |cycle| - 1;
      assert WaitsFor(r, cycle[n], cycle[0]);
      if n > 0 {
        assert WaitsFor(r, cycle[0], cycle[1]);
        WantedIncreases(r, cycle, n);
        LessTransitive(Wanted(r, cycle[0]), Wanted(r, cycle[n]), Wanted(r, cycle[0]));
        LessIrreflexive(Wanted(r, cycle[0]));
      }
    }
  }

  predicate Blocked(s: Sys, t: string) { exists u :: u in s.txs && WaitsFor(s, t, u) }

  predicate HoldsSome(tx: Tx) { exists p :: p in tx.writes && HoldsRow(tx, p) }

  /** A chain of waits that starts at t and ends at a transaction that holds a row and is not blocked. */
  predicate LeadsToProgress(s: Sys, t: string, chain: seq<string>) {
    && |chain| >= 2 && chain[0] == t
    && (forall k :: 0 <= k < |chain| - 1 ==> WaitsFor(s, chain[k], chain[k + 1]))
    && var u := chain[|chain| - 1];
       u in s.txs && HoldsSome(s.txs[u]) && !Blocked(s, u)
  }

  /** Following the waits from any blocked transaction ends at one that holds a row and is not blocked. */
  lemma {:induction false} SomeHolderProceeds(s: Sys, t: string, above: set<string>) returns (chain: seq<string>)
    requires WaitsUpwards(s) && Blocked(s, t)
    requires forall v :: Blocked(s, v) && !Less(Wanted(s, v), Wanted(s, t)) ==> v in above
    ensures LeadsToProgress(s, t, chain)
    decreases |above|
  {
    var u :| u in s.txs && WaitsFor(s, t, u);
    assert HoldsRow(s.txs[u], Wanted(s, t));
    if Blocked(s, u) {
      assert WantsRow(s, u) && Less(Wanted(s, t), Wanted(s, u));
      LessIrreflexive(Wanted(s, t));
      assert t in above;
      forall v | Blocked(s, v) && !Less(Wanted(s, v), Wanted(s, u)) ensures v in above - {t} {
        if Less(Wanted(s, v), Wanted(s, t)) { LessTransitive(Wanted(s, v), Wanted(s, t), Wanted(s, u)); }
      }
      var rest := SomeHolderProceeds(s, u, above - {t});
      chain := [t] + rest;
    } else {
      chain := [t, u];
    }
  }

  /** No deadlock: whoever waits for a row waits, through a chain of waits, for a holder that can go on. */
  lemma NoDeadlock(s: Sys, events: seq<Event>, t: string) returns (chain: seq<string>)
    requires Inv(s) && Blocked(Run(s, events), t)
    ensures LeadsToProgress(Run(s, events), t, chain)
  {
    AlwaysUpwards(s, events);
    chain := SomeHolderProceeds(Run(s, events), t, Run(s, events).txs.Keys);
  }
}
