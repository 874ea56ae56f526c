/**
 The order and inventory services as the imperative code they are, over a database object whose
 fields the repositories update. Each method is proved to do exactly what the value-level
 transactions of module Tables say, or to fail with an internal error and change nothing.
 */
module OrderService {
  import opened Base
  import opened StockPlan
  import opened Tables
  import opened Ledger
  import opened Effects

  /** An internal error is reported only after a fault. */
  predicate Honest<T>(before: nat, after: nat, r: Result<T, Error>) {
    before <= after && (r.Err? && r.error == Internal ==> before < after)
  }

  /** The tables, updated in place. Any statement may fail with an internal error; `faults` counts those that did. */
  class Database {
    ghost var faults: nat
    var orders: map<string, Order>
    var stock: map<string, int>
    var outbox: map<string, Event>
    var products: map<string, Quote>

    constructor (t: Tables, products: map<string, Quote>)
      ensures View() == t && this.products == products
    {
      faults := 0;
      orders, stock, outbox := t.orders, t.stock, t.outbox;
      this.products := products;
    }

    function View(): Tables
      reads this
    {
      Tables(orders, stock, outbox)
    }

    /** A statement's infrastructure failure: a timeout, a lost connection. */
    method Fault() returns (failed: bool)
      modifies this`faults
      ensures faults == old(faults) + if failed then 1 else 0
    {
      failed := *;
      if failed { faults := faults + 1; }
    }

    /** The commit of everything since the snapshot: it holds, it is rolled back, or it holds but reports an error. */
    method Commit(snapshot: Tables) returns (outcome: Outcome)
      modifies this`orders, this`stock, this`outbox, this`faults
      ensures View() == if outcome == Lost then snapshot else old(View())
      ensures faults == old(faults) + if outcome == Fine then 0 else 1
    {
      var lost := Fault();
      var unsure := false;
      if !lost { unsure := Fault(); }
      outcome := if lost then Lost else if unsure then Unsure else Fine;
      if outcome == Lost { Restore(snapshot); }
    }

    /** The rollback of everything since the snapshot. */
    method Restore(t: Tables)
      modifies this`orders, this`stock, this`outbox
      ensures View() == t
    {
      orders, stock, outbox := t.orders, t.stock, t.outbox;
    }

    method ReadProduct(id: string) returns (r: Result<Quote, Error>)
      modifies this`faults
      ensures Honest(old(faults), faults, r)
      ensures r.Err? ==> r.error == Internal
      ensures r.Ok? ==> r.value == ProductQuote(products, id)
    {
      var failed := Fault();
      if failed { return Err(Internal); }
      r := Ok(if id in products then products[id] else Missing);
    }

    /** The guarded decrement; false when no row matched. */
    method ConsumeWhereEnough(p: string, q: int) returns (r: Result<bool, Error>)
      requires q > 0
      modifies this`stock, this`faults
      ensures Honest(old(faults), faults, r)
      ensures r.Err? ==> r.error == Internal && stock == old(stock)
      ensures r.Ok? ==> (r.value <==> ConsumeRow(old(stock), p, q).Ok?)
      ensures r.Ok? ==> stock == if r.value then ConsumeRow(old(stock), p, q).value else old(stock)
    {
      var failed := Fault();
      if failed { return Err(Internal); }
      if p in stock && stock[p] >= q {
        stock := stock[p := stock[p] - q];
        return Ok(true);
      }
      r := Ok(false);
    }

    method RestockUpsert(p: string, q: int) returns (r: Result<(), Error>)
      requires q > 0
      modifies this`stock, this`faults
      ensures Honest(old(faults), faults, r)
      ensures r == Err(Internal) || (r.Ok? <==> RestockRow(old(stock), p, q).Ok?)
      ensures r.Err? ==> r.error in {Internal, OutOfRange}
      ensures stock == if r.Ok? then RestockRow(old(stock), p, q).value else old(stock)
    {
      var failed := Fault();
      if failed { return Err(Internal); }
      var have := if p in stock then stock[p] else 0;
      if have + q > MAX_INT64 { return Err(OutOfRange); }
      stock := stock[p := have + q];
      r := Ok(());
    }

    /** The adjustment statement: an upsert for positive deltas, else a guarded update. */
    method AdjustStatement(p: string, delta: int) returns (r: Result<bool, Error>)
      modifies this`stock, this`faults
      ensures Honest(old(faults), faults, r)
      ensures r.Err? ==> r.error in {Internal, OutOfRange} && stock == old(stock)
      ensures r == Err(OutOfRange) ==> AdjustRow(old(stock), p, delta) == Err(OutOfRange)
      ensures r.Ok? ==> (r.value <==> AdjustRow(old(stock), p, delta).Ok?)
      ensures r.Ok? && !r.value ==> delta <= 0
      ensures r.Ok? ==> stock == if r.value then AdjustRow(old(stock), p, delta).value else old(stock)
    {
      var failed := Fault();
      if failed { return Err(Internal); }
      if delta > 0 {
        var have := if p in stock then stock[p] else 0;
        if have + delta > MAX_INT64 { return Err(OutOfRange); }
        stock := stock[p := have + delta];
        return Ok(true);
      }
      if p in stock && stock[p] + delta >= 0 {
        stock := stock[p := stock[p] + delta];
        return Ok(true);
      }
      r := Ok(false);
    }

    method HasInventory(p: string) returns (r: Result<(), Error>)
      modifies this`faults
      ensures Honest(old(faults), faults, r)
      ensures r == Err(Internal) || r == if p in stock then Ok(()) else Err(InventoryNotFound)
    {
      var failed := Fault();
      if failed { return Err(Internal); }
      r := if p in stock then Ok(()) else Err(InventoryNotFound);
    }

    method SaveInventory(p: string, q: int) returns (r: Result<(), Error>)
      modifies this`stock, this`faults
      ensures Honest(old(faults), faults, r)
      ensures r.Err? ==> r.error == Internal && stock == old(stock)
      ensures r.Ok? ==> stock == old(stock)[p := q]
    {
      var failed := Fault();
      if failed { return Err(Internal); }
      stock := stock[p := q];
      r := Ok(());
    }

    method CreateOrder(o: Order) returns (r: Result<(), Error>)
      modifies this`orders, this`faults
      ensures Honest(old(faults), faults, r)
      ensures r == Err(Internal) || (r.Ok? <==> InsertOrder(old(orders), o).Ok?)
      ensures r.Err? && r.error != Internal ==> InsertOrder(old(orders), o) == Err(r.error)
      ensures orders == if r.Ok? then InsertOrder(old(orders), o).value else old(orders)
    {
      var failed := Fault();
      if failed { return Err(Internal); }
      if o.idem.Some? && KeyTaken(orders, o.user, o.idem.value.keyHash) { return Err(IdempotencyDuplicate); }
      orders := orders[o.id := o];
      r := Ok(());
    }

    method FindOrder(id: string) returns (r: Result<Order, Error>)
      modifies this`faults
      ensures Honest(old(faults), faults, r)
      ensures r == Err(Internal) || r == if id in orders then Ok(orders[id]) else Err(RecordNotFound)
    {
      var failed := Fault();
      if failed { return Err(Internal); }
      r := if id in orders then Ok(orders[id]) else Err(RecordNotFound);
    }

    method FindByIdempotencyKey(user: string, keyHash: string) returns (r: Result<Order, Error>)
      modifies this`faults
      ensures Honest(old(faults), faults, r)
      ensures r.Ok? ==> exists id :: id in orders && HasKey(orders[id], user, keyHash) && r.value == orders[id]
      ensures r == Err(RecordNotFound) ==> !KeyTaken(orders, user, keyHash)
      ensures r.Err? ==> r.error in {Internal, RecordNotFound}
    {
      var failed := Fault();
      if failed { return Err(Internal); }
      if id :| id in orders && HasKey(orders[id], user, keyHash) {
        return Ok(orders[id]);
      }
      r := Err(RecordNotFound);
    }

    /** The guarded status update; no matching row is an invalid state. */
    method CancelOrderIfCancellable(id: string, user: string) returns (r: Result<(), Error>)
      modifies this`orders, this`faults
      ensures Honest(old(faults), faults, r)
      ensures r.Err? ==> orders == old(orders) && r.error in {Internal, InvalidState}
      ensures r == Err(InvalidState) ==> !(id in orders && orders[id].user == user && Cancellable(orders[id].status))
      ensures r.Ok? ==> && id in old(orders) && old(orders)[id].user == user && Cancellable(old(orders)[id].status)
                        && orders == old(orders)[id := old(orders)[id].(status := Cancelled)]
    {
      var failed := Fault();
      if failed { return Err(Internal); }
      if id in orders && orders[id].user == user && Cancellable(orders[id].status) {
        orders := orders[id := orders[id].(status := Cancelled)];
        return Ok(());
      }
      r := Err(InvalidState);
    }

    method CreatePending(id: string, e: Event) returns (r: Result<(), Error>)
      modifies this`outbox, this`faults
      ensures e.aggregateType != "" && e.aggregateId != "" && e.eventType != "" ==> Honest(old(faults), faults, r)
      ensures faults >= old(faults)
      ensures r.Err? ==> r.error == Internal && outbox == old(outbox)
      ensures r.Ok? ==> outbox == old(outbox)[id := e]
    {
      if e.aggregateType == "" || e.aggregateId == "" || e.eventType == "" { return Err(Internal); }
      var failed := Fault();
      if failed { return Err(Internal); }
      outbox := outbox[id := e];
      r := Ok(());
    }
  }

  function ProductQuote(products: map<string, Quote>, id: string): Quote {
    if id in products then products[id] else Missing
  }

  function Quotes(products: map<string, Quote>, lines: seq<Line>): (r: seq<Quote>)
    ensures |r| == |lines|
  {
    seq(|lines|, i requires 0 <= i < |lines| => ProductQuote(products, lines[i].productId))
  }

  // ------------------------------------------------------------------ inventory service

  method ConsumeStock(db: Database, p: string, q: int) returns (r: Result<(), Error>)
    modifies db`stock, db`faults
    ensures Honest(old(db.faults), db.faults, r)
    ensures r == Err(NonPositive) <==> q <= 0
    ensures r == Err(InventoryNotFound) ==> p !in old(db.stock)
    ensures r == Err(InsufficientStock) ==> p in old(db.stock) && old(db.stock)[p] < q
    ensures r.Ok? ==>
              p in old(db.stock) && 0 < q <= old(db.stock)[p] && db.stock == old(db.stock)[p := old(db.stock)[p] - q]
    ensures r == Err(Internal) || (r.Ok? <==> ConsumeRow(old(db.stock), p, q).Ok?)
    ensures r.Err? && r.error != Internal ==> ConsumeRow(old(db.stock), p, q) == Err(r.error)
    ensures db.stock == if r.Ok? then ConsumeRow(old(db.stock), p, q).value else old(db.stock)
  {
    if q <= 0 { return Err(NonPositive); }
    var consumed := db.ConsumeWhereEnough(p, q);
    if consumed.Err? { return Err(consumed.error); }
    if consumed.value { return Ok(()); }
    var found := db.HasInventory(p);
    if found.Err? { return found; }
    r := Err(InsufficientStock);
  }

  method Restock(db: Database, p: string, q: int) returns (r: Result<(), Error>)
    modifies db`stock, db`faults
    ensures Honest(old(db.faults), db.faults, r)
    ensures r == Err(Internal) || (r.Ok? <==> RestockRow(old(db.stock), p, q).Ok?)
    ensures r.Err? && r.error != Internal ==> RestockRow(old(db.stock), p, q) == Err(r.error)
    ensures db.stock == if r.Ok? then RestockRow(old(db.stock), p, q).value else old(db.stock)
  {
    if q <= 0 { return Err(NonPositive); }
    r := db.RestockUpsert(p, q);
  }

  /** An adjustment either applies in full or reports exactly why it cannot. */
  method AdjustStock(db: Database, p: string, delta: int) returns (r: Result<int, Error>)
    modifies db`stock, db`faults
    ensures Honest(old(db.faults), db.faults, r)
    ensures r.Ok? ==> r.value == StockOf(old(db.stock), p) + delta && db.stock == old(db.stock)[p := r.value]
    ensures r.Ok? && delta < 0 ==> p in old(db.stock) && 0 <= r.value
    ensures r.Ok? && delta > 0 ==> r.value <= MAX_INT64
    ensures r == Err(InventoryNotFound) ==> delta < 0 && p !in old(db.stock)
    ensures r == Err(InsufficientStock) ==> p in old(db.stock) && old(db.stock)[p] + delta < 0
    ensures r == Err(OutOfRange) ==> StockOf(old(db.stock), p) + delta > MAX_INT64
    ensures delta == 0 ==> r == Err(InvalidRequest)
    ensures r.Ok? ==> AdjustRow(old(db.stock), p, delta) == Ok(db.stock) && p in db.stock && r.value == db.stock[p]
    ensures r.Err? ==> db.stock == old(db.stock)
    ensures r.Err? && delta != 0 && r.error != Internal ==> AdjustRow(old(db.stock), p, delta) == Err(r.error)
  {
    if delta == 0 { return Err(InvalidRequest); }
    var adjusted := db.AdjustStatement(p, delta);
    if adjusted.Err? { return Err(adjusted.error); }
    if adjusted.value { return Ok(db.stock[p]); }
    var found := db.HasInventory(p);
    if found.Err? { return Err(found.error); }
    r := Err(InsufficientStock);
  }

  /** Setting is not transactional: a failure may leave a fresh row at zero, never another amount. */
  method SetStock(db: Database, p: string, q: int) returns (r: Result<int, Error>)
    modifies db`stock, db`faults
    ensures Honest(old(db.faults), db.faults, r)
    ensures r.Err? && p != "" && 0 <= q ==> r.error == Internal
    ensures r.Ok? ==> 0 <= q && r.value == q && db.stock == old(db.stock)[p := q]
    ensures r.Err? ==> forall x :: StockOf(db.stock, x) == StockOf(old(db.stock), x)
    ensures p == "" || q < 0 ==> r == Err(InvalidRequest) && db.stock == old(db.stock)
  {
    if p == "" || q < 0 { return Err(InvalidRequest); }
    var found := db.HasInventory(p);
    if found == Err(InventoryNotFound) {
      var created := db.SaveInventory(p, 0);
      if created.Err? { return Err(created.error); }
    } else if found.Err? {
      return Err(found.error);
    }
    var saved := db.SaveInventory(p, q);
    if saved.Err? { return Err(saved.error); }
    r := Ok(q);
  }

  // ------------------------------------------------------------------ order service

  /** The service request; the key hash and the fingerprint normally come together. */
  datatype PlaceReq = PlaceReq(user: string, lines: seq<Line>, keyHash: Option<string>, fingerprint: Option<seq<Line>>)

  datatype Reply = Reply(order: Order, replay: bool)

  function DraftOf(req: PlaceReq, orderId: string, priced: Priced): Order {
    var idem :=
      if req.keyHash.Some? && req.fingerprint.Some? then Some(Idempotency(req.keyHash.value, req.fingerprint.value))
          else None;
    Order(orderId, req.user, priced.lines, priced.total, New, idem)
  }

  ghost function KeyOwner(t: Tables, req: PlaceReq): (id: string)
    requires req.keyHash.Some? && KeyTaken(t.orders, req.user, req.keyHash.value)
    ensures id in t.orders && HasKey(t.orders[id], req.user, req.keyHash.value)
  {
    var id :| id in t.orders && HasKey(t.orders[id], req.user, req.keyHash.value);
    id
  }

  /** The order already stored under the request's key, checked against its fingerprint. */
  ghost function ReplayOf(t: Tables, req: PlaceReq): Result<Reply, Error>
    requires req.keyHash.Some? && req.fingerprint.Some? && KeyTaken(t.orders, req.user, req.keyHash.value)
  {
    var o := t.orders[KeyOwner(t, req)];
    if o.idem.value.fingerprint == req.fingerprint.value then Ok(Reply(o, true)) else Err(IdempotencyConflict)
  }

  ghost function AfterDuplicate(t: Tables, req: PlaceReq): Result<Reply, Error>
    requires req.keyHash.Some? && req.fingerprint.Some?
  {
    if KeyTaken(t.orders, req.user, req.keyHash.value) then ReplayOf(t, req) else Err(RecordNotFound)
  }

  /** The whole use case, run alone, on values. */
  ghost function PlaceSpec(t: Tables, quotes: seq<Quote>, req: PlaceReq, orderId: string, eventId: string)
    : (Tables, Result<Reply, Error>)
    requires |quotes| == |req.lines|
  {
    var refused := RequestError(req.user, req.lines);
    if refused.Some? then (t, Err(refused.value))
    else if req.keyHash.Some? != req.fingerprint.Some? then (t, Err(IdempotencyConflict))
    else if req.keyHash.Some? && KeyTaken(t.orders, req.user, req.keyHash.value) then (t, ReplayOf(t, req))
    else
      match TransactionSpec(t, quotes, req, orderId, eventId)
      case Err(e) => (t, if e == IdempotencyDuplicate && req.keyHash.Some? then AfterDuplicate(t, req) else Err(e))
      case Ok((after, o)) => (after, Ok(Reply(o, false)))
  }

  ghost function TransactionSpec(t: Tables, quotes: seq<Quote>, req: PlaceReq, orderId: string, eventId: string)
    : Result<(Tables, Order), Error>
    requires |quotes| == |req.lines|
  {
    match PriceAll(req.lines, quotes)
    case Err(e) => Err(e)
    case Ok(priced) =>
      if !Fits(req.lines) then Err(InvalidQuantity)
      else
        var o := DraftOf(req, orderId, priced);
        match PlaceTx(t, o, eventId)
        case Err(e) => Err(e)
        case Ok(after) => Ok((after, o))
  }

  /** The order a fresh placement stores: the caller's lines at the prices read, their exact sum, the request's key. */
  predicate IsOrderFor(o: Order, req: PlaceReq, quotes: seq<Quote>, orderId: string)
    requires |quotes| == |req.lines|
  {
    && o.id == orderId && o.user == req.user && o.status == New
    && Convertible(quotes)
    && PricedAt(o.lines, req.lines, quotes) && LinesOf(o.lines) == req.lines
    && o.total == SumOfPrices(o.lines) == ExactTotal(req.lines, quotes)
    && (o.idem.Some? <==> req.keyHash.Some? && req.fingerprint.Some?)
    && (o.idem.Some? ==> o.idem.value == Idempotency(req.keyHash.value, req.fingerprint.value))
  }

  /** What a request under a free key, or under none, needs to be placed. */
  ghost predicate Placeable(t: Tables, quotes: seq<Quote>, req: PlaceReq)
    requires |quotes| == |req.lines|
  {
    && Acceptable(req.user, req.lines)
    && (req.keyHash.Some? <==> req.fingerprint.Some?)
    && Priceable(req.lines, quotes)
    && InStock(t.stock, req.lines)
  }

  predicate FreshKey(t: Tables, req: PlaceReq) {
    req.keyHash.Some? ==> !KeyTaken(t.orders, req.user, req.keyHash.value)
  }

  lemma AcceptableFits(user: string, lines: seq<Line>)
    requires Acceptable(user, lines)
    ensures Countable(lines) && Fits(lines)
  {
    forall i | 0 <= i < |lines| ensures 0 < lines[i].quantity <= 1_000_000 { assert LineOk(lines[i]); }
    forall p: string ensures SumFor(lines, p) <= MAX_INT64 { SumBounded(lines, p, 1_000_000); }
  }

  lemma {:induction false} SumBounded(lines: seq<Line>, p: string, most: nat)
    requires forall i :: 0 <= i < |lines| ==> lines[i].quantity <= most
    ensures SumFor(lines, p) <= |lines| * most
    decreases |lines|
  {
    if lines != [] {
      SumBounded(lines[..|lines| - 1], p, most);
      assert |lines| * most == (|lines| - 1) * most + most;
    }
  }

  lemma DraftIsOrder(req: PlaceReq, quotes: seq<Quote>, orderId: string)
    requires |quotes| == |req.lines| && Countable(req.lines) && PriceAll(req.lines, quotes).Ok?
    ensures IsOrderFor(DraftOf(req, orderId, PriceAll(req.lines, quotes).value), req, quotes, orderId)
  {
    PricedExactly(req.lines, quotes);
  }

  lemma TransactionExactly(t: Tables, quotes: seq<Quote>, req: PlaceReq, orderId: string, eventId: string)
    requires |quotes| == |req.lines| && Acceptable(req.user, req.lines) && FreshKey(t, req)
    ensures var r := TransactionSpec(t, quotes, req, orderId, eventId);
            && (r.Ok? <==> Priceable(req.lines, quotes) && InStock(t.stock, req.lines))
            && (r.Ok? ==> IsOrderFor(r.value.1, req, quotes, orderId) && Placed(t, r.value.0, r.value.1, eventId))
            && (r.Err? ==> r.error != IdempotencyDuplicate)
  {
    AcceptableFits(req.user, req.lines);
    PricedExactly(req.lines, quotes);
    if PriceAll(req.lines, quotes).Ok? {
      var o := DraftOf(req, orderId, PriceAll(req.lines, quotes).value);
      DraftIsOrder(req, quotes, orderId);
      PlacesWhenFree(t, o, eventId);
    } else {
      var k := PricingRefused(req.lines, quotes);
    }
  }

  /**
   A request whose key is free is placed exactly when it is acceptable, its products have prices that add up
   within int64 and their stock suffices. Then the order is the caller's, at the exact total; it and its
   event are stored, and exactly its units are gone. Otherwise no table changes.
   */
  lemma PlacesExactly(t: Tables, quotes: seq<Quote>, req: PlaceReq, orderId: string, eventId: string)
    requires |quotes| == |req.lines| && FreshKey(t, req)
    ensures var (after, answer) := PlaceSpec(t, quotes, req, orderId, eventId);
            && (answer.Ok? <==> Placeable(t, quotes, req))
            && (answer.Ok? ==>
                  && !answer.value.replay
                  && IsOrderFor(answer.value.order, req, quotes, orderId)
                  && Placed(t, after, answer.value.order, eventId))
            && (answer.Err? ==> after == t)
  {
    RequestErrorExactly(req.user, req.lines);
    if Acceptable(req.user, req.lines) { TransactionExactly(t, quotes, req, orderId, eventId); }
  }

  /** Line k is the first at which pricing fails: no product, no convertible price, or a sum past int64. */
  predicate UnpricedFirst(lines: seq<Line>, quotes: seq<Quote>, k: nat)
    requires |lines| == |quotes|
  {
    k < |lines| && Priceable(lines[..k], quotes[..k]) && !Priceable(lines[..k + 1], quotes[..k + 1])
  }

  /** The error is that of the first line that cannot be priced. */
  ghost predicate NamesPrice(lines: seq<Line>, quotes: seq<Quote>, e: Error)
    requires |lines| == |quotes|
  {
    exists k: nat ::
      UnpricedFirst(lines, quotes, k) && e == if quotes[k].Missing? then ProductNotFound else InvalidAmount
  }

  /** The error is that of the first product, in ascending order, of which there is not enough. */
  ghost predicate NamesStock(stock: map<string, int>, lines: seq<Line>, e: Error) {
    exists p :: FirstShort(stock, lines, p) && e == if p in stock then InsufficientStock else InventoryNotFound
  }

  lemma RefusedByPrice(lines: seq<Line>, quotes: seq<Quote>)
    requires |lines| == |quotes| && Countable(lines) && !Priceable(lines, quotes)
    ensures PriceAll(lines, quotes).Err? && NamesPrice(lines, quotes, PriceAll(lines, quotes).error)
  {
    PricedExactly(lines, quotes);
    var k := PricingRefused(lines, quotes);
    assert UnpricedFirst(lines, quotes, k);
  }

  lemma RefusedByStock(t: Tables, o: Order, eventId: string)
    requires Countable(LinesOf(o.lines)) && !InStock(t.stock, LinesOf(o.lines))
    ensures PlaceTx(t, o, eventId).Err? && NamesStock(t.stock, LinesOf(o.lines), PlaceTx(t, o, eventId).error)
  {
    var lines := LinesOf(o.lines);
    PlaceTxExactly(t, o, eventId);
    var p :| FirstShort(t.stock, lines, p) && PlaceTx(t, o, eventId) == Err(ShortError(t.stock, lines, p));
    SumPositive(lines, p);
  }

  /** The first check that fails names the error of a placement that is refused. */
  lemma RefusesExactly(t: Tables, quotes: seq<Quote>, req: PlaceReq, orderId: string, eventId: string)
    requires |quotes| == |req.lines| && FreshKey(t, req) && !Placeable(t, quotes, req)
    ensures PlaceSpec(t, quotes, req, orderId, eventId).1.Err?
    ensures var answer := PlaceSpec(t, quotes, req, orderId, eventId).1;
            if !Acceptable(req.user, req.lines) then Some(answer.error) == RequestError(req.user, req.lines)
            else if req.keyHash.Some? != req.fingerprint.Some? then answer.error == IdempotencyConflict
            else if !Priceable(req.lines, quotes) then NamesPrice(req.lines, quotes, answer.error)
            else NamesStock(t.stock, req.lines, answer.error)
  {
    RequestErrorExactly(req.user, req.lines);
    if Acceptable(req.user, req.lines) {
      AcceptableFits(req.user, req.lines);
      if !Priceable(req.lines, quotes) {
        RefusedByPrice(req.lines, quotes);
      } else if req.keyHash.Some? == req.fingerprint.Some? {
        PricedExactly(req.lines, quotes);
        var o := DraftOf(req, orderId, PriceAll(req.lines, quotes).value);
        assert LinesOf(o.lines) == req.lines;
        RefusedByStock(t, o, eventId);
      }
    }
  }

  /** What a reply stands for: a new order, stored and taken from stock, or the one stored under the request's key. */
  ghost predicate ReplyHolds(t: Tables, after: Tables, quotes: seq<Quote>, req: PlaceReq, orderId: string,
                             eventId: string, reply: Reply)
    requires |quotes| == |req.lines|
  {
    if !reply.replay then IsOrderFor(reply.order, req, quotes, orderId) && Placed(t, after, reply.order, eventId)
    else
      && after == t && reply.order in t.orders.Values
      && req.keyHash.Some? && req.fingerprint.Some? && HasKey(reply.order, req.user, req.keyHash.value)
      && reply.order.idem.value.fingerprint == req.fingerprint.value
  }

  lemma RepliesHold(t: Tables, quotes: seq<Quote>, req: PlaceReq, orderId: string, eventId: string)
    requires |quotes| == |req.lines|
    ensures var (after, answer) := PlaceSpec(t, quotes, req, orderId, eventId);
            && (answer.Ok? ==> ReplyHolds(t, after, quotes, req, orderId, eventId, answer.value))
            && (answer.Err? ==> after == t)
  {
    if FreshKey(t, req) {
      PlacesExactly(t, quotes, req, orderId, eventId);
    } else {
      assert t.orders[KeyOwner(t, req)] in t.orders.Values;
    }
  }

  method ValidateOrderQuantities(lines: seq<Line>) returns (ok: bool)
    ensures ok <==> QuantitiesOk(lines)
  {
    for i := 0 to |lines|
      invariant QuantitiesOk(lines[..i])
    {
      if lines[i].quantity == 0 || lines[i].quantity > MAX_LINE_QUANTITY { return false; }
    }
    assert lines[..|lines|] == lines;
    ok := true;
  }

  method BuildOrderCreatedPayload(o: Order) returns (payload: Payload)
    ensures payload == PayloadOf(o)
  {
    var lines: seq<PricedLine> := [];
    for i := 0 to |o.lines|
      invariant lines == o.lines[..i]
    {
      lines := lines + [PricedLine(o.lines[i].productId, o.lines[i].quantity, o.lines[i].price)];
    }
    payload := Payload(o.id, o.user, o.total, o.status, lines);
  }

  /** Reads and prices every line with overflow checks at each step. */
  method PriceLines(db: Database, lines: seq<Line>) returns (r: Result<Priced, Error>)
    modifies db`faults
    ensures Honest(old(db.faults), db.faults, r)
    ensures r == Err(Internal) || r == PriceAll(lines, Quotes(db.products, lines))
  {
    ghost var quotes := Quotes(db.products, lines);
    var total := 0;
    var priced: seq<PricedLine> := [];
    for i := 0 to |lines|
      invariant PriceAll(lines[..i], quotes[..i]) == Ok(Priced(total, priced))
      invariant db.faults >= old(db.faults)
    {
      assert lines[..i + 1][..i] == lines[..i] && quotes[..i + 1][..i] == quotes[..i];
      var product := db.ReadProduct(lines[i].productId);
      if product.Err? { return Err(product.error); }
      var one := PriceOne(Priced(total, priced), lines[i], product.value);
      assert PriceAll(lines[..i + 1], quotes[..i + 1]) == one;
      if one.Err? {
        PricePrefixFails(lines, quotes, i + 1);
        return Err(one.error);
      }
      total, priced := one.value.total, one.value.lines;
    }
    assert lines[..|lines|] == lines && quotes[..|lines|] == quotes;
    r := Ok(Priced(total, priced));
  }

  method ConsumePlan(db: Database, plan: seq<Item>) returns (r: Result<(), Error>)
    modifies db`stock, db`faults
    ensures Honest(old(db.faults), db.faults, r)
    ensures r.Ok? ==> ConsumeAll(old(db.stock), plan) == Ok(db.stock)
    ensures r.Err? && r.error != Internal ==> ConsumeAll(old(db.stock), plan) == Err(r.error)
  {
    for i := 0 to |plan|
      invariant ConsumeAll(old(db.stock), plan[..i]) == Ok(db.stock)
      invariant db.faults >= old(db.faults)
    {
      assert plan[..i + 1][..i] == plan[..i];
      var one := ConsumeStock(db, plan[i].productId, plan[i].quantity);
      if one.Err? {
        if one.error != Internal { ConsumePrefixFails(old(db.stock), plan, i + 1); }
        return one;
      }
    }
    assert plan[..|plan|] == plan;
    r := Ok(());
  }

  method RestockPlan(db: Database, plan: seq<Item>) returns (r: Result<(), Error>)
    modifies db`stock, db`faults
    ensures Honest(old(db.faults), db.faults, r)
    ensures r.Ok? ==> RestockAll(old(db.stock), plan) == Ok(db.stock)
    ensures r.Err? && r.error != Internal ==> RestockAll(old(db.stock), plan) == Err(r.error)
  {
    for i := 0 to |plan|
      invariant RestockAll(old(db.stock), plan[..i]) == Ok(db.stock)
      invariant db.faults >= old(db.faults)
    {
      assert plan[..i + 1][..i] == plan[..i];
      var one := Restock(db, plan[i].productId, plan[i].quantity);
      if one.Err? {
        if one.error != Internal { RestockPrefixFails(old(db.stock), plan, i + 1); }
        return one;
      }
    }
    assert plan[..|plan|] == plan;
    r := Ok(());
  }

  /** The transaction callback; its partial writes are for the caller to roll back on an error. */
  method PlaceInTransaction(db: Database, req: PlaceReq, orderId: string, eventId: string)
          returns (r: Result<Order, Error>)
    requires orderId != ""
    modifies db`orders, db`stock, db`outbox, db`faults
    ensures Honest(old(db.faults), db.faults, r)
    ensures r.Ok? ==>
              TransactionSpec(old(db.View()), Quotes(db.products, req.lines), req, orderId, eventId)
              == Ok((db.View(), r.value))
    ensures r.Err? && r.error != Internal ==>
              TransactionSpec(old(db.View()), Quotes(db.products, req.lines), req, orderId, eventId) == Err(r.error)
  {
    var priced := PriceLines(db, req.lines);
    if priced.Err? { return Err(priced.error); }
    PricedAddsUp(req.lines, Quotes(db.products, req.lines));
    var plan := StockConsumptionPlan(req.lines);
    if plan.Err? { return Err(InvalidQuantity); }
    var consumed := ConsumePlan(db, plan.value);
    if consumed.Err? { return Err(consumed.error); }
    var o := DraftOf(req, orderId, priced.value);
    var stored := StoreOrder(db, o, eventId);
    r := if stored.Err? then Err(stored.error) else Ok(o);
  }

  /** The order row, then its creation event in the outbox. */
  method StoreOrder(db: Database, o: Order, eventId: string) returns (r: Result<(), Error>)
    requires o.id != "" && o.status == New
    modifies db`orders, db`outbox, db`faults
    ensures Honest(old(db.faults), db.faults, r)
    ensures r.Ok? ==>
              && InsertOrder(old(db.orders), o) == Ok(db.orders)
              && db.outbox == old(db.outbox)[eventId := CreatedEvent(o)]
    ensures r.Err? && r.error != Internal ==> InsertOrder(old(db.orders), o) == Err(r.error)
  {
    var created := db.CreateOrder(o);
    if created.Err? { return created; }
    var payload := BuildOrderCreatedPayload(o);
    r := db.CreatePending(eventId, Event("order", o.id, "order.created", payload));
  }

  /** The callback and its commit: all of it, or an error and none of it, unless a commit that held reports one. */
  method PlaceTransaction(db: Database, req: PlaceReq, orderId: string, eventId: string)
          returns (r: Result<Order, Error>)
    requires orderId != ""
    modifies db`orders, db`stock, db`outbox, db`faults
    ensures Honest(old(db.faults), db.faults, r)
    ensures var spec := TransactionSpec(old(db.View()), Quotes(db.products, req.lines), req, orderId, eventId);
            if r.Ok? then spec == Ok((db.View(), r.value))
            else if r.error != Internal then db.View() == old(db.View()) && spec == Err(r.error)
            else db.View() == old(db.View()) || (spec.Ok? && db.View() == spec.value.0)
  {
    var snapshot := db.View();
    r := PlaceInTransaction(db, req, orderId, eventId);
    if r.Err? {
      db.Restore(snapshot);
    } else {
      var commit := db.Commit(snapshot);
      if commit != Fine { r := Err(Internal); }
    }
  }

  method ReplayIdempotentOrder(db: Database, req: PlaceReq) returns (r: Result<Reply, Error>)
    requires req.keyHash.Some? && req.fingerprint.Some? && UniqueKeys(db.orders)
    modifies db`faults
    ensures Honest(old(db.faults), db.faults, r)
    ensures r == Err(Internal)
         || (if KeyTaken(db.orders, req.user, req.keyHash.value) then r == ReplayOf(db.View(), req)
             else r == Err(RecordNotFound))
  {
    var found := db.FindByIdempotencyKey(req.user, req.keyHash.value);
    if found.Err? { return Err(found.error); }
    var id :| id in db.orders && HasKey(db.orders[id], req.user, req.keyHash.value) && found.value == db.orders[id];
    forall other | other in db.orders && HasKey(db.orders[other], req.user, req.keyHash.value) ensures other == id {
      assert SameKey(db.orders[other], db.orders[id]);
    }
    if found.value.idem.value.fingerprint != req.fingerprint.value { return Err(IdempotencyConflict); }
    r := Ok(Reply(found.value, true));
  }

  /**
   Placing an order: exactly the specification, or an internal error. After an internal error nothing has
   changed, or the order was placed by a commit that took effect and still reported an error.
   */
  method PlaceOrder(db: Database, req: PlaceReq, orderId: string, eventId: string) returns (r: Result<Reply, Error>)
    requires orderId != "" && UniqueKeys(db.orders)
    modifies db`orders, db`stock, db`outbox, db`faults
    ensures Honest(old(db.faults), db.faults, r)
    ensures var (after, answer) := PlaceSpec(old(db.View()), Quotes(db.products, req.lines), req, orderId, eventId);
            || (db.View() == after && r == answer)
            || (r == Err(Internal) && (db.View() == old(db.View()) || (answer.Ok? && db.View() == after)))
    ensures r.Ok? ==>
              ReplyHolds(old(db.View()), db.View(), Quotes(db.products, req.lines), req, orderId, eventId, r.value)
    ensures r.Err? && r.error != Internal ==> db.View() == old(db.View())
  {
    RepliesHold(db.View(), Quotes(db.products, req.lines), req, orderId, eventId);
    var quantitiesOk := ValidateOrderQuantities(req.lines);
    if !quantitiesOk { return Err(InvalidQuantity); }
    if RequestError(req.user, req.lines).Some? { return Err(RequestError(req.user, req.lines).value); }
    if req.keyHash.Some? || req.fingerprint.Some? {
      if req.keyHash.None? || req.fingerprint.None? { return Err(IdempotencyConflict); }
      var existing := ReplayIdempotentOrder(db, req);
      if existing != Err(RecordNotFound) { return existing; }
    }
    var placed := PlaceTransaction(db, req, orderId, eventId);
    if placed == Err(IdempotencyDuplicate) && req.keyHash.Some? {
      r := ReplayIdempotentOrder(db, req);
      return;
    }
    r := if placed.Ok? then Ok(Reply(placed.value, false)) else Err(placed.error);
  }

  method CancelInTransaction(db: Database, orderId: string, user: string) returns (r: Result<Order, Error>)
    modifies db`orders, db`stock, db`faults
    ensures Honest(old(db.faults), db.faults, r)
    ensures r.Ok? ==>
              && CancelTx(old(db.View()), orderId, user) == Ok(db.View())
              && orderId in db.orders && r.value == db.orders[orderId]
    ensures r.Err? && r.error != Internal ==> CancelTx(old(db.View()), orderId, user) == Err(r.error)
  {
    var existing := db.FindOrder(orderId);
    if existing.Err? { return existing; }
    if user != existing.value.user { return Err(PermissionDenied); }
    if existing.value.status == Done || existing.value.status == Cancelled { return Err(InvalidState); }
    var updated := db.CancelOrderIfCancellable(orderId, user);
    if updated.Err? { return Err(updated.error); }
    var plan := StockConsumptionPlan(LinesOf(existing.value.lines));
    PlanFitsExactly(LinesOf(existing.value.lines));
    if plan.Err? { return Err(InvalidQuantity); }
    var restocked := RestockPlan(db, plan.value);
    if restocked.Err? { return Err(restocked.error); }
    r := Ok(existing.value.(status := Cancelled));
  }

  /**
   Cancelling an order: exactly the specification. An error changes nothing, except that an internal one
   may follow a commit that took effect.
   */
  method CancelOrder(db: Database, orderId: string, user: string) returns (r: Result<Order, Error>)
    modifies db`orders, db`stock, db`outbox, db`faults
    ensures Honest(old(db.faults), db.faults, r)
    ensures r.Ok? ==>
              && CancelTx(old(db.View()), orderId, user) == Ok(db.View())
              && MayCancel(old(db.View()), orderId, user) && CancelledOne(old(db.View()), db.View(), orderId)
              && orderId in db.orders && r.value == db.orders[orderId]
    ensures orderId in old(db.orders) && old(db.orders)[orderId].user != user ==>
              db.View() == old(db.View()) && r.Err? && r.error in {PermissionDenied, Internal}
    ensures r.Err? && r.error != Internal ==>
              db.View() == old(db.View()) && CancelTx(old(db.View()), orderId, user) == Err(r.error)
    ensures r == Err(Internal) ==>
              db.View() == old(db.View()) || CancelTx(old(db.View()), orderId, user) == Ok(db.View())
  {
    var snapshot := db.View();
    CancelTxExactly(snapshot, orderId, user);
    r := CancelInTransaction(db, orderId, user);
    if r.Err? {
      db.Restore(snapshot);
    } else {
      var commit := db.Commit(snapshot);
      if commit != Fine { r := Err(Internal); }
    }
  }

  /** A keyed order placed and placed again by the same request answers with the same order, unchanged stock. */
  lemma SecondPlacementReplays(t: Tables, quotes: seq<Quote>, again: seq<Quote>, req: PlaceReq,
                               orderId: string, eventId: string, orderId2: string, eventId2: string)
    requires UniqueKeys(t.orders) && orderId !in t.orders
    requires |quotes| == |again| == |req.lines| && req.keyHash.Some?
    requires PlaceSpec(t, quotes, req, orderId, eventId).1.Ok?
    ensures var first := PlaceSpec(t, quotes, req, orderId, eventId);
            PlaceSpec(first.0, again, req, orderId2, eventId2) == (first.0, Ok(Reply(first.1.value.order, true)))
  {
    var first := PlaceSpec(t, quotes, req, orderId, eventId);
    var after, o := first.0, first.1.value.order;
    var id := if first.1.value.replay then KeyOwner(t, req) else orderId;
    assert after.orders[id] == o && HasKey(o, req.user, req.keyHash.value);
    if !first.1.value.replay { InsertKeepsUnique(t.orders, o); }
    forall other | other in after.orders && HasKey(after.orders[other], req.user, req.keyHash.value)
        ensures other == id {
      assert SameKey(after.orders[other], after.orders[id]);
    }
  }
}
