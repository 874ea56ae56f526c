/**
 The rows of the shop's database as values, and what one committed transaction does to them.
 Amounts are integers of minor units; module Money relates them to floating-point prices.
 */
module Tables {
  import opened Base
  import opened StockPlan
  import Money

  datatype Error =
    | InvalidQuantity | InvalidAmount | InvalidRequest
    | PermissionDenied | InvalidState | RecordNotFound
    | IdempotencyConflict | IdempotencyDuplicate
    | ProductNotFound | InventoryNotFound | InsufficientStock | NonPositive | OutOfRange
    | Internal

  datatype Status = New | InProgress | Done | Cancelled

  /** `price` is the line total. */
  datatype PricedLine = PricedLine(productId: string, quantity: nat, price: int)

  datatype Idempotency = Idempotency(keyHash: string, fingerprint: seq<Line>)

  datatype Order = Order(
    id: string, user: string, lines: seq<PricedLine>, total: int, status: Status, idem: Option<Idempotency>)

  datatype Payload = Payload(orderId: string, user: string, total: int, status: Status, lines: seq<PricedLine>)

  datatype Event = Event(aggregateType: string, aggregateId: string, eventType: string, payload: Payload)

  datatype Tables = Tables(orders: map<string, Order>, stock: map<string, int>, outbox: map<string, Event>)

  function LinesOf(lines: seq<PricedLine>): (r: seq<Line>)
    ensures |r| == |lines|
    ensures forall i :: 0 <= i < |r| ==> r[i] == Line(lines[i].productId, lines[i].quantity)
  {
    seq(|lines|, i requires 0 <= i < |lines| => Line(lines[i].productId, lines[i].quantity))
  }

  function OrderPlan(o: Order): seq<Item> { PlanOf(LinesOf(o.lines)) }

  function StockOf(stock: map<string, int>, p: string): int {
    if p in stock then stock[p] else 0
  }

  // ------------------------------------------------------------------ guarded row updates

  /** `UPDATE ... SET quantity = quantity - q WHERE product_id = p AND quantity >= q`, then the lookup. */
  function ConsumeRow(stock: map<string, int>, p: string, q: int): Result<map<string, int>, Error> {
    if q <= 0 then Err(NonPositive)
    else if p !in stock then Err(InventoryNotFound)
    else if stock[p] < q then Err(InsufficientStock)
    else Ok(stock[p := stock[p] - q])
  }

  /** Upsert that adds q; the column is a 64-bit integer. */
  function RestockRow(stock: map<string, int>, p: string, q: int): Result<map<string, int>, Error> {
    if q <= 0 then Err(NonPositive)
    else if StockOf(stock, p) + q > MAX_INT64 then Err(OutOfRange)
    else Ok(stock[p := StockOf(stock, p) + q])
  }

  /** A positive delta upserts; any other is a guarded update of an existing row. */
  function AdjustRow(stock: map<string, int>, p: string, delta: int): Result<map<string, int>, Error> {
    if delta > 0 then
      if StockOf(stock, p) + delta > MAX_INT64 then Err(OutOfRange) else Ok(stock[p := StockOf(stock, p) + delta])
    else if p !in stock then Err(InventoryNotFound)
    else if stock[p] + delta < 0 then Err(InsufficientStock)
    else Ok(stock[p := stock[p] + delta])
  }

  function ConsumeAll(stock: map<string, int>, plan: seq<Item>): Result<map<string, int>, Error> {
    if plan == [] then Ok(stock)
    else
      match ConsumeAll(stock, plan[..|plan| - 1])
      case Err(e) => Err(e)
      case Ok(s) => ConsumeRow(s, plan[|plan| - 1].productId, plan[|plan| - 1].quantity)
  }

  function RestockAll(stock: map<string, int>, plan: seq<Item>): Result<map<string, int>, Error> {
    if plan == [] then Ok(stock)
    else
      match RestockAll(stock, plan[..|plan| - 1])
      case Err(e) => Err(e)
      case Ok(s) => RestockRow(s, plan[|plan| - 1].productId, plan[|plan| - 1].quantity)
  }

  /** Some committed order of this user carries this key hash: the unique index is occupied. */
  predicate KeyTaken(orders: map<string, Order>, user: string, keyHash: string) {
    exists id :: id in orders && HasKey(orders[id], user, keyHash)
  }

  predicate HasKey(o: Order, user: string, keyHash: string) {
    o.user == user && o.idem.Some? && o.idem.value.keyHash == keyHash
  }

  function InsertOrder(orders: map<string, Order>, o: Order): Result<map<string, Order>, Error> {
    if o.idem.Some? && KeyTaken(orders, o.user, o.idem.value.keyHash) then Err(IdempotencyDuplicate)
    else Ok(orders[o.id := o])
  }

  function PayloadOf(o: Order): Payload { Payload(o.id, o.user, o.total, o.status, o.lines) }

  /** The row `order.created` is recorded in, written while the order is still new. */
  function CreatedEvent(o: Order): Event {
    Event("order", o.id, "order.created", PayloadOf(o.(status := New)))
  }

  // ------------------------------------------------------------------ whole transactions

  /** Everything a committed placement does: stock, order row, outbox row; all of it or an error. */
  function PlaceTx(t: Tables, o: Order, eventId: string): Result<Tables, Error> {
    match ConsumeAll(t.stock, OrderPlan(o))
    case Err(e) => Err(e)
    case Ok(stock) =>
      match InsertOrder(t.orders, o)
      case Err(e) => Err(e)
      case Ok(orders) => Ok(Tables(orders, stock, t.outbox[eventId := CreatedEvent(o)]))
  }

  predicate Cancellable(s: Status) { s == New || s == InProgress }

  function CancelTx(t: Tables, orderId: string, user: string): Result<Tables, Error> {
    if orderId !in t.orders then Err(RecordNotFound)
    else
      var o := t.orders[orderId];
      if user != o.user then Err(PermissionDenied)
      else if !Cancellable(o.status) then Err(InvalidState)
      else if !PlanFits(OrderPlan(o)) then Err(InvalidQuantity)
      else
        match RestockAll(t.stock, OrderPlan(o))
        case Err(e) => Err(e)
        case Ok(stock) => Ok(t.(orders := t.orders[orderId := o.(status := Cancelled)], stock := stock))
  }

  // ------------------------------------------------------------------ validation and pricing

  const MAX_LINES := 5
  const MAX_LINE_QUANTITY := 1_000_000

  predicate QuantitiesOk(lines: seq<Line>) {
    forall i :: 0 <= i < |lines| ==> 0 < lines[i].quantity <= MAX_LINE_QUANTITY
  }

  /** Quantities first, then the struct tags of the request. */
  function RequestError(user: string, lines: seq<Line>): Option<Error> {
    if !QuantitiesOk(lines) then Some(InvalidQuantity)
    else if user == "" || !(0 < |lines| <= MAX_LINES) || exists i :: 0 <= i < |lines| && lines[i].productId == "" then
      Some(InvalidRequest)
    else None
  }

  /** What reading one product inside the transaction gave. */
  datatype Quote = Missing | Inconvertible | Price(minor: int)

  datatype Priced = Priced(total: int, lines: seq<PricedLine>)

  /** The pricing loop: each line multiplied, then added to the running total. */
  function PriceAll(lines: seq<Line>, quotes: seq<Quote>): Result<Priced, Error>
    requires |lines| == |quotes|
    decreases |lines|
  {
    if lines == [] then Ok(Priced(0, []))
    else
      var n := |lines| - 1;
      match PriceAll(lines[..n], quotes[..n])
      case Err(e) => Err(e)
      case Ok(sofar) => PriceOne(sofar, lines[n], quotes[n])
  }

  function PriceOne(sofar: Priced, line: Line, quote: Quote): Result<Priced, Error> {
    match quote
    case Missing => Err(ProductNotFound)
    case Inconvertible => Err(InvalidAmount)
    case Price(unit) =>
      match Money.Multiply(unit, line.quantity)
      case Err(_) => Err(InvalidAmount)
      case Ok(lineTotal) =>
        match Money.Add(sofar.total, lineTotal)
        case Err(_) => Err(InvalidAmount)
        case Ok(total) => Ok(Priced(total, sofar.lines + [PricedLine(line.productId, line.quantity, lineTotal)]))
  }

  /** The mathematical total. */
  function ExactTotal(lines: seq<Line>, quotes: seq<Quote>): int
    requires |lines| == |quotes|
    requires forall i :: 0 <= i < |quotes| ==> quotes[i].Price?
    decreases |lines|
  {
    if lines == [] then 0
    else
      var n := |lines| - 1;
      ExactTotal(lines[..n], quotes[..n]) + quotes[n].minor * lines[n].quantity
  }

  function SumOfPrices(lines: seq<PricedLine>): int {
    if lines == [] then 0 else SumOfPrices(lines[..|lines| - 1]) + lines[|lines| - 1].price
  }

  predicate Convertible(quotes: seq<Quote>) {
    forall i :: 0 <= i < |quotes| ==> quotes[i].Price? && 0 <= quotes[i].minor <= MAX_INT64
  }

  predicate Int64Quantities(lines: seq<Line>) {
    forall i :: 0 <= i < |lines| ==> lines[i].quantity <= MAX_INT64
  }

  lemma {:induction false} ExactTotalNonNegative(lines: seq<Line>, quotes: seq<Quote>)
    requires |lines| == |quotes| && Convertible(quotes)
    ensures ExactTotal(lines, quotes) >= 0
    decreases |lines|
  {
    if lines != [] {
      var n := |lines| - 1;
      ExactTotalNonNegative(lines[..n], quotes[..n]);
      Money.ProductMonotone(0, quotes[n].minor, lines[n].quantity);
    }
  }

  /** One line is priced exactly when its price fits on top of the total so far. */
  lemma PriceOneExact(sofar: Priced, line: Line, quote: Quote)
    requires 0 <= sofar.total <= MAX_INT64 && line.quantity <= MAX_INT64
    requires quote.Price? && 0 <= quote.minor <= MAX_INT64
    ensures var total := sofar.total + quote.minor * line.quantity; var r := PriceOne(sofar, line, quote);
            && (r.Ok? <==> total <= MAX_INT64)
            && (r.Err? ==> r.error == InvalidAmount)
            && (r.Ok? ==> r.value.total == total)
  {
    Money.MultiplyExact(quote.minor, line.quantity);
    Money.ProductMonotone(0, quote.minor, line.quantity);
  }

  /**
   The total loop is exact: when every price converts, it succeeds exactly when the mathematical sum
   fits in int64, and then the total is that sum, the line totals add up to it, and each line keeps
   its product and quantity.
   */
  lemma {:induction false} PricingExact(lines: seq<Line>, quotes: seq<Quote>)
    requires |lines| == |quotes| && Convertible(quotes) && Int64Quantities(lines)
    ensures PriceAll(lines, quotes).Ok? <==> ExactTotal(lines, quotes) <= MAX_INT64
    ensures PriceAll(lines, quotes).Err? ==> PriceAll(lines, quotes).error == InvalidAmount
    ensures PriceAll(lines, quotes).Ok? ==>
              var r := PriceAll(lines, quotes).value;
              && 0 <= r.total == ExactTotal(lines, quotes) == SumOfPrices(r.lines)
              && LinesOf(r.lines) == lines
    decreases |lines|
  {
    if lines != [] {
      var n := |lines| - 1;
      PricingExact(lines[..n], quotes[..n]);
      ExactTotalNonNegative(lines[..n], quotes[..n]);
      Money.ProductMonotone(0, quotes[n].minor, lines[n].quantity);
      if PriceAll(lines[..n], quotes[..n]).Ok? {
        PriceOneExact(PriceAll(lines[..n], quotes[..n]).value, lines[n], quotes[n]);
      }
      if PriceAll(lines, quotes).Ok? { PricedAddsUp(lines, quotes); }
    }
  }

  lemma LinesOfSnoc(lines: seq<PricedLine>, line: PricedLine)
    ensures LinesOf(lines + [line]) == LinesOf(lines) + [Line(line.productId, line.quantity)]
    ensures SumOfPrices(lines + [line]) == SumOfPrices(lines) + line.price
  {
    assert (lines + [line])[..|lines|] == lines;
  }

  /** A line that is priced adds some price, not negative, to the total and itself to the lines. */
  lemma PriceOneAdds(sofar: Priced, line: Line, quote: Quote) returns (price: int)
    requires PriceOne(sofar, line, quote).Ok? && 0 <= sofar.total <= MAX_INT64
    ensures 0 <= price && sofar.total + price <= MAX_INT64
    ensures PriceOne(sofar, line, quote).value
            == Priced(sofar.total + price, sofar.lines + [PricedLine(line.productId, line.quantity, price)])
  {
    price := Money.Multiply(quote.minor, line.quantity).value;
  }

  /** So the total stays the sum of the line prices. */
  lemma PriceOneAddsUp(sofar: Priced, line: Line, quote: Quote)
    requires 0 <= sofar.total == SumOfPrices(sofar.lines) <= MAX_INT64 && PriceOne(sofar, line, quote).Ok?
    ensures var r := PriceOne(sofar, line, quote).value;
            && 0 <= r.total == SumOfPrices(r.lines) <= MAX_INT64
            && LinesOf(r.lines) == LinesOf(sofar.lines) + [line]
  {
    var price := PriceOneAdds(sofar, line, quote);
    LinesOfSnoc(sofar.lines, PricedLine(line.productId, line.quantity, price));
  }

  /** Whatever was read, a priced order keeps its lines and adds up, all within int64. */
  lemma {:induction false} PricedAddsUp(lines: seq<Line>, quotes: seq<Quote>)
    requires |lines| == |quotes| && PriceAll(lines, quotes).Ok?
    ensures var r := PriceAll(lines, quotes).value;
            && 0 <= r.total == SumOfPrices(r.lines) <= MAX_INT64
            && LinesOf(r.lines) == lines
    decreases |lines|
  {
    if lines != [] {
      var n := |lines| - 1;
      PricedAddsUp(lines[..n], quotes[..n]);
      PriceOneAddsUp(PriceAll(lines[..n], quotes[..n]).value, lines[n], quotes[n]);
      assert lines == lines[..n] + [lines[n]];
    }
  }

  // ------------------------------------------------------------------ stock plans as row effects

  predicate Distinct(plan: seq<Item>) {
    forall i, j :: 0 <= i < j < |plan| ==> plan[i].productId != plan[j].productId
  }

  lemma AscendingIsDistinct(plan: seq<Item>)
    requires Ascending(plan)
    ensures Distinct(plan)
  {
    forall i, j | 0 <= i < j < |plan| ensures plan[i].productId != plan[j].productId {
      LessIrreflexive(plan[i].productId);
    }
  }

  /** Stock after the decrements, product by product. */
  lemma {:induction false} ConsumeAllRows(stock: map<string, int>, plan: seq<Item>)
    requires Distinct(plan)
    ensures ConsumeAll(stock, plan).Ok? <==>
              forall i :: 0 <= i < |plan| ==>
                plan[i].quantity > 0 && plan[i].productId in stock && stock[plan[i].productId] >= plan[i].quantity
    ensures ConsumeAll(stock, plan).Ok? ==>
              var s := ConsumeAll(stock, plan).value;
              && s.Keys == stock.Keys
              && forall p :: p in stock ==> s[p] == stock[p] - QuantityIn(plan, p)
    decreases |plan|
  {
    if plan != [] {
      var n := |plan| - 1;
      var front, last := plan[..n], plan[n];
      ConsumeAllRows(stock, front);
      forall p ensures QuantityIn(plan, p) == QuantityIn(front, p) + if last.productId == p then last.quantity else 0 {
        QuantityInSnoc(front, last, p);
        assert plan == front + [last];
      }
      assert !Covers(front, last.productId);
      QuantityNone(front, last.productId);
    }
  }

  lemma {:induction false} QuantityInSnoc(plan: seq<Item>, last: Item, p: string)
    ensures QuantityIn(plan + [last], p) == QuantityIn(plan, p) + if last.productId == p then last.quantity else 0
    decreases |plan|
  {
    if plan != [] {
      QuantityInSnoc(plan[1..], last, p);
      assert (plan + [last])[1..] == plan[1..] + [last];
    }
  }

  lemma {:induction false} RestockAllRows(stock: map<string, int>, plan: seq<Item>)
    requires Distinct(plan)
    ensures RestockAll(stock, plan).Ok? <==>
              forall i :: 0 <= i < |plan| ==>
                plan[i].quantity > 0 && StockOf(stock, plan[i].productId) + plan[i].quantity <= MAX_INT64
    ensures RestockAll(stock, plan).Ok? ==>
              forall p :: Restocked(stock, RestockAll(stock, plan).value, plan, p)
    decreases |plan|
  {
    if plan != [] {
      var n := |plan| - 1;
      var front, last := plan[..n], plan[n];
      RestockAllRows(stock, front);
      assert plan == front + [last];
      if RestockAll(stock, front).Ok? {
        var s := RestockAll(stock, front).value;
        assert !Covers(front, last.productId);
        QuantityNone(front, last.productId);
        assert Restocked(stock, s, front, last.productId);
        if RestockAll(stock, plan).Ok? {
          forall p ensures Restocked(stock, RestockAll(stock, plan).value, plan, p) {
            assert Restocked(stock, s, front, p);
            QuantityInSnoc(front, last, p);
            CoversSnoc(plan, p);
          }
        }
      }
    }
  }

  /** What returning a plan does to one product's row. */
  predicate Restocked(before: map<string, int>, after: map<string, int>, plan: seq<Item>, p: string) {
    && (p in after <==> p in before || Covers(plan, p))
    && StockOf(after, p) == StockOf(before, p) + QuantityIn(plan, p)
  }

  lemma CoversSnoc(plan: seq<Item>, p: string)
    requires plan != []
    ensures Covers(plan, p) <==> Covers(plan[..|plan| - 1], p) || p == plan[|plan| - 1].productId
  {
    var front := plan[..|plan| - 1];
    if Covers(plan, p) {
      var i :| 0 <= i < |plan| && plan[i].productId == p;
      if i < |front| { assert front[i].productId == p; }
    }
    if Covers(front, p) {
      var i :| 0 <= i < |front| && front[i].productId == p;
      assert plan[i].productId == p;
    }
    assert plan[|plan| - 1].productId == plan[|plan| - 1].productId;
  }

  /** A failing prefix decides the outcome of the whole plan. */
  lemma {:induction false} ConsumePrefixFails(stock: map<string, int>, plan: seq<Item>, k: nat)
    requires k <= |plan| && ConsumeAll(stock, plan[..k]).Err?
    ensures ConsumeAll(stock, plan) == ConsumeAll(stock, plan[..k])
    decreases |plan|
  {
    if k == |plan| {
      assert plan[..k] == plan;
    } else {
      assert plan[..|plan| - 1][..k] == plan[..k];
      ConsumePrefixFails(stock, plan[..|plan| - 1], k);
    }
  }

  lemma {:induction false} RestockPrefixFails(stock: map<string, int>, plan: seq<Item>, k: nat)
    requires k <= |plan| && RestockAll(stock, plan[..k]).Err?
    ensures RestockAll(stock, plan) == RestockAll(stock, plan[..k])
    decreases |plan|
  {
    if k == |plan| {
      assert plan[..k] == plan;
    } else {
      assert plan[..|plan| - 1][..k] == plan[..k];
      RestockPrefixFails(stock, plan[..|plan| - 1], k);
    }
  }

  lemma {:induction false} PricePrefixFails(lines: seq<Line>, quotes: seq<Quote>, k: nat)
    requires |lines| == |quotes| && k <= |lines| && PriceAll(lines[..k], quotes[..k]).Err?
    ensures PriceAll(lines, quotes) == PriceAll(lines[..k], quotes[..k])
    decreases |lines|
  {
    var n := |lines| - 1;
    if k == |lines| {
      assert lines[..k] == lines && quotes[..k] == quotes;
    } else {
      assert lines[..n][..k] == lines[..k] && quotes[..n][..k] == quotes[..k];
      PricePrefixFails(lines[..n], quotes[..n], k);
    }
  }
}
