/**
 What placing and cancelling do to the tables, product by product, and exactly when they can: the
 requests that are accepted, the prices that add up, the stock that suffices and the error otherwise.
 */
module Effects {
  import opened Base
  import opened StockPlan
  import opened Tables

  // ------------------------------------------------------------------ requests

  predicate LineOk(line: Line) { line.productId != "" && 1 <= line.quantity <= 1_000_000 }

  predicate Acceptable(user: string, lines: seq<Line>) {
    user != "" && 1 <= |lines| <= 5 && forall i :: 0 <= i < |lines| ==> LineOk(lines[i])
  }

  /** A request is let through exactly when it is acceptable; a bad quantity is reported first. */
  lemma RequestErrorExactly(user: string, lines: seq<Line>)
    ensures RequestError(user, lines).None? <==> Acceptable(user, lines)
    ensures RequestError(user, lines) == Some(InvalidQuantity) <==>
              exists i :: 0 <= i < |lines| && !(1 <= lines[i].quantity <= 1_000_000)
    ensures RequestError(user, lines).Some? ==> RequestError(user, lines).value in {InvalidQuantity, InvalidRequest}
  {
    if RequestError(user, lines).None? {
      forall i | 0 <= i < |lines| ensures LineOk(lines[i]) {}
    } else if Acceptable(user, lines) {
      assert forall i :: 0 <= i < |lines| ==> LineOk(lines[i]);
    }
  }

  // ------------------------------------------------------------------ prices

  /** Every product was found at a price within int64, and the mathematical total is within it too. */
  predicate Priceable(lines: seq<Line>, quotes: seq<Quote>)
    requires |lines| == |quotes|
  {
    Convertible(quotes) && ExactTotal(lines, quotes) <= MAX_INT64
  }

  predicate Countable(lines: seq<Line>) {
    forall i :: 0 <= i < |lines| ==> 0 < lines[i].quantity <= MAX_INT64
  }

  /** A line whose quantity is not zero is priced only at a price within int64, and at exactly price times quantity. */
  lemma PricedLineExact(sofar: Priced, line: Line, quote: Quote)
    requires PriceOne(sofar, line, quote).Ok? && 0 < line.quantity <= MAX_INT64
    ensures quote.Price? && 0 <= quote.minor <= MAX_INT64
    ensures PriceOne(sofar, line, quote).value.lines
            == sofar.lines + [PricedLine(line.productId, line.quantity, quote.minor * line.quantity)]
  {
    Money.MultiplyExact(quote.minor, line.quantity);
    assert quote.minor * line.quantity >= quote.minor by { Money.ProductMonotone(1, line.quantity, quote.minor); }
  }

  predicate PricedAt(priced: seq<PricedLine>, lines: seq<Line>, quotes: seq<Quote>)
    requires |lines| == |quotes| && Convertible(quotes)
  {
    && |priced| == |lines|
    && forall i :: 0 <= i < |lines| ==>
         priced[i] == PricedLine(lines[i].productId, lines[i].quantity, quotes[i].minor * lines[i].quantity)
  }

  lemma {:induction false} PricedMeansConvertible(lines: seq<Line>, quotes: seq<Quote>)
    requires |lines| == |quotes| && Countable(lines) && PriceAll(lines, quotes).Ok?
    ensures Convertible(quotes) && PricedAt(PriceAll(lines, quotes).value.lines, lines, quotes)
    decreases |lines|
  {
    if lines != [] {
      var n := |lines| - 1;
      PricedMeansConvertible(lines[..n], quotes[..n]);
      PricedLineExact(PriceAll(lines[..n], quotes[..n]).value, lines[n], quotes[n]);
      forall i | 0 <= i < |quotes| ensures quotes[i].Price? && 0 <= quotes[i].minor <= MAX_INT64 {
        if i < n { assert quotes[..n][i] == quotes[i]; }
      }
    }
  }

  /**
   Pricing succeeds exactly when every product has a price within int64 and the mathematical total fits;
   then each line costs its price times its quantity, and the total is their sum.
   */
  lemma PricedExactly(lines: seq<Line>, quotes: seq<Quote>)
    requires |lines| == |quotes| && Countable(lines)
    ensures PriceAll(lines, quotes).Ok? <==> Priceable(lines, quotes)
    ensures PriceAll(lines, quotes).Ok? ==>
              var r := PriceAll(lines, quotes).value;
              && PricedAt(r.lines, lines, quotes)
              && 0 <= r.total == ExactTotal(lines, quotes) == SumOfPrices(r.lines)
              && LinesOf(r.lines) == lines
  {
    if PriceAll(lines, quotes).Ok? { PricedMeansConvertible(lines, quotes); }
    if Convertible(quotes) { PricingExact(lines, quotes); }
  }

  /** Otherwise the first line that cannot be priced decides the error. */
  lemma {:induction false} PricingRefused(lines: seq<Line>, quotes: seq<Quote>) returns (k: nat)
    requires |lines| == |quotes| && Countable(lines) && PriceAll(lines, quotes).Err?
    ensures k < |lines| && Priceable(lines[..k], quotes[..k]) && !Priceable(lines[..k + 1], quotes[..k + 1])
    ensures PriceAll(lines, quotes).error == if quotes[k].Missing? then ProductNotFound else InvalidAmount
    decreases |lines|
  {
    var n := |lines| - 1;
    if PriceAll(lines[..n], quotes[..n]).Err? {
      k := PricingRefused(lines[..n], quotes[..n]);
      assert lines[..n][..k] == lines[..k] && quotes[..n][..k] == quotes[..k];
      assert lines[..n][..k + 1] == lines[..k + 1] && quotes[..n][..k + 1] == quotes[..k + 1];
    } else {
      k := n;
      PricedExactly(lines[..n], quotes[..n]);
      assert lines[..n + 1] == lines && quotes[..n + 1] == quotes;
      PricedExactly(lines, quotes);
    }
  }

  // ------------------------------------------------------------------ stock

  /** The row of p covers what the lines ask of it, and they do ask for something. */
  predicate Enough(stock: map<string, int>, lines: seq<Line>, p: string) {
    p in stock && 0 < SumFor(lines, p) <= stock[p]
  }

  ghost predicate InStock(stock: map<string, int>, lines: seq<Line>) {
    forall p :: Mentions(lines, p) ==> Enough(stock, lines, p)
  }

  /** Every row gives exactly what the lines ask of its product. */
  ghost predicate Deducted(before: map<string, int>, after: map<string, int>, lines: seq<Line>) {
    && after.Keys == before.Keys
    && forall p :: p in before ==> after[p] == before[p] - SumFor(lines, p)
  }

  lemma {:induction false} SumPositive(lines: seq<Line>, p: string)
    requires Countable(lines) && Mentions(lines, p)
    ensures SumFor(lines, p) > 0
    decreases |lines|
  {
    var n := |lines| - 1;
    if lines[n].productId != p {
      var i :| 0 <= i < |lines| && lines[i].productId == p;
      assert lines[..n][i].productId == p;
      SumPositive(lines[..n], p);
    }
  }

  /** An item of the plan stands for its product's sum. */
  lemma PlanItem(lines: seq<Line>, p: string) returns (k: nat)
    requires Mentions(lines, p)
    ensures k < |PlanOf(lines)| && PlanOf(lines)[k] == Item(p, SumFor(lines, p))
  {
    PlanOfIsPlan(lines);
    var j :| 0 <= j < |lines| && lines[j].productId == p;
    assert Covers(PlanOf(lines), p);
    k :| 0 <= k < |PlanOf(lines)| && PlanOf(lines)[k].productId == p;
  }

  /** The stock of a placement is there exactly when every product has enough, and then exactly that is taken. */
  lemma ConsumesExactly(stock: map<string, int>, lines: seq<Line>)
    ensures ConsumeAll(stock, PlanOf(lines)).Ok? <==> InStock(stock, lines)
    ensures ConsumeAll(stock, PlanOf(lines)).Ok? ==> Deducted(stock, ConsumeAll(stock, PlanOf(lines)).value, lines)
  {
    var plan := PlanOf(lines);
    PlanOfIsPlan(lines);
    AscendingIsDistinct(plan);
    ConsumeAllRows(stock, plan);
    if ConsumeAll(stock, plan).Ok? {
      forall p | Mentions(lines, p) ensures Enough(stock, lines, p) { var k := PlanItem(lines, p); }
    }
    if InStock(stock, lines) {
      forall i | 0 <= i < |plan|
        ensures plan[i].quantity > 0 && plan[i].productId in stock && stock[plan[i].productId] >= plan[i].quantity
      {
        assert Enough(stock, lines, plan[i].productId);
      }
    }
  }

  /** The first product, in ascending order of ids, that is short. */
  ghost predicate FirstShort(stock: map<string, int>, lines: seq<Line>, p: string) {
    && Mentions(lines, p) && !Enough(stock, lines, p)
    && forall q :: Mentions(lines, q) && Less(q, p) ==> Enough(stock, lines, q)
  }

  function ShortError(stock: map<string, int>, lines: seq<Line>, p: string): Error {
    if SumFor(lines, p) == 0 then NonPositive else if p !in stock then InventoryNotFound else InsufficientStock
  }

  /** The first item of a plan that its own row cannot cover decides the error. */
  lemma {:induction false} ConsumeRefused(stock: map<string, int>, plan: seq<Item>) returns (k: nat)
    requires Distinct(plan) && ConsumeAll(stock, plan).Err?
    ensures k < |plan| && ConsumeAll(stock, plan) == ConsumeRow(stock, plan[k].productId, plan[k].quantity)
    ensures forall i :: 0 <= i < k ==> ConsumeRow(stock, plan[i].productId, plan[i].quantity).Ok?
    decreases |plan|
  {
    var n := |plan| - 1;
    var front := plan[..n];
    ConsumeAllRows(stock, front);
    if ConsumeAll(stock, front).Err? {
      k := ConsumeRefused(stock, front);
    } else {
      k := n;
      assert !Covers(front, plan[n].productId);
      QuantityNone(front, plan[n].productId);
    }
  }

  lemma ConsumesOrNames(stock: map<string, int>, lines: seq<Line>)
    ensures !InStock(stock, lines) ==>
              exists p :: FirstShort(stock, lines, p) && ConsumeAll(stock, PlanOf(lines))
                  == Err(ShortError(stock, lines, p))
  {
    var plan := PlanOf(lines);
    ConsumesExactly(stock, lines);
    if !InStock(stock, lines) {
      PlanOfIsPlan(lines);
      AscendingIsDistinct(plan);
      var k := ConsumeRefused(stock, plan);
      var p := plan[k].productId;
      forall q | Mentions(lines, q) && Less(q, p) ensures Enough(stock, lines, q) {
        var i := PlanItem(lines, q);
        if k <= i {
          if k < i { LessTransitive(p, q, p); }
          LessIrreflexive(p);
          assert false;
        }
      }
      assert FirstShort(stock, lines, p);
    }
  }

  // ------------------------------------------------------------------ placing

  predicate KeyFree(orders: map<string, Order>, o: Order) {
    o.idem.Some? ==> !KeyTaken(orders, o.user, o.idem.value.keyHash)
  }

  /** What a placement leaves: the order, its creation event, and exactly its units gone from stock. */
  ghost predicate Placed(before: Tables, after: Tables, o: Order, eventId: string) {
    && after.orders == before.orders[o.id := o]
    && after.outbox == before.outbox[eventId :=
           Event("order", o.id, "order.created", Payload(o.id, o.user, o.total, New, o.lines))]
    && Deducted(before.stock, after.stock, LinesOf(o.lines))
  }

  /** A placement goes through exactly when the stock is there and the key is free; else the first obstacle is named. */
  lemma PlaceTxExactly(t: Tables, o: Order, eventId: string)
    ensures var r := PlaceTx(t, o, eventId); var lines := LinesOf(o.lines);
            && (r.Ok? <==> InStock(t.stock, lines) && KeyFree(t.orders, o))
            && (r.Ok? ==> Placed(t, r.value, o, eventId))
            && (!InStock(t.stock, lines) ==>
                  exists p :: FirstShort(t.stock, lines, p) && r == Err(ShortError(t.stock, lines, p)))
            && (InStock(t.stock, lines) && !KeyFree(t.orders, o) ==> r == Err(IdempotencyDuplicate))
  {
    ConsumesExactly(t.stock, LinesOf(o.lines));
    ConsumesOrNames(t.stock, LinesOf(o.lines));
  }

  /** Under a free key only the stock can refuse it. */
  lemma PlacesWhenFree(t: Tables, o: Order, eventId: string)
    requires KeyFree(t.orders, o)
    ensures PlaceTx(t, o, eventId).Ok? <==> InStock(t.stock, LinesOf(o.lines))
    ensures PlaceTx(t, o, eventId).Ok? ==> Placed(t, PlaceTx(t, o, eventId).value, o, eventId)
    ensures PlaceTx(t, o, eventId).Err? ==> PlaceTx(t, o, eventId).error != IdempotencyDuplicate
  {
    PlaceTxExactly(t, o, eventId);
  }

  // ------------------------------------------------------------------ cancelling

  /** The row of p can take back what the lines asked of it. */
  predicate Room(stock: map<string, int>, lines: seq<Line>, p: string) {
    0 < SumFor(lines, p) <= MAX_INT64 && StockOf(stock, p) + SumFor(lines, p) <= MAX_INT64
  }

  ghost predicate Returnable(stock: map<string, int>, lines: seq<Line>) {
    forall p :: Mentions(lines, p) ==> Room(stock, lines, p)
  }

  /** Every product gets back exactly what the lines asked of it, in a row of its own if it had none. */
  ghost predicate Returned(before: map<string, int>, after: map<string, int>, lines: seq<Line>) {
    forall p :: && (p in after <==> p in before || Mentions(lines, p))
                && StockOf(after, p) == StockOf(before, p) + SumFor(lines, p)
  }

  lemma FitsWhenReturnable(stock: map<string, int>, lines: seq<Line>)
    requires Returnable(stock, lines)
    ensures Fits(lines)
  {
    PlanOfIsPlan(lines);
    forall p ensures SumFor(lines, p) <= MAX_INT64 {
      if Mentions(lines, p) {
        assert Room(stock, lines, p);
      } else {
        forall i | 0 <= i < |PlanOf(lines)| ensures PlanOf(lines)[i].productId != p {
          assert Mentions(lines, PlanOf(lines)[i].productId);
        }
        QuantityNone(PlanOf(lines), p);
      }
    }
  }

  lemma RestocksExactly(stock: map<string, int>, lines: seq<Line>)
    requires Fits(lines)
    ensures RestockAll(stock, PlanOf(lines)).Ok? <==> Returnable(stock, lines)
    ensures RestockAll(stock, PlanOf(lines)).Ok? ==> Returned(stock, RestockAll(stock, PlanOf(lines)).value, lines)
  {
    var plan := PlanOf(lines);
    PlanOfIsPlan(lines);
    AscendingIsDistinct(plan);
    RestockAllRows(stock, plan);
    if RestockAll(stock, plan).Ok? {
      var after := RestockAll(stock, plan).value;
      forall p | Mentions(lines, p) ensures Room(stock, lines, p) { var k := PlanItem(lines, p); }
      forall p ensures (p in after <==> p in stock || Mentions(lines, p))
        ensures StockOf(after, p) == StockOf(stock, p) + SumFor(lines, p)
      {
        assert Restocked(stock, after, plan, p);
        if Mentions(lines, p) { var k := PlanItem(lines, p); }
      }
    }
    if Returnable(stock, lines) {
      forall i | 0 <= i < |plan|
        ensures plan[i].quantity > 0 && StockOf(stock, plan[i].productId) + plan[i].quantity <= MAX_INT64
      {
        assert Room(stock, lines, plan[i].productId);
      }
    }
  }

  lemma {:induction false} RestockErrors(stock: map<string, int>, plan: seq<Item>)
    requires RestockAll(stock, plan).Err?
    ensures RestockAll(stock, plan).error in {NonPositive, OutOfRange}
    ensures RestockAll(stock, plan).error == NonPositive ==> exists i :: 0 <= i < |plan| && plan[i].quantity == 0
    decreases |plan|
  {
    var n := |plan| - 1;
    if RestockAll(stock, plan[..n]).Err? {
      RestockErrors(stock, plan[..n]);
    } else {
      assert plan[n].quantity == plan[n].quantity;
    }
  }

  /** With no line of quantity zero, only a row that would leave int64 refuses its units. */
  lemma RestockError(stock: map<string, int>, lines: seq<Line>)
    requires Countable(lines) && RestockAll(stock, PlanOf(lines)).Err?
    ensures RestockAll(stock, PlanOf(lines)) == Err(OutOfRange)
  {
    var plan := PlanOf(lines);
    RestockErrors(stock, plan);
    PlanOfIsPlan(lines);
    forall i | 0 <= i < |plan| ensures plan[i].quantity > 0 { SumPositive(lines, plan[i].productId); }
  }

  predicate Open(s: Status) { s in {New, InProgress} }

  ghost predicate MayCancel(t: Tables, orderId: string, user: string) {
    && orderId in t.orders && t.orders[orderId].user == user && Open(t.orders[orderId].status)
    && Returnable(t.stock, LinesOf(t.orders[orderId].lines))
  }

  /** What a cancellation leaves: that one order cancelled, its units back, the outbox as it was. */
  ghost predicate CancelledOne(before: Tables, after: Tables, orderId: string)
    requires orderId in before.orders
  {
    && after.orders == before.orders[orderId := before.orders[orderId].(status := Cancelled)]
    && after.outbox == before.outbox
    && Returned(before.stock, after.stock, LinesOf(before.orders[orderId].lines))
  }

  /**
   A cancellation goes through exactly for the order's own user, while the order is new or in progress and
   its units fit back; anyone else is denied, whatever the order's status.
   */
  lemma CancelTxExactly(t: Tables, orderId: string, user: string)
    ensures var r := CancelTx(t, orderId, user);
            && (r.Ok? <==> MayCancel(t, orderId, user))
            && (r.Ok? ==> CancelledOne(t, r.value, orderId))
            && (orderId !in t.orders ==> r == Err(RecordNotFound))
            && (orderId in t.orders && t.orders[orderId].user != user ==> r == Err(PermissionDenied))
            && (orderId in t.orders && t.orders[orderId].user == user && !Open(t.orders[orderId].status)
                ==> r == Err(InvalidState))
  {
    if orderId in t.orders {
      var lines := LinesOf(t.orders[orderId].lines);
      PlanFitsExactly(lines);
      if Fits(lines) { RestocksExactly(t.stock, lines); }
      if Returnable(t.stock, lines) { FitsWhenReturnable(t.stock, lines); }
    }
  }

  /** What else refuses it: a product's sum past int64, or a row that has no room for it. */
  lemma CancelOverflows(t: Tables, orderId: string, user: string)
    requires orderId in t.orders && t.orders[orderId].user == user && Open(t.orders[orderId].status)
    requires Countable(LinesOf(t.orders[orderId].lines)) && !MayCancel(t, orderId, user)
    ensures CancelTx(t, orderId, user)
            == Err(if Fits(LinesOf(t.orders[orderId].lines)) then OutOfRange else InvalidQuantity)
  {
    var lines := LinesOf(t.orders[orderId].lines);
    PlanFitsExactly(lines);
    if Fits(lines) {
      RestocksExactly(t.stock, lines);
      RestockError(t.stock, lines);
    }
  }
}
