/**
 A transaction that nothing disturbs does what the service's specification says, statement by statement:
 it commits exactly when the specification succeeds, with its tables, and fails with its error otherwise.
 */
module Undisturbed {
  import opened Base
  import opened StockPlan
  import opened Tables
  import opened Ledger
  import opened Effects
  import opened Transactions
  import T = Transactions
  import S = OrderService

  /** No transaction but t is running. */
  predicate AloneIn(s: Sys, t: string) { forall u :: u in s.txs && u != t ==> !s.txs[u].phase.Active? }

  lemma {:induction false} RunAppend(s: Sys, a: seq<T.Event>, b: seq<T.Event>)
    ensures Run(s, a + b) == Run(Run(s, a), b)
    decreases |b|
  {
    if b == [] {
      assert a + b == a;
    } else {
      RunAppend(s, a, b[..|b| - 1]);
      assert (a + b)[..|a + b| - 1] == a + b[..|b| - 1];
    }
  }

  // ------------------------------------------------------------------ the statements about stock

  function Takes(t: string, n: nat): seq<T.Event> { seq(n, i => Take(t)) }

  function RowAfter(placing: bool, stock: map<string, int>, p: string, q: int): Result<map<string, int>, Error> {
    if placing then ConsumeRow(stock, p, q) else RestockRow(stock, p, q)
  }

  function AllAfter(placing: bool, stock: map<string, int>, plan: seq<Item>): Result<map<string, int>, Error> {
    if placing then ConsumeAll(stock, plan) else RestockAll(stock, plan)
  }

  /** The rows before item j decide nothing about item j. */
  lemma NextRow(placing: bool, stock: map<string, int>, plan: seq<Item>, j: nat)
    requires Distinct(plan) && j < |plan| && AllAfter(placing, stock, plan[..j]).Ok?
    ensures var row := RowAfter(placing, stock, plan[j].productId, plan[j].quantity);
            var all := AllAfter(placing, stock, plan[..j + 1]);
            (row.Ok? <==> all.Ok?) && (row.Err? ==> all == row)
  {
    var front, p := plan[..j], plan[j].productId;
    assert plan[..j + 1][..j] == front;
    assert !Covers(front, p);
    QuantityNone(front, p);
    if placing {
      ConsumeAllRows(stock, front);
    } else {
      RestockAllRows(stock, front);
      assert Restocked(stock, RestockAll(stock, front).value, front, p);
    }
  }

  /** t is at item j of its plan, everything else as it was in s. */
  predicate TakenTo(s: Sys, u: Sys, t: string, tx: Tx, j: nat) {
    && u.world == s.world && t in u.txs && u == Put(s, t, u.txs[t])
    && u.txs[t] == tx.(next := j, writes := u.txs[t].writes)
  }

  predicate FailedWith(s: Sys, u: Sys, t: string, tx: Tx, e: Error) {
    && u.world == s.world && t in u.txs && u == Put(s, t, u.txs[t])
    && u.txs[t].phase == Failed(e) && u.txs[t].kind == tx.kind
  }

  /** Where t stands after j statements about stock. */
  predicate TookRows(s: Sys, u: Sys, t: string, tx: Tx, j: nat)
    requires j <= |tx.plan|
  {
    match AllAfter(tx.kind.Placing?, s.world.tables.stock, tx.plan[..j])
    case Ok(_) => TakenTo(s, u, t, tx, j)
    case Err(e) => FailedWith(s, u, t, tx, e)
  }

  lemma TakeAlone(s: Sys, u: Sys, t: string, tx: Tx, j: nat)
    requires AloneIn(s, t) && tx.phase.Active? && (tx.kind.Placing? <==> !tx.guarded)
    requires j < |tx.plan| && TakenTo(s, u, t, tx, j)
    ensures match RowAfter(tx.kind.Placing?, s.world.tables.stock, tx.plan[j].productId, tx.plan[j].quantity)
            case Ok(_) => TakenTo(s, TakeStep(u, t), t, tx, j + 1)
            case Err(e) => FailedWith(s, TakeStep(u, t), t, tx, e)
  {
    assert RowFree(u.txs, t, tx.plan[j].productId);
  }

  lemma OneTake(s: Sys, u: Sys, t: string, tx: Tx, j: nat)
    requires AloneIn(s, t) && tx.phase.Active? && (tx.kind.Placing? <==> !tx.guarded)
    requires Distinct(tx.plan) && j < |tx.plan| && TookRows(s, u, t, tx, j)
    ensures TookRows(s, TakeStep(u, t), t, tx, j + 1)
  {
    var placing, stock := tx.kind.Placing?, s.world.tables.stock;
    assert tx.plan[..j + 1][..j] == tx.plan[..j];
    if AllAfter(placing, stock, tx.plan[..j]).Ok? {
      NextRow(placing, stock, tx.plan, j);
      TakeAlone(s, u, t, tx, j);
    } else {
      assert TakeStep(u, t) == u;
    }
  }

  lemma {:induction false} AllTakes(s: Sys, u: Sys, t: string, tx: Tx, j: nat)
    requires AloneIn(s, t) && tx.phase.Active? && tx.next == 0 && (tx.kind.Placing? <==> !tx.guarded)
    requires Distinct(tx.plan) && j <= |tx.plan| && u == Put(s, t, tx)
    ensures TookRows(s, Run(u, Takes(t, j)), t, tx, j)
    decreases j
  {
    if j == 0 {
      assert tx.plan[..0] == [];
    } else {
      AllTakes(s, u, t, tx, j - 1);
      assert Takes(t, j)[..j - 1] == Takes(t, j - 1);
      OneTake(s, Run(u, Takes(t, j - 1)), t, tx, j - 1);
    }
  }

  // ------------------------------------------------------------------ a placement

  lemma InsertAlone(s: Sys, u: Sys, t: string, tx: Tx)
    requires AloneIn(s, t) && tx.phase.Active? && tx.kind.Placing? && !tx.guarded && TakenTo(s, u, t, tx, |tx.plan|)
    ensures var v := InsertStep(u, t);
            match InsertOrder(s.world.tables.orders, tx.kind.order)
            case Err(e) => FailedWith(s, v, t, tx, e)
            case Ok(_) => v == Put(s, t, u.txs[t].(guarded := true))
  {
  }

  /** Committing leaves what the transaction is for, and every other transaction, as they were. */
  predicate CommittedIn(s: Sys, f: Sys, t: string, tx: Tx) {
    && t in f.txs && f.txs[t].phase.Committed? && f.txs[t].kind == tx.kind
    && forall x :: x in f.txs && x != t ==> x in s.txs && f.txs[x] == s.txs[x]
  }

  lemma RecordAlone(s: Sys, u: Sys, t: string, tx: Tx)
    requires u == Put(s, t, tx) && tx.phase.Active? && tx.kind.Placing? && tx.guarded
    ensures RecordStep(u, t) == Put(s, t, tx.(recorded := true))
  {
  }

  lemma CommitPlacing(s: Sys, u: Sys, t: string, tx: Tx)
    requires u == Put(s, t, tx) && tx.phase.Active? && tx.kind.Placing? && tx.recorded
    requires Sound(u.world.tables) && TxOk(u.world.tables, tx)
    ensures var f := CommitStep(u, t);
            && CommittedIn(s, f, t, tx)
            && PlaceTx(s.world.tables, tx.kind.order, tx.kind.eventId) == Ok(f.world.tables)
  {
    CommitIsPlace(s.world.tables, tx);
  }

  function Finish(t: string): seq<T.Event> { [Insert(t), Record(t), Commit(t)] }

  lemma RunInsert(s: Sys, events: seq<T.Event>, t: string)
    ensures Run(s, events + [Insert(t)]) == InsertStep(Run(s, events), t)
  {
    assert (events + [Insert(t)])[..|events|] == events;
  }

  lemma RunRecord(s: Sys, events: seq<T.Event>, t: string)
    ensures Run(s, events + [Record(t)]) == RecordStep(Run(s, events), t)
  {
    assert (events + [Record(t)])[..|events|] == events;
  }

  lemma RunCommit(s: Sys, events: seq<T.Event>, t: string)
    ensures Run(s, events + [Commit(t)]) == CommitStep(Run(s, events), t)
  {
    assert (events + [Commit(t)])[..|events|] == events;
  }

  lemma RunFinish(s: Sys, t: string)
    ensures Run(s, Finish(t)) == CommitStep(RecordStep(InsertStep(s, t), t), t)
  {
    var two := [] + [Insert(t)] + [Record(t)];
    assert Finish(t) == two + [Commit(t)];
    RunInsert(s, [], t);
    RunRecord(s, [] + [Insert(t)], t);
    RunCommit(s, two, t);
    assert Run(s, []) == s;
  }

  /** Nothing more happens to a transaction that has failed. */
  lemma FailedStays(s: Sys, t: string)
    requires t in s.txs && s.txs[t].phase.Failed?
    ensures InsertStep(s, t) == s && RecordStep(s, t) == s && CommitStep(s, t) == s && GuardStep(s, t) == s
  {
  }

  /** How an undisturbed transaction ends, against what its operation does to the tables. */
  predicate EndsAs(s: Sys, f: Sys, t: string, tx: Tx, r: Result<Tables, Error>) {
    match r
    case Ok(after) => CommittedIn(s, f, t, tx) && f.world.tables == after
    case Err(e) => FailedWith(s, f, t, tx, e)
  }

  lemma FinishPlacing(s: Sys, u: Sys, t: string, tx: Tx)
    requires AloneIn(s, t) && tx.phase.Active? && tx.kind.Placing? && !tx.guarded && tx.plan == OrderPlan(tx.kind.order)
    requires Inv(u) && TakenTo(s, u, t, tx, |tx.plan|) && ConsumeAll(s.world.tables.stock, tx.plan).Ok?
    ensures EndsAs(s, Run(u, Finish(t)), t, tx, PlaceTx(s.world.tables, tx.kind.order, tx.kind.eventId))
  {
    RunFinish(u, t);
    InsertAlone(s, u, t, tx);
    var v := InsertStep(u, t);
    match InsertOrder(s.world.tables.orders, tx.kind.order)
    case Err(e) => FailedStays(v, t);
    case Ok(_) =>
      var held := u.txs[t].(guarded := true);
      RecordAlone(s, v, t, held);
      InsertKeeps(u, t);
      RecordKeeps(v, t);
      var w := RecordStep(v, t);
      assert TxOk(w.world.tables, w.txs[t]);
      CommitPlacing(s, w, t, held.(recorded := true));
  }

  lemma TakesThenFinish(s: Sys, t: string, tx: Tx)
    requires Inv(Put(s, t, tx)) && AloneIn(s, t) && tx.phase.Active? && tx.kind.Placing? && !tx.guarded && tx.next == 0
    requires tx.plan == OrderPlan(tx.kind.order)
    ensures EndsAs(s, Run(Put(s, t, tx), Takes(t, |tx.plan|) + Finish(t)), t, tx,
                   PlaceTx(s.world.tables, tx.kind.order, tx.kind.eventId))
  {
    var n, begun := |tx.plan|, Put(s, t, tx);
    PlanOfIsPlan(LinesOf(tx.kind.order.lines));
    AscendingIsDistinct(tx.plan);
    AllTakes(s, begun, t, tx, n);
    assert tx.plan[..n] == tx.plan;
    var taken := Run(begun, Takes(t, n));
    RunAppend(begun, Takes(t, n), Finish(t));
    if ConsumeAll(s.world.tables.stock, tx.plan).Ok? {
      RunKeeps(begun, Takes(t, n));
      FinishPlacing(s, taken, t, tx);
    } else {
      RunFinish(taken, t);
      FailedStays(taken, t);
    }
  }

  function KeyOf(req: S.PlaceReq): Option<Idempotency> { S.DraftOf(req, "", Priced(0, [])).idem }

  function BeginEvent(t: string, quotes: seq<Quote>, req: S.PlaceReq, orderId: string, eventId: string): T.Event {
    BeginPlace(t, req.user, req.lines, quotes, KeyOf(req), orderId, eventId)
  }

  /** The statements of one placement. */
  function Statements(t: string, lines: seq<Line>): seq<T.Event> { Takes(t, |PlanOf(lines)|) + Finish(t) }

  /** How the service's transaction callback, run alone, shows in the machine. */
  predicate AnsweredAs(s: Sys, f: Sys, t: string, eventId: string, r: Result<(Tables, Order), Error>) {
    && t in f.txs && f.txs[t].kind.Placing?
    && (forall u :: u in f.txs && u != t ==> u in s.txs && f.txs[u] == s.txs[u])
    && match r
       case Ok((after, o)) =>
         f.world.tables == after && f.txs[t].phase.Committed? && f.txs[t].kind == Placing(o, eventId)
       case Err(e) => f.world == s.world && f.txs[t].phase == Failed(e)
  }

  lemma FailedStaysSo(s: Sys, t: string, lines: seq<Line>)
    requires t in s.txs && s.txs[t].phase.Failed?
    ensures Run(s, Statements(t, lines)) == s
  {
    var n := |PlanOf(lines)|;
    RunAppend(s, Takes(t, n), Finish(t));
    FailedTakes(s, t, n);
    RunFinish(s, t);
    FailedStays(s, t);
  }

  lemma {:induction false} FailedTakes(s: Sys, t: string, n: nat)
    requires t in s.txs && s.txs[t].phase.Failed?
    ensures Run(s, Takes(t, n)) == s
    decreases n
  {
    if n > 0 {
      FailedTakes(s, t, n - 1);
      assert Takes(t, n)[..n - 1] == Takes(t, n - 1);
    }
  }

  lemma BeginsAs(s: Sys, t: string, quotes: seq<Quote>, req: S.PlaceReq, orderId: string, eventId: string)
    requires t !in s.txs && Unused(s, orderId, eventId) && |quotes| == |req.lines|
    ensures var begun := BeginPlaceStep(s, BeginEvent(t, quotes, req, orderId, eventId));
            && t in begun.txs && begun == Put(s, t, begun.txs[t]) && begun.txs[t].kind.Placing?
            && match PriceAll(req.lines, quotes)
               case Err(e) => begun.txs[t].phase == Failed(e)
               case Ok(priced) =>
                 var o := S.DraftOf(req, orderId, priced);
                 if !Fits(req.lines) then begun.txs[t].phase == Failed(InvalidQuantity)
                 else begun.txs[t] == Tx(Placing(o, eventId), OrderPlan(o), 0, map[], false, false, Active)
  {
  }

  lemma RefusedAtBegin(s: Sys, t: string, quotes: seq<Quote>, req: S.PlaceReq, orderId: string, eventId: string)
    requires t !in s.txs && Unused(s, orderId, eventId) && |quotes| == |req.lines|
    requires PriceAll(req.lines, quotes).Err? || !Fits(req.lines)
    ensures var begun := BeginPlaceStep(s, BeginEvent(t, quotes, req, orderId, eventId));
            AnsweredAs(s, Run(begun, Statements(t, req.lines)), t, eventId,
                       S.TransactionSpec(s.world.tables, quotes, req, orderId, eventId))
  {
    BeginsAs(s, t, quotes, req, orderId, eventId);
    FailedStaysSo(BeginPlaceStep(s, BeginEvent(t, quotes, req, orderId, eventId)), t, req.lines);
  }

  lemma GoesThrough(s: Sys, t: string, quotes: seq<Quote>, req: S.PlaceReq, orderId: string, eventId: string)
    requires Inv(s) && AloneIn(s, t) && t !in s.txs && Unused(s, orderId, eventId) && |quotes| == |req.lines|
    requires PriceAll(req.lines, quotes).Ok? && Fits(req.lines)
    ensures var begun := BeginPlaceStep(s, BeginEvent(t, quotes, req, orderId, eventId));
            var o := S.DraftOf(req, orderId, PriceAll(req.lines, quotes).value);
            EndsAs(s, Run(begun, Statements(t, req.lines)), t, begun.txs[t], PlaceTx(s.world.tables, o, eventId))
  {
    var ev := BeginEvent(t, quotes, req, orderId, eventId);
    BeginsAs(s, t, quotes, req, orderId, eventId);
    PricedAddsUp(req.lines, quotes);
    BeginPlaceKeeps(s, ev);
    TakesThenFinish(s, t, BeginPlaceStep(s, ev).txs[t]);
  }

  lemma EndAnswers(s: Sys, f: Sys, t: string, tx: Tx, o: Order, eventId: string, r: Result<Tables, Error>)
    requires EndsAs(s, f, t, tx, r) && tx.kind == Placing(o, eventId)
    ensures AnsweredAs(s, f, t, eventId, match r case Ok(after) => Ok((after, o)) case Err(e) => Err(e))
  {
  }

  /**
   The machine's placement, undisturbed, is the service's: the callback's specification decides whether it
   commits, with which order and tables, and with which error it fails otherwise.
   */
  lemma PlacesAsSpecified(s: Sys, t: string, quotes: seq<Quote>, req: S.PlaceReq, orderId: string, eventId: string)
    requires Inv(s) && AloneIn(s, t) && t !in s.txs && Unused(s, orderId, eventId) && |quotes| == |req.lines|
    ensures var begun := BeginPlaceStep(s, BeginEvent(t, quotes, req, orderId, eventId));
            AnsweredAs(s, Run(begun, Statements(t, req.lines)), t, eventId,
                       S.TransactionSpec(s.world.tables, quotes, req, orderId, eventId))
  {
    if PriceAll(req.lines, quotes).Err? || !Fits(req.lines) {
      RefusedAtBegin(s, t, quotes, req, orderId, eventId);
    } else {
      var o := S.DraftOf(req, orderId, PriceAll(req.lines, quotes).value);
      var begun := BeginPlaceStep(s, BeginEvent(t, quotes, req, orderId, eventId));
      GoesThrough(s, t, quotes, req, orderId, eventId);
      BeginsAs(s, t, quotes, req, orderId, eventId);
      EndAnswers(s, Run(begun, Statements(t, req.lines)), t, begun.txs[t], o, eventId,
                 PlaceTx(s.world.tables, o, eventId));
    }
  }

  // ------------------------------------------------------------------ a cancellation

  /** The statements of one cancellation: read and check, guard, return the stock, commit. */
  function CancelStatements(t: string, o: Order): seq<T.Event> {
    [Guard(t)] + Takes(t, |OrderPlan(o)|) + [Commit(t)]
  }

  lemma RunGuard(s: Sys, t: string)
    ensures Run(s, [Guard(t)]) == GuardStep(s, t)
  {
    assert [Guard(t)][..0] == [];
    assert Run(s, []) == s;
  }

  lemma RunCancel(s: Sys, t: string, n: nat)
    ensures Run(s, [Guard(t)] + Takes(t, n) + [Commit(t)]) == CommitStep(Run(GuardStep(s, t), Takes(t, n)), t)
  {
    RunCommit(s, [Guard(t)] + Takes(t, n), t);
    RunAppend(s, [Guard(t)], Takes(t, n));
    RunGuard(s, t);
  }

  lemma CommitCancelling(s: Sys, u: Sys, t: string, tx: Tx)
    requires tx.phase.Active? && tx.kind.Cancelling? && tx.guarded && TakenTo(s, u, t, tx, |tx.plan|)
    requires Sound(u.world.tables) && TxOk(u.world.tables, u.txs[t])
    ensures var f := CommitStep(u, t);
            && CommittedIn(s, f, t, tx)
            && CancelTx(s.world.tables, tx.kind.order.id, tx.kind.user) == Ok(f.world.tables)
  {
    CommitIsCancel(u.world.tables, u.txs[t]);
  }

  lemma FinishCancelling(s: Sys, t: string, tx: Tx)
    requires Inv(Put(s, t, tx)) && AloneIn(s, t)
    requires tx.phase.Active? && tx.kind.Cancelling? && tx.guarded && tx.next == 0
    requires tx.plan == OrderPlan(tx.kind.order)
    ensures var r := RestockAll(s.world.tables.stock, tx.plan);
            EndsAs(s, CommitStep(Run(Put(s, t, tx), Takes(t, |tx.plan|)), t), t, tx,
                   if r.Err? then Err(r.error) else CancelTx(s.world.tables, tx.kind.order.id, tx.kind.user))
  {
    var n, held := |tx.plan|, Put(s, t, tx);
    PlanOfIsPlan(LinesOf(tx.kind.order.lines));
    AscendingIsDistinct(tx.plan);
    AllTakes(s, held, t, tx, n);
    assert tx.plan[..n] == tx.plan;
    var taken := Run(held, Takes(t, n));
    RunKeeps(held, Takes(t, n));
    if RestockAll(s.world.tables.stock, tx.plan).Ok? {
      assert TxOk(taken.world.tables, taken.txs[t]);
      CommitCancelling(s, taken, t, tx);
    } else {
      FailedStays(taken, t);
    }
  }

  lemma GuardAlone(s: Sys, t: string, o: Order, user: string)
    requires t !in s.txs && AloneIn(s, t) && o.id in s.world.tables.orders && s.world.tables.orders[o.id] == o
    ensures var held := GuardStep(BeginCancelStep(s, t, o.id, user), t);
            var tx := Tx(Cancelling(o, user), OrderPlan(o), 0, map[], false, false, Active);
            if user != o.user then FailedWith(s, held, t, tx, PermissionDenied)
            else if !Cancellable(o.status) then FailedWith(s, held, t, tx, InvalidState)
            else if !PlanFits(tx.plan) then FailedWith(s, held, t, tx, InvalidQuantity)
            else held == Put(s, t, tx.(guarded := true))
  {
    assert OrderFree(BeginCancelStep(s, t, o.id, user).txs, t, o.id);
  }

  /** The machine's cancellation of a stored order, undisturbed, is the service's, error by error. */
  lemma CancelsAsSpecified(s: Sys, t: string, orderId: string, user: string)
    requires Inv(s) && AloneIn(s, t) && t !in s.txs && orderId in s.world.tables.orders
    ensures var o := s.world.tables.orders[orderId];
            var tx := Tx(Cancelling(o, user), OrderPlan(o), 0, map[], false, false, Active);
            EndsAs(s, Run(BeginCancelStep(s, t, orderId, user), CancelStatements(t, o)), t, tx,
                   CancelTx(s.world.tables, orderId, user))
  {
    var o := s.world.tables.orders[orderId];
    var tx := Tx(Cancelling(o, user), OrderPlan(o), 0, map[], false, false, Active);
    var n, begun := |OrderPlan(o)|, BeginCancelStep(s, t, orderId, user);
    var held := GuardStep(begun, t);
    assert o.id == orderId;
    RunCancel(begun, t, n);
    GuardAlone(s, t, o, user);
    if user != o.user || !Cancellable(o.status) || !PlanFits(tx.plan) {
      FailedTakes(held, t, n);
      FailedStays(held, t);
    } else {
      BeginCancelKeeps(s, t, orderId, user);
      GuardKeeps(begun, t);
      FinishCancelling(s, t, tx.(guarded := true));
    }
  }

  // ------------------------------------------------------------------ administration

  /** While nobody holds the row, setting and adjusting stock do at once what they say, and nothing else. */
  lemma AdministersAsSpecified(s: Sys, p: string, q: int, delta: int)
    requires Unlocked(s.txs, p)
    ensures 0 <= q <= MAX_INT64 ==>
              var f := Apply(s, AdminSet(p, q));
              f.txs == s.txs && f.world.tables == s.world.tables.(stock := s.world.tables.stock[p := q])
    ensures var f := Apply(s, AdminAdjust(p, delta)); var stock := s.world.tables.stock;
            var after := StockOf(stock, p) + delta;
            && f.txs == s.txs
            && f.world.tables
               == (if (if delta > 0 then after <= MAX_INT64 else p in stock && after >= 0) then
                     s.world.tables.(stock := stock[p := after]) else s.world.tables)
  {
  }
}
