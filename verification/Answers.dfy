/**
 A request that nothing disturbs is answered as the service's specification says: with its order, new or
 replayed, and a success record under its key; or with its error, and the reservation gone.
 */
module Answers {
  import opened Base
  import opened StockPlan
  import opened Tables
  import opened Ledger
  import opened Effects
  import opened Idempotency
  import I = Idempotency
  import R = Replay
  import S = OrderService
  import T = Transactions
  import U = Undisturbed

  /** The service request of a gateway request, keyed or not. */
  function RequestOf(q: Request): S.PlaceReq {
    match q.key
    case None => S.PlaceReq(q.user, q.lines, None, None)
    case Some(h) => S.PlaceReq(q.user, q.lines, Some(h), Some(Fingerprint(q)))
  }

  /** Request r at pc, over this database and cache, everything else as in s. */
  function With(s: Sys, r: string, pc: Pc, db: T.Sys, redis: map<string, Record>): Sys
    requires r in s.requests
  {
    Sys(db, redis, s.requests[r := s.requests[r].(pc := pc)])
  }

  /** An event of request r or of its transaction t that goes well. */
  predicate Smooth(ev: I.Event, r: string, t: string) {
    match ev
    case DoReserve(x, outcome) => x == r && outcome == Fine
    case DoValidate(x) => x == r
    case DoLookup(x, _, fault) => x == r && !fault
    case DoRequery(x, _, fault) => x == r && !fault
    case DoBegin(x, u, _, _, _) => x == r && u == t
    case DoObserve(x, fault) => x == r && !fault
    case DoComplete(x, outcome) => x == r && outcome == Fine
    case DoRelease(x, outcome) => x == r && outcome == Fine
    case Database(e) => e in {T.Take(t), T.Insert(t), T.Record(t), T.Commit(t)}
    case _ => false
  }

  predicate AllSmooth(events: seq<I.Event>, r: string, t: string) {
    forall i :: 0 <= i < |events| ==> Smooth(events[i], r, t)
  }

  /** A smooth run from s to u. */
  ghost predicate Leads(s: Sys, u: Sys, r: string, t: string) {
    exists events :: AllSmooth(events, r, t) && Run(s, events) == u
  }

  lemma LeadsNowhere(s: Sys, r: string, t: string)
    ensures Leads(s, s, r, t)
  {
    assert Run(s, []) == s && AllSmooth([], r, t);
  }

  lemma {:induction false} RunAppend(s: Sys, a: seq<I.Event>, b: seq<I.Event>)
    ensures Run(s, a + b) == Run(Run(s, a), b)
    decreases |b|
  {
    if b == [] {
      assert a + b == a;
    } else {
      RunAppend(s, a, b[..|b| - 1]);
      assert (a + b)[..|a + b| - 1] == a + b[..|b| - 1];
    }
  }

  lemma LeadsOn(s: Sys, u: Sys, v: Sys, r: string, t: string)
    requires Leads(s, u, r, t) && Leads(u, v, r, t)
    ensures Leads(s, v, r, t)
  {
    var a :| AllSmooth(a, r, t) && Run(s, a) == u;
    var b :| AllSmooth(b, r, t) && Run(u, b) == v;
    RunAppend(s, a, b);
    assert AllSmooth(a + b, r, t);
  }

  lemma LeadsBy(s: Sys, ev: I.Event, r: string, t: string)
    requires Smooth(ev, r, t)
    ensures Leads(s, Apply(s, ev), r, t)
  {
    assert [ev][..0] == [] && Run(s, []) == s;
    assert AllSmooth([ev], r, t) && Run(s, [ev]) == Apply(s, ev);
  }

  lemma WithWith(s: Sys, r: string, pc: Pc, db: T.Sys, redis: map<string, Record>, pc2: Pc, db2: T.Sys,
                 redis2: map<string, Record>)
    requires r in s.requests
    ensures With(With(s, r, pc, db, redis), r, pc2, db2, redis2) == With(s, r, pc2, db2, redis2)
  {
    var q := s.requests[r];
    assert s.requests[r := q.(pc := pc)][r := q.(pc := pc2)] == s.requests[r := q.(pc := pc2)];
  }

  /** A smooth run of the request goes on to its next step. */
  lemma GoesOn(s: Sys, r: string, t: string, u: Sys, pc: Pc, pc2: Pc, db2: T.Sys, redis2: map<string, Record>)
    requires r in s.requests && u == With(s, r, pc, u.db, u.redis) && Leads(s, u, r, t)
    requires Leads(u, With(u, r, pc2, db2, redis2), r, t)
    ensures Leads(s, With(s, r, pc2, db2, redis2), r, t)
  {
    WithWith(s, r, pc, u.db, u.redis, pc2, db2, redis2);
    LeadsOn(s, u, With(s, r, pc2, db2, redis2), r, t);
  }

  // ------------------------------------------------------------------ the handler's steps

  lemma Acquires(s: Sys, r: string, t: string)
    requires At(s, r, Reserve) && s.requests[r].key.Some?
    requires CacheKey(s.requests[r].user, s.requests[r].key.value) !in s.redis
    ensures var q := s.requests[r];
            var redis := s.redis[CacheKey(q.user, q.key.value) := Record(false, "", Fingerprint(q))];
            Leads(s, With(s, r, Validate, s.db, redis), r, t)
  {
    LeadsBy(s, DoReserve(r, Fine), r, t);
  }

  lemma Validates(s: Sys, r: string, t: string)
    requires At(s, r, Validate)
    ensures var q := s.requests[r];
            var pc := match RequestError(q.user, q.lines)
                      case Some(e) => Release(e)
                      case None => if q.key.Some? then Lookup else Begin;
            Leads(s, With(s, r, pc, s.db, s.redis), r, t)
  {
    LeadsBy(s, DoValidate(r), r, t);
  }

  lemma LooksUp(s: Sys, r: string, t: string, found: Option<string>)
    requires At(s, r, Lookup) && s.requests[r].key.Some? && TrueAnswer(s, s.requests[r], found)
    ensures Leads(s, With(s, r, AfterLookup(s, s.requests[r], found, false, Begin), s.db, s.redis), r, t)
  {
    LeadsBy(s, DoLookup(r, found, false), r, t);
  }

  lemma Completes(s: Sys, r: string, t: string, id: string)
    requires At(s, r, Complete(id)) && id != ""
    ensures var q := s.requests[r];
            var redis := if Reserves(q) then s.redis[CacheKey(q.user, q.key.value) := Record(true, id, Fingerprint(q))]
                         else s.redis;
            Leads(s, With(s, r, Replied(id), s.db, redis), r, t)
  {
    LeadsBy(s, DoComplete(r, Fine), r, t);
  }

  lemma Releases(s: Sys, r: string, t: string, e: Error)
    requires At(s, r, Release(e))
    ensures var q := s.requests[r];
            var redis := if Reserves(q) then s.redis - {CacheKey(q.user, q.key.value)} else s.redis;
            Leads(s, With(s, r, Refused(Rejected(e)), s.db, redis), r, t)
  {
    LeadsBy(s, DoRelease(r, Fine), r, t);
  }

  // ------------------------------------------------------------------ the transaction

  lemma Begins(s: Sys, r: string, t: string, quotes: seq<Quote>, orderId: string, eventId: string)
    requires At(s, r, Begin) && t !in s.db.txs && T.Unused(s.db, orderId, eventId)
    requires |quotes| == |s.requests[r].lines|
    ensures var db := T.BeginPlaceStep(s.db, U.BeginEvent(t, quotes, RequestOf(s.requests[r]), orderId, eventId));
            Leads(s, With(s, r, InTx(t), db, s.redis), r, t)
  {
    var q := s.requests[r];
    U.BeginsAs(s.db, t, quotes, RequestOf(q), orderId, eventId);
    BeginStepIs(s, r, t, quotes, orderId, eventId);
    LeadsBy(s, DoBegin(r, t, quotes, orderId, eventId), r, t);
  }

  lemma BeginStepIs(s: Sys, r: string, t: string, quotes: seq<Quote>, orderId: string, eventId: string)
    requires At(s, r, Begin) && t !in s.db.txs && |quotes| == |s.requests[r].lines|
    requires var db := T.BeginPlaceStep(s.db, U.BeginEvent(t, quotes, RequestOf(s.requests[r]), orderId, eventId));
             t in db.txs
    ensures var db := T.BeginPlaceStep(s.db, U.BeginEvent(t, quotes, RequestOf(s.requests[r]), orderId, eventId));
            BeginStep(s, r, t, quotes, orderId, eventId) == With(s, r, InTx(t), db, s.redis)
  {
    assert U.KeyOf(RequestOf(s.requests[r])) == IdemOf(s.requests[r]);
  }

  function Lifted(statements: seq<T.Event>): (r: seq<I.Event>)
    ensures |r| == |statements| && forall i :: 0 <= i < |r| ==> r[i] == Database(statements[i])
  {
    seq(|statements|, i requires 0 <= i < |statements| => Database(statements[i]))
  }

  lemma DatabaseStep(s: Sys, e: T.Event)
    requires !e.BeginPlace?
    ensures Apply(s, Database(e)) == s.(db := T.Apply(s.db, e))
  {
  }

  lemma {:induction false} RunLifted(s: Sys, statements: seq<T.Event>)
    requires forall i :: 0 <= i < |statements| ==> !statements[i].BeginPlace?
    ensures Run(s, Lifted(statements)) == s.(db := T.Run(s.db, statements))
    decreases |statements|
  {
    if statements != [] {
      var n := |statements| - 1;
      RunLifted(s, statements[..n]);
      assert Lifted(statements)[..n] == Lifted(statements[..n]);
      DatabaseStep(Run(s, Lifted(statements[..n])), statements[n]);
    }
  }

  lemma Runs(s: Sys, r: string, t: string, lines: seq<Line>)
    ensures Leads(s, s.(db := T.Run(s.db, U.Statements(t, lines))), r, t)
  {
    var statements := U.Statements(t, lines);
    RunLifted(s, statements);
    assert AllSmooth(Lifted(statements), r, t);
  }

  lemma Observes(s: Sys, r: string, t: string)
    requires At(s, r, InTx(t)) && t in s.db.txs
    ensures match s.db.txs[t].phase
            case Active => true
            case Committed => Leads(s, With(s, r, Complete(s.db.txs[t].kind.order.id), s.db, s.redis), r, t)
            case Failed(e) => e != IdempotencyDuplicate ==> Leads(s, With(s, r, Release(e), s.db, s.redis), r, t)
  {
    LeadsBy(s, DoObserve(r, false), r, t);
  }

  /** Where the request goes once its transaction has ended so. */
  function AfterTransaction(r: Result<(Tables, Order), Error>): Pc {
    match r
    case Ok((_, o)) => Complete(o.id)
    case Err(e) => Release(e)
  }

  lemma Transacts(s: Sys, r: string, t: string, quotes: seq<Quote>, orderId: string, eventId: string)
    returns (db: T.Sys)
    requires At(s, r, Begin) && T.Inv(s.db) && U.AloneIn(s.db, t) && t !in s.db.txs
    requires T.Unused(s.db, orderId, eventId) && |quotes| == |s.requests[r].lines|
    requires S.TransactionSpec(s.db.world.tables, quotes, RequestOf(s.requests[r]), orderId, eventId)
             != Err(IdempotencyDuplicate)
    ensures var spec := S.TransactionSpec(s.db.world.tables, quotes, RequestOf(s.requests[r]), orderId, eventId);
            && db.world.tables == (if spec.Ok? then spec.value.0 else s.db.world.tables)
            && Leads(s, With(s, r, AfterTransaction(spec), db, s.redis), r, t)
  {
    var req := RequestOf(s.requests[r]);
    var begun := T.BeginPlaceStep(s.db, U.BeginEvent(t, quotes, req, orderId, eventId));
    Begins(s, r, t, quotes, orderId, eventId);
    U.PlacesAsSpecified(s.db, t, quotes, req, orderId, eventId);
    db := T.Run(begun, U.Statements(t, req.lines));
    var inTx := With(s, r, InTx(t), begun, s.redis);
    Runs(inTx, r, t, req.lines);
    var ended := With(s, r, InTx(t), db, s.redis);
    LeadsOn(s, inTx, ended, r, t);
    Ends(s, ended, r, t, S.TransactionSpec(s.db.world.tables, quotes, req, orderId, eventId), eventId);
  }

  lemma Ends(s: Sys, ended: Sys, r: string, t: string, spec: Result<(Tables, Order), Error>, eventId: string)
    requires r in s.requests && ended == With(s, r, InTx(t), ended.db, s.redis) && Leads(s, ended, r, t)
    requires U.AnsweredAs(s.db, ended.db, t, eventId, spec) && spec != Err(IdempotencyDuplicate)
    ensures Leads(s, With(s, r, AfterTransaction(spec), ended.db, s.redis), r, t)
  {
    Observes(ended, r, t);
    GoesOn(s, r, t, ended, InTx(t), AfterTransaction(spec), ended.db, s.redis);
  }

  // ------------------------------------------------------------------ the whole request

  /** A request as it comes in, its key not in Redis. */
  predicate Arrived(s: Sys, r: string) {
    && r in s.requests
    && var q := s.requests[r];
       if Reserves(q) then q.pc == Reserve && CacheKey(q.user, q.key.value) !in s.redis else q.pc == Validate
  }

  /** The cache while the request holds its reservation, if it makes one. */
  function Reserved(s: Sys, r: string): map<string, Record>
    requires r in s.requests
  {
    var q := s.requests[r];
    if Reserves(q) then s.redis[CacheKey(q.user, q.key.value) := Record(false, "", Fingerprint(q))] else s.redis
  }

  /** The reply that follows the request's last step. */
  function Last(pc: Pc): Pc {
    match pc
    case Complete(id) => Replied(id)
    case Release(e) => Refused(Rejected(e))
    case _ => pc
  }

  /** The end of a request: its answer given, its record left behind only if it succeeded. */
  function Concluded(s: Sys, r: string, pc: Pc, db: T.Sys): Sys
    requires r in s.requests
  {
    var q := s.requests[r];
    var redis :=
      if Reserves(q) && pc.Complete? then
        s.redis[CacheKey(q.user, q.key.value) := Record(true, pc.orderId, Fingerprint(q))]
      else s.redis;
    With(s, r, Last(pc), db, redis)
  }

  lemma ConcludesWell(s: Sys, u: Sys, r: string, t: string, id: string)
    requires Arrived(s, r) && Leads(s, u, r, t) && u == With(s, r, Complete(id), u.db, Reserved(s, r)) && id != ""
    ensures Leads(s, Concluded(s, r, Complete(id), u.db), r, t)
  {
    var q := s.requests[r];
    Completes(u, r, t, id);
    var redis := Concluded(s, r, Complete(id), u.db).redis;
    if Reserves(q) {
      assert Reserved(s, r)[CacheKey(q.user, q.key.value) := Record(true, id, Fingerprint(q))] == redis;
    }
    GoesOn(s, r, t, u, Complete(id), Replied(id), u.db, redis);
  }

  lemma ConcludesBadly(s: Sys, u: Sys, r: string, t: string, e: Error)
    requires Arrived(s, r) && Leads(s, u, r, t) && u == With(s, r, Release(e), u.db, Reserved(s, r))
    ensures Leads(s, Concluded(s, r, Release(e), u.db), r, t)
  {
    Releases(u, r, t, e);
    if Reserves(s.requests[r]) { Unreserves(s, r); }
    GoesOn(s, r, t, u, Release(e), Refused(Rejected(e)), u.db, s.redis);
  }

  lemma Unreserves(s: Sys, r: string)
    requires Arrived(s, r) && Reserves(s.requests[r])
    ensures Reserved(s, r) - {CacheKey(s.requests[r].user, s.requests[r].key.value)} == s.redis
  {
  }

  lemma ReachesValidate(s: Sys, r: string, t: string)
    requires Arrived(s, r)
    ensures Leads(s, With(s, r, Validate, s.db, Reserved(s, r)), r, t)
  {
    var q := s.requests[r];
    if Reserves(q) {
      Acquires(s, r, t);
    } else {
      assert s.requests[r := q.(pc := Validate)] == s.requests;
      LeadsNowhere(s, r, t);
    }
  }

  function Checked(q: Request): Pc {
    match RequestError(q.user, q.lines)
    case Some(e) => Release(e)
    case None => if q.key.Some? then Lookup else Begin
  }

  lemma ReachesChecked(s: Sys, r: string, t: string)
    requires Arrived(s, r)
    ensures Leads(s, With(s, r, Checked(s.requests[r]), s.db, Reserved(s, r)), r, t)
  {
    var u := With(s, r, Validate, s.db, Reserved(s, r));
    ReachesValidate(s, r, t);
    Validates(u, r, t);
    GoesOn(s, r, t, u, Validate, Checked(s.requests[r]), s.db, Reserved(s, r));
  }

  /** What the lookup by user and key finds. */
  ghost function Found(s: Sys, r: string): (found: Option<string>)
    requires r in s.requests && s.requests[r].key.Some?
    ensures TrueAnswer(s, s.requests[r], found)
  {
    var q := s.requests[r];
    if KeyTaken(Orders(s), q.user, q.key.value) then Some(S.KeyOwner(s.db.world.tables, RequestOf(q))) else None
  }

  lemma ReachesLookedUp(s: Sys, r: string, t: string)
    requires Arrived(s, r) && s.requests[r].key.Some?
    requires RequestError(s.requests[r].user, s.requests[r].lines).None?
    ensures var pc := AfterLookup(s, s.requests[r], Found(s, r), false, Begin);
            Leads(s, With(s, r, pc, s.db, Reserved(s, r)), r, t)
  {
    var u := With(s, r, Lookup, s.db, Reserved(s, r));
    ReachesChecked(s, r, t);
    LooksUp(u, r, t, Found(s, r));
    var pc := AfterLookup(s, s.requests[r], Found(s, r), false, Begin);
    assert pc == AfterLookup(u, u.requests[r], Found(s, r), false, Begin);
    GoesOn(s, r, t, u, Lookup, pc, s.db, Reserved(s, r));
  }

  /** What the service's specification answers. */
  ghost function Specified(s: Sys, r: string, quotes: seq<Quote>, orderId: string, eventId: string)
    : (Tables, Result<S.Reply, Error>)
    requires r in s.requests && |quotes| == |s.requests[r].lines|
  {
    S.PlaceSpec(s.db.world.tables, quotes, RequestOf(s.requests[r]), orderId, eventId)
  }

  /** An acceptable request under a free key gets to the transaction, and its specification is the transaction's. */
  lemma MeetsTransaction(s: Sys, r: string, quotes: seq<Quote>, orderId: string, eventId: string)
    requires r in s.requests && |quotes| == |s.requests[r].lines|
    requires RequestError(s.requests[r].user, s.requests[r].lines).None?
    requires S.FreshKey(s.db.world.tables, RequestOf(s.requests[r]))
    ensures var spec := S.TransactionSpec(s.db.world.tables, quotes, RequestOf(s.requests[r]), orderId, eventId);
            var (after, answer) := Specified(s, r, quotes, orderId, eventId);
            && spec != Err(IdempotencyDuplicate)
            && (spec.Ok? ==> spec.value.1.id == orderId)
            && after == (if spec.Ok? then spec.value.0 else s.db.world.tables)
            && R.NextStep(answer) == AfterTransaction(spec)
  {
    var req := RequestOf(s.requests[r]);
    RequestErrorExactly(req.user, req.lines);
    S.TransactionExactly(s.db.world.tables, quotes, req, orderId, eventId);
  }

  lemma AnsweredByTransaction(s: Sys, r: string, t: string, quotes: seq<Quote>, orderId: string, eventId: string)
    returns (db: T.Sys)
    requires Inv(s) && Arrived(s, r) && U.AloneIn(s.db, t) && t !in s.db.txs && T.Unused(s.db, orderId, eventId)
    requires |quotes| == |s.requests[r].lines|
    requires RequestError(s.requests[r].user, s.requests[r].lines).None?
    requires S.FreshKey(s.db.world.tables, RequestOf(s.requests[r]))
    requires Leads(s, With(s, r, Begin, s.db, Reserved(s, r)), r, t)
    ensures var (after, answer) := Specified(s, r, quotes, orderId, eventId);
            db.world.tables == after && Leads(s, Concluded(s, r, R.NextStep(answer), db), r, t)
  {
    var u := With(s, r, Begin, s.db, Reserved(s, r));
    MeetsTransaction(s, r, quotes, orderId, eventId);
    var spec := S.TransactionSpec(s.db.world.tables, quotes, RequestOf(s.requests[r]), orderId, eventId);
    assert RequestOf(u.requests[r]) == RequestOf(s.requests[r]);
    db := Transacts(u, r, t, quotes, orderId, eventId);
    GoesOn(s, r, t, u, Begin, AfterTransaction(spec), db, Reserved(s, r));
    var ended := With(s, r, AfterTransaction(spec), db, Reserved(s, r));
    match spec
    case Ok((_, o)) => ConcludesWell(s, ended, r, t, o.id);
    case Err(e) => ConcludesBadly(s, ended, r, t, e);
  }

  lemma LookupDecides(s: Sys, r: string, quotes: seq<Quote>, orderId: string, eventId: string)
    requires Inv(s) && r in s.requests && "" !in Orders(s) && |quotes| == |s.requests[r].lines|
    requires RequestError(s.requests[r].user, s.requests[r].lines).None?
    requires !S.FreshKey(s.db.world.tables, RequestOf(s.requests[r]))
    ensures var (after, answer) := Specified(s, r, quotes, orderId, eventId); var pc := R.NextStep(answer);
            && after == s.db.world.tables
            && AfterLookup(s, s.requests[r], Found(s, r), false, Begin) == pc
            && ((pc.Complete? && pc.orderId != "") || pc.Release?)
  {
    var q := s.requests[r];
    R.ReplaysAgree(s, q, Found(s, r), Begin);
    assert R.ServiceRequest(q) == RequestOf(q);
    assert Specified(s, r, quotes, orderId, eventId).1 == S.ReplayOf(s.db.world.tables, RequestOf(q));
  }

  /** A key that is taken is answered by the durable lookup. */
  lemma AnsweredByLookup(s: Sys, r: string, t: string, quotes: seq<Quote>, orderId: string, eventId: string)
    requires Inv(s) && Arrived(s, r) && "" !in Orders(s) && |quotes| == |s.requests[r].lines|
    requires RequestError(s.requests[r].user, s.requests[r].lines).None?
    requires !S.FreshKey(s.db.world.tables, RequestOf(s.requests[r]))
    ensures var (after, answer) := Specified(s, r, quotes, orderId, eventId);
            after == s.db.world.tables && Leads(s, Concluded(s, r, R.NextStep(answer), s.db), r, t)
  {
    LookupDecides(s, r, quotes, orderId, eventId);
    ReachesLookedUp(s, r, t);
    var pc := AfterLookup(s, s.requests[r], Found(s, r), false, Begin);
    var u := With(s, r, pc, s.db, Reserved(s, r));
    if pc.Complete? { ConcludesWell(s, u, r, t, pc.orderId); } else { ConcludesBadly(s, u, r, t, pc.error); }
  }

  /**
   A request that nothing disturbs, from its arrival to its reply, keyed or not, cached or not: the handler,
   the service and the database together do what the service's specification says. The tables are the
   specified ones; the reply names the specified order, and then a success record for it lies under the key,
   or it is the specified error, and then the reservation is gone.
   */
  lemma AnsweredAsSpecified(s: Sys, r: string, t: string, quotes: seq<Quote>, orderId: string, eventId: string)
    returns (db: T.Sys)
    requires Inv(s) && Arrived(s, r) && "" !in Orders(s)
    requires U.AloneIn(s.db, t) && t !in s.db.txs && T.Unused(s.db, orderId, eventId)
    requires |quotes| == |s.requests[r].lines|
    ensures var (after, answer) := Specified(s, r, quotes, orderId, eventId);
            db.world.tables == after && Leads(s, Concluded(s, r, R.NextStep(answer), db), r, t)
  {
    var q := s.requests[r];
    ReachesChecked(s, r, t);
    match RequestError(q.user, q.lines)
    case Some(e) =>
      db := s.db;
      ConcludesBadly(s, With(s, r, Release(e), s.db, Reserved(s, r)), r, t, e);
    case None =>
      if !S.FreshKey(s.db.world.tables, RequestOf(q)) {
        db := s.db;
        AnsweredByLookup(s, r, t, quotes, orderId, eventId);
      } else {
        if q.key.Some? { ReachesLookedUp(s, r, t); }
        db := AnsweredByTransaction(s, r, t, quotes, orderId, eventId);
      }
  }

  /** A request that starts with a key that is not in Redis, or with no cache or key, has arrived. */
  lemma Arrives(s: Sys, r: string, user: string, key: Option<KeyHash>, lines: seq<Line>, cached: bool)
    requires r !in s.requests && (cached && key.Some? ==> CacheKey(user, key.value) !in s.redis)
    ensures var u := Apply(s, Start(r, user, key, lines, cached));
            && Arrived(u, r) && u.db == s.db && u.redis == s.redis
            && u.requests[r].pc == (if cached && key.Some? then Reserve else Validate)
            && var q := u.requests[r]; q.user == user && q.key == key && q.lines == lines && q.cached == cached
  {
  }

  // ------------------------------------------------------------------ losing the race for a key

  lemma ObservesDuplicate(s: Sys, r: string, t: string)
    requires At(s, r, InTx(t)) && t in s.db.txs && s.requests[r].key.Some?
    requires s.db.txs[t].phase == T.Failed(IdempotencyDuplicate)
    ensures Leads(s, With(s, r, Requery, s.db, s.redis), r, t)
  {
    LeadsBy(s, DoObserve(r, false), r, t);
  }

  lemma Requeries(s: Sys, r: string, t: string, found: Option<string>)
    requires At(s, r, Requery) && s.requests[r].key.Some? && TrueAnswer(s, s.requests[r], found)
    ensures var pc := AfterLookup(s, s.requests[r], found, false, Release(RecordNotFound));
            Leads(s, With(s, r, pc, s.db, s.redis), r, t)
  {
    LeadsBy(s, DoRequery(r, found, false), r, t);
  }

  /** What the cache holds after the request's last step, if nobody touched it meanwhile. */
  function Afterwards(q: Request, pc: Pc, redis: map<string, Record>): map<string, Record> {
    if !Reserves(q) then redis
    else if pc.Complete? then redis[CacheKey(q.user, q.key.value) := Record(true, pc.orderId, Fingerprint(q))]
    else redis - {CacheKey(q.user, q.key.value)}
  }

  lemma Answered(s: Sys, u: Sys, r: string, t: string, pc: Pc)
    requires r in s.requests && u == With(s, r, pc, s.db, s.redis) && Leads(s, u, r, t)
    requires (pc.Complete? && pc.orderId != "") || pc.Release?
    ensures Leads(s, With(s, r, Last(pc), s.db, Afterwards(s.requests[r], pc, s.redis)), r, t)
  {
    if pc.Complete? { Completes(u, r, t, pc.orderId); } else { Releases(u, r, t, pc.error); }
    GoesOn(s, r, t, u, pc, Last(pc), s.db, Afterwards(s.requests[r], pc, s.redis));
  }

  lemma ReachesRequeried(s: Sys, r: string, t: string, found: Option<string>)
    requires At(s, r, InTx(t)) && t in s.db.txs && s.requests[r].key.Some?
    requires s.db.txs[t].phase == T.Failed(IdempotencyDuplicate) && TrueAnswer(s, s.requests[r], found)
    ensures var pc := AfterLookup(s, s.requests[r], found, false, Release(RecordNotFound));
            Leads(s, With(s, r, pc, s.db, s.redis), r, t)
  {
    var u := With(s, r, Requery, s.db, s.redis);
    ObservesDuplicate(s, r, t);
    Requeries(u, r, t, found);
    var pc := AfterLookup(s, s.requests[r], found, false, Release(RecordNotFound));
    assert pc == AfterLookup(u, u.requests[r], found, false, Release(RecordNotFound));
    GoesOn(s, r, t, u, Requery, pc, s.db, s.redis);
  }

  /** Where the service's replay after a duplicate leads. */
  ghost function LoserPc(s: Sys, q: Request): Pc
    requires q.key.Some?
  {
    R.NextStep(S.AfterDuplicate(s.db.world.tables, RequestOf(q)))
  }

  lemma LoserLooksUp(s: Sys, r: string, found: Option<string>)
    requires Inv(s) && "" !in Orders(s) && r in s.requests && s.requests[r].key.Some?
    requires TrueAnswer(s, s.requests[r], found)
    ensures var pc := LoserPc(s, s.requests[r]);
            && AfterLookup(s, s.requests[r], found, false, Release(RecordNotFound)) == pc
            && ((pc.Complete? && pc.orderId != "") || pc.Release?)
            && (pc == Release(RecordNotFound) ==> found.None?)
  {
    R.ReplaysAgree(s, s.requests[r], found, Begin);
    assert R.ServiceRequest(s.requests[r]) == RequestOf(s.requests[r]);
  }

  /**
   A request whose insert lost the race for its key is answered by the order that won it: the same order for
   the same lines, a conflict otherwise, as the service's replay says on the tables of that moment.
   */
  lemma LoserReplays(s: Sys, r: string, t: string)
    requires Inv(s) && "" !in Orders(s)
    requires At(s, r, InTx(t)) && t in s.db.txs && s.requests[r].key.Some?
    requires s.db.txs[t].phase == T.Failed(IdempotencyDuplicate)
    ensures var q := s.requests[r]; var pc := LoserPc(s, q);
            && (KeyTaken(Orders(s), q.user, q.key.value) ==> pc != Release(RecordNotFound))
            && Leads(s, With(s, r, Last(pc), s.db, Afterwards(q, pc, s.redis)), r, t)
  {
    var found := Found(s, r);
    LoserLooksUp(s, r, found);
    ReachesRequeried(s, r, t, found);
    var pc := LoserPc(s, s.requests[r]);
    Answered(s, With(s, r, pc, s.db, s.redis), r, t, pc);
  }
}
