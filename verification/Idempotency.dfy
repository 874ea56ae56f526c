/**
 Idempotent order placement end to end: HTTP requests, their Redis reservations and the database,
 all interleaved. A Redis command may fail, may fail after it took effect, and any record may
 disappear at any moment; a request may crash at any point. Every event list is a run.
 */
module Idempotency {
  import opened Base
  import opened StockPlan
  import opened Tables
  import D = Tables
  import opened Ledger
  import T = Transactions

  /** A hex SHA-256 digest; the digest is assumed injective, so it stands for the client's key. */
  type KeyHash = h: string | |h| == 64 witness seq(64, i => '0')

  function CacheKey(user: string, keyHash: KeyHash): string {
    "idempotency:orders:" + user + ":" + keyHash
  }

  /** Digests have one length, so no user name can make two (user, key) pairs collide. */
  lemma CacheKeyInjective(u: string, h: KeyHash, v: string, k: KeyHash)
    requires CacheKey(u, h) == CacheKey(v, k)
    ensures u == v && h == k
  {
    var a, b := CacheKey(u, h), CacheKey(v, k);
    assert |a| == 19 + |u| + 1 + 64 && |b| == 19 + |v| + 1 + 64;
    assert h == a[|a| - 64..] && k == b[|b| - 64..];
    assert u == a[19..19 + |u|] && v == b[19..19 + |v|];
  }

  datatype Record = Record(succeeded: bool, orderId: string, fingerprint: seq<Line>)

  datatype Refusal =
    | StartFailed | LookupFailed | FingerprintMismatch | InFlight | OrderLookupFailed | Rejected(error: Error) | Crashed

  datatype Pc =
    | Reserve | Fetch | LoadOrder(orderId: string)
    | Validate | Lookup | Begin | InTx(t: string) | Requery
    | Complete(orderId: string) | Release(error: Error)
    | Replied(orderId: string) | Refused(why: Refusal)

  /** `cached` says whether the handler was built with a Redis cache. */
  datatype Request = Request(user: string, key: Option<KeyHash>, lines: seq<Line>, cached: bool, pc: Pc)

  datatype Sys = Sys(db: T.Sys, redis: map<string, Record>, requests: map<string, Request>)

  datatype Event =
    | Start(r: string, user: string, key: Option<KeyHash>, lines: seq<Line>, cached: bool)
    | DoReserve(r: string, outcome: Outcome)
    | DoFetch(r: string, fault: bool)
    | DoLoad(r: string, fault: bool)
    | DoValidate(r: string)
    | DoLookup(r: string, found: Option<string>, fault: bool)
    | DoBegin(r: string, t: string, quotes: seq<Quote>, orderId: string, eventId: string)
    | DoObserve(r: string, fault: bool)
    | DoRequery(r: string, found: Option<string>, fault: bool)
    | DoComplete(r: string, outcome: Outcome)
    | DoRelease(r: string, outcome: Outcome)
    | Crash(r: string)
    | Vanish(cacheKey: string)
    | Database(ev: T.Event)

  function Orders(s: Sys): map<string, Order> { s.db.world.tables.orders }

  function Fingerprint(q: Request): seq<Line> { Canonical(q.lines) }

  function IdemOf(q: Request): Option<Idempotency> {
    match q.key
    case None => None
    case Some(h) => Some(Idempotency(h, Fingerprint(q)))
  }

  predicate Reserves(q: Request) { q.key.Some? && q.cached }

  function Goto(s: Sys, r: string, pc: Pc): Sys
    requires r in s.requests
  {
    s.(requests := s.requests[r := s.requests[r].(pc := pc)])
  }

  predicate At(s: Sys, r: string, pc: Pc) { r in s.requests && s.requests[r].pc == pc }

  // ------------------------------------------------------------------ the handler's Redis steps

  /** SETNX of a processing record. */
  function ReserveStep(s: Sys, r: string, outcome: Outcome): Sys {
    if !At(s, r, Reserve) || s.requests[r].key.None? then s
    else
      var q := s.requests[r];
      var k := CacheKey(q.user, q.key.value);
      var written := s.(redis := if k in s.redis then s.redis else s.redis[k := Record(false, "", Fingerprint(q))]);
      match outcome
      case Lost => Goto(s, r, Refused(StartFailed))
      case Unsure => Goto(written, r, Refused(StartFailed))
      case Fine => if k in s.redis then Goto(s, r, Fetch) else Goto(written, r, Validate)
  }

  /** GET of somebody else's record. */
  function FetchStep(s: Sys, r: string, fault: bool): Sys {
    if !At(s, r, Fetch) || s.requests[r].key.None? then s
    else
      var q := s.requests[r];
      var k := CacheKey(q.user, q.key.value);
      if fault || k !in s.redis then Goto(s, r, Refused(LookupFailed))
      else if s.redis[k].fingerprint != Fingerprint(q) then Goto(s, r, Refused(FingerprintMismatch))
      else if !s.redis[k].succeeded || s.redis[k].orderId == "" then Goto(s, r, Refused(InFlight))
      else Goto(s, r, LoadOrder(s.redis[k].orderId))
  }

  /** The replayed order is read back and its owner checked. */
  function LoadStep(s: Sys, r: string, fault: bool): Sys {
    if r !in s.requests || !s.requests[r].pc.LoadOrder? then s
    else
      var id := s.requests[r].pc.orderId;
      if fault || id !in Orders(s) || Orders(s)[id].user != s.requests[r].user || s.requests[r].user == "" then
        Goto(s, r, Refused(OrderLookupFailed))
      else Goto(s, r, Replied(id))
  }

  function CompleteStep(s: Sys, r: string, outcome: Outcome): Sys {
    if r !in s.requests || !s.requests[r].pc.Complete? then s
    else
      var q := s.requests[r];
      var id := q.pc.orderId;
      var done := Goto(s, r, Replied(id));
      if Reserves(q) && id != "" && outcome != Lost then
        done.(redis := s.redis[CacheKey(q.user, q.key.value) := Record(true, id, Fingerprint(q))])
      else done
  }

  /** DEL of the reservation, whoever holds it by now. */
  function ReleaseStep(s: Sys, r: string, outcome: Outcome): Sys {
    if r !in s.requests || !s.requests[r].pc.Release? then s
    else
      var q := s.requests[r];
      var done := Goto(s, r, Refused(Rejected(q.pc.error)));
      if Reserves(q) && outcome != Lost then done.(redis := s.redis - {CacheKey(q.user, q.key.value)}) else done
  }

  // ------------------------------------------------------------------ the service's steps

  /** The lookup by (user, key) returns what the table holds. */
  predicate TrueAnswer(s: Sys, q: Request, found: Option<string>)
    requires q.key.Some?
  {
    match found
    case Some(id) => id in Orders(s) && HasKey(Orders(s)[id], q.user, q.key.value)
    case None => !KeyTaken(Orders(s), q.user, q.key.value)
  }

  /** Where a durable lookup leads; `missing` is where it goes when there is no such order. */
  function AfterLookup(s: Sys, q: Request, found: Option<string>, fault: bool, missing: Pc): Pc {
    if fault then Release(Internal)
    else
      match found
      case None => missing
      case Some(id) =>
        if id in Orders(s) && Orders(s)[id].idem.Some? && Orders(s)[id].idem.value.fingerprint == Fingerprint(q)
            then Complete(id)
        else Release(IdempotencyConflict)
  }

  function LookupStep(s: Sys, r: string, at: Pc, found: Option<string>, fault: bool, missing: Pc): Sys {
    if !At(s, r, at) || s.requests[r].key.None? || !TrueAnswer(s, s.requests[r], found) then s
    else Goto(s, r, AfterLookup(s, s.requests[r], found, fault, missing))
  }

  function ValidateStep(s: Sys, r: string): Sys {
    if !At(s, r, Validate) then s
    else
      match RequestError(s.requests[r].user, s.requests[r].lines)
      case Some(e) => Goto(s, r, Release(e))
      case None => Goto(s, r, if s.requests[r].key.Some? then Lookup else Begin)
  }

  ghost function BeginStep(s: Sys, r: string, t: string, quotes: seq<Quote>, orderId: string, eventId: string): Sys {
    if !At(s, r, Begin) || t in s.db.txs then s
    else
      var q := s.requests[r];
      var db := T.Apply(s.db, T.BeginPlace(t, q.user, q.lines, quotes, IdemOf(q), orderId, eventId));
      if t in db.txs then Goto(s.(db := db), r, InTx(t)) else s
  }

  /**
   The transaction call returned: committed, refused as a duplicate, or failed. With a fault the caller
   sees an error whatever became of the transaction, which may have been committed.
   */
  function ObserveStep(s: Sys, r: string, fault: bool): Sys {
    if r !in s.requests || !s.requests[r].pc.InTx? || s.requests[r].pc.t !in s.db.txs then s
    else if fault then Goto(s, r, Release(Internal))
    else
      var tx := s.db.txs[s.requests[r].pc.t];
      match tx.phase
      case Active => s
      case Committed => Goto(s, r, Complete(tx.kind.order.id))
      case Failed(e) =>
        if e == IdempotencyDuplicate && s.requests[r].key.Some? then Goto(s, r, Requery) else Goto(s, r, Release(e))
  }

  predicate Finished(pc: Pc) { pc.Replied? || pc.Refused? }

  ghost function Apply(s: Sys, ev: Event): Sys {
    match ev
    case Start(r, user, key, lines, cached) =>
      if r in s.requests then s
      else
        var q := Request(user, key, lines, cached, Validate);
        s.(requests := s.requests[r := if Reserves(q) then q.(pc := Reserve) else q])
    case DoReserve(r, outcome) => ReserveStep(s, r, outcome)
    case DoFetch(r, fault) => FetchStep(s, r, fault)
    case DoLoad(r, fault) => LoadStep(s, r, fault)
    case DoValidate(r) => ValidateStep(s, r)
    case DoLookup(r, found, fault) => LookupStep(s, r, Lookup, found, fault, Begin)
    case DoBegin(r, t, quotes, orderId, eventId) => BeginStep(s, r, t, quotes, orderId, eventId)
    case DoObserve(r, fault) => ObserveStep(s, r, fault)
    case DoRequery(r, found, fault) => LookupStep(s, r, Requery, found, fault, Release(RecordNotFound))
    case DoComplete(r, outcome) => CompleteStep(s, r, outcome)
    case DoRelease(r, outcome) => ReleaseStep(s, r, outcome)
    case Crash(r) => if r in s.requests && !Finished(s.requests[r].pc) then Goto(s, r, Refused(Crashed)) else s
    case Vanish(k) => s.(redis := s.redis - {k})
    case Database(e) => if e.BeginPlace? then s else s.(db := T.Apply(s.db, e))
  }

  ghost function Run(s: Sys, events: seq<Event>): Sys {
    if events == [] then s else Apply(Run(s, events[..|events| - 1]), events[|events| - 1])
  }

  // ------------------------------------------------------------------ invariant

  /** Order `id` is the committed order of this user, key and fingerprint. */
  predicate HasOrder(orders: map<string, Order>, id: string, user: string, keyHash: string, fingerprint: seq<Line>) {
    && id in orders
    && HasKey(orders[id], user, keyHash)
    && orders[id].idem.value.fingerprint == fingerprint
  }

  /** The fingerprint stored with an order is that of its own lines. */
  predicate Fingerprinted(o: Order) {
    o.idem.Some? ==> o.idem.value.fingerprint == Canonical(LinesOf(o.lines))
  }

  predicate AllFingerprinted(db: T.Sys) {
    && (forall id :: id in db.world.tables.orders ==> Fingerprinted(db.world.tables.orders[id]))
    && (forall t :: t in db.txs && db.txs[t].kind.Placing? && !db.txs[t].phase.Failed? ==>
          Fingerprinted(db.txs[t].kind.order))
  }

  /** A success record always points at a committed order of that user, key and fingerprint. */
  ghost predicate RecordsOk(s: Sys) {
    forall u: string, h: KeyHash :: CacheKey(u, h) in s.redis && s.redis[CacheKey(u, h)].succeeded ==>
      HasOrder(Orders(s), s.redis[CacheKey(u, h)].orderId, u, h, s.redis[CacheKey(u, h)].fingerprint)
  }

  predicate Owns(orders: map<string, Order>, q: Request, id: string) {
    && id in orders
    && orders[id].user == q.user
    && (q.key.Some? ==> HasOrder(orders, id, q.user, q.key.value, Fingerprint(q)))
    && (q.key.None? ==> LinesOf(orders[id].lines) == q.lines)
  }

  predicate RequestOk(s: Sys, q: Request) {
    match q.pc
    case LoadOrder(id) => Owns(Orders(s), q, id)
    case Complete(id) => Owns(Orders(s), q, id)
    case Replied(id) => Owns(Orders(s), q, id)
    case InTx(t) =>
      && t in s.db.txs
      && s.db.txs[t].kind.Placing?
      && s.db.txs[t].kind.order.user == q.user
      && s.db.txs[t].kind.order.idem == IdemOf(q)
      && (!s.db.txs[t].phase.Failed? ==> LinesOf(s.db.txs[t].kind.order.lines) == q.lines)
    case _ => true
  }

  /** What the gateway relies on, given the database. */
  ghost predicate GateOk(s: Sys) {
    && RecordsOk(s)
    && forall r :: r in s.requests ==> RequestOk(s, s.requests[r])
  }

  ghost predicate Inv(s: Sys) {
    && T.Inv(s.db)
    && AllFingerprinted(s.db)
    && GateOk(s)
  }

  // ------------------------------------------------------------------ each step keeps it

  lemma GotoKeeps(s: Sys, r: string, pc: Pc)
    requires GateOk(s) && r in s.requests && RequestOk(s, s.requests[r].(pc := pc))
    ensures GateOk(Goto(s, r, pc))
  {
  }

  /** Changing one cache entry to something harmless. */
  lemma RedisKeeps(s: Sys, redis: map<string, Record>, u: string, h: KeyHash)
    requires GateOk(s)
    requires forall k :: k in redis && k != CacheKey(u, h) ==> k in s.redis && redis[k] == s.redis[k]
    requires CacheKey(u, h) in redis && redis[CacheKey(u, h)].succeeded ==>
               HasOrder(Orders(s), redis[CacheKey(u, h)].orderId, u, h, redis[CacheKey(u, h)].fingerprint)
    ensures GateOk(s.(redis := redis))
  {
    forall v: string, k: KeyHash | CacheKey(v, k) in redis && redis[CacheKey(v, k)].succeeded
      ensures HasOrder(Orders(s), redis[CacheKey(v, k)].orderId, v, k, redis[CacheKey(v, k)].fingerprint)
    {
      if CacheKey(v, k) == CacheKey(u, h) { CacheKeyInjective(v, k, u, h); }
    }
  }

  lemma ReserveKeeps(s: Sys, r: string, outcome: Outcome)
    requires GateOk(s)
    ensures GateOk(ReserveStep(s, r, outcome))
  {
    if At(s, r, Reserve) && s.requests[r].key.Some? {
      var q := s.requests[r];
      var k := CacheKey(q.user, q.key.value);
      var redis := if k in s.redis then s.redis else s.redis[k := Record(false, "", Fingerprint(q))];
      RedisKeeps(s, redis, q.user, q.key.value);
      var written := s.(redis := redis);
      match outcome
      case Lost => GotoKeeps(s, r, Refused(StartFailed));
      case Unsure => GotoKeeps(written, r, Refused(StartFailed));
      case Fine => if k in s.redis { GotoKeeps(s, r, Fetch); } else { GotoKeeps(written, r, Validate); }
    }
  }

  lemma FetchKeeps(s: Sys, r: string, fault: bool)
    requires GateOk(s)
    ensures GateOk(FetchStep(s, r, fault))
  {
    if At(s, r, Fetch) && s.requests[r].key.Some? {
      var q := s.requests[r];
      var k := CacheKey(q.user, q.key.value);
      GotoKeeps(s, r, FetchStep(s, r, fault).requests[r].pc);
    }
  }

  lemma CompleteKeeps(s: Sys, r: string, outcome: Outcome)
    requires GateOk(s)
    ensures GateOk(CompleteStep(s, r, outcome))
  {
    if r in s.requests && s.requests[r].pc.Complete? {
      var q := s.requests[r];
      GotoKeeps(s, r, Replied(q.pc.orderId));
      if Reserves(q) {
        var k := CacheKey(q.user, q.key.value);
        RedisKeeps(Goto(s, r, Replied(q.pc.orderId)), s.redis[k := Record(true, q.pc.orderId, Fingerprint(q))],
            q.user, q.key.value);
      }
    }
  }

  lemma ReleaseKeeps(s: Sys, r: string, outcome: Outcome)
    requires GateOk(s)
    ensures GateOk(ReleaseStep(s, r, outcome))
  {
    if r in s.requests && s.requests[r].pc.Release? {
      var q := s.requests[r];
      var done := Goto(s, r, Refused(Rejected(q.pc.error)));
      GotoKeeps(s, r, Refused(Rejected(q.pc.error)));
      if Reserves(q) {
        RedisKeeps(done, s.redis - {CacheKey(q.user, q.key.value)}, q.user, q.key.value);
      }
    }
  }

  lemma LookupKeeps(s: Sys, r: string, at: Pc, found: Option<string>, fault: bool, missing: Pc)
    requires GateOk(s) && (missing == Begin || missing == Release(RecordNotFound))
    ensures GateOk(LookupStep(s, r, at, found, fault, missing))
  {
    if At(s, r, at) && s.requests[r].key.Some? && TrueAnswer(s, s.requests[r], found) {
      GotoKeeps(s, r, AfterLookup(s, s.requests[r], found, fault, missing));
    }
  }

  /** A database step keeps what requests and records rely on. */
  lemma DatabaseKeeps(s: Sys, ev: T.Event)
    requires Inv(s)
    requires ev.BeginPlace? ==> ev.idem.Some? ==> ev.idem.value.fingerprint == Canonical(ev.lines)
    ensures Inv(s.(db := T.Apply(s.db, ev)))
  {
    var db := T.Apply(s.db, ev);
    T.ApplyKeeps(s.db, ev);
    T.EffectIsStep(s.db, ev);
    if T.Effect(s.db, ev).Some? { T.StepPreserves(s.db.world, T.Effect(s.db, ev).value); }
    assert Preserves(Orders(s), db.world.tables.orders);
    KindsPersist(s.db, ev);
    FingerprintsKept(s.db, ev);
    var after := s.(db := db);
    forall u: string, h: KeyHash | CacheKey(u, h) in s.redis && s.redis[CacheKey(u, h)].succeeded
      ensures HasOrder(Orders(after), s.redis[CacheKey(u, h)].orderId, u, h, s.redis[CacheKey(u, h)].fingerprint)
    {
      OrderStays(Orders(s), Orders(after), s.redis[CacheKey(u, h)].orderId);
    }
    forall r | r in s.requests ensures RequestOk(after, s.requests[r]) {
      assert RequestOk(s, s.requests[r]);
      var pc := s.requests[r].pc;
      if pc.LoadOrder? || pc.Complete? || pc.Replied? { OrderStays(Orders(s), Orders(after), pc.orderId); }
    }
  }

  lemma OrderStays(before: map<string, Order>, after: map<string, Order>, id: string)
    requires Preserves(before, after) && id in before
    ensures id in after && after[id].user == before[id].user && after[id].idem == before[id].idem
    ensures after[id].lines == before[id].lines
  {
    assert after[id].(status := New) == before[id].(status := New);
  }

  /** Transactions keep their kind, failures stay failures, and only `BeginPlace` adds a placement. */
  lemma KindsPersist(db: T.Sys, ev: T.Event)
    ensures forall t :: t in db.txs ==>
              && t in T.Apply(db, ev).txs
              && T.Apply(db, ev).txs[t].kind == db.txs[t].kind
              && (db.txs[t].phase.Failed? ==> T.Apply(db, ev).txs[t].phase.Failed?)
  {
    forall t | t in db.txs
      ensures t in T.Apply(db, ev).txs && T.Apply(db, ev).txs[t].kind == db.txs[t].kind
      ensures db.txs[t].phase.Failed? ==> T.Apply(db, ev).txs[t].phase.Failed?
    {
      KindPersists(db, ev, t);
    }
  }

  lemma KindPersists(db: T.Sys, ev: T.Event, t: string)
    requires t in db.txs
    ensures t in T.Apply(db, ev).txs && T.Apply(db, ev).txs[t].kind == db.txs[t].kind
    ensures db.txs[t].phase.Failed? ==> T.Apply(db, ev).txs[t].phase.Failed?
  {
  }

  lemma NewPlacement(db: T.Sys, ev: T.Event, t: string)
    requires t in T.Apply(db, ev).txs && t !in db.txs && T.Apply(db, ev).txs[t].kind.Placing?
    ensures ev.BeginPlace? && |ev.lines| == |ev.quotes|
    ensures T.Apply(db, ev).txs[t].kind.order.idem == ev.idem
    ensures !T.Apply(db, ev).txs[t].phase.Failed? ==>
              && PriceAll(ev.lines, ev.quotes).Ok?
              && T.Apply(db, ev).txs[t].kind.order.lines == PriceAll(ev.lines, ev.quotes).value.lines
  {
  }

  /** Orders appear only by the commit of a placement. */
  lemma NewOrder(db: T.Sys, ev: T.Event, id: string)
    requires id in T.Apply(db, ev).world.tables.orders && id !in db.world.tables.orders
    ensures ev.Commit? && T.ReadyToCommit(db, ev.t) && db.txs[ev.t].kind.Placing?
    ensures T.Apply(db, ev).world.tables.orders[id] == db.txs[ev.t].kind.order
  {
  }

  lemma FingerprintsKept(db: T.Sys, ev: T.Event)
    requires AllFingerprinted(db) && Preserves(db.world.tables.orders, T.Apply(db, ev).world.tables.orders)
    requires ev.BeginPlace? ==> ev.idem.Some? ==> ev.idem.value.fingerprint == Canonical(ev.lines)
    ensures AllFingerprinted(T.Apply(db, ev))
  {
    var after := T.Apply(db, ev);
    KindsPersist(db, ev);
    forall t | t in after.txs && after.txs[t].kind.Placing? && !after.txs[t].phase.Failed?
      ensures Fingerprinted(after.txs[t].kind.order)
    {
      if t in db.txs {
        assert Fingerprinted(db.txs[t].kind.order);
      } else {
        NewPlacement(db, ev, t);
        PricedAddsUp(ev.lines, ev.quotes);
      }
    }
    forall id | id in after.world.tables.orders ensures Fingerprinted(after.world.tables.orders[id]) {
      if id in db.world.tables.orders {
        var o := db.world.tables.orders[id];
        assert Fingerprinted(o) && after.world.tables.orders[id].(status := New) == o.(status := New);
      } else {
        NewOrder(db, ev, id);
      }
    }
  }

  lemma BeginKeeps(s: Sys, r: string, t: string, quotes: seq<Quote>, orderId: string, eventId: string)
    requires Inv(s)
    ensures Inv(BeginStep(s, r, t, quotes, orderId, eventId))
  {
    if At(s, r, Begin) && t !in s.db.txs {
      var q := s.requests[r];
      var ev := T.BeginPlace(t, q.user, q.lines, quotes, IdemOf(q), orderId, eventId);
      DatabaseKeeps(s, ev);
      var began := s.(db := T.Apply(s.db, ev));
      if t in began.db.txs {
        NewPlacement(s.db, ev, t);
        if !began.db.txs[t].phase.Failed? { PricedAddsUp(q.lines, quotes); }
        GotoKeeps(began, r, InTx(t));
      }
    }
  }

  lemma CommittedIsOwned(tables: Tables, tx: T.Tx, q: Request)
    requires T.TxOk(tables, tx) && tx.phase.Committed? && tx.kind.Placing?
    requires tx.kind.order.user == q.user && tx.kind.order.idem == IdemOf(q) && LinesOf(tx.kind.order.lines) == q.lines
    ensures Owns(tables.orders, q, tx.kind.order.id)
  {
    assert T.SameOrder(tables.orders[tx.kind.order.id], tx.kind.order);
  }

  lemma ObserveKeepsGate(s: Sys, r: string, fault: bool)
    requires GateOk(s) && T.TxsOk(s.db)
    ensures GateOk(ObserveStep(s, r, fault)) && ObserveStep(s, r, fault).db == s.db
  {
    if r in s.requests && s.requests[r].pc.InTx? && s.requests[r].pc.t in s.db.txs && fault {
      GotoKeeps(s, r, Release(Internal));
    } else if r in s.requests && s.requests[r].pc.InTx? && s.requests[r].pc.t in s.db.txs {
      var q := s.requests[r];
      assert RequestOk(s, q);
      var tx := s.db.txs[q.pc.t];
      if tx.phase.Committed? { CommittedIsOwned(s.db.world.tables, tx, q); }
      if !tx.phase.Active? { GotoKeeps(s, r, ObserveStep(s, r, false).requests[r].pc); }
    }
  }

  predicate TouchesDatabase(ev: Event) { ev.DoBegin? || ev.Database? }

  lemma GateKeeps(s: Sys, ev: Event)
    requires GateOk(s) && !TouchesDatabase(ev) && !ev.DoObserve?
    ensures GateOk(Apply(s, ev)) && Apply(s, ev).db == s.db
  {
    match ev
    case DoReserve(r, outcome) => ReserveKeeps(s, r, outcome);
    case DoFetch(r, fault) => FetchKeeps(s, r, fault);
    case DoLookup(r, found, fault) => LookupKeeps(s, r, Lookup, found, fault, Begin);
    case DoRequery(r, found, fault) => LookupKeeps(s, r, Requery, found, fault, Release(RecordNotFound));
    case DoComplete(r, outcome) => CompleteKeeps(s, r, outcome);
    case DoRelease(r, outcome) => ReleaseKeeps(s, r, outcome);
    case DoLoad(r, fault) => LoadKeeps(s, r, fault);
    case DoValidate(r) => ValidateKeeps(s, r);
    case _ => QuietKeeps(s, ev);
  }

  lemma LoadKeeps(s: Sys, r: string, fault: bool)
    requires GateOk(s)
    ensures GateOk(LoadStep(s, r, fault)) && LoadStep(s, r, fault).db == s.db
  {
    if r in s.requests && s.requests[r].pc.LoadOrder? {
      assert RequestOk(s, s.requests[r]);
      GotoKeeps(s, r, LoadStep(s, r, fault).requests[r].pc);
    }
  }

  lemma ValidateKeeps(s: Sys, r: string)
    requires GateOk(s)
    ensures GateOk(ValidateStep(s, r)) && ValidateStep(s, r).db == s.db
  {
    if At(s, r, Validate) { GotoKeeps(s, r, ValidateStep(s, r).requests[r].pc); }
  }

  /** Arrivals, crashes and vanishing records. */
  lemma QuietKeeps(s: Sys, ev: Event)
    requires GateOk(s) && (ev.Start? || ev.Crash? || ev.Vanish?)
    ensures GateOk(Apply(s, ev)) && Apply(s, ev).db == s.db
  {
  }

  lemma ApplyKeeps(s: Sys, ev: Event)
    requires Inv(s)
    ensures Inv(Apply(s, ev))
  {
    match ev
    case DoBegin(r, t, quotes, orderId, eventId) => BeginKeeps(s, r, t, quotes, orderId, eventId);
    case DoObserve(r, fault) => ObserveKeepsGate(s, r, fault);
    case Database(e) => if !e.BeginPlace? { DatabaseKeeps(s, e); }
    case _ => GateKeeps(s, ev);
  }

  lemma {:induction false} RunKeeps(s: Sys, events: seq<Event>)
    requires Inv(s)
    ensures Inv(Run(s, events))
    decreases |events|
  {
    if events != [] {
      RunKeeps(s, events[..|events| - 1]);
      ApplyKeeps(Run(s, events[..|events| - 1]), events[|events| - 1]);
    }
  }

  // ------------------------------------------------------------------ the promises

  /** The database event an event of the gateway amounts to, if any. */
  ghost function Issued(s: Sys, ev: Event): Option<T.Event> {
    match ev
    case DoBegin(r, t, quotes, orderId, eventId) =>
      if At(s, r, Begin) && t !in s.db.txs then
        var q := s.requests[r];
        Some(T.BeginPlace(t, q.user, q.lines, quotes, IdemOf(q), orderId, eventId))
      else None
    case Database(e) => if e.BeginPlace? then None else Some(e)
    case _ => None
  }

  ghost function DatabaseEvents(s: Sys, events: seq<Event>): seq<T.Event> {
    if events == [] then []
    else
      var front := events[..|events| - 1];
      match Issued(Run(s, front), events[|events| - 1])
      case None => DatabaseEvents(s, front)
      case Some(e) => DatabaseEvents(s, front) + [e]
  }

  lemma IssuedIsStep(s: Sys, ev: Event)
    ensures Apply(s, ev).db == match Issued(s, ev) case None => s.db case Some(e) => T.Apply(s.db, e)
  {
  }

  /** The database of a gateway run is itself a run, so all that holds of interleaved transactions holds of it. */
  lemma {:induction false} DatabaseIsARun(s: Sys, events: seq<Event>)
    ensures Run(s, events).db == T.Run(s.db, DatabaseEvents(s, events))
    decreases |events|
  {
    if events != [] {
      var front, ev := events[..|events| - 1], events[|events| - 1];
      DatabaseIsARun(s, front);
      IssuedIsStep(Run(s, front), ev);
      var before := DatabaseEvents(s, front);
      match Issued(Run(s, front), ev)
      case None =>
      case Some(e) => assert (before + [e])[..|before|] == before;
    }
  }

  /** The visible database operations of a gateway run, in the order of their commits. */
  ghost function Operations(s: Sys, events: seq<Event>): seq<Op> { T.History(s.db, DatabaseEvents(s, events)) }

  predicate PlacesKey(op: Op, user: string, keyHash: string) { op.Place? && HasKey(op.order, user, keyHash) }

  /** No two operations place an order under this key. */
  predicate PlacedByAtMostOne(ops: seq<Op>, user: string, keyHash: string) {
    forall i, j :: 0 <= i < |ops| && PlacesKey(ops[i], user, keyHash) && 0 <= j < |ops| ==>
      PlacesKey(ops[j], user, keyHash) ==> i == j
  }

  /** No order but `id` carries this key. */
  predicate OnlyOrder(orders: map<string, Order>, user: string, keyHash: string, id: string) {
    forall other :: other in orders && HasKey(orders[other], user, keyHash) ==> other == id
  }

  ghost predicate OneRow(outbox: map<string, D.Event>, orderId: string) {
    exists row :: row in outbox && outbox[row].aggregateId == orderId
      && forall other :: other in outbox && outbox[other].aggregateId == orderId ==> other == row
  }

  lemma PlacedKeyIsThere(s: Sys, events: seq<Event>, i: nat, user: string, keyHash: string)
    requires Inv(s) && i < |Operations(s, events)| && PlacesKey(Operations(s, events)[i], user, keyHash)
    ensures var orders := Orders(Run(s, events)); var id := Operations(s, events)[i].order.id;
            id in orders && HasKey(orders[id], user, keyHash)
  {
    var db := DatabaseEvents(s, events);
    DatabaseIsARun(s, events);
    T.Serializable(s.db, db);
    T.VisibleMeansApplied(s.db, db, i);
    T.PlacementStays(s.db.world, Operations(s, events), i);
  }

  /**
   Placed once per key, replied to or not: in every run at most one order is committed under a user and
   key, it has exactly one outbox row, and its placement, the one that deducts its stock, is the only
   operation of the run that places an order under that key.
   */
  lemma PlacedOncePerKey(s: Sys, events: seq<Event>, user: string, keyHash: string, id: string)
    requires Inv(s) && id in Orders(Run(s, events)) && HasKey(Orders(Run(s, events))[id], user, keyHash)
    ensures var f := Run(s, events); var ops := Operations(s, events);
            && OnlyOrder(Orders(f), user, keyHash, id)
            && OneRow(f.db.world.tables.outbox, id)
            && PlacedByAtMostOne(ops, user, keyHash)
            && (id !in Orders(s) ==>
                  exists i :: 0 <= i < |ops| && PlacesKey(ops[i], user, keyHash) && ops[i].order.id == id)
  {
    RunKeeps(s, events);
    var f := Run(s, events);
    forall other | other in Orders(f) && HasKey(Orders(f)[other], user, keyHash) ensures other == id {
      assert SameKey(Orders(f)[other], Orders(f)[id]);
    }
    assert HasEvent(f.db.world.tables.outbox, id);
    OperationsPlaceOnce(s, events, user, keyHash, id);
    if id !in Orders(s) { PlacementExists(s, events, user, keyHash, id); }
  }

  lemma OperationsPlaceOnce(s: Sys, events: seq<Event>, user: string, keyHash: string, id: string)
    requires Inv(s)
    requires OnlyOrder(Orders(Run(s, events)), user, keyHash, id)
    ensures PlacedByAtMostOne(Operations(s, events), user, keyHash)
  {
    var ops := Operations(s, events);
    forall i, j | 0 <= i < |ops| && 0 <= j < |ops| && PlacesKey(ops[i], user, keyHash)
        && PlacesKey(ops[j], user, keyHash)
      ensures i == j
    {
      PlacedKeyIsThere(s, events, i, user, keyHash);
      PlacedKeyIsThere(s, events, j, user, keyHash);
      if i < j { T.StockDeductedOnce(s.db, DatabaseEvents(s, events), i, j); }
      if j < i { T.StockDeductedOnce(s.db, DatabaseEvents(s, events), j, i); }
    }
  }

  lemma PlacementExists(s: Sys, events: seq<Event>, user: string, keyHash: string, id: string)
    requires Inv(s) && id in Orders(Run(s, events)) && HasKey(Orders(Run(s, events))[id], user, keyHash)
        && id !in Orders(s)
    ensures var ops := Operations(s, events);
            exists i :: 0 <= i < |ops| && PlacesKey(ops[i], user, keyHash) && ops[i].order.id == id
  {
    var db := DatabaseEvents(s, events);
    DatabaseIsARun(s, events);
    T.Serializable(s.db, db);
    var i := T.PlacedBySomeone(s.db.world, Operations(s, events), id);
    T.VisibleMeansApplied(s.db, db, i);
    T.PlacementStays(s.db.world, Operations(s, events), i);
    assert PlacesKey(Operations(s, events)[i], user, keyHash);
  }

  /**
   One answer per key: all successful replies of one user for one key name the same order, the only
   committed order carrying that key, which has exactly one outbox row.
   */
  lemma OneAnswerPerKey(s: Sys, events: seq<Event>, a: string, b: string)
    requires Inv(s)
    requires var rs := Run(s, events).requests;
             && a in rs && b in rs && rs[a].pc.Replied? && rs[b].pc.Replied?
             && rs[a].user == rs[b].user && rs[a].key.Some? && rs[a].key == rs[b].key
    ensures var f := Run(s, events);
            var id := f.requests[a].pc.orderId;
            && f.requests[b].pc.orderId == id
            && id in Orders(f) && HasKey(Orders(f)[id], f.requests[a].user, f.requests[a].key.value)
            && OnlyOrder(Orders(f), f.requests[a].user, f.requests[a].key.value, id)
            && OneRow(f.db.world.tables.outbox, id)
  {
    RunKeeps(s, events);
    var f := Run(s, events);
    var qa, qb := f.requests[a], f.requests[b];
    assert RequestOk(f, qa) && RequestOk(f, qb);
    PlacedOncePerKey(s, events, qa.user, qa.key.value, qa.pc.orderId);
  }

  /** A successful reply is an order of the caller's own lines, whatever their order in the request. */
  lemma ReplyMatchesRequest(s: Sys, events: seq<Event>, r: string)
    requires Inv(s)
    requires var rs := Run(s, events).requests; r in rs && rs[r].pc.Replied?
    ensures var f := Run(s, events);
            && f.requests[r].pc.orderId in Orders(f)
            && var o := Orders(f)[f.requests[r].pc.orderId];
            && o.user == f.requests[r].user
            && multiset(LinesOf(o.lines)) == multiset(f.requests[r].lines)
  {
    RunKeeps(s, events);
    var f := Run(s, events);
    var q := f.requests[r];
    assert RequestOk(f, q);
    if q.key.Some? {
      assert Fingerprinted(Orders(f)[q.pc.orderId]);
      FingerprintEqualsMultiset(LinesOf(Orders(f)[q.pc.orderId].lines), q.lines);
    }
  }

  /** The request finds its key taken in Redis and asks the record. */
  function AskRecord(s: Sys, r: string): Sys { FetchStep(ReserveStep(s, r, Fine), r, false) }

  lemma ReserveFinds(s: Sys, r: string)
    requires At(s, r, Reserve) && s.requests[r].key.Some?
    requires CacheKey(s.requests[r].user, s.requests[r].key.value) in s.redis
    ensures ReserveStep(s, r, Fine) == Goto(s, r, Fetch)
  {
  }

  /** What the record says: replay its order, or a conflict for another fingerprint, or wait while it is in flight. */
  lemma RecordAnswers(s: Sys, r: string)
    requires At(s, r, Reserve) && s.requests[r].key.Some?
    requires CacheKey(s.requests[r].user, s.requests[r].key.value) in s.redis
    ensures var record := s.redis[CacheKey(s.requests[r].user, s.requests[r].key.value)];
            AskRecord(s, r) == Goto(s, r,
              if record.fingerprint != Fingerprint(s.requests[r]) then Refused(FingerprintMismatch)
              else if record.succeeded && record.orderId != "" then LoadOrder(record.orderId) else Refused(InFlight))
  {
    ReserveFinds(s, r);
    var q := s.requests[r];
    var u := Goto(s, r, Fetch);
    assert u.requests[r] == q.(pc := Fetch) && u.redis == s.redis;
    var pc := FetchStep(u, r, false).requests[r].pc;
    assert FetchStep(u, r, false) == Goto(u, r, pc);
    assert s.requests[r := q.(pc := Fetch)][r := q.(pc := pc)] == s.requests[r := q.(pc := pc)];
  }

  lemma LoadReplies(s: Sys, r: string, id: string)
    requires At(s, r, LoadOrder(id)) && id in Orders(s) && Orders(s)[id].user == s.requests[r].user != ""
    ensures LoadStep(s, r, false) == Goto(s, r, Replied(id))
  {
  }

  /** A request sent again after it succeeded is answered with its order, from the record, and changes nothing else. */
  lemma SucceededRecordReplays(s: Sys, r: string)
    requires RecordsOk(s) && At(s, r, Reserve) && s.requests[r].key.Some? && s.requests[r].user != ""
    requires var q := s.requests[r]; var k := CacheKey(q.user, q.key.value);
             && k in s.redis && s.redis[k].succeeded && s.redis[k].orderId != ""
             && s.redis[k].fingerprint == Fingerprint(q)
    ensures var q := s.requests[r]; var id := s.redis[CacheKey(q.user, q.key.value)].orderId;
            LoadStep(AskRecord(s, r), r, false) == Goto(s, r, Replied(id))
  {
    var q := s.requests[r];
    var id := s.redis[CacheKey(q.user, q.key.value)].orderId;
    RecordAnswers(s, r);
    assert HasOrder(Orders(s), id, q.user, q.key.value, Fingerprint(q));
    var u := Goto(s, r, LoadOrder(id));
    LoadReplies(u, r, id);
    assert s.requests[r := q.(pc := LoadOrder(id))][r := q.(pc := Replied(id))]
        == s.requests[r := q.(pc := Replied(id))];
  }

  /** Request r is about to reserve a key under which a success record lies. */
  predicate FindsSuccess(f: Sys, r: string) {
    && At(f, r, Reserve) && f.requests[r].key.Some? && f.requests[r].user != ""
    && var k := CacheKey(f.requests[r].user, f.requests[r].key.value);
       k in f.redis && f.redis[k].succeeded && f.redis[k].orderId != ""
  }

  /** The record and the durable lookup lead to the same order, or to a conflict on both. */
  predicate SameAnswer(f: Sys, r: string, found: Option<string>)
    requires FindsSuccess(f, r)
  {
    var q := f.requests[r];
    var record := f.redis[CacheKey(q.user, q.key.value)];
    && found == Some(record.orderId)
    && if record.fingerprint == Fingerprint(q) then
         && LoadStep(AskRecord(f, r), r, false) == Goto(f, r, Replied(record.orderId))
         && AfterLookup(f, q, found, false, Begin) == Complete(record.orderId)
       else
         && AskRecord(f, r) == Goto(f, r, Refused(FingerprintMismatch))
         && AfterLookup(f, q, found, false, Begin) == Release(IdempotencyConflict)
  }

  lemma RecordAgrees(f: Sys, r: string, found: Option<string>)
    requires RecordsOk(f) && UniqueKeys(Orders(f)) && FindsSuccess(f, r) && TrueAnswer(f, f.requests[r], found)
    ensures SameAnswer(f, r, found)
  {
    var q := f.requests[r];
    var record := f.redis[CacheKey(q.user, q.key.value)];
    assert HasOrder(Orders(f), record.orderId, q.user, q.key.value, record.fingerprint);
    assert KeyTaken(Orders(f), q.user, q.key.value);
    assert SameKey(Orders(f)[found.value], Orders(f)[record.orderId]);
    RecordAnswers(f, r);
    if record.fingerprint == Fingerprint(q) { SucceededRecordReplays(f, r); }
  }

  /**
   Redis replay refines durable replay: if a success record exists, the durable lookup for the same user and
   key finds that very order. A request with the record's fingerprint is answered with that order through
   Redis, and completes with the same order through the database; one with another fingerprint is a conflict
   on both.
   */
  lemma RedisAgreesWithDatabase(s: Sys, events: seq<Event>, r: string, found: Option<string>)
    requires Inv(s) && FindsSuccess(Run(s, events), r)
    requires TrueAnswer(Run(s, events), Run(s, events).requests[r], found)
    ensures SameAnswer(Run(s, events), r, found)
  {
    RunKeeps(s, events);
    RecordAgrees(Run(s, events), r, found);
  }

  /** A reply or a refusal, once given, never changes. */
  lemma {:induction false} RepliesLast(s: Sys, events: seq<Event>, r: string)
    requires r in s.requests && Finished(s.requests[r].pc)
    ensures r in Run(s, events).requests && Run(s, events).requests[r] == s.requests[r]
    decreases |events|
  {
    if events != [] {
      RepliesLast(s, events[..|events| - 1], r);
      StaysFinished(Run(s, events[..|events| - 1]), events[|events| - 1], r);
    }
  }

  lemma StaysFinished(s: Sys, ev: Event, r: string)
    requires r in s.requests && Finished(s.requests[r].pc)
    ensures r in Apply(s, ev).requests && Apply(s, ev).requests[r] == s.requests[r]
  {
    match ev
    case DoReserve(q, outcome) => ReserveLeaves(s, q, outcome);
    case DoFetch(q, fault) => FetchLeaves(s, q, fault);
    case DoComplete(q, outcome) => AnswerLeaves(s, q, outcome);
    case DoRelease(q, outcome) => AnswerLeaves(s, q, outcome);
    case _ => OthersLeave(s, ev, r);
  }

  /** A step that moves request q alone, from a point that is not its end. */
  predicate MovesOnly(s: Sys, t: Sys, q: string) {
    t == s || (q in s.requests && !Finished(s.requests[q].pc)
               && q in t.requests && t.requests == s.requests[q := t.requests[q]])
  }

  lemma ReserveLeaves(s: Sys, q: string, outcome: Outcome)
    ensures MovesOnly(s, ReserveStep(s, q, outcome), q)
  {
  }

  lemma FetchLeaves(s: Sys, q: string, fault: bool)
    ensures MovesOnly(s, FetchStep(s, q, fault), q)
  {
  }

  lemma AnswerLeaves(s: Sys, q: string, outcome: Outcome)
    ensures MovesOnly(s, CompleteStep(s, q, outcome), q) && MovesOnly(s, ReleaseStep(s, q, outcome), q)
  {
  }

  lemma OthersLeave(s: Sys, ev: Event, r: string)
    requires r in s.requests && Finished(s.requests[r].pc)
    requires !(ev.DoReserve? || ev.DoFetch? || ev.DoComplete? || ev.DoRelease?)
    ensures r in Apply(s, ev).requests && Apply(s, ev).requests[r] == s.requests[r]
  {
  }
}
