/** The replay of a stored order, as the service's code does it and as the gateway machine does it. */
module Replay {
  import opened Base
  import opened Tables
  import opened Ledger
  import I = Idempotency
  import S = OrderService

  /** What the service answers, as the handler's next step: complete with that order, or release with that error. */
  function NextStep(r: Result<S.Reply, Error>): I.Pc {
    match r
    case Ok(reply) => I.Complete(reply.order.id)
    case Err(e) => I.Release(e)
  }

  /** The service request a gateway request makes. */
  function ServiceRequest(q: I.Request): S.PlaceReq
    requires q.key.Some?
  {
    S.PlaceReq(q.user, q.lines, Some(q.key.value), Some(I.Fingerprint(q)))
  }

  lemma KeyOwnerIsFound(s: I.Sys, q: I.Request, id: string)
    requires q.key.Some? && I.TrueAnswer(s, q, Some(id)) && UniqueKeys(I.Orders(s))
    ensures KeyTaken(I.Orders(s), q.user, q.key.value)
    ensures S.KeyOwner(s.db.world.tables, ServiceRequest(q)) == id
  {
    var owner := S.KeyOwner(s.db.world.tables, ServiceRequest(q));
    assert SameKey(I.Orders(s)[owner], I.Orders(s)[id]);
  }

  /**
   The two agree: wherever a durable lookup of the machine leads, the service's own replay of that request
   on the same tables gives the answer that leads there, before the transaction and after a duplicate.
   */
  lemma ReplaysAgree(s: I.Sys, q: I.Request, found: Option<string>, missing: I.Pc)
    requires I.Inv(s) && q.key.Some? && I.TrueAnswer(s, q, found)
    ensures var t := s.db.world.tables; var req := ServiceRequest(q);
            && (found.Some? <==> KeyTaken(t.orders, req.user, req.keyHash.value))
            && (found.Some? ==> I.AfterLookup(s, q, found, false, missing) == NextStep(S.ReplayOf(t, req)))
            && (found.None? ==> I.AfterLookup(s, q, found, false, missing) == missing)
            && I.AfterLookup(s, q, found, false, I.Release(RecordNotFound)) == NextStep(S.AfterDuplicate(t, req))
  {
    if found.Some? {
      KeyOwnerIsFound(s, q, found.value);
      assert OrdersKeyed(I.Orders(s));
    }
  }
}
