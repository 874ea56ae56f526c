/** Where every run may start: an empty database, no transactions, no requests, no workers, empty Redis. */
module Opening {
  import opened Tables
  import opened Ledger
  import T = Transactions
  import I = Idempotency
  import P = Publisher
  import L = Lease
  import E = EndToEnd

  const SHOP: T.Sys := T.Sys(World(Tables(map[], map[], map[]), map[]), map[])
  const GATE: I.Sys := I.Sys(SHOP, map[], map[])
  const WORKERS: P.Sys := P.Sys(0, map[], [], map[], map[])

  lemma ShopOpens()
    ensures T.Inv(SHOP)
  {
    forall p ensures Balanced(SHOP.world.tables, SHOP.world.supplied, p) {
      assert ActiveUnits(SHOP.world.tables.orders, p) == 0;
    }
  }

  lemma GateOpens()
    ensures I.Inv(GATE)
  {
    ShopOpens();
  }

  lemma WorkersOpen(c: P.Config)
    ensures P.Inv(WORKERS) && L.LeaseInv(WORKERS, c) && E.Inv(E.Sys(SHOP, WORKERS))
  {
    ShopOpens();
  }
}
