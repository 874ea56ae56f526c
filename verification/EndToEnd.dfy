/**
 Orders to stream, with no timing hypothesis: the interleaved order transactions and the interleaved
 publisher workers over the one outbox table they share.
 */
module EndToEnd {
  import opened Base
  import opened Tables
  import D = Tables
  import Ledger
  import T = Transactions
  import P = Publisher
  import Outbox
  import M = StreamMessage

  datatype Sys = Sys(shop: T.Sys, publisher: P.Sys)

  datatype Event = Shop(shop: T.Event) | Publishing(step: P.Event)

  /** A committed placement makes its outbox row visible to the publisher. */
  function NewRows(s: Sys, ev: T.Event): Option<(string, D.Event)> {
    match T.Effect(s.shop, ev)
    case Some(Place(o, eventId)) => Some((eventId, CreatedEvent(o)))
    case _ => None
  }

  ghost function Apply(s: Sys, c: P.Config, ev: Event): Sys {
    match ev
    case Shop(e) =>
      var publisher :=
        match NewRows(s, e)
        case None => s.publisher
        case Some((id, event)) => P.Apply(s.publisher, c, P.Create(id, event));
      Sys(T.Apply(s.shop, e), publisher)
    case Publishing(e) => if e.Create? then s else s.(publisher := P.Apply(s.publisher, c, e))
  }

  ghost function Run(s: Sys, c: P.Config, events: seq<Event>): Sys {
    if events == [] then s else Apply(Run(s, c, events[..|events| - 1]), c, events[|events| - 1])
  }

  function Committed(s: Sys): Tables { s.shop.world.tables }

  /** The publisher's rows are the committed outbox rows. */
  predicate SameRows(outbox: map<string, D.Event>, rows: map<string, Outbox.Row>) {
    && outbox.Keys == rows.Keys
    && forall id :: id in rows ==> rows[id].event == outbox[id]
  }

  predicate NonEmptyIds(t: Tables) { "" !in t.orders && "" !in t.outbox }

  ghost predicate Inv(s: Sys) {
    && T.Inv(s.shop)
    && P.Inv(s.publisher)
    && SameRows(Committed(s).outbox, s.publisher.rows)
    && NonEmptyIds(Committed(s))
  }

  /** What a visible operation does to orders and outbox rows. */
  predicate EffectOn(a: Tables, b: Tables, op: Option<Ledger.Op>) {
    match op
    case Some(Place(o, eventId)) =>
      && eventId !in a.outbox && eventId != "" && o.id != ""
      && b.outbox == a.outbox[eventId := CreatedEvent(o)]
      && b.orders == a.orders[o.id := o]
    case _ => b.outbox == a.outbox && b.orders.Keys == a.orders.Keys
  }

  lemma ShopEffect(s: T.Sys, ev: T.Event)
    requires T.Inv(s)
    ensures EffectOn(s.world.tables, T.Apply(s, ev).world.tables, T.Effect(s, ev))
  {
    T.EffectIsStep(s, ev);
    if ev.Commit? && T.ReadyToCommit(s, ev.t) {
      assert T.TxOk(s.world.tables, s.txs[ev.t]);
      T.CommitIsStep(s, ev.t);
    }
  }

  lemma ApplyKeeps(s: Sys, c: P.Config, ev: Event)
    requires Inv(s)
    ensures Inv(Apply(s, c, ev))
  {
    match ev
    case Shop(e) => ShopKeeps(s, c, e);
    case Publishing(e) =>
      if !e.Create? {
        P.ApplyKeeps(s.publisher, c, e);
        P.StepExtends(s.publisher, c, e);
        NoNewRows(s.publisher, c, e);
      }
  }

  lemma ShopKeeps(s: Sys, c: P.Config, e: T.Event)
    requires Inv(s)
    ensures Inv(Apply(s, c, Shop(e)))
  {
    T.ApplyKeeps(s.shop, e);
    ShopEffect(s.shop, e);
    ShopKeepsRows(Committed(s), T.Apply(s.shop, e).world.tables, T.Effect(s.shop, e), s.publisher,
        Apply(s, c, Shop(e)).publisher, c);
    match NewRows(s, e) {
      case None =>
      case Some((id, event)) => P.ApplyKeeps(s.publisher, c, P.Create(id, event));
    }
  }

  /** The commit of a placement shows the publisher exactly its outbox row. */
  lemma ShopKeepsRows(a: Tables, b: Tables, op: Option<Ledger.Op>, before: P.Sys, after: P.Sys, c: P.Config)
    requires EffectOn(a, b, op) && SameRows(a.outbox, before.rows) && NonEmptyIds(a)
    requires match op
             case Some(Place(o, eventId)) => after == P.Apply(before, c, P.Create(eventId, CreatedEvent(o)))
             case _ => after == before
    ensures SameRows(b.outbox, after.rows) && NonEmptyIds(b)
  {
    match op
    case Some(Place(o, eventId)) => CreateAddsRow(before, c, eventId, CreatedEvent(o));
    case _ =>
  }

  lemma CreateAddsRow(s: P.Sys, c: P.Config, id: string, event: D.Event)
    requires id !in s.rows
    ensures var t := P.Apply(s, c, P.Create(id, event));
            && t.rows.Keys == s.rows.Keys + {id} && t.rows[id].event == event
            && forall x :: x in s.rows ==> t.rows[x] == s.rows[x]
  {
  }

  lemma NoNewRows(s: P.Sys, c: P.Config, ev: P.Event)
    requires P.Inv(s) && !ev.Create?
    ensures P.Apply(s, c, ev).rows.Keys == s.rows.Keys
  {
    if ev.WriteBack? && P.BusyAt(s, ev.w) { assert P.WorkerOk(s, s.workers[ev.w]); }
  }

  lemma {:induction false} RunKeeps(s: Sys, c: P.Config, events: seq<Event>)
    requires Inv(s)
    ensures Inv(Run(s, c, events))
    decreases |events|
  {
    if events != [] {
      RunKeeps(s, c, events[..|events| - 1]);
      ApplyKeeps(Run(s, c, events[..|events| - 1]), c, events[|events| - 1]);
    }
  }

  // ------------------------------------------------------------------ the promises

  /** Every order has exactly one outbox row, and its payload is the order's lines and total. */
  lemma OneRowPerOrder(s: Sys, c: P.Config, events: seq<Event>, orderId: string) returns (row: string)
    requires Inv(s) && orderId in Committed(Run(s, c, events)).orders
    ensures var f := Run(s, c, events);
            var o := Committed(f).orders[orderId];
            && row in f.publisher.rows
            && f.publisher.rows[row].event.payload == Payload(orderId, o.user, o.total, New, o.lines)
            && o.total == SumOfPrices(o.lines)
            && forall other :: other in f.publisher.rows && f.publisher.rows[other].event.aggregateId == orderId
                ==> other == row
  {
    RunKeeps(s, c, events);
    var f := Run(s, c, events);
    var t := Committed(f);
    assert Ledger.HasEvent(t.outbox, orderId);
    row :| row in t.outbox && t.outbox[row].aggregateId == orderId;
    assert Ledger.AddsUp(t.orders[orderId]);
  }

  /** Every stream entry, read back by the consumer's parser, names a committed row of a committed order. */
  lemma EveryEntryIsAnOrder(s: Sys, config: P.Config, codec: M.Codec, events: seq<Event>, k: nat, messageId: string)
    requires Inv(s) && M.Faithful(codec) && k < |Run(s, config, events).publisher.stream|
    ensures var f := Run(s, config, events);
            var entry := f.publisher.stream[k];
            && entry.id in Committed(f).outbox
            && M.Wire(codec, messageId, entry).Ok?
            && var parsed := M.Parse(codec, M.Wire(codec, messageId, entry).value);
            && parsed.Ok?
            && parsed.value.eventId == entry.id
            && parsed.value.aggregateId in Committed(f).orders
            && codec.decode(parsed.value.payload)
                == Some(CreatedEvent(Committed(f).orders[parsed.value.aggregateId]).payload)
  {
    RunKeeps(s, config, events);
    var f := Run(s, config, events);
    var entry := f.publisher.stream[k];
    assert entry == P.EntryOf(entry.id, f.publisher.rows[entry.id]);
    var t := Committed(f);
    assert t.outbox[entry.id] == entry.event == CreatedEvent(t.orders[entry.event.aggregateId]);
    M.EntryParsesBack(codec, messageId, entry);
  }

  /** A row marked published has an entry that carries it. */
  lemma PublishedRowsAreInTheStream(s: Sys, c: P.Config, events: seq<Event>, id: string) returns (k: nat)
    requires Inv(s)
    requires var f := Run(s, c, events); id in f.publisher.rows && f.publisher.rows[id].status == Outbox.Published
    ensures var f := Run(s, c, events);
            k < |f.publisher.stream| && f.publisher.stream[k] == P.EntryOf(id, f.publisher.rows[id])
  {
    RunKeeps(s, c, events);
    var f := Run(s, c, events);
    assert P.Delivered(f.publisher, id);
    k :| 0 <= k < |f.publisher.stream| && f.publisher.stream[k].id == id;
    assert f.publisher.stream[k] == P.EntryOf(id, f.publisher.rows[id]);
  }
}
