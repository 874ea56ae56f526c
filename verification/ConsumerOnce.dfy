/**
 How often a handler can succeed for one event when the group has one consumer: once, and once more for
 each time that success is forgotten, by a lost mark, a stop before the mark, or the key's expiry.
 */
module ConsumerOnce {
  import opened Base
  import opened StreamMessage
  import opened Consumer
  import opened ConsumerCounts

  /** How often the handler succeeded for e. */
  function Successes(b: Broker, e: string): nat { multiset(b.handled)[e] }

  predicate HoldsEvent(c: Config, b: Broker, w: Worker, e: string) {
    Busy(w) && w.batch[w.i] < |b.stream| && Parses(c, b, w.batch[w.i]) && EventId(c, b, w.batch[w.i]) == e
  }

  /** The worker has handled e and is about to mark it. */
  predicate Marking(s: Sys, c: Config, name: string, e: string) {
    name in s.workers && s.workers[name].pc.Mark? && HoldsEvent(c, s.broker, s.workers[name], e)
  }

  /** One consumer: every read, re-claim and command is by `name`. */
  predicate Alone(events: seq<Event>, name: string) {
    forall i :: 0 <= i < |events| ==>
      match events[i]
      case ReadNew(k, _) => k == name
      case Reclaim(k, _) => k == name
      case Step(k, _) => k == name
      case Stop(k) => k == name
      case _ => true
  }

  /** The ways a success for an event is forgotten. */
  datatype Lapse = LostMark | StoppedBeforeMark | KeyExpired

  function LapseOf(s: Sys, c: Config, ev: Event, name: string, e: string): Option<Lapse> {
    match ev
    case Step(_, ch) => if Marking(s, c, name, e) && ch.outcome == Lost then Some(LostMark) else None
    case Stop(_) => if Marking(s, c, name, e) then Some(StoppedBeforeMark) else None
    case ExpireProcessed(x) => if x == e && e in s.broker.processed then Some(KeyExpired) else None
    case _ => None
  }

  /** The lapses of a run for e, in order. */
  function Lapses(s: Sys, c: Config, events: seq<Event>, name: string, e: string): seq<Lapse> {
    if events == [] then []
    else
      var front := events[..|events| - 1];
      match LapseOf(Run(s, c, front), c, events[|events| - 1], name, e)
      case None => Lapses(s, c, front, name, e)
      case Some(lapse) => Lapses(s, c, front, name, e) + [lapse]
  }

  /** e is marked, or about to be. */
  predicate Covered(s: Sys, c: Config, name: string, e: string) {
    e in s.broker.processed || Marking(s, c, name, e)
  }

  /** Successes so far, given how many lapses there were; an event in the handler's hands is not marked. */
  predicate CountOk(s: Sys, c: Config, name: string, e: string, lapses: nat) {
    && s.workers.Keys <= {name}
    && Successes(s.broker, e) <= lapses + (if Covered(s, c, name, e) then 1 else 0)
    && (name in s.workers && s.workers[name].pc.Handle? && HoldsEvent(c, s.broker, s.workers[name], e) ==>
          e !in s.broker.processed)
  }

  /** What a command does to the handled log and the processed keys. */
  lemma AdvanceHandles(c: Config, b: Broker, w: Worker, ch: Choice)
    requires Busy(w) && w.batch[w.i] < |b.stream|
    ensures var (b', w') := Advance(c, b, w, ch); var n := w.batch[w.i];
            && b'.stream == b.stream
            && (w.pc.Handle? && Parses(c, b, n) && ch.handled ==>
                  w' == w.(pc := Mark) && b' == b.(handled := b.handled + [EventId(c, b, n)]))
            && (!(w.pc.Handle? && Parses(c, b, n) && ch.handled) ==> b'.handled == b.handled)
            && (w.pc.Mark? && Parses(c, b, n) ==> b'.processed <= b.processed + {EventId(c, b, n)})
            && (!(w.pc.Mark? && Parses(c, b, n)) ==> b'.processed == b.processed)
            && b.processed <= b'.processed
            && (w.pc.Mark? && Parses(c, b, n) && ch.outcome != Lost ==> EventId(c, b, n) in b'.processed)
  {
  }

  /** A worker comes to handle a message only past the processed check. */
  lemma AdvanceChecks(c: Config, b: Broker, w: Worker, ch: Choice)
    requires Busy(w) && w.batch[w.i] < |b.stream|
    ensures var (b', w') := Advance(c, b, w, ch); var n := w.batch[w.i];
            && w'.batch == w.batch
            && (w'.i == w.i || (w'.i == w.i + 1 && w'.pc.Fresh?))
            && (w'.pc.Handle? && Parses(c, b, n) ==> EventId(c, b, n) !in b.processed && !w.pc.Mark? && !w.pc.Handle?)
  {
  }

  lemma StepCounts(s: Sys, c: Config, name: string, ch: Choice, e: string, lapses: nat)
    requires NoLoss(s, c) && CountOk(s, c, name, e, lapses)
    requires name in s.workers && Busy(s.workers[name])
    ensures var lapse := LapseOf(s, c, Step(name, ch), name, e);
            CountOk(Apply(s, c, Step(name, ch)), c, name, e, lapses + if lapse.Some? then 1 else 0)
  {
    var w := s.workers[name];
    assert WorkerOk(c, s.broker, w);
    AdvanceHandles(c, s.broker, w, ch);
    AdvanceChecks(c, s.broker, w, ch);
    MovedCounts(s, c, name, ch, Advance(c, s.broker, w, ch).0, Advance(c, s.broker, w, ch).1, e, lapses);
  }

  lemma MovedCounts(s: Sys, c: Config, name: string, ch: Choice, b: Broker, w': Worker, e: string, lapses: nat)
    requires CountOk(s, c, name, e, lapses)
    requires name in s.workers && Busy(s.workers[name]) && s.workers[name].batch[s.workers[name].i] < |s.broker.stream|
    requires var w := s.workers[name]; var n := w.batch[w.i]; var a := s.broker;
             && b.stream == a.stream && w'.batch == w.batch
             && (w'.i == w.i || (w'.i == w.i + 1 && w'.pc.Fresh?))
             && (w.pc.Handle? && Parses(c, a, n) && ch.handled ==>
                   w' == w.(pc := Mark) && b == a.(handled := a.handled + [EventId(c, a, n)]))
             && (!(w.pc.Handle? && Parses(c, a, n) && ch.handled) ==> b.handled == a.handled)
             && (w.pc.Mark? && Parses(c, a, n) ==> b.processed <= a.processed + {EventId(c, a, n)})
             && (!(w.pc.Mark? && Parses(c, a, n)) ==> b.processed == a.processed)
             && a.processed <= b.processed
             && (w.pc.Mark? && Parses(c, a, n) && ch.outcome != Lost ==> EventId(c, a, n) in b.processed)
             && (w'.pc.Handle? && Parses(c, a, n) ==> EventId(c, a, n) !in a.processed && !w.pc.Mark? && !w.pc.Handle?)
    ensures var lapse := LapseOf(s, c, Step(name, ch), name, e);
            CountOk(Sys(b, s.workers[name := w']), c, name, e, lapses + if lapse.Some? then 1 else 0)
  {
    if b.handled != s.broker.handled {
      var w := s.workers[name];
      assert b.handled == s.broker.handled + [EventId(c, s.broker, w.batch[w.i])];
      assert HoldsEvent(c, s.broker, w, EventId(c, s.broker, w.batch[w.i]));
    }
  }

  /** Reads, re-claims, stops, appends and expiries handle nothing; a stop and an expiry may lapse. */
  lemma GroupCountsOnce(s: Sys, c: Config, ev: Event, name: string, e: string, lapses: nat)
    requires NoLoss(s, c) && CountOk(s, c, name, e, lapses) && Alone([ev], name)
    requires !(ev.Step? && ev.consumer in s.workers && Busy(s.workers[ev.consumer]))
    ensures CountOk(Apply(s, c, ev), c, name, e, lapses + if LapseOf(s, c, ev, name, e).Some? then 1 else 0)
  {
    assert Alone([ev], name) && [ev][0] == ev;
    var t := Apply(s, c, ev);
    assert t.broker.handled == s.broker.handled && t.broker.processed <= s.broker.processed;
    if name in s.workers { assert WorkerOk(c, s.broker, s.workers[name]); }
    assert name in t.workers ==> t.workers[name].pc.Fresh? || (name in s.workers && t.workers[name] == s.workers[name]);
  }

  lemma {:induction false} RunCountsOnce(s: Sys, c: Config, events: seq<Event>, name: string, e: string)
    requires NoLoss(s, c) && CountOk(s, c, name, e, 0) && Alone(events, name)
    ensures CountOk(Run(s, c, events), c, name, e, |Lapses(s, c, events, name, e)|)
    decreases |events|
  {
    if events != [] {
      var front, ev := events[..|events| - 1], events[|events| - 1];
      assert events[|events| - 1] == ev && Alone([ev], name);
      RunCountsOnce(s, c, front, name, e);
      RunKeeps(s, c, front);
      var u := Run(s, c, front);
      if ev.Step? && ev.consumer in u.workers && Busy(u.workers[ev.consumer]) {
        StepCounts(u, c, name, ev.choice, e, |Lapses(s, c, front, name, e)|);
      } else {
        GroupCountsOnce(u, c, ev, name, e, |Lapses(s, c, front, name, e)|);
      }
    }
  }

  /** Any stream, whatever its repetitions, before the group has read it. */
  function Start(stream: seq<Message>): Sys {
    Sys(Broker(stream, 0, {}, {}, {}, map[], [], [], [], []), map[])
  }

  lemma StartIsSound(stream: seq<Message>, c: Config, name: string, e: string)
    ensures NoLoss(Start(stream), c) && Counted(Start(stream), c) && CountOk(Start(stream), c, name, e, 0)
  {
    assert multiset(Start(stream).broker.handled)[e] == 0;
  }

  /**
   The bound, over any stream with repeated event ids, failed acknowledgements and re-claims, and
   whatever happens to other events: one success, and one more for each lapse of this event.
   */
  lemma SuccessesBound(stream: seq<Message>, c: Config, events: seq<Event>, name: string, e: string)
    requires Alone(events, name)
    ensures Successes(Run(Start(stream), c, events).broker, e) <= 1 + |Lapses(Start(stream), c, events, name, e)|
  {
    StartIsSound(stream, c, name, e);
    RunCountsOnce(Start(stream), c, events, name, e);
  }

  /** A run, one event at a time. */
  lemma RunSnoc(s: Sys, c: Config, events: seq<Event>, ev: Event)
    ensures Run(s, c, events + [ev]) == Apply(Run(s, c, events), c, ev)
  {
    assert (events + [ev])[..|events|] == events;
  }

  /** One command of a lone consumer. */
  lemma LoneStep(b: Broker, c: Config, name: string, w: Worker, ch: Choice)
    requires Busy(w) && w.batch[w.i] < |b.stream|
    ensures Apply(Sys(b, map[name := w]), c, Step(name, ch))
            == Sys(Advance(c, b, w, ch).0, map[name := Advance(c, b, w, ch).1])
  {
    assert map[name := w][name := Advance(c, b, w, ch).1] == map[name := Advance(c, b, w, ch).1];
  }

  // ------------------------------------------------------------------ the bound is met

  /** The group of one message and one consumer between commands; nothing is marked, the message is pending. */
  predicate Idling(c: Config, b: Broker, e: string) {
    && |b.stream| == 1 && Parses(c, b, 0) && EventId(c, b, 0) == e && b.processed == {} && 0 in b.pending
  }

  function Lone(b: Broker, name: string, pc: Pc): Sys { Sys(b, map[name := At(FreshBatch([0]), pc)]) }

  lemma FreshToMark(b: Broker, c: Config, name: string, e: string)
    requires Idling(c, b, e)
    ensures var good := Step(name, Choice(Fine, true));
            && Apply(Lone(b, name, Fresh), c, good) == Lone(b, name, Check)
            && Apply(Lone(b, name, Check), c, good) == Lone(b, name, Handle)
            && Apply(Lone(b, name, Handle), c, good) == Lone(b.(handled := b.handled + [e]), name, Mark)
  {
    var w, ch := FreshBatch([0]), Choice(Fine, true);
    LoneStep(b, c, name, w, ch);
    LoneStep(b, c, name, At(w, Check), ch);
    LoneStep(b, c, name, At(w, Handle), ch);
  }

  /** What has been reached: the events so far, by one consumer, and their lapses. */
  predicate Reached(s: Sys, c: Config, events: seq<Event>, name: string, e: string, t: Sys, lapses: seq<Lapse>) {
    Run(s, c, events) == t && Alone(events, name) && Lapses(s, c, events, name, e) == lapses
  }

  lemma ReachesNext(s: Sys, c: Config, events: seq<Event>, name: string, e: string, t: Sys, lapses: seq<Lapse>,
          ev: Event, u: Sys)
    requires Reached(s, c, events, name, e, t, lapses) && Alone([ev], name) && Apply(t, c, ev) == u
    ensures var lapse := LapseOf(t, c, ev, name, e);
            Reached(s, c, events + [ev], name, e, u, lapses + if lapse.Some? then [lapse.value] else [])
  {
    RunSnoc(s, c, events, ev);
    assert (events + [ev])[..|events|] == events;
    forall i | 0 <= i < |events + [ev]|
      ensures match (events + [ev])[i]
              case ReadNew(k, _) => k == name
              case Reclaim(k, _) => k == name
              case Step(k, _) => k == name
              case Stop(k) => k == name
              case _ => true
    {
      assert [ev][0] == ev;
    }
  }

  /** Three commands take the message from the batch through a successful handler call. */
  lemma HandlesOne(s: Sys, c: Config, name: string, e: string, events: seq<Event>, b: Broker, lapses: seq<Lapse>)
          returns (longer: seq<Event>)
    requires Idling(c, b, e) && Reached(s, c, events, name, e, Lone(b, name, Fresh), lapses)
    ensures Reached(s, c, longer, name, e, Lone(b.(handled := b.handled + [e]), name, Mark), lapses)
  {
    var good := Step(name, Choice(Fine, true));
    FreshToMark(b, c, name, e);
    ReachesNext(s, c, events, name, e, Lone(b, name, Fresh), lapses, good, Lone(b, name, Check));
    longer := events + [good];
    ReachesNext(s, c, longer, name, e, Lone(b, name, Check), lapses, good, Lone(b, name, Handle));
    longer := longer + [good];
    ReachesNext(s, c, longer, name, e, Lone(b, name, Handle), lapses, good,
        Lone(b.(handled := b.handled + [e]), name, Mark));
    longer := longer + [good];
  }

  /** A batch that is over: the worker waits for its next one. */
  predicate Resting(s: Sys, b: Broker, name: string) {
    s.broker == b && s.workers.Keys <= {name} && Idle(s, name)
  }

  lemma Reclaims(s: Sys, c: Config, name: string, e: string, events: seq<Event>, b: Broker, t: Sys, lapses: seq<Lapse>)
    requires Idling(c, b, e) && Resting(t, b, name) && Reached(s, c, events, name, e, t, lapses)
    ensures Reached(s, c, events + [Reclaim(name, [0])], name, e, Lone(b, name, Fresh), lapses)
  {
    assert t.workers[name := FreshBatch([0])] == map[name := FreshBatch([0])];
    ReachesNext(s, c, events, name, e, t, lapses, Reclaim(name, [0]), Lone(b, name, Fresh));
  }

  lemma MarkSteps(b: Broker, c: Config, name: string, e: string)
    requires Idling(c, b, e)
    ensures Resting(Apply(Lone(b, name, Mark), c, Step(name, Choice(Lost, true))), b, name)
    ensures Resting(Apply(Lone(b, name, Mark), c, Stop(name)), b, name)
    ensures Apply(Lone(b, name, Mark), c, Step(name, Choice(Fine, true))) == Lone(b.(processed := {e}), name, Ack(Done))
    ensures Marking(Lone(b, name, Mark), c, name, e)
  {
    var w := At(FreshBatch([0]), Mark);
    LoneStep(b, c, name, w, Choice(Lost, true));
    LoneStep(b, c, name, w, Choice(Fine, true));
  }

  /** The mark holds, the acknowledgement is lost, and the key expires. */
  lemma ExpirySteps(b: Broker, c: Config, name: string, e: string) returns (t: Sys)
    requires Idling(c, b, e)
    ensures t == Apply(Lone(b.(processed := {e}), name, Ack(Done)), c, Step(name, Choice(Lost, true)))
    ensures e in t.broker.processed && Resting(Apply(t, c, ExpireProcessed(e)), b, name)
  {
    var marked, w := b.(processed := {e}), At(FreshBatch([0]), Ack(Done));
    LoneStep(marked, c, name, w, Choice(Lost, true));
    t := Apply(Lone(marked, name, Ack(Done)), c, Step(name, Choice(Lost, true)));
    assert marked.(processed := {e} - {e}) == b;
  }

  /** Each way of forgetting a success leads back to the message being handed out again. */
  lemma Forgets(s: Sys, c: Config, name: string, e: string, events: seq<Event>, b: Broker, lapses: seq<Lapse>,
          lapse: Lapse)
    returns (longer: seq<Event>)
    requires Idling(c, b, e) && Reached(s, c, events, name, e, Lone(b, name, Mark), lapses)
    ensures Reached(s, c, longer, name, e, Lone(b, name, Fresh), lapses + [lapse])
  {
    MarkSteps(b, c, name, e);
    var t := Lone(b, name, Mark);
    match lapse {
      case LostMark =>
        longer := events + [Step(name, Choice(Lost, true))];
        t := Apply(t, c, Step(name, Choice(Lost, true)));
        ReachesNext(s, c, events, name, e, Lone(b, name, Mark), lapses, Step(name, Choice(Lost, true)), t);
      case StoppedBeforeMark =>
        longer := events + [Stop(name)];
        t := Apply(t, c, Stop(name));
        ReachesNext(s, c, events, name, e, Lone(b, name, Mark), lapses, Stop(name), t);
      case KeyExpired =>
        longer, t := Expires(s, c, name, e, events, b, lapses);
    }
    Reclaims(s, c, name, e, longer, b, t, lapses + [lapse]);
    longer := longer + [Reclaim(name, [0])];
  }

  lemma Expires(s: Sys, c: Config, name: string, e: string, events: seq<Event>, b: Broker, lapses: seq<Lapse>)
    returns (longer: seq<Event>, t: Sys)
    requires Idling(c, b, e) && Reached(s, c, events, name, e, Lone(b, name, Mark), lapses)
    ensures Resting(t, b, name) && Reached(s, c, longer, name, e, t, lapses + [KeyExpired])
  {
    MarkSteps(b, c, name, e);
    var acking := Lone(b.(processed := {e}), name, Ack(Done));
    var good, lost := Step(name, Choice(Fine, true)), Step(name, Choice(Lost, true));
    ReachesNext(s, c, events, name, e, Lone(b, name, Mark), lapses, good, acking);
    var unacked := ExpirySteps(b, c, name, e);
    ReachesNext(s, c, events + [good], name, e, acking, lapses, lost, unacked);
    t := Apply(unacked, c, ExpireProcessed(e));
    ReachesNext(s, c, events + [good] + [lost], name, e, unacked, lapses, ExpireProcessed(e), t);
    longer := events + [good] + [lost] + [ExpireProcessed(e)];
  }

  /** A stream of one message m. */
  function First(m: Message): Broker { Start([m]).broker.(next := 1, pending := {0}) }

  lemma ReadsFirst(c: Config, m: Message, name: string, e: string)
    requires Parse(c.codec, m).Ok? && Parse(c.codec, m).value.eventId == e
    ensures Idling(c, First(m), e)
    ensures Reached(Start([m]), c, [ReadNew(name, 1)], name, e, Lone(First(m), name, Fresh), [])
  {
    assert Positions(0, 1) == [0];
    assert Reached(Start([m]), c, [], name, e, Start([m]), []);
    ReachesNext(Start([m]), c, [], name, e, Start([m]), [], ReadNew(name, 1), Lone(First(m), name, Fresh));
    assert [] + [ReadNew(name, 1)] == [ReadNew(name, 1)];
  }

  function Repeated(e: string, n: nat): (r: seq<string>)
    ensures multiset(r)[e] == n
  {
    if n == 0 then [] else Repeated(e, n - 1) + [e]
  }

  function Handled(m: Message, e: string, n: nat): Broker { First(m).(handled := Repeated(e, n)) }

  /** One success more than there were lapses, and about to mark. */
  predicate Succeeding(c: Config, m: Message, name: string, e: string, events: seq<Event>, lapses: seq<Lapse>) {
    var b := Handled(m, e, 1 + |lapses|);
    Idling(c, b, e) && Reached(Start([m]), c, events, name, e, Lone(b, name, Mark), lapses)
  }

  lemma FirstSuccess(c: Config, m: Message, name: string, e: string) returns (events: seq<Event>)
    requires Parse(c.codec, m).Ok? && Parse(c.codec, m).value.eventId == e
    ensures Succeeding(c, m, name, e, events, [])
  {
    ReadsFirst(c, m, name, e);
    events := HandlesOne(Start([m]), c, name, e, [ReadNew(name, 1)], First(m), []);
    assert [] + [e] == Repeated(e, 1);
  }

  lemma OneMoreSuccess(c: Config, m: Message, name: string, e: string, events: seq<Event>, lapses: seq<Lapse>,
          lapse: Lapse)
    returns (longer: seq<Event>)
    requires Succeeding(c, m, name, e, events, lapses)
    ensures Succeeding(c, m, name, e, longer, lapses + [lapse])
  {
    var b := Handled(m, e, 1 + |lapses|);
    var again := Forgets(Start([m]), c, name, e, events, b, lapses, lapse);
    longer := HandlesOne(Start([m]), c, name, e, again, b, lapses + [lapse]);
  }

  lemma {:induction false} LapsesAllCost(c: Config, m: Message, name: string, e: string, lapses: seq<Lapse>)
          returns (events: seq<Event>)
    requires Parse(c.codec, m).Ok? && Parse(c.codec, m).value.eventId == e
    ensures Succeeding(c, m, name, e, events, lapses)
    decreases |lapses|
  {
    if lapses == [] {
      events := FirstSuccess(c, m, name, e);
    } else {
      var front, last := lapses[..|lapses| - 1], lapses[|lapses| - 1];
      assert lapses == front + [last];
      var before := LapsesAllCost(c, m, name, e, front);
      events := OneMoreSuccess(c, m, name, e, before, front, last);
    }
  }

  /** The bound is met: whatever the lapses and their order, some run with exactly those has that many successes. */
  lemma EveryLapseCosts(c: Config, m: Message, name: string, e: string, lapses: seq<Lapse>) returns (events: seq<Event>)
    requires Parse(c.codec, m).Ok? && Parse(c.codec, m).value.eventId == e
    ensures Alone(events, name) && Lapses(Start([m]), c, events, name, e) == lapses
    ensures Successes(Run(Start([m]), c, events).broker, e) == 1 + |lapses|
  {
    events := LapsesAllCost(c, m, name, e, lapses);
  }

  /** In every one-consumer run with these lapses the handler succeeds at most once for e. */
  ghost predicate AtMostOnce(stream: seq<Message>, c: Config, name: string, e: string, lapses: seq<Lapse>) {
    forall events :: Alone(events, name) && Lapses(Start(stream), c, events, name, e) == lapses ==>
      Successes(Run(Start(stream), c, events).broker, e) <= 1
  }

  /**
   Exactly when an event is handled at most once by one consumer: no mark of it is lost, no stop falls
   between its handling and its mark, and its key does not expire. Other events do not matter.
   */
  lemma AtMostOnceExactly(c: Config, m: Message, name: string, e: string, lapses: seq<Lapse>)
    requires Parse(c.codec, m).Ok? && Parse(c.codec, m).value.eventId == e
    ensures (forall stream :: AtMostOnce(stream, c, name, e, lapses)) <==> lapses == []
  {
    if lapses == [] {
      forall stream, events | Alone(events, name) && Lapses(Start(stream), c, events, name, e) == lapses
        ensures Successes(Run(Start(stream), c, events).broker, e) <= 1
      {
        SuccessesBound(stream, c, events, name, e);
      }
    } else {
      var events := EveryLapseCosts(c, m, name, e, lapses);
      assert !AtMostOnce([m], c, name, e, lapses);
    }
  }
}
