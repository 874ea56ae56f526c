/**
 The Redis Streams consumer group: any number of consumers, interleaved command by command with
 deliveries, stale re-claims, expiring keys and failures.

 A Redis command may fail, or take effect and still report an error. `Advance` is one command of the
 code that handles one message; module ConsumerLoop runs it as the imperative loop.
 */
module Consumer {
  import opened Base
  import opened StreamMessage

  /** What the world answers to a step: the fate of its Redis command, or the handler's verdict. */
  datatype Choice = Choice(outcome: Outcome, handled: bool)

  datatype ErrorType = ParseFailed | HandlerFailed

  /**
   A dead-letter entry for the message at position `original`; `countedAt` is how long the counter log was
   when its count was taken. The creation time of the event is not among the fields.
   */
  datatype DeadEntry = DeadEntry(
    original: nat, messageId: string, eventId: string, eventType: string, aggregateType: string, aggregateId: string,
    payload: string, failureCount: nat, errorType: ErrorType, countedAt: nat)

  /** What happens to failure counters: handler failure number `failure` is counted, or the key expires. */
  datatype Note = Recorded(eventId: string, failure: nat) | CounterExpired(eventId: string)

  /**
   Messages are named by their position in the stream. `next` is the group's read position, `pending`
   its pending list, `acked` what XACK took off it. `handled` and `failed` log the event ids of
   successful and failed handler calls, `log` what happened to the counters.
   */
  datatype Broker = Broker(
    stream: seq<Message>, next: nat, pending: set<nat>, acked: set<nat>, processed: set<string>,
    counters: map<string, nat>, dead: seq<DeadEntry>, handled: seq<string>, failed: seq<string>, log: seq<Note>)

  datatype AckReason = Invalid | DuplicateSeen | DeadLettered | ConcurrentDuplicate | Done

  datatype Pc =
    | Fresh | CopyInvalid | Check | Handle | Mark
    | Count(failure: nat) | Copy(count: nat, at: nat) | Ack(why: AckReason)

  datatype BatchResult = BatchResult(read: nat, processed: nat, skipped: nat, failed: nat, invalid: nat, acked: nat,
      deadLettered: nat)

  /** A consumer in the middle of a batch: message `batch[i]` is in hand. */
  datatype Worker = Worker(batch: seq<nat>, i: nat, pc: Pc, result: BatchResult)

  datatype Config = Config(codec: Codec, maxAttempts: nat)

  datatype Sys = Sys(broker: Broker, workers: map<string, Worker>)

  predicate Busy(w: Worker) { w.i < |w.batch| }

  predicate Parses(c: Config, b: Broker, n: nat)
    requires n < |b.stream|
  {
    Parse(c.codec, b.stream[n]).Ok?
  }

  function EventId(c: Config, b: Broker, n: nat): string
    requires n < |b.stream| && Parses(c, b, n)
  {
    Parse(c.codec, b.stream[n]).value.eventId
  }

  function OptionalString(values: map<string, Value>, key: string): string {
    if key in values then values[key].text else ""
  }

  /** The entry for an invalid message is filed under its own event id, else under its message id. */
  function InvalidEntry(n: nat, m: Message): DeadEntry {
    var id := OptionalString(m.values, "event_id");
    DeadEntry(n, m.id, if id == "" then m.id else id, OptionalString(m.values, "event_type"),
              OptionalString(m.values, "aggregate_type"), OptionalString(m.values, "aggregate_id"),
              OptionalString(m.values, "payload"), 1, ParseFailed, 0)
  }

  function FailedEntry(n: nat, ev: StreamEvent, count: nat, at: nat): DeadEntry {
    DeadEntry(n, ev.messageId, ev.eventId, ev.eventType, ev.aggregateType, ev.aggregateId, ev.payload, count,
        HandlerFailed, at)
  }

  // ------------------------------------------------------------------ Redis commands

  /** XACK: a message that is not pending is not acknowledged again. */
  function XAck(b: Broker, n: nat): Broker {
    if n in b.pending then b.(pending := b.pending - {n}, acked := b.acked + {n}) else b
  }

  function XAddDead(b: Broker, d: DeadEntry): Broker { b.(dead := b.dead + [d]) }

  function CounterOf(b: Broker, e: string): nat { if e in b.counters then b.counters[e] else 0 }

  /** INCR of the failure counter on behalf of one handler failure. */
  function Increment(b: Broker, e: string, failure: nat): Broker {
    b.(counters := b.counters[e := CounterOf(b, e) + 1], log := b.log + [Recorded(e, failure)])
  }

  // ------------------------------------------------------------------ one command of one message

  function NextMessage(w: Worker, r: BatchResult): Worker { w.(i := w.i + 1, pc := Fresh, result := r) }

  function At(w: Worker, pc: Pc): Worker { w.(pc := pc) }

  predicate Applies(o: Outcome) { o != Lost }

  /** How acknowledging ends, by what it was for. */
  function AckResult(r: BatchResult, why: AckReason, ok: bool): BatchResult {
    match why
    case Invalid => if ok then r.(acked := r.acked + 1) else r
    case DeadLettered => if ok then r.(acked := r.acked + 1) else r
    case Done => if ok then r.(processed := r.processed + 1, acked := r.acked + 1) else r.(failed := r.failed + 1)
    case _ => if ok then r.(skipped := r.skipped + 1, acked := r.acked + 1) else r.(failed := r.failed + 1)
  }

  function Advance(c: Config, b: Broker, w: Worker, ch: Choice): (Broker, Worker)
    requires Busy(w) && w.batch[w.i] < |b.stream|
  {
    var n := w.batch[w.i];
    var r := w.result;
    if w.pc.Fresh? then
      if Parses(c, b, n) then (b, At(w, Check))
      else (b, At(w, CopyInvalid).(result := r.(invalid := r.invalid + 1, failed := r.failed + 1)))
    else if w.pc.CopyInvalid? then
      var b' := if Applies(ch.outcome) then XAddDead(b, InvalidEntry(n, b.stream[n])) else b;
      if ch.outcome == Fine then (b', At(w, Ack(Invalid)).(result := r.(deadLettered := r.deadLettered + 1)))
      else (b', NextMessage(w, r))
    else if w.pc.Ack? then
      (if Applies(ch.outcome) then XAck(b, n) else b, NextMessage(w, AckResult(r, w.pc.why, ch.outcome == Fine)))
    else if !Parses(c, b, n) then (b, w)
    else
      var e := EventId(c, b, n);
      match w.pc
      case Check =>
        if ch.outcome != Fine then (b, NextMessage(w, r.(failed := r.failed + 1)))
        else (b, At(w, if e in b.processed then Ack(DuplicateSeen) else Handle))
      case Handle =>
        if ch.handled then (b.(handled := b.handled + [e]), At(w, Mark))
        else (b.(failed := b.failed + [e]), At(w, Count(|b.failed|)).(result := r.(failed := r.failed + 1)))
      case Mark =>
        var b' := if Applies(ch.outcome) then b.(processed := b.processed + {e}) else b;
        if ch.outcome != Fine then (b', NextMessage(w, r.(failed := r.failed + 1)))
        else (b', At(w, Ack(if e in b.processed then ConcurrentDuplicate else Done)))
      case Count(failure) =>
        var b' := if Applies(ch.outcome) then Increment(b, e, failure) else b;
        if ch.outcome != Fine || b'.counters[e] < c.maxAttempts then (b', NextMessage(w, r))
        else (b', At(w, Copy(b'.counters[e], |b'.log|)))
      case Copy(count, at) =>
        var b' := if Applies(ch.outcome)
            then XAddDead(b, FailedEntry(n, Parse(c.codec, b.stream[n]).value, count, at)) else b;
        if ch.outcome == Fine then (b', At(w, Ack(DeadLettered)).(result := r.(deadLettered := r.deadLettered + 1)))
        else (b', NextMessage(w, r))
  }

  // ------------------------------------------------------------------ the group

  datatype Event =
    | Append(m: Message)
    | ReadNew(consumer: string, count: nat)
    | Reclaim(consumer: string, ids: seq<nat>)
    | Step(consumer: string, choice: Choice)
    | Stop(consumer: string)
    | ExpireProcessed(eventId: string)
    | ExpireCounter(eventId: string)

  function FreshBatch(ids: seq<nat>): Worker { Worker(ids, 0, Fresh, BatchResult(|ids|, 0, 0, 0, 0, 0, 0)) }

  predicate Idle(s: Sys, consumer: string) { consumer !in s.workers || !Busy(s.workers[consumer]) }

  function Positions(from: nat, count: nat): (r: seq<nat>)
    ensures |r| == count
    ensures forall n :: n in r <==> from <= n < from + count
    ensures forall k :: 0 <= k < count ==> r[k] == from + k
  {
    if count == 0 then [] else Positions(from, count - 1) + [from + count - 1]
  }

  function Deliver(b: Broker, count: nat): Broker {
    b.(next := b.next + count, pending := b.pending + (set k | k in Positions(b.next, count)))
  }

  /** XREADGROUP of up to `count` new messages. */
  function ReadStep(s: Sys, consumer: string, count: nat): Sys {
    var b := s.broker;
    if !Idle(s, consumer) || b.next + count > |b.stream| then s
    else
      Sys(Deliver(b, count), s.workers[consumer := FreshBatch(Positions(b.next, count))])
  }

  /** XAUTOCLAIM hands out pending messages, whoever had them. */
  function ReclaimStep(s: Sys, consumer: string, ids: seq<nat>): Sys {
    if Idle(s, consumer) && forall k :: 0 <= k < |ids| ==> ids[k] in s.broker.pending then
      s.(workers := s.workers[consumer := FreshBatch(ids)])
    else s
  }

  function WorkStep(s: Sys, c: Config, consumer: string, ch: Choice): Sys {
    if consumer !in s.workers || !Busy(s.workers[consumer])
        || s.workers[consumer].batch[s.workers[consumer].i] >= |s.broker.stream| then s
    else
      var (b, w) := Advance(c, s.broker, s.workers[consumer], ch);
      Sys(b, s.workers[consumer := w])
  }

  function Apply(s: Sys, c: Config, ev: Event): Sys {
    match ev
    case Append(m) => s.(broker := s.broker.(stream := s.broker.stream + [m]))
    case ReadNew(consumer, count) => ReadStep(s, consumer, count)
    case Reclaim(consumer, ids) => ReclaimStep(s, consumer, ids)
    case Step(consumer, ch) => WorkStep(s, c, consumer, ch)
    case Stop(consumer) => s.(workers := s.workers - {consumer})
    case ExpireProcessed(e) => s.(broker := s.broker.(processed := s.broker.processed - {e}))
    case ExpireCounter(e) =>
      s.(broker := s.broker.(counters := s.broker.counters - {e}, log := s.broker.log + [CounterExpired(e)]))
  }

  function Run(s: Sys, c: Config, events: seq<Event>): Sys {
    if events == [] then s else Apply(Run(s, c, events[..|events| - 1]), c, events[|events| - 1])
  }

  // ------------------------------------------------------------------ nothing is lost

  const COPIED: set<string> := {"event_type", "aggregate_type", "aggregate_id", "payload"}

  function Field(d: DeadEntry, key: string): string
    requires key in COPIED
  {
    match key
    case "event_type" => d.eventType
    case "aggregate_type" => d.aggregateType
    case "aggregate_id" => d.aggregateId
    case _ => d.payload
  }

  /** A dead-letter entry that keeps message n: its id, its event id if it has one, its fields. */
  predicate CopyOf(b: Broker, d: DeadEntry, n: nat) {
    && d.original == n && n < |b.stream|
    && d.messageId == b.stream[n].id
    && (OptionalString(b.stream[n].values, "event_id") != ""
        ==> d.eventId == OptionalString(b.stream[n].values, "event_id"))
    && forall f :: f in COPIED ==> Field(d, f) == OptionalString(b.stream[n].values, f)
  }

  predicate HasCopy(b: Broker, n: nat) { exists k :: 0 <= k < |b.dead| && CopyOf(b, b.dead[k], n) }

  predicate Succeeded(c: Config, b: Broker, n: nat) {
          n < |b.stream| && Parses(c, b, n) && EventId(c, b, n) in b.handled }

  predicate BrokerOk(c: Config, b: Broker) {
    && b.next <= |b.stream|
    && (forall n :: n in b.pending ==> n < b.next)
    && (forall n :: n in b.acked ==> n < b.next && n !in b.pending)
    && (forall n :: 0 <= n < b.next ==> n in b.pending || n in b.acked)
    && (forall n :: n in b.acked ==> Succeeded(c, b, n) || HasCopy(b, n))
    && (forall e :: e in b.processed ==> e in b.handled)
  }

  predicate WorkerOk(c: Config, b: Broker, w: Worker) {
    && (forall k :: 0 <= k < |w.batch| ==> w.batch[k] < b.next)
    && (Busy(w) && w.batch[w.i] < |b.stream| ==>
          match w.pc
          case Mark => Succeeded(c, b, w.batch[w.i])
          case Ack(why) => if why == Invalid || why == DeadLettered then HasCopy(b, w.batch[w.i])
              else Succeeded(c, b, w.batch[w.i])
          case _ => true)
  }

  predicate NoLoss(s: Sys, c: Config) {
    && BrokerOk(c, s.broker)
    && forall k :: k in s.workers ==> WorkerOk(c, s.broker, s.workers[k])
  }

  /** Streams and logs only grow. */
  predicate Grows(a: Broker, b: Broker) {
    && a.stream <= b.stream && a.dead <= b.dead && a.handled <= b.handled && a.failed <= b.failed && a.next <= b.next
    && a.log <= b.log && a.acked <= b.acked
  }

  lemma FactsStay(c: Config, a: Broker, b: Broker, n: nat)
    requires Grows(a, b)
    ensures Succeeded(c, a, n) ==> Succeeded(c, b, n)
    ensures HasCopy(a, n) ==> HasCopy(b, n)
  {
    if HasCopy(a, n) {
      var k :| 0 <= k < |a.dead| && CopyOf(a, a.dead[k], n);
      assert CopyOf(b, b.dead[k], n);
    }
    if Succeeded(c, a, n) {
      var k :| 0 <= k < |a.handled| && a.handled[k] == EventId(c, a, n);
      assert b.handled[k] == EventId(c, b, n);
    }
  }

  lemma WorkerStays(c: Config, a: Broker, b: Broker, w: Worker)
    requires Grows(a, b) && WorkerOk(c, a, w) && a.next <= |a.stream|
    ensures WorkerOk(c, b, w)
  {
    if Busy(w) { FactsStay(c, a, b, w.batch[w.i]); }
  }

  lemma AdvanceCalls(c: Config, b: Broker, w: Worker, ch: Choice)
    requires Busy(w) && w.batch[w.i] < |b.stream|
    ensures var b' := Advance(c, b, w, ch).0; b.handled <= b'.handled && b.failed <= b'.failed
  {
  }

  lemma AdvanceLogs(c: Config, b: Broker, w: Worker, ch: Choice)
    requires Busy(w) && w.batch[w.i] < |b.stream|
    ensures b.log <= Advance(c, b, w, ch).0.log
  {
  }

  lemma AdvanceGrows(c: Config, b: Broker, w: Worker, ch: Choice)
    requires Busy(w) && w.batch[w.i] < |b.stream|
    ensures Grows(b, Advance(c, b, w, ch).0)
  {
    AdvanceCalls(c, b, w, ch);
    AdvanceLogs(c, b, w, ch);
    AdvanceQueues(c, b, w, ch);
  }

  lemma AdvanceQueues(c: Config, b: Broker, w: Worker, ch: Choice)
    requires Busy(w) && w.batch[w.i] < |b.stream|
    ensures var b' := Advance(c, b, w, ch).0;
            b'.stream == b.stream && b.dead <= b'.dead && b'.next == b.next && b.acked <= b'.acked
  {
  }

  lemma LastCopy(b: Broker, d: DeadEntry, n: nat)
    requires CopyOf(b, d, n)
    ensures HasCopy(XAddDead(b, d), n)
  {
    assert XAddDead(b, d).dead[|b.dead|] == d;
  }

  lemma FailedEntryIsCopy(c: Config, b: Broker, n: nat, count: nat, at: nat)
    requires n < |b.stream| && Parses(c, b, n)
    ensures CopyOf(b, FailedEntry(n, Parse(c.codec, b.stream[n]).value, count, at), n)
  {
    var v := b.stream[n].values;
    ParsesExactly(c.codec, b.stream[n]);
    assert forall f :: f in REQUIRED ==> RequiredString(v, f) == Ok(OptionalString(v, f));
  }

  lemma AdvanceWorkerOk(c: Config, b: Broker, w: Worker, ch: Choice)
    requires BrokerOk(c, b) && WorkerOk(c, b, w) && Busy(w)
    ensures var (b', w') := Advance(c, b, w, ch); WorkerOk(c, b', w')
  {
    var n := w.batch[w.i];
    var (b', w') := Advance(c, b, w, ch);
    AdvanceGrows(c, b, w, ch);
    if w.pc.CopyInvalid? && ch.outcome == Fine {
      LastCopy(b, InvalidEntry(n, b.stream[n]), n);
    }
    if w.pc.Copy? && Parses(c, b, n) && ch.outcome == Fine {
      FailedEntryIsCopy(c, b, n, w.pc.count, w.pc.at);
      LastCopy(b, FailedEntry(n, Parse(c.codec, b.stream[n]).value, w.pc.count, w.pc.at), n);
    }
    if w.pc.Handle? && Parses(c, b, n) && ch.handled {
      assert b'.handled[|b.handled|] == EventId(c, b, n);
    }
  }

  /** An acknowledgement that takes effect takes its message off the pending list, that one alone, for good. */
  lemma AckTakesOff(c: Config, b: Broker, w: Worker, ch: Choice)
    requires BrokerOk(c, b) && WorkerOk(c, b, w) && Busy(w) && w.pc.Ack?
    ensures var n := w.batch[w.i]; var b' := Advance(c, b, w, ch).0;
            if ch.outcome == Lost then b' == b
            else n in b'.acked && b'.pending == b.pending - {n} && b'.acked == b.acked + {n}
  {
    var n := w.batch[w.i];
    assert n in b.pending || n in b.acked;
    if n !in b.pending { assert b.pending - {n} == b.pending && b.acked + {n} == b.acked; }
  }

  lemma AdvanceBrokerOk(c: Config, b: Broker, w: Worker, ch: Choice)
    requires BrokerOk(c, b) && WorkerOk(c, b, w) && Busy(w)
    ensures BrokerOk(c, Advance(c, b, w, ch).0)
  {
    var b' := Advance(c, b, w, ch).0;
    AdvanceGrows(c, b, w, ch);
    forall n | n in b'.acked ensures Succeeded(c, b', n) || HasCopy(b', n) {
      FactsStay(c, b, b', n);
      if n !in b.acked { assert n == w.batch[w.i]; }
    }
    forall e | e in b'.processed ensures e in b'.handled {
      if e in b.processed {
        var k :| 0 <= k < |b.handled| && b.handled[k] == e;
        assert b'.handled[k] == e;
      }
    }
  }

  lemma ApplyKeeps(s: Sys, c: Config, ev: Event)
    requires NoLoss(s, c)
    ensures NoLoss(Apply(s, c, ev), c)
  {
    var t := Apply(s, c, ev);
    if ev.Step? && ev.consumer in s.workers && Busy(s.workers[ev.consumer]) {
      var w := s.workers[ev.consumer];
      assert WorkerOk(c, s.broker, w);
      AdvanceBrokerOk(c, s.broker, w, ev.choice);
      AdvanceWorkerOk(c, s.broker, w, ev.choice);
      AdvanceGrows(c, s.broker, w, ev.choice);
    } else {
      GroupKeeps(s, c, ev);
    }
    assert Grows(s.broker, t.broker);
    forall k | k in t.workers ensures WorkerOk(c, t.broker, t.workers[k]) {
      if k in s.workers && t.workers[k] == s.workers[k] { WorkerStays(c, s.broker, t.broker, s.workers[k]); }
    }
  }

  lemma GroupKeeps(s: Sys, c: Config, ev: Event)
    requires NoLoss(s, c)
    requires !(ev.Step? && ev.consumer in s.workers && Busy(s.workers[ev.consumer]))
    ensures BrokerOk(c, Apply(s, c, ev).broker) && Grows(s.broker, Apply(s, c, ev).broker)
  {
    var b, b' := s.broker, Apply(s, c, ev).broker;
    forall n | n in b'.acked ensures Succeeded(c, b', n) || HasCopy(b', n) {
      FactsStay(c, b, b', n);
    }
  }

  lemma {:induction false} RunKeeps(s: Sys, c: Config, events: seq<Event>)
    requires NoLoss(s, c)
    ensures NoLoss(Run(s, c, events), c)
    decreases |events|
  {
    if events != [] {
      RunKeeps(s, c, events[..|events| - 1]);
      ApplyKeeps(Run(s, c, events[..|events| - 1]), c, events[|events| - 1]);
    }
  }

  lemma ApplyGrows(s: Sys, c: Config, ev: Event)
    ensures Grows(s.broker, Apply(s, c, ev).broker)
  {
    if ev.Step? && ev.consumer in s.workers && Busy(s.workers[ev.consumer]) {
      var w := s.workers[ev.consumer];
      if w.batch[w.i] < |s.broker.stream| { AdvanceGrows(c, s.broker, w, ev.choice); }
    }
  }

  lemma {:induction false} RunGrows(s: Sys, c: Config, events: seq<Event>)
    ensures Grows(s.broker, Run(s, c, events).broker)
    decreases |events|
  {
    if events != [] {
      RunGrows(s, c, events[..|events| - 1]);
      ApplyGrows(Run(s, c, events[..|events| - 1]), c, events[|events| - 1]);
    }
  }

  /**
   Nothing is lost, whatever fails, expires, is redelivered or re-claimed: every message is undelivered,
   pending or acknowledged, exactly one of these; what is acknowledged stays so, and was handled
   successfully (by event id) or is kept, with its ids and fields, in the dead-letter stream.
   */
  lemma NothingIsLost(s: Sys, c: Config, events: seq<Event>, n: nat)
    requires NoLoss(s, c)
    requires n < |Run(s, c, events).broker.stream|
    ensures var b := Run(s, c, events).broker;
            && (n >= b.next || n in b.pending || n in b.acked)
            && !(n >= b.next && n in b.pending) && !(n >= b.next && n in b.acked) && !(n in b.pending && n in b.acked)
            && (n in s.broker.acked ==> n in b.acked)
            && (n in b.acked ==> Succeeded(c, b, n) || HasCopy(b, n))
  {
    RunKeeps(s, c, events);
    RunGrows(s, c, events);
  }
}
