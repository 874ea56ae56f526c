/**
 The consumer as the imperative code it is. Every Redis command may fail, or take effect and still
 report an error. `ProcessMessages` is proved to be the commands of module Consumer one after another.
 */
module ConsumerLoop {
  import opened Base
  import opened StreamMessage
  import opened Consumer
  import ConsumerOnce

  // ------------------------------------------------------------------ one worker, command after command

  predicate Ready(b: Broker, w: Worker) { Busy(w) && w.batch[w.i] < |b.stream| }

  function Drive(c: Config, b: Broker, w: Worker, answers: seq<Choice>): (Broker, Worker) {
    if answers == [] then (b, w)
    else
      var (b1, w1) := Drive(c, b, w, answers[..|answers| - 1]);
      if Ready(b1, w1) then Advance(c, b1, w1, answers[|answers| - 1]) else (b1, w1)
  }

  function Steps(name: string, answers: seq<Choice>): (r: seq<Event>)
    ensures |r| == |answers|
  {
    if answers == [] then [] else Steps(name, answers[..|answers| - 1]) + [Step(name, answers[|answers| - 1])]
  }

  /** A worker alone in the group does exactly what driving it does. */
  lemma {:induction false} DriveIsRun(c: Config, b: Broker, w: Worker, name: string, answers: seq<Choice>)
    ensures var d := Drive(c, b, w, answers);
            Run(Sys(b, map[name := w]), c, Steps(name, answers)) == Sys(d.0, map[name := d.1])
    decreases |answers|
  {
    if answers != [] {
      var front, last := answers[..|answers| - 1], answers[|answers| - 1];
      DriveIsRun(c, b, w, name, front);
      ConsumerOnce.RunSnoc(Sys(b, map[name := w]), c, Steps(name, front), Step(name, last));
      var d := Drive(c, b, w, front);
      if Ready(d.0, d.1) { ConsumerOnce.LoneStep(d.0, c, name, d.1, last); }
    }
  }

  // ------------------------------------------------------------------ the batch adds up

  /** A message already counted as failed whose commands are not over. */
  predicate CountedEarly(pc: Pc) {
    pc.CopyInvalid? || pc.Count? || pc.Copy? || pc == Ack(Invalid) || pc == Ack(DeadLettered)
  }

  predicate Tally(w: Worker) {
    var r := w.result;
    && r.read == |w.batch| && w.i <= |w.batch|
    && r.processed + r.skipped + r.failed == w.i + (if CountedEarly(w.pc) then 1 else 0)
    && r.invalid <= r.failed
    && r.deadLettered <= r.failed
    && r.acked <= r.processed + r.skipped + r.deadLettered
    && (w.pc.CopyInvalid? || w.pc.Count? || w.pc.Copy? ==> r.deadLettered < r.failed)
    && (w.pc == Ack(Invalid) || w.pc == Ack(DeadLettered) ==> r.acked < r.processed + r.skipped + r.deadLettered)
    && (w.i == |w.batch| ==> w.pc.Fresh?)
  }

  /** The ways a command changes the totals. */
  predicate TallyStep(w: Worker, w': Worker) {
    var r := w.result;
    || w' == w
    || (!CountedEarly(w.pc) && !CountedEarly(w'.pc) && w' == w.(pc := w'.pc))
    || (w.pc.Fresh? && w' == w.(pc := CopyInvalid, result := r.(invalid := r.invalid + 1, failed := r.failed + 1)))
    || (w.pc.Handle? && w'.pc.Count? && w' == w.(pc := w'.pc, result := r.(failed := r.failed + 1)))
    || (w.pc.Count? && w'.pc.Copy? && w' == w.(pc := w'.pc))
    || (w.pc.CopyInvalid? && w' == w.(pc := Ack(Invalid), result := r.(deadLettered := r.deadLettered + 1)))
    || (w.pc.Copy? && w' == w.(pc := Ack(DeadLettered), result := r.(deadLettered := r.deadLettered + 1)))
    || (CountedEarly(w.pc) && w' == NextMessage(w, r))
    || (w.pc.Ack? && w' == NextMessage(w, r.(acked := r.acked + 1))
        && (w.pc.why == Invalid || w.pc.why == DeadLettered))
    || (!CountedEarly(w.pc) && w' == NextMessage(w, r.(failed := r.failed + 1)))
    || (w.pc == Ack(Done) && w' == NextMessage(w, r.(processed := r.processed + 1, acked := r.acked + 1)))
    || (!CountedEarly(w.pc) && w' == NextMessage(w, r.(skipped := r.skipped + 1, acked := r.acked + 1)))
  }

  lemma AdvanceIsTallyStep(c: Config, b: Broker, w: Worker, ch: Choice)
    requires Ready(b, w)
    ensures TallyStep(w, Advance(c, b, w, ch).1)
  {
  }

  lemma TallyStepKeeps(w: Worker, w': Worker)
    requires Busy(w) && Tally(w) && TallyStep(w, w')
    ensures Tally(w')
  {
  }

  lemma {:induction false} DriveTally(c: Config, b: Broker, w: Worker, answers: seq<Choice>)
    requires Tally(w)
    ensures Tally(Drive(c, b, w, answers).1)
    decreases |answers|
  {
    if answers != [] {
      DriveTally(c, b, w, answers[..|answers| - 1]);
      var d := Drive(c, b, w, answers[..|answers| - 1]);
      if Ready(d.0, d.1) {
        var w' := Advance(c, d.0, d.1, answers[|answers| - 1]).1;
        AdvanceIsTallyStep(c, d.0, d.1, answers[|answers| - 1]);
        TallyStepKeeps(d.1, w');
      }
    }
  }

  // ------------------------------------------------------------------ what was acknowledged

  predicate Distinct(batch: seq<nat>) { forall i, j :: 0 <= i < j < |batch| ==> batch[i] != batch[j] }

  /** A batch as it is handed out: different messages, all pending, none acknowledged before. */
  predicate HandedOut(b: Broker, batch: seq<nat>) {
    Distinct(batch) && b.pending !! b.acked && forall k :: 0 <= k < |batch| ==> batch[k] in b.pending
  }

  /** How many commands took effect and reported an error. */
  function UnsureIn(answers: seq<Choice>): nat {
    if answers == [] then 0
    else UnsureIn(answers[..|answers| - 1]) + if answers[|answers| - 1].outcome == Unsure then 1 else 0
  }

  /** Since `b`, messages moved from pending to acknowledged; `acked` counts them, but for unsure answers. */
  predicate Moved(b: Broker, d: Broker, acked: nat, unsure: nat) {
    && b.acked <= d.acked && d.pending + d.acked == b.pending + b.acked && d.pending !! d.acked
    && acked <= |d.acked - b.acked| <= acked + unsure
  }

  predicate RestPending(d: Broker, w: Worker) { forall k :: w.i <= k < |w.batch| ==> w.batch[k] in d.pending }

  lemma MovedOne(b: Broker, d: Broker, d': Broker, n: nat, acked: nat, unsure: nat, fine: bool)
    requires Moved(b, d, acked, unsure) && n in d.pending
    requires d'.pending == d.pending - {n} && d'.acked == d.acked + {n}
    ensures Moved(b, d', if fine then acked + 1 else acked, if fine then unsure else unsure + 1)
  {
    assert n !in d.acked && n !in d.acked - b.acked;
    assert n !in b.acked;
    assert d'.acked - b.acked == (d.acked - b.acked) + {n};
  }

  lemma AckMoves(c: Config, b: Broker, w: Worker, ch: Choice)
    requires Ready(b, w) && w.pc.Ack? && w.batch[w.i] in b.pending
    ensures var n := w.batch[w.i]; var (b', w') := Advance(c, b, w, ch);
            && w' == NextMessage(w, AckResult(w.result, w.pc.why, ch.outcome == Fine))
            && if ch.outcome == Lost then b' == b else b'.pending == b.pending - {n} && b'.acked == b.acked + {n}
  {
  }

  lemma OthersMoveNone(c: Config, b: Broker, w: Worker, ch: Choice)
    requires Ready(b, w) && !w.pc.Ack?
    ensures var (b', w') := Advance(c, b, w, ch);
            && b'.pending == b.pending && b'.acked == b.acked
            && w'.batch == w.batch && w.i <= w'.i && w'.result.acked == w.result.acked
  {
  }

  lemma StepMoves(c: Config, b: Broker, d: Broker, w: Worker, ch: Choice, unsure: nat)
    requires Ready(d, w) && Distinct(w.batch) && RestPending(d, w) && Moved(b, d, w.result.acked, unsure)
    ensures var (d', w') := Advance(c, d, w, ch);
            && w'.batch == w.batch && RestPending(d', w')
            && Moved(b, d', w'.result.acked, unsure + if ch.outcome == Unsure then 1 else 0)
  {
    if w.pc.Ack? {
      AckMoves(c, d, w, ch);
      if ch.outcome != Lost {
        MovedOne(b, d, Advance(c, d, w, ch).0, w.batch[w.i], w.result.acked, unsure, ch.outcome == Fine);
      }
    } else {
      OthersMoveNone(c, d, w, ch);
    }
  }

  /**
   What a batch acknowledges is taken off the pending list, message by message; its counter is the number of
   those, short by at most the acknowledgements that took effect and reported an error.
   */
  lemma {:induction false} DriveMoves(c: Config, b: Broker, batch: seq<nat>, answers: seq<Choice>)
    requires HandedOut(b, batch)
    ensures var (d, w) := Drive(c, b, FreshBatch(batch), answers);
            && w.batch == batch && RestPending(d, w) && Moved(b, d, w.result.acked, UnsureIn(answers))
    decreases |answers|
  {
    if answers == [] {
      assert b.acked - b.acked == {};
    } else {
      var front, last := answers[..|answers| - 1], answers[|answers| - 1];
      DriveMoves(c, b, batch, front);
      var (d, w) := Drive(c, b, FreshBatch(batch), front);
      if Ready(d, w) { StepMoves(c, b, d, w, last, UnsureIn(front)); }
    }
  }

  lemma PositionsHandedOut(c: Config, b: Broker, count: nat)
    requires BrokerOk(c, b) && b.next + count <= |b.stream|
    ensures HandedOut(Deliver(b, count), Positions(b.next, count))
  {
  }

  lemma {:induction false} DriveKeeps(c: Config, b: Broker, w: Worker, answers: seq<Choice>)
    requires BrokerOk(c, b) && WorkerOk(c, b, w)
    ensures var d := Drive(c, b, w, answers); BrokerOk(c, d.0) && WorkerOk(c, d.0, d.1)
    decreases |answers|
  {
    if answers != [] {
      DriveKeeps(c, b, w, answers[..|answers| - 1]);
      var d := Drive(c, b, w, answers[..|answers| - 1]);
      if Ready(d.0, d.1) {
        AdvanceBrokerOk(c, d.0, d.1, answers[|answers| - 1]);
        AdvanceWorkerOk(c, d.0, d.1, answers[|answers| - 1]);
      }
    }
  }

  lemma {:induction false} DriveReadsNothing(c: Config, b: Broker, w: Worker, answers: seq<Choice>)
    ensures Drive(c, b, w, answers).0.next == b.next && Drive(c, b, w, answers).0.stream == b.stream
    decreases |answers|
  {
    if answers != [] {
      DriveReadsNothing(c, b, w, answers[..|answers| - 1]);
      var d := Drive(c, b, w, answers[..|answers| - 1]);
      if Ready(d.0, d.1) { AdvanceReadsNothing(c, d.0, d.1, answers[|answers| - 1]); }
    }
  }

  lemma AdvanceReadsNothing(c: Config, b: Broker, w: Worker, ch: Choice)
    requires Ready(b, w)
    ensures Advance(c, b, w, ch).0.next == b.next && Advance(c, b, w, ch).0.stream == b.stream
  {
  }

  lemma DeliverOk(c: Config, b: Broker, count: nat)
    requires BrokerOk(c, b) && b.next + count <= |b.stream|
    ensures BrokerOk(c, Deliver(b, count))
  {
    GroupKeeps(Sys(b, map[]), c, ReadNew("", count));
  }

  // ------------------------------------------------------------------ the code

  /** What XREADGROUP hands out at once: as many new messages as asked for, or all there are. */
  function Available(b: Broker, batchSize: nat): nat
    requires b.next <= |b.stream|
  {
    if b.next + batchSize <= |b.stream| then batchSize else |b.stream| - b.next
  }

  datatype Marked = MarkedNow | AlreadyMarked | MarkFailed

  class RedisConsumer {
    const config: Config
    var group: bool
    var broker: Broker

    // How many Redis commands have failed, or reported an error.
    ghost var faults: nat

    // The run since the batch began: where it began, the answers so far, the worker they lead to.
    ghost var origin: Broker
    ghost var first: Worker
    ghost var answers: seq<Choice>
    ghost var worker: Worker

    constructor (c: Config, present: bool, b: Broker)
      ensures config == c && group == present && broker == b
    {
      config, group, broker, faults := c, present, b, 0;
    }

    ghost predicate Tracks()
      reads this
    {
      Drive(config, origin, first, answers) == (broker, worker)
    }

    /** Message n is in hand and the next command is `pc`. */
    ghost predicate InHand(n: nat, pc: Pc)
      reads this
    {
      Tracks() && Ready(broker, worker) && worker.batch[worker.i] == n && worker.pc == pc
    }

    twostate predicate SameBatch()
      reads this
    {
      && origin == old(origin) && first == old(first) && group == old(group) && broker.stream == old(broker.stream)
      && worker.batch == old(worker.batch) && Tracks() && faults >= old(faults)
    }

    /** The ghost record of one command that has just been done. */
    ghost method Took(before: Broker, ch: Choice)
      requires Drive(config, origin, first, answers) == (before, worker) && Ready(before, worker)
      requires broker == Advance(config, before, worker, ch).0
      modifies this`answers, this`worker
      ensures Tracks()
      ensures worker == Advance(config, before, old(worker), ch).1
    {
      assert (answers + [ch])[..|answers|] == answers;
      worker := Advance(config, before, worker, ch).1;
      answers := answers + [ch];
    }

    method AnyOutcome() returns (o: Outcome)
      modifies this`faults
      ensures faults == old(faults) + if o == Fine then 0 else 1
    {
      var lost, unsure := *, *;
      o := if lost then Lost else if unsure then Unsure else Fine;
      if o != Fine { faults := faults + 1; }
    }

    method ParseMessage(n: nat) returns (parsed: Result<StreamEvent, ParseError>)
      requires InHand(n, Fresh)
      modifies this
      ensures SameBatch() && broker == old(broker)
      ensures parsed == Parse(config.codec, broker.stream[n])
      ensures var r := old(worker.result);
              if parsed.Ok? then InHand(n, Check) && worker == At(old(worker), Check)
              else InHand(n, CopyInvalid)
                   && worker == At(old(worker), CopyInvalid).(result :=
                       r.(invalid := r.invalid + 1, failed := r.failed + 1))
    {
      parsed := Parse(config.codec, broker.stream[n]);
      Took(broker, Choice(Fine, true));
    }

    method DeadLetterInvalidMessage(n: nat) returns (ok: bool)
      requires InHand(n, CopyInvalid)
      modifies this
      ensures SameBatch()
      ensures !ok ==> faults > old(faults)
      ensures var r := old(worker.result);
              if ok then InHand(n, Ack(Invalid))
                  && worker == At(old(worker), Ack(Invalid)).(result := r.(deadLettered := r.deadLettered + 1))
              else worker == NextMessage(old(worker), r)
    {
      ghost var before := broker;
      var o := AnyOutcome();
      if o != Lost { broker := XAddDead(broker, InvalidEntry(n, broker.stream[n])); }
      Took(before, Choice(o, true));
      ok := o == Fine;
    }

    method AckMessage(n: nat, why: AckReason) returns (ok: bool)
      requires InHand(n, Ack(why))
      modifies this
      ensures SameBatch()
      ensures !ok ==> faults > old(faults)
      ensures ok ==> n !in broker.pending && (n in old(broker.pending) ==> n in broker.acked)
      ensures broker.pending == old(broker.pending) || broker.pending == old(broker.pending) - {n}
      ensures broker.acked == old(broker.acked) || broker.acked == old(broker.acked) + {n}
      ensures worker == NextMessage(old(worker), AckResult(old(worker.result), why, ok))
    {
      ghost var before := broker;
      var o := AnyOutcome();
      if o != Lost { broker := XAck(broker, n); }
      Took(before, Choice(o, true));
      ok := o == Fine;
    }

    /** Message n is in hand and parses to `ev`. */
    ghost predicate EventInHand(n: nat, ev: StreamEvent, pc: Pc)
      reads this
    {
      InHand(n, pc) && Parse(config.codec, broker.stream[n]) == Ok(ev)
    }

    method WasProcessed(ghost n: nat, ev: StreamEvent) returns (processed: Option<bool>)
      requires EventInHand(n, ev, Check)
      modifies this
      ensures SameBatch() && broker == old(broker)
      ensures processed.None? ==> faults > old(faults)
      ensures match processed
              case None => worker == NextMessage(old(worker), old(worker.result).(failed := old(worker.result).failed
                  + 1))
              case Some(seen) =>
                && seen == (ev.eventId in broker.processed)
                && InHand(n, if seen then Ack(DuplicateSeen) else Pc.Handle)
                && worker == At(old(worker), if seen then Ack(DuplicateSeen) else Pc.Handle)
    {
      var o := AnyOutcome();
      Took(broker, Choice(o, true));
      processed := if o == Fine then Some(ev.eventId in broker.processed) else None;
    }

    /** The event handler: it succeeds or fails, whatever it did before that. */
    method Handle(ghost n: nat, ev: StreamEvent) returns (ok: bool, failure: nat)
      requires EventInHand(n, ev, Pc.Handle)
      modifies this
      ensures SameBatch()
      ensures if ok then
                EventInHand(n, ev, Mark) && worker == At(old(worker), Mark)
                && broker == old(broker).(handled := old(broker).handled + [ev.eventId])
              else
                EventInHand(n, ev, Count(failure))
                && worker == At(old(worker), Count(failure)).(result :=
                    old(worker.result).(failed := old(worker.result).failed + 1))
                && broker == old(broker).(failed := old(broker).failed + [ev.eventId])
    {
      ghost var before := broker;
      failure := |broker.failed|;
      ok := *;
      if ok {
        broker := broker.(handled := broker.handled + [ev.eventId]);
      } else {
        broker := broker.(failed := broker.failed + [ev.eventId]);
      }
      Took(before, Choice(Fine, ok));
    }

    /** The count after recording the failure, unless recording it failed. */
    method RecordFailure(ghost n: nat, ev: StreamEvent, failure: nat) returns (counted: Option<nat>)
      requires EventInHand(n, ev, Count(failure))
      modifies this
      ensures SameBatch()
      ensures counted.None? ==> faults > old(faults)
      ensures counted.Some? ==>
                broker == Increment(old(broker), ev.eventId, failure) && counted.value == CounterOf(broker, ev.eventId)
      ensures if counted.Some? && counted.value >= config.maxAttempts then
                var next := Copy(counted.value, |broker.log|);
                EventInHand(n, ev, next) && worker == At(old(worker), next)
              else worker == NextMessage(old(worker), old(worker.result))
    {
      ghost var before := broker;
      var o := AnyOutcome();
      if o != Lost { broker := Increment(broker, ev.eventId, failure); }
      Took(before, Choice(o, true));
      counted := if o == Fine then Some(CounterOf(broker, ev.eventId)) else None;
    }

    method DeadLetterEvent(n: nat, ev: StreamEvent, count: nat, at: nat) returns (ok: bool)
      requires EventInHand(n, ev, Copy(count, at))
      modifies this
      ensures SameBatch()
      ensures !ok ==> faults > old(faults)
      ensures var r := old(worker.result);
              if ok then InHand(n, Ack(DeadLettered))
                  && worker == At(old(worker), Ack(DeadLettered)).(result := r.(deadLettered := r.deadLettered + 1))
              else worker == NextMessage(old(worker), r)
    {
      ghost var before := broker;
      var o := AnyOutcome();
      if o != Lost { broker := XAddDead(broker, FailedEntry(n, ev, count, at)); }
      Took(before, Choice(o, true));
      ok := o == Fine;
    }

    /** SET NX of the processed key. */
    method MarkProcessed(ghost n: nat, ev: StreamEvent) returns (marked: Marked)
      requires EventInHand(n, ev, Mark)
      modifies this
      ensures SameBatch()
      ensures marked == MarkFailed ==> faults > old(faults)
      ensures var r := old(worker.result);
              match marked
              case MarkFailed => worker == NextMessage(old(worker), r.(failed := r.failed + 1))
              case AlreadyMarked =>
                && ev.eventId in old(broker).processed
                && InHand(n, Ack(ConcurrentDuplicate)) && worker == At(old(worker), Ack(ConcurrentDuplicate))
              case MarkedNow =>
                && ev.eventId !in old(broker).processed && ev.eventId in broker.processed
                && InHand(n, Ack(Done)) && worker == At(old(worker), Ack(Done))
    {
      ghost var before := broker;
      var o := AnyOutcome();
      marked := if o != Fine then MarkFailed else if ev.eventId in broker.processed then AlreadyMarked else MarkedNow;
      if o != Lost { broker := broker.(processed := broker.processed + {ev.eventId}); }
      Took(before, Choice(o, true));
    }

    /** One message: the loop body, with `result` updated in place. */
    method ProcessMessage(n: nat, before: BatchResult) returns (result: BatchResult)
      requires InHand(n, Fresh) && worker.result == before
      modifies this
      ensures SameBatch()
      ensures worker == NextMessage(old(worker), result)
    {
      result := before;
      var parsed := ParseMessage(n);
      if parsed.Err? {
        result := InvalidMessage(n, result.(invalid := result.invalid + 1, failed := result.failed + 1));
      } else {
        result := ParsedMessage(n, parsed.value, result);
      }
    }

    method InvalidMessage(n: nat, before: BatchResult) returns (result: BatchResult)
      requires InHand(n, CopyInvalid) && worker.result == before
      modifies this
      ensures SameBatch()
      ensures worker == NextMessage(old(worker), result)
    {
      result := before;
      var copied := DeadLetterInvalidMessage(n);
      if !copied { return; }
      result := result.(deadLettered := result.deadLettered + 1);
      var ok := AckMessage(n, Invalid);
      if ok { result := result.(acked := result.acked + 1); }
    }

    method ParsedMessage(n: nat, ev: StreamEvent, before: BatchResult) returns (result: BatchResult)
      requires EventInHand(n, ev, Check) && worker.result == before
      modifies this
      ensures SameBatch()
      ensures worker == NextMessage(old(worker), result)
    {
      result := before;
      var processed := WasProcessed(n, ev);
      if processed.None? {
        result := result.(failed := result.failed + 1);
        return;
      }
      if processed.value {
        result := AckDuplicate(n, DuplicateSeen, result);
        return;
      }
      var handled, failure := Handle(n, ev);
      if handled {
        result := HandlerSuccess(n, ev, result);
      } else {
        result := HandlerFailure(n, ev, failure, result.(failed := result.failed + 1));
      }
    }

    method HandlerSuccess(n: nat, ev: StreamEvent, before: BatchResult) returns (result: BatchResult)
      requires EventInHand(n, ev, Mark) && worker.result == before
      modifies this
      ensures SameBatch()
      ensures worker == NextMessage(old(worker), result)
    {
      result := before;
      var marked := MarkProcessed(n, ev);
      match marked {
        case AlreadyMarked =>
          result := AckDuplicate(n, ConcurrentDuplicate, result);
        case MarkFailed =>
          result := result.(failed := result.failed + 1);
        case MarkedNow =>
          var ok := AckMessage(n, Done);
          result := if ok then result.(processed := result.processed + 1, acked := result.acked + 1)
                    else result.(failed := result.failed + 1);
      }
    }

    /** Another delivery of a processed event: acknowledge and count as skipped. */
    method AckDuplicate(n: nat, why: AckReason, before: BatchResult) returns (result: BatchResult)
      requires why == DuplicateSeen || why == ConcurrentDuplicate
      requires InHand(n, Ack(why)) && worker.result == before
      modifies this
      ensures SameBatch()
      ensures worker == NextMessage(old(worker), result)
    {
      var ok := AckMessage(n, why);
      result := if ok then before.(skipped := before.skipped + 1, acked := before.acked + 1)
                else before.(failed := before.failed + 1);
    }

    /** After a failed handler call: count it, and give the message up when the count reaches the limit. */
    method HandlerFailure(n: nat, ev: StreamEvent, failure: nat, before: BatchResult) returns (result: BatchResult)
      requires EventInHand(n, ev, Count(failure)) && worker.result == before
      modifies this
      ensures SameBatch()
      ensures worker == NextMessage(old(worker), result)
    {
      result := before;
      var counted := RecordFailure(n, ev, failure);
      if counted.None? { return; }
      if counted.value >= config.maxAttempts {
        var copied := DeadLetterEvent(n, ev, counted.value, |broker.log|);
        if !copied { return; }
        result := result.(deadLettered := result.deadLettered + 1);
        var ok := AckMessage(n, DeadLettered);
        if ok { result := result.(acked := result.acked + 1); }
      }
    }

    /**
     A batch is the commands of its messages in order, and its totals add up: every message read is
     counted once as processed, skipped or failed.
     */
    method ProcessMessages(messages: seq<nat>) returns (result: BatchResult)
      requires forall k :: 0 <= k < |messages| ==> messages[k] < |broker.stream|
      modifies this
      ensures group == old(group) && origin == old(broker) && first == FreshBatch(messages)
      ensures Drive(config, old(broker), FreshBatch(messages), answers)
          == (broker, Worker(messages, |messages|, Fresh, result))
      ensures result.read == |messages| == result.processed + result.skipped + result.failed
      ensures result.invalid <= result.failed && result.deadLettered <= result.failed
      ensures result.acked <= result.processed + result.skipped + result.deadLettered
      ensures HandedOut(old(broker), messages) ==> Moved(old(broker), broker, result.acked, UnsureIn(answers))
      ensures faults >= old(faults)
    {
      result := FreshBatch(messages).result;
      origin, first, answers, worker := broker, FreshBatch(messages), [], FreshBatch(messages);
      for i := 0 to |messages|
        invariant Tracks() && origin == old(broker) && first == FreshBatch(messages)
        invariant broker.stream == old(broker.stream) && group == old(group)
        invariant worker == Worker(messages, i, Fresh, result) && faults >= old(faults)
      {
        result := ProcessMessage(messages[i], result);
      }
      DriveTally(config, origin, first, answers);
      if HandedOut(origin, messages) { DriveMoves(config, origin, messages, answers); }
    }

    /** XGROUP CREATE MKSTREAM from the first message; a group that is there already is left alone. */
    method EnsureGroup() returns (ok: bool)
      modifies `broker, `group, `faults
      ensures !ok ==> faults > old(faults)
      ensures old(group) ==> group && broker == old(broker)
      ensures ok ==> group
      ensures !old(group) && group ==> broker == old(broker).(next := 0, pending := {}, acked := {})
      ensures !group ==> broker == old(broker)
    {
      var o := AnyOutcome();
      var busy := group;
      if o != Lost && !group {
        broker := broker.(next := 0, pending := {}, acked := {});
        group := true;
      }
      ok := o == Fine || (o != Lost && busy);
    }

    /** A read whose reply is lost leaves its messages pending for a later re-claim. */
    method RunOnce(batchSize: nat) returns (result: Option<BatchResult>)
      requires BrokerOk(config, broker) && batchSize > 0
      modifies this
      ensures result.None? ==> faults > old(faults)
      ensures BrokerOk(config, broker) && group == old(group) && broker.stream == old(broker.stream)
      ensures result.Some? ==> var r := result.value;
                && r.read == r.processed + r.skipped + r.failed
                && r.read == Available(old(broker), batchSize) && broker.next == old(broker.next) + r.read
                && r.acked <= |broker.acked - old(broker.acked)| <= r.acked + UnsureIn(answers)
      ensures result.None? ==>
                broker == old(broker) || broker == Deliver(old(broker), Available(old(broker), batchSize))
    {
      var o := AnyOutcome();
      if o == Lost { return None; }
      var count := Available(broker, batchSize);
      PositionsHandedOut(config, broker, count);
      var messages := Positions(broker.next, count);
      DeliverOk(config, broker, count);
      broker := Deliver(broker, count);
      if o == Unsure { return None; }
      var r := ProcessBatch(messages);
      return Some(r);
    }

    /** XAUTOCLAIM hands over some pending messages; the rest is as for new ones. */
    method ClaimStaleOnce(claimable: seq<nat>) returns (result: Option<BatchResult>)
      requires BrokerOk(config, broker) && forall k :: 0 <= k < |claimable| ==> claimable[k] in broker.pending
      modifies this
      ensures result.None? ==> faults > old(faults)
      ensures BrokerOk(config, broker) && group == old(group) && broker.stream == old(broker.stream)
      ensures result.Some? ==> var r := result.value;
                && r.read == r.processed + r.skipped + r.failed == |claimable|
                && broker.next == old(broker.next)
                && (Distinct(claimable) ==>
                      r.acked <= |broker.acked - old(broker.acked)| <= r.acked + UnsureIn(answers))
      ensures result.None? ==> broker == old(broker)
    {
      var o := AnyOutcome();
      if o != Fine { return None; }
      var r := ProcessBatch(claimable);
      return Some(r);
    }

    /** A batch of delivered messages keeps the group sound. */
    method ProcessBatch(messages: seq<nat>) returns (result: BatchResult)
      requires BrokerOk(config, broker) && forall k :: 0 <= k < |messages| ==> messages[k] < broker.next
      modifies this
      ensures BrokerOk(config, broker) && group == old(group)
      ensures broker.stream == old(broker.stream) && broker.next == old(broker.next) && faults >= old(faults)
      ensures HandedOut(old(broker), messages) ==> Moved(old(broker), broker, result.acked, UnsureIn(answers))
      ensures result.read == |messages| == result.processed + result.skipped + result.failed
    {
      ghost var before := broker;
      result := ProcessMessages(messages);
      DriveKeeps(config, before, FreshBatch(messages), answers);
      DriveReadsNothing(config, before, FreshBatch(messages), answers);
    }
  }
}
