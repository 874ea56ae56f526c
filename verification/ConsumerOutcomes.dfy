/**
 What becomes of one message when every Redis command works: handled once and acknowledged, skipped,
 counted and left pending, given up, or set aside as invalid. Nothing but the handler's verdict is open.
 */
module ConsumerOutcomes {
  import opened Base
  import opened StreamMessage
  import opened Consumer
  import opened ConsumerLoop

  /** The next k commands, all working, with a handler that succeeds or fails. */
  function Onward(c: Config, b: Broker, w: Worker, ok: bool, k: nat): (Broker, Worker)
    decreases k
  {
    if k == 0 || !Ready(b, w) then (b, w)
    else
      var (b1, w1) := Advance(c, b, w, Choice(Fine, ok));
      Onward(c, b1, w1, ok, k - 1)
  }

  function Calm(ok: bool, k: nat): seq<Choice> { seq(k, i => Choice(Fine, ok)) }

  lemma {:induction false} DriveCons(c: Config, b: Broker, w: Worker, ch: Choice, answers: seq<Choice>)
    requires Ready(b, w)
    ensures var (b1, w1) := Advance(c, b, w, ch); Drive(c, b, w, [ch] + answers) == Drive(c, b1, w1, answers)
    decreases |answers|
  {
    var all := [ch] + answers;
    if answers == [] {
      assert all == [ch] && all[..0] == [];
      assert Drive(c, b, w, []) == (b, w);
    } else {
      DriveCons(c, b, w, ch, answers[..|answers| - 1]);
      assert all[..|all| - 1] == [ch] + answers[..|answers| - 1];
    }
  }

  lemma {:induction false} DriveIdles(c: Config, b: Broker, w: Worker, answers: seq<Choice>)
    requires !Ready(b, w)
    ensures Drive(c, b, w, answers) == (b, w)
    decreases |answers|
  {
    if answers != [] { DriveIdles(c, b, w, answers[..|answers| - 1]); }
  }

  /** They are commands of the loop. */
  lemma {:induction false} OnwardIsDrive(c: Config, b: Broker, w: Worker, ok: bool, k: nat)
    ensures Onward(c, b, w, ok, k) == Drive(c, b, w, Calm(ok, k))
    decreases k
  {
    if !Ready(b, w) {
      DriveIdles(c, b, w, Calm(ok, k));
    } else if k > 0 {
      var (b1, w1) := Advance(c, b, w, Choice(Fine, ok));
      OnwardIsDrive(c, b1, w1, ok, k - 1);
      DriveCons(c, b, w, Choice(Fine, ok), Calm(ok, k - 1));
      assert Calm(ok, k) == [Choice(Fine, ok)] + Calm(ok, k - 1);
    }
  }

  /** Message n is pending and in the worker's hands, and this command of it is next. */
  predicate Next(b: Broker, w: Worker, n: nat, pc: Pc) {
    Ready(b, w) && w.pc == pc && w.batch[w.i] == n && n in b.pending
  }

  function Settle(b: Broker, n: nat): Broker { b.(pending := b.pending - {n}, acked := b.acked + {n}) }

  function Finished(w: Worker, r: BatchResult): Worker { Worker(w.batch, w.i + 1, Fresh, r) }

  // ------------------------------------------------------------------ from each command to the end

  lemma FromAck(c: Config, b: Broker, w: Worker, ok: bool, n: nat, why: AckReason, k: nat)
    requires Next(b, w, n, Ack(why)) && k == 1
    ensures Onward(c, b, w, ok, k) == (Settle(b, n), Finished(w, AckResult(w.result, why, true)))
  {
  }

  lemma FromCopy(c: Config, b: Broker, w: Worker, n: nat, count: nat, at: nat, k: nat)
    requires Next(b, w, n, Copy(count, at)) && Parses(c, b, n) && k == 2
    ensures var r := w.result; var ev := Parse(c.codec, b.stream[n]).value;
            Onward(c, b, w, false, k)
            == (Settle(XAddDead(b, FailedEntry(n, ev, count, at)), n),
                Finished(w, r.(deadLettered := r.deadLettered + 1, acked := r.acked + 1)))
  {
    var (b1, w1) := Advance(c, b, w, Choice(Fine, false));
    FromAck(c, b1, w1, false, n, DeadLettered, k - 1);
  }

  lemma FromCount(c: Config, b: Broker, w: Worker, n: nat, e: string, failure: nat, k: nat)
    requires Next(b, w, n, Count(failure)) && Parses(c, b, n) && EventId(c, b, n) == e
    requires k == if CounterOf(b, e) + 1 < c.maxAttempts then 1 else 3
    ensures var r := w.result; var counted := Increment(b, e, failure); var count := CounterOf(b, e) + 1;
            var ev := Parse(c.codec, b.stream[n]).value;
            Onward(c, b, w, false, k)
            == if count < c.maxAttempts then (counted, Finished(w, r))
               else (Settle(XAddDead(counted, FailedEntry(n, ev, count, |counted.log|)), n),
                     Finished(w, r.(deadLettered := r.deadLettered + 1, acked := r.acked + 1)))
  {
    var (b1, w1) := Advance(c, b, w, Choice(Fine, false));
    if CounterOf(b, e) + 1 >= c.maxAttempts {
      FromCopy(c, b1, w1, n, CounterOf(b, e) + 1, |b1.log|, k - 1);
    }
  }

  lemma FromMark(c: Config, b: Broker, w: Worker, n: nat, e: string, k: nat)
    requires Next(b, w, n, Mark) && Parses(c, b, n) && EventId(c, b, n) == e && e !in b.processed && k == 2
    ensures var r := w.result;
            Onward(c, b, w, true, k)
            == (Settle(b.(processed := b.processed + {e}), n),
                Finished(w, r.(processed := r.processed + 1, acked := r.acked + 1)))
  {
    var (b1, w1) := Advance(c, b, w, Choice(Fine, true));
    FromAck(c, b1, w1, true, n, Done, k - 1);
  }

  /** Message n carries an event not processed before. */
  predicate CarriesNew(c: Config, b: Broker, n: nat, e: string) {
    n < |b.stream| && Parses(c, b, n) && EventId(c, b, n) == e && e !in b.processed
  }

  lemma FromHandleSucceeding(c: Config, b: Broker, w: Worker, n: nat, e: string, k: nat)
    requires Next(b, w, n, Handle) && CarriesNew(c, b, n, e) && k == 3
    ensures var r := w.result;
            Onward(c, b, w, true, k)
            == (Settle(b.(handled := b.handled + [e], processed := b.processed + {e}), n),
                Finished(w, r.(processed := r.processed + 1, acked := r.acked + 1)))
  {
    var (b1, w1) := Advance(c, b, w, Choice(Fine, true));
    FromMark(c, b1, w1, n, e, k - 1);
  }

  /** The group after one more counted failure of event e. */
  function Failed(b: Broker, e: string): Broker {
    b.(failed := b.failed + [e], counters := b.counters[e := CounterOf(b, e) + 1],
       log := b.log + [Recorded(e, |b.failed|)])
  }

  /** The entry of an event given up: its ids and fields, and how often it had failed. */
  function GivenUp(c: Config, b: Broker, n: nat): DeadEntry
    requires n < |b.stream| && Parses(c, b, n)
  {
    var ev := Parse(c.codec, b.stream[n]).value;
    DeadEntry(n, ev.messageId, ev.eventId, ev.eventType, ev.aggregateType, ev.aggregateId, ev.payload,
              CounterOf(b, ev.eventId) + 1, HandlerFailed, |b.log| + 1)
  }

  /** Below its limit a failed event stays pending; at the limit it is copied to the dead letters and acknowledged. */
  function AfterFailure(c: Config, b: Broker, w: Worker, n: nat): (Broker, Worker)
    requires n < |b.stream| && Parses(c, b, n)
  {
    var e := EventId(c, b, n);
    var r := w.result.(failed := w.result.failed + 1);
    if CounterOf(b, e) + 1 < c.maxAttempts then (Failed(b, e), Finished(w, r))
    else (Settle(XAddDead(Failed(b, e), GivenUp(c, b, n)), n),
          Finished(w, r.(deadLettered := r.deadLettered + 1, acked := r.acked + 1)))
  }

  function StepsAfterFailure(c: Config, b: Broker, e: string): nat {
    if CounterOf(b, e) + 1 < c.maxAttempts then 2 else 4
  }

  lemma FromHandleFailing(c: Config, b: Broker, w: Worker, n: nat, e: string, k: nat)
    requires Next(b, w, n, Handle) && CarriesNew(c, b, n, e) && k == StepsAfterFailure(c, b, e)
    ensures Onward(c, b, w, false, k) == AfterFailure(c, b, w, n)
  {
    var (b1, w1) := Advance(c, b, w, Choice(Fine, false));
    FromCount(c, b1, w1, n, e, |b.failed|, k - 1);
  }

  /** Parsing, then the look-up of the processed key. */
  lemma UpToHandle(c: Config, b: Broker, w: Worker, ok: bool, n: nat, e: string, k: nat)
    requires Next(b, w, n, Fresh) && CarriesNew(c, b, n, e) && k >= 2
    ensures Onward(c, b, w, ok, k) == Onward(c, b, w.(pc := Handle), ok, k - 2)
  {
    var checking := w.(pc := Check);
    assert Advance(c, b, w, Choice(Fine, ok)) == (b, checking);
    assert Advance(c, b, checking, Choice(Fine, ok)) == (b, w.(pc := Handle));
    OneOnward(c, b, w, ok, k);
    OneOnward(c, b, checking, ok, k - 1);
  }

  lemma OneOnward(c: Config, b: Broker, w: Worker, ok: bool, k: nat)
    requires Ready(b, w) && k > 0
    ensures var (b1, w1) := Advance(c, b, w, Choice(Fine, ok)); Onward(c, b, w, ok, k) == Onward(c, b1, w1, ok, k - 1)
  {
  }

  // ------------------------------------------------------------------ what becomes of a message

  /** A new event is handled once, marked, acknowledged and counted as processed. */
  lemma SuccessIsProcessed(c: Config, b: Broker, w: Worker, n: nat, e: string) returns (k: nat)
    requires Next(b, w, n, Fresh) && CarriesNew(c, b, n, e)
    ensures var r := w.result;
            Onward(c, b, w, true, k)
            == (Settle(b.(handled := b.handled + [e], processed := b.processed + {e}), n),
                Finished(w, r.(processed := r.processed + 1, acked := r.acked + 1)))
  {
    k := 5;
    UpToHandle(c, b, w, true, n, e, k);
    FromHandleSucceeding(c, b, w.(pc := Handle), n, e, k - 2);
  }

  /**
   A failure is counted. Below the limit the message stays pending, to be claimed again; the failure that
   reaches the limit copies the event to the dead letters and acknowledges the message.
   */
  lemma FailureIsCounted(c: Config, b: Broker, w: Worker, n: nat, e: string) returns (k: nat)
    requires Next(b, w, n, Fresh) && CarriesNew(c, b, n, e)
    ensures Onward(c, b, w, false, k) == AfterFailure(c, b, w, n)
    ensures n in Onward(c, b, w, false, k).0.pending <==> CounterOf(b, e) + 1 < c.maxAttempts
  {
    k := 2 + StepsAfterFailure(c, b, e);
    UpToHandle(c, b, w, false, n, e, k);
    FromHandleFailing(c, b, w.(pc := Handle), n, e, k - 2);
  }

  /** A processed event is acknowledged without calling the handler, and counted as skipped. */
  lemma DuplicateIsSkipped(c: Config, b: Broker, w: Worker, ok: bool, n: nat) returns (k: nat)
    requires Next(b, w, n, Fresh) && Parses(c, b, n) && EventId(c, b, n) in b.processed
    ensures var r := w.result;
            Onward(c, b, w, ok, k) == (Settle(b, n), Finished(w, r.(skipped := r.skipped + 1, acked := r.acked + 1)))
  {
    k := 3;
    OneOnward(c, b, w, ok, k);
    OneOnward(c, b, w.(pc := Check), ok, k - 1);
    FromAck(c, b, w.(pc := Ack(DuplicateSeen)), ok, n, DuplicateSeen, k - 2);
  }

  /** A message that does not parse is copied with its fields and acknowledged, and the handler never sees it. */
  lemma InvalidIsSetAside(c: Config, b: Broker, w: Worker, ok: bool, n: nat) returns (k: nat)
    requires Next(b, w, n, Fresh) && !Parses(c, b, n)
    ensures var r := w.result;
            Onward(c, b, w, ok, k)
            == (Settle(XAddDead(b, InvalidEntry(n, b.stream[n])), n),
                Finished(w, r.(invalid := r.invalid + 1, failed := r.failed + 1, deadLettered := r.deadLettered + 1,
                               acked := r.acked + 1)))
    ensures var entry := InvalidEntry(n, b.stream[n]);
            && CopyOf(b, entry, n) && entry.failureCount == 1 && entry.errorType == ParseFailed
            && (entry.eventId == "" ==> b.stream[n].id == "")
  {
    k := 3;
    OneOnward(c, b, w, ok, k);
    var (b1, w1) := Advance(c, b, w, Choice(Fine, ok));
    OneOnward(c, b1, w1, ok, k - 1);
    var (b2, w2) := Advance(c, b1, w1, Choice(Fine, ok));
    FromAck(c, b2, w2, ok, n, Invalid, k - 2);
  }
}
