/** What the consumer group's failure counters mean, for any interleaving of consumers and failures. */
module ConsumerCounts {
  import opened StreamMessage
  import opened Consumer

  /** Failed handler call number t was for event e. */
  predicate FailureOf(b: Broker, t: nat, e: string) { t < |b.failed| && b.failed[t] == e }

  function FailuresOf(b: Broker, e: string): set<nat> { set t: nat | t < |b.failed| && b.failed[t] == e }

  /** The failures counted for e since its counter key last expired: while the present key has lived. */
  function SinceExpiry(log: seq<Note>, e: string): set<nat> {
    if log == [] then {}
    else
      var front, last := log[..|log| - 1], log[|log| - 1];
      if last.eventId != e then SinceExpiry(front, e)
      else if last.CounterExpired? then {}
      else SinceExpiry(front, e) + {last.failure}
  }

  /** Failure t has not been counted yet. */
  predicate Uncounted(log: seq<Note>, t: nat) {
    forall i :: 0 <= i < |log| && log[i].Recorded? ==> log[i].failure != t
  }

  lemma {:induction false} SinceExpiryIsLogged(log: seq<Note>, e: string, t: nat)
    requires t in SinceExpiry(log, e)
    ensures exists i :: 0 <= i < |log| && log[i] == Recorded(e, t)
    decreases |log|
  {
    var front, last := log[..|log| - 1], log[|log| - 1];
    if last == Recorded(e, t) {
      assert log[|log| - 1] == Recorded(e, t);
    } else {
      SinceExpiryIsLogged(front, e, t);
      var i :| 0 <= i < |front| && front[i] == Recorded(e, t);
      assert log[i] == Recorded(e, t);
    }
  }

  lemma SinceExpirySnoc(log: seq<Note>, note: Note, e: string)
    ensures SinceExpiry(log + [note], e)
            == if note.eventId != e then SinceExpiry(log, e)
               else if note.CounterExpired? then {} else SinceExpiry(log, e) + {note.failure}
  {
    assert (log + [note])[..|log|] == log;
  }

  /** The counter's value is the number of failures counted while its key has lived. */
  predicate CounterOk(b: Broker, e: string) { CounterOf(b, e) == |SinceExpiry(b.log, e)| }

  /** The value the counter of e had when the log was `at` long. */
  function CountAt(log: seq<Note>, at: nat, e: string): nat
    requires at <= |log|
  {
    |SinceExpiry(log[..at], e)|
  }

  predicate DeadOk(c: Config, b: Broker, d: DeadEntry) {
    && d.original < |b.stream|
    && match d.errorType
       case ParseFailed => !Parses(c, b, d.original)
       case HandlerFailed =>
         && Parses(c, b, d.original) && d.eventId == EventId(c, b, d.original)
         && d.countedAt <= |b.log|
         && c.maxAttempts <= d.failureCount == CountAt(b.log, d.countedAt, d.eventId)
  }

  /** What a worker holds between commands: an uncounted failure, or a count that reached the limit. */
  predicate HoldsOk(c: Config, b: Broker, w: Worker) {
    Busy(w) ==>
      var n := w.batch[w.i];
      && n < |b.stream|
      && match w.pc
         case CopyInvalid => !Parses(c, b, n)
         case Count(t) => Parses(c, b, n) && FailureOf(b, t, EventId(c, b, n)) && Uncounted(b.log, t)
         case Copy(count, at) =>
           Parses(c, b, n) && at <= |b.log| && c.maxAttempts <= count == CountAt(b.log, at, EventId(c, b, n))
         case _ => true
  }

  predicate SameFailure(v: Worker, w: Worker) { Busy(v) && Busy(w) && v.pc.Count? && v.pc == w.pc }

  /** What the log says was counted is a failure of that event. */
  predicate LogOk(b: Broker) {
    forall i :: 0 <= i < |b.log| && b.log[i].Recorded? ==> FailureOf(b, b.log[i].failure, b.log[i].eventId)
  }

  ghost predicate CountersOk(b: Broker) { LogOk(b) && forall e :: CounterOk(b, e) }

  predicate DeadEntriesOk(c: Config, b: Broker) { forall k :: 0 <= k < |b.dead| ==> DeadOk(c, b, b.dead[k]) }

  ghost predicate Counted(s: Sys, c: Config) {
    && CountersOk(s.broker) && DeadEntriesOk(c, s.broker)
    && (forall k :: k in s.workers ==> HoldsOk(c, s.broker, s.workers[k]))
    && (forall j, k :: j in s.workers && k in s.workers && j != k ==> !SameFailure(s.workers[j], s.workers[k]))
  }

  // ------------------------------------------------------------------ one command

  lemma IncrementOk(b: Broker, e: string, t: nat)
    requires CountersOk(b) && FailureOf(b, t, e) && Uncounted(b.log, t)
    ensures CountersOk(Increment(b, e, t))
  {
    var b' := Increment(b, e, t);
    if t in SinceExpiry(b.log, e) {
      SinceExpiryIsLogged(b.log, e, t);
      assert false;
    }
    forall x ensures CounterOk(b', x) {
      assert CounterOk(b, x);
      SinceExpirySnoc(b.log, Recorded(e, t), x);
    }
  }

  lemma ExpiryOk(b: Broker, e: string)
    requires CountersOk(b)
    ensures CountersOk(b.(counters := b.counters - {e}, log := b.log + [CounterExpired(e)]))
  {
    var b' := b.(counters := b.counters - {e}, log := b.log + [CounterExpired(e)]);
    forall x ensures CounterOk(b', x) {
      assert CounterOk(b, x);
      SinceExpirySnoc(b.log, CounterExpired(e), x);
    }
  }

  /** More failures, more messages: no counter is concerned. */
  lemma CountersStay(a: Broker, b: Broker)
    requires CountersOk(a) && b.counters == a.counters && b.log == a.log && a.failed <= b.failed
    ensures CountersOk(b)
  {
    forall x ensures CounterOk(b, x) { assert CounterOk(a, x); }
  }

  /** Which commands touch the counters. */
  lemma AdvanceFrame(c: Config, b: Broker, w: Worker, ch: Choice)
    requires Busy(w) && w.batch[w.i] < |b.stream|
    ensures var b' := Advance(c, b, w, ch).0; var n := w.batch[w.i];
            || (b'.counters == b.counters && b'.log == b.log)
            || (w.pc.Count? && Parses(c, b, n) && b' == Increment(b, EventId(c, b, n), w.pc.failure))
  {
  }

  lemma AdvanceCounters(c: Config, b: Broker, w: Worker, ch: Choice, b': Broker)
    requires Busy(w) && CountersOk(b) && HoldsOk(c, b, w)
    requires b' == Advance(c, b, w, ch).0
    ensures CountersOk(b')
  {
    AdvanceFrame(c, b, w, ch);
    AdvanceGrows(c, b, w, ch);
    if b'.counters == b.counters && b'.log == b.log {
      CountersStay(b, b');
    } else {
      IncrementOk(b, EventId(c, b, w.batch[w.i]), w.pc.failure);
    }
  }

  lemma CountAtStays(a: seq<Note>, b: seq<Note>, at: nat, e: string)
    requires a <= b && at <= |a|
    ensures CountAt(a, at, e) == CountAt(b, at, e)
  {
    assert a[..at] == b[..at];
  }

  lemma DeadStays(c: Config, a: Broker, b: Broker)
    requires Grows(a, b) && DeadEntriesOk(c, a)
    ensures forall k :: 0 <= k < |a.dead| ==> DeadOk(c, b, b.dead[k])
  {
    forall k | 0 <= k < |a.dead| ensures DeadOk(c, b, b.dead[k]) {
      assert DeadOk(c, a, a.dead[k]);
      if a.dead[k].errorType == HandlerFailed { CountAtStays(a.log, b.log, a.dead[k].countedAt, a.dead[k].eventId); }
    }
  }

  /** A dead-letter entry is written for what the worker holds, which is what the entry claims. */
  lemma AdvanceDead(c: Config, b: Broker, w: Worker, ch: Choice)
    requires Busy(w) && DeadEntriesOk(c, b) && HoldsOk(c, b, w)
    ensures DeadEntriesOk(c, Advance(c, b, w, ch).0)
  {
    AdvanceGrows(c, b, w, ch);
    DeadStays(c, b, Advance(c, b, w, ch).0);
  }

  /** How a worker comes to hold something. */
  lemma AdvanceTakes(c: Config, b: Broker, w: Worker, ch: Choice)
    requires Busy(w) && w.batch[w.i] < |b.stream|
    ensures var (b', w') := Advance(c, b, w, ch); var n := w.batch[w.i];
            && w'.batch == w.batch
            && (w'.i == w.i || (w'.i == w.i + 1 && w'.pc.Fresh?))
            && (w'.pc.CopyInvalid? ==> !Parses(c, b, n))
            && (w'.pc.Count? && Parses(c, b, n) ==>
                  w.pc.Handle? && w'.pc.failure == |b.failed| && b' == b.(failed := b.failed + [EventId(c, b, n)]))
            && (w'.pc.Copy? && Parses(c, b, n) ==>
                  && w.pc.Count? && b' == Increment(b, EventId(c, b, n), w.pc.failure)
                  && var k := CounterOf(b', EventId(c, b, n)); w'.pc == Copy(k, |b'.log|) && c.maxAttempts <= k)
            && (!Parses(c, b, n) ==> w'.pc == w.pc || w'.pc.CopyInvalid? || w'.pc.Fresh? || w'.pc.Ack? || w'.pc.Check?)
  {
  }

  lemma AdvanceHolds(c: Config, b: Broker, w: Worker, ch: Choice, b': Broker, w': Worker)
    requires Busy(w) && CountersOk(b) && HoldsOk(c, b, w)
    requires forall k :: 0 <= k < |w.batch| ==> w.batch[k] < |b.stream|
    requires Advance(c, b, w, ch) == (b', w')
    ensures HoldsOk(c, b', w')
  {
    AdvanceGrows(c, b, w, ch);
    AdvanceTakes(c, b, w, ch);
    var n := w.batch[w.i];
    if w.pc.Count? {
      var e := EventId(c, b, n);
      IncrementOk(b, e, w.pc.failure);
      assert CounterOk(b', e) || b' == b;
      assert b'.log[..|b'.log|] == b'.log;
    }
  }

  // ------------------------------------------------------------------ all consumers

  lemma HoldsStays(c: Config, a: Broker, b: Broker, v: Worker)
    requires Grows(a, b) && HoldsOk(c, a, v)
    requires Busy(v) && v.pc.Count? ==> Uncounted(b.log, v.pc.failure)
    ensures HoldsOk(c, b, v)
  {
    if Busy(v) && v.pc.Copy? { CountAtStays(a.log, b.log, v.pc.at, EventId(c, a, v.batch[v.i])); }
  }

  lemma StepKeeps(s: Sys, c: Config, consumer: string, ch: Choice)
    requires Counted(s, c) && NoLoss(s, c)
    requires consumer in s.workers && Busy(s.workers[consumer])
    ensures Counted(Apply(s, c, Step(consumer, ch)), c)
  {
    var w := s.workers[consumer];
    assert HoldsOk(c, s.broker, w) && WorkerOk(c, s.broker, w);
    var (b, w') := Advance(c, s.broker, w, ch);
    var t := Sys(b, s.workers[consumer := w']);
    assert t == Apply(s, c, Step(consumer, ch));
    AdvanceGrows(c, s.broker, w, ch);
    AdvanceFrame(c, s.broker, w, ch);
    AdvanceTakes(c, s.broker, w, ch);
    AdvanceCounters(c, s.broker, w, ch, b);
    AdvanceDead(c, s.broker, w, ch);
    AdvanceHolds(c, s.broker, w, ch, b, w');
    OthersKeep(s, c, consumer, b, w');
  }

  /** One worker moved; it recorded at most its own failure and may hold the newest one. */
  lemma OthersKeep(s: Sys, c: Config, consumer: string, b: Broker, w': Worker)
    requires Counted(s, c) && consumer in s.workers && Busy(s.workers[consumer]) && Grows(s.broker, b)
    requires CountersOk(b) && DeadEntriesOk(c, b) && HoldsOk(c, b, w')
    requires var w := s.workers[consumer];
             b.log == s.broker.log || (w.pc.Count? && exists e :: b.log == s.broker.log + [Recorded(e, w.pc.failure)])
    requires Busy(w') && w'.pc.Count? ==> w'.pc.failure == |s.broker.failed| || w'.pc == s.workers[consumer].pc
    ensures Counted(Sys(b, s.workers[consumer := w']), c)
  {
    var t := Sys(b, s.workers[consumer := w']);
    forall k | k in t.workers ensures HoldsOk(c, b, t.workers[k]) {
      if k != consumer {
        assert !SameFailure(s.workers[k], s.workers[consumer]);
        HoldsStays(c, s.broker, b, s.workers[k]);
      }
    }
    forall j, k | j in t.workers && k in t.workers && j != k ensures !SameFailure(t.workers[j], t.workers[k]) {
      var other := if j == consumer then k else j;
      assert HoldsOk(c, s.broker, s.workers[other]);
      assert !SameFailure(s.workers[j], s.workers[k]) && !SameFailure(s.workers[k], s.workers[j]);
    }
  }

  lemma GroupHolds(s: Sys, c: Config, ev: Event, k: string)
    requires Counted(s, c) && NoLoss(Apply(s, c, ev), c) && Grows(s.broker, Apply(s, c, ev).broker)
    requires !(ev.Step? && ev.consumer in s.workers && Busy(s.workers[ev.consumer]))
    requires k in Apply(s, c, ev).workers
    ensures HoldsOk(c, Apply(s, c, ev).broker, Apply(s, c, ev).workers[k])
  {
    var t := Apply(s, c, ev);
    if k in s.workers && t.workers[k] == s.workers[k] {
      assert HoldsOk(c, s.broker, s.workers[k]);
      HoldsStays(c, s.broker, t.broker, s.workers[k]);
    } else {
      assert WorkerOk(c, t.broker, t.workers[k]);
    }
  }

  lemma GroupCounts(s: Sys, c: Config, ev: Event)
    requires Counted(s, c) && NoLoss(Apply(s, c, ev), c) && Grows(s.broker, Apply(s, c, ev).broker)
    requires !(ev.Step? && ev.consumer in s.workers && Busy(s.workers[ev.consumer]))
    ensures Counted(Apply(s, c, ev), c)
  {
    var t := Apply(s, c, ev);
    if ev.ExpireCounter? { ExpiryOk(s.broker, ev.eventId); } else { CountersStay(s.broker, t.broker); }
    DeadStays(c, s.broker, t.broker);
    forall k | k in t.workers ensures HoldsOk(c, t.broker, t.workers[k]) { GroupHolds(s, c, ev, k); }
    forall j, k | j in t.workers && k in t.workers && j != k ensures !SameFailure(t.workers[j], t.workers[k]) {
      assert j in s.workers && k in s.workers ==> !SameFailure(s.workers[j], s.workers[k]);
    }
  }

  lemma {:induction false} RunCounts(s: Sys, c: Config, events: seq<Event>)
    requires NoLoss(s, c) && Counted(s, c)
    ensures Counted(Run(s, c, events), c)
    decreases |events|
  {
    if events != [] {
      var front, ev := events[..|events| - 1], events[|events| - 1];
      RunCounts(s, c, front);
      RunKeeps(s, c, front);
      var u := Run(s, c, front);
      if ev.Step? && ev.consumer in u.workers && Busy(u.workers[ev.consumer]) {
        StepKeeps(u, c, ev.consumer, ev.choice);
      } else {
        ApplyKeeps(u, c, ev);
        GroupKeeps(u, c, ev);
        GroupCounts(u, c, ev);
      }
    }
  }

  lemma SinceExpiryAreFailures(b: Broker, at: nat, e: string)
    requires LogOk(b) && at <= |b.log|
    ensures SinceExpiry(b.log[..at], e) <= FailuresOf(b, e)
  {
    forall t | t in SinceExpiry(b.log[..at], e) ensures t in FailuresOf(b, e) {
      SinceExpiryIsLogged(b.log[..at], e, t);
      var i :| 0 <= i < at && b.log[..at][i] == Recorded(e, t);
      assert b.log[i] == Recorded(e, t);
    }
  }

  /**
   In every run a failure counter is the number of different failures of its event counted while its key has
   lived.
   */
  lemma CounterIsFailures(s: Sys, c: Config, events: seq<Event>, e: string)
    requires NoLoss(s, c) && Counted(s, c)
    ensures var b := Run(s, c, events).broker;
            CounterOf(b, e) == |SinceExpiry(b.log, e)| && SinceExpiry(b.log, e) <= FailuresOf(b, e)
  {
    RunCounts(s, c, events);
    var b := Run(s, c, events).broker;
    assert CounterOk(b, e) && b.log[..|b.log|] == b.log;
    SinceExpiryAreFailures(b, |b.log|, e);
  }

  /**
   A dead-letter entry for handler failures: its count reached the limit, and it counts that many
   different failed handler calls of its event, all counted since the counter key was created.
   */
  lemma CountIsFailures(s: Sys, c: Config, events: seq<Event>, k: nat)
    requires NoLoss(s, c) && Counted(s, c)
    requires k < |Run(s, c, events).broker.dead|
    requires Run(s, c, events).broker.dead[k].errorType == HandlerFailed
    ensures var b := Run(s, c, events).broker; var d := b.dead[k];
            && d.countedAt <= |b.log|
            && c.maxAttempts <= d.failureCount == |SinceExpiry(b.log[..d.countedAt], d.eventId)|
            && SinceExpiry(b.log[..d.countedAt], d.eventId) <= FailuresOf(b, d.eventId)
  {
    RunCounts(s, c, events);
    var b := Run(s, c, events).broker;
    assert DeadOk(c, b, b.dead[k]);
    SinceExpiryAreFailures(b, b.dead[k].countedAt, b.dead[k].eventId);
  }

  /** The counter of e has never been at the limit. */
  ghost predicate AlwaysBelow(log: seq<Note>, e: string, limit: nat) {
    forall at: nat :: at <= |log| ==> CountAt(log, at, e) < limit
  }

  /**
   Below the threshold nothing is given up: a delivered message whose event has not been handled, and
   whose counter has never reached the limit, is still pending, so it will be delivered again.
   */
  lemma BelowThresholdStaysPending(s: Sys, c: Config, events: seq<Event>, n: nat)
    requires NoLoss(s, c) && Counted(s, c)
    requires var b := Run(s, c, events).broker;
             && n < b.next <= |b.stream| && Parses(c, b, n)
             && EventId(c, b, n) !in b.handled
             && AlwaysBelow(b.log, EventId(c, b, n), c.maxAttempts)
    ensures n in Run(s, c, events).broker.pending
  {
    var b := Run(s, c, events).broker;
    NothingIsLost(s, c, events, n);
    if HasCopy(b, n) {
      var k :| 0 <= k < |b.dead| && CopyOf(b, b.dead[k], n);
      RunCounts(s, c, events);
      assert DeadOk(c, b, b.dead[k]);
      assert CountAt(b.log, b.dead[k].countedAt, EventId(c, b, n)) < c.maxAttempts;
    }
  }
}
