/**
 Running services together: one goroutine a service, a buffered error channel, a wait group and the
 final select, over every schedule and every choice the select may make.
 */
module Lifecycle {
  import opened Base

  type Failure = string

  /** Where a service's goroutine is: inside `Run`, about to send, about to cancel, about to be done, gone. */
  datatype ServicePc = Working | Sending | Cancelling | Finishing | Gone

  datatype Service = Service(pc: ServicePc, outcome: Option<Failure>)

  /** Where `Run` is: in the select, waiting for all with an error in hand or after the parent ended, or past that. */
  datatype MainPc = Selecting | WaitingWith(e: Failure) | WaitingCancelled
      | LastLook | Returned(result: Option<Failure>)

  /** `channel` is the buffer, `sent` every error ever sent, in order; `done` is the closed channel. */
  datatype Sys = Sys(
    services: seq<Service>, channel: seq<Failure>, sent: seq<Failure>, done: bool, parentDone: bool, cancelled: bool,
        main: MainPc)

  datatype Event =
    | Finish(i: nat, outcome: Option<Failure>)
    | Send(i: nat)
    | Cancel(i: nat)
    | WaitGroupDone(i: nat)
    | CloseDone
    | ParentDone
    | TakeError
    | TakeParentDone
    | TakeDone
    | Awake

  function Start(n: nat): Sys {
    Sys(seq(n, i => Service(Working, None)), [], [], false, false, false, if n == 0 then Returned(None) else Selecting)
  }

  predicate At(s: Sys, i: nat, pc: ServicePc) { i < |s.services| && s.services[i].pc == pc }

  function Move(s: Sys, i: nat, pc: ServicePc): Sys
    requires i < |s.services|
  {
    s.(services := s.services[i := s.services[i].(pc := pc)])
  }

  predicate AllGone(services: seq<Service>) { forall i :: 0 <= i < |services| ==> services[i].pc == Gone }

  /** The non-blocking receive at the end. */
  function Look(s: Sys): Sys {
    if s.channel == [] then s.(main := Returned(None))
    else s.(main := Returned(Some(s.channel[0])), channel := s.channel[1..])
  }

  function Apply(s: Sys, ev: Event): Sys {
    match ev
    case Finish(i, outcome) =>
      if At(s, i, Working) then
        s.(services := s.services[i := Service(if outcome.Some? then Sending else Finishing, outcome)])
      else s
    case Send(i) =>
      if At(s, i, Sending) && s.services[i].outcome.Some? && |s.channel| < |s.services| then
        var e := s.services[i].outcome.value;
        Move(s, i, Cancelling).(channel := s.channel + [e], sent := s.sent + [e])
      else s
    case Cancel(i) => if At(s, i, Cancelling) then Move(s, i, Finishing).(cancelled := true) else s
    case WaitGroupDone(i) => if At(s, i, Finishing) then Move(s, i, Gone) else s
    case CloseDone => if AllGone(s.services) then s.(done := true) else s
    case ParentDone => s.(parentDone := true, cancelled := true)
    case TakeError =>
      if s.main.Selecting? && s.channel != [] then
        s.(main := WaitingWith(s.channel[0]), channel := s.channel[1..], cancelled := true)
      else s
    case TakeParentDone =>
      if s.main.Selecting? && s.parentDone then s.(main := WaitingCancelled, cancelled := true) else s
    case TakeDone => if s.main.Selecting? && s.done then s.(main := LastLook) else s
    case Awake =>
      if s.main.LastLook? then Look(s)
      else if s.main.WaitingWith? && s.done then s.(main := Returned(Some(s.main.e)))
      else if s.main.WaitingCancelled? && s.done then s.(main := LastLook)
      else s
  }

  function Run(s: Sys, events: seq<Event>): Sys {
    if events == [] then s else Apply(Run(s, events[..|events| - 1]), events[|events| - 1])
  }

  // ------------------------------------------------------------------ the invariant

  predicate HasSent(x: Service) { x.outcome.Some? && (x.pc.Cancelling? || x.pc.Finishing? || x.pc.Gone?) }

  function SentBy(services: seq<Service>): nat {
    if services == [] then 0
    else SentBy(services[..|services| - 1]) + (if HasSent(services[|services| - 1]) then 1 else 0)
  }

  lemma {:induction false} SentByUpdate(services: seq<Service>, i: nat, x: Service)
    requires i < |services|
    ensures SentBy(services[i := x])
            == SentBy(services) + (if HasSent(x) then 1 else 0) - (if HasSent(services[i]) then 1 else 0)
  {
    var front, last := services[..|services| - 1], |services| - 1;
    if i == last {
      assert services[i := x][..last] == front;
    } else {
      SentByUpdate(front, i, x);
      assert services[i := x][..last] == front[i := x];
    }
  }

  /** There is room for a service that has not sent. */
  lemma {:induction false} SentByLess(services: seq<Service>)
    ensures SentBy(services) <= |services|
    ensures (exists i :: 0 <= i < |services| && !HasSent(services[i])) ==> SentBy(services) < |services|
  {
    if services != [] { SentByLess(services[..|services| - 1]); }
  }

  lemma {:induction false} NobodySent(services: seq<Service>)
    ensures SentBy(services) == 0 <==> forall i :: 0 <= i < |services| ==> !HasSent(services[i])
  {
    if services != [] { NobodySent(services[..|services| - 1]); }
  }

  predicate ServiceOk(s: Sys, x: Service) {
    match x.pc
    case Working => x.outcome.None?
    case Sending => x.outcome.Some?
    case Cancelling => x.outcome.Some?
    case _ => x.outcome.Some? ==> s.cancelled
  }

  predicate MainOk(s: Sys) {
    match s.main
    case Selecting => s.channel == s.sent
    case WaitingWith(e) => s.cancelled && s.sent == [e] + s.channel
    case WaitingCancelled => s.cancelled && s.channel == s.sent
    case LastLook => s.done && s.channel == s.sent
    case Returned(result) => (s.done || s.services == []) && result == (if s.sent == [] then None else Some(s.sent[0]))
  }

  predicate Inv(s: Sys) {
    && MainOk(s)
    && |s.channel| <= |s.sent| == SentBy(s.services)
    && (s.done ==> AllGone(s.services))
    && (forall i :: 0 <= i < |s.services| ==> ServiceOk(s, s.services[i]))
  }

  lemma {:induction false} StartOk(n: nat)
    ensures Inv(Start(n))
  {
    NobodySent(Start(n).services);
  }

  lemma ServiceKeeps(s: Sys, ev: Event)
    requires Inv(s) && (ev.Finish? || ev.Send? || ev.Cancel? || ev.WaitGroupDone?)
    ensures Inv(Apply(s, ev))
  {
    if ev.i < |s.services| {
      SentByUpdate(s.services, ev.i, Apply(s, ev).services[ev.i]);
      assert ServiceOk(s, s.services[ev.i]);
    }
  }

  lemma ApplyKeeps(s: Sys, ev: Event)
    requires Inv(s)
    ensures Inv(Apply(s, ev))
  {
    if ev.Finish? || ev.Send? || ev.Cancel? || ev.WaitGroupDone? { ServiceKeeps(s, ev); }
  }

  lemma StepKeepsServices(s: Sys, ev: Event)
    ensures |Apply(s, ev).services| == |s.services|
  {
  }

  lemma {:induction false} SameServices(n: nat, events: seq<Event>)
    ensures |Run(Start(n), events).services| == n
    decreases |events|
  {
    if events != [] {
      SameServices(n, events[..|events| - 1]);
      StepKeepsServices(Run(Start(n), events[..|events| - 1]), events[|events| - 1]);
    }
  }

  lemma {:induction false} RunKeeps(n: nat, events: seq<Event>)
    ensures Inv(Run(Start(n), events)) && |Run(Start(n), events).services| == n
    decreases |events|
  {
    SameServices(n, events);
    if events == [] {
      StartOk(n);
    } else {
      var front, last := events[..|events| - 1], events[|events| - 1];
      RunKeeps(n, front);
      ApplyKeeps(Run(Start(n), front), last);
      assert Run(Start(n), events) == Apply(Run(Start(n), front), last);
    }
  }

  // ------------------------------------------------------------------ what Run promises

  /** A service with an error to report finds room in the channel. */
  lemma SendNeverBlocks(n: nat, events: seq<Event>, i: nat)
    requires At(Run(Start(n), events), i, Sending)
    ensures At(Run(Start(n), events + [Send(i)]), i, Cancelling)
  {
    RunKeeps(n, events);
    var s := Run(Start(n), events);
    assert ServiceOk(s, s.services[i]) && !HasSent(s.services[i]);
    SentByLess(s.services);
    assert (events + [Send(i)])[..|events|] == events;
  }

  /** `Run` returns after every service has, with the first error sent, or nil exactly when no service failed. */
  lemma ReturnsFirstError(n: nat, events: seq<Event>)
    requires Run(Start(n), events).main.Returned?
    ensures var s := Run(Start(n), events);
            && |s.services| == n && AllGone(s.services)
            && (s.main.result == None <==> forall i :: 0 <= i < n ==> s.services[i].outcome.None?)
            && (s.main.result.Some? ==> s.sent != [] && s.main.result.value == s.sent[0])
  {
    RunKeeps(n, events);
    var s := Run(Start(n), events);
    NobodySent(s.services);
    assert forall i :: 0 <= i < n ==> (HasSent(s.services[i]) <==> s.services[i].outcome.Some?);
  }

  /** A failure cancels the context the other services run with, before the failed service is gone. */
  lemma FailureCancels(n: nat, events: seq<Event>, i: nat)
    requires At(Run(Start(n), events), i, Gone) && Run(Start(n), events).services[i].outcome.Some?
    ensures Run(Start(n), events).cancelled
  {
    RunKeeps(n, events);
    assert ServiceOk(Run(Start(n), events), Run(Start(n), events).services[i]);
  }

  // ------------------------------------------------------------------ it does return

  /** Until `Run` has returned something can move: its goroutines never wait for each other in vain. */
  lemma NeverStuck(n: nat, events: seq<Event>) returns (ev: Event)
    requires !Run(Start(n), events).main.Returned?
    ensures Apply(Run(Start(n), events), ev) != Run(Start(n), events)
    ensures ev.Finish? ==> At(Run(Start(n), events), ev.i, Working)
  {
    RunKeeps(n, events);
    ev := Mover(Run(Start(n), events));
  }

  lemma Mover(s: Sys) returns (ev: Event)
    requires Inv(s) && !s.main.Returned?
    ensures Apply(s, ev) != s
    ensures ev.Finish? ==> At(s, ev.i, Working)
  {
    if i: nat :| i < |s.services| && s.services[i].pc != Gone {
      ev := ServiceMover(s, i);
    } else if !s.done {
      ev := CloseDone;
    } else {
      ev := if s.main.Selecting? then TakeDone else Awake;
    }
  }

  lemma ServiceMover(s: Sys, i: nat) returns (ev: Event)
    requires Inv(s) && i < |s.services| && s.services[i].pc != Gone
    ensures Apply(s, ev) != s
    ensures ev.Finish? ==> At(s, ev.i, Working)
  {
    SentByLess(s.services);
    assert ServiceOk(s, s.services[i]) && (s.services[i].pc.Sending? ==> !HasSent(s.services[i]));
    match s.services[i].pc {
      case Working => ev := Finish(i, None);
      case Sending => ev := Send(i);
      case Cancelling => ev := Cancel(i);
      case _ => ev := WaitGroupDone(i);
    }
    assert Apply(s, ev).services[i].pc != s.services[i].pc;
  }

  function ServiceWork(x: Service): nat {
    match x.pc case Working => 4 case Sending => 3 case Cancelling => 2 case Finishing => 1 case Gone => 0
  }

  function ServicesWork(services: seq<Service>): nat {
    if services == [] then 0
    else ServicesWork(services[..|services| - 1]) + ServiceWork(services[|services| - 1])
  }

  /** Steps that can still be taken. */
  function Work(s: Sys): nat {
    ServicesWork(s.services)
    + (if s.done then 0 else 1) + (if s.parentDone then 0 else 1)
    + (match s.main case Selecting => 3 case WaitingWith(_) => 2 case WaitingCancelled => 2 case LastLook => 1
        case Returned(_) => 0)
  }

  lemma {:induction false} WorkUpdate(services: seq<Service>, i: nat, x: Service)
    requires i < |services|
    ensures ServicesWork(services[i := x]) == ServicesWork(services) + ServiceWork(x) - ServiceWork(services[i])
  {
    var front, last := services[..|services| - 1], |services| - 1;
    if i == last {
      assert services[i := x][..last] == front;
    } else {
      WorkUpdate(front, i, x);
      assert services[i := x][..last] == front[i := x];
    }
  }

  lemma StepWorks(s: Sys, ev: Event)
    requires Apply(s, ev) != s && (s.parentDone ==> s.cancelled)
    ensures Work(Apply(s, ev)) < Work(s)
  {
    if ev.Finish? || ev.Send? || ev.Cancel? || ev.WaitGroupDone? { ServiceWorks(s, ev); }
  }

  lemma ServiceWorks(s: Sys, ev: Event)
    requires Apply(s, ev) != s && (ev.Finish? || ev.Send? || ev.Cancel? || ev.WaitGroupDone?)
    ensures Work(Apply(s, ev)) < Work(s)
  {
    if ev.i < |s.services| { WorkUpdate(s.services, ev.i, Apply(s, ev).services[ev.i]); }
  }

  lemma StepCancels(s: Sys, ev: Event)
    requires s.parentDone ==> s.cancelled
    ensures Apply(s, ev).parentDone ==> Apply(s, ev).cancelled
  {
  }

  lemma {:induction false} ParentCancels(n: nat, events: seq<Event>)
    ensures var s := Run(Start(n), events); s.parentDone ==> s.cancelled
    decreases |events|
  {
    if events != [] {
      ParentCancels(n, events[..|events| - 1]);
      StepCancels(Run(Start(n), events[..|events| - 1]), events[|events| - 1]);
    }
  }

  predicate Moving(s: Sys, events: seq<Event>) {
    events == [] ||
    (Moving(s, events[..|events| - 1])
     && Apply(Run(s, events[..|events| - 1]), events[|events| - 1]) != Run(s, events[..|events| - 1]))
  }

  lemma {:induction false} StartWork(services: seq<Service>)
    requires forall i :: 0 <= i < |services| ==> services[i].pc == Working
    ensures ServicesWork(services) == 4 * |services|
  {
    if services != [] { StartWork(services[..|services| - 1]); }
  }

  /** No schedule is longer than 4n + 5 steps, so with `NeverStuck`, `Run` returns once its services do. */
  lemma {:induction false} BoundedSteps(n: nat, events: seq<Event>)
    requires Moving(Start(n), events)
    ensures |events| + Work(Run(Start(n), events)) <= 4 * n + 5
    decreases |events|
  {
    if events == [] {
      StartWork(Start(n).services);
    } else {
      var front := events[..|events| - 1];
      BoundedSteps(n, front);
      ParentCancels(n, front);
      StepWorks(Run(Start(n), front), events[|events| - 1]);
    }
  }
}
