/**
 What the publisher guarantees under the lease hypothesis: every worker that is still working on a
 claim finishes with it, or stops, before the claim counts as stale. All workers share one clock.
 */
module Lease {
  import opened Base
  import opened Outbox
  import opened Publisher

  /** No claim in use is stale. */
  predicate Timely(s: Sys, c: Config) {
    forall w :: w in s.workers && Busy(s.workers[w]) ==> s.now < s.workers[w].claimedAt + c.timeout
  }

  predicate TimelyRun(s: Sys, c: Config, events: seq<Event>) {
    forall k :: 0 <= k <= |events| ==> Timely(Run(s, c, events[..k]), c)
  }

  predicate Sensible(c: Config) { c.policy.maxAttempts >= 1 && c.policy.base >= 0 && c.timeout > 0 }

  // ------------------------------------------------------------------ invariant

  function Log(s: Sys, id: string): seq<int> { if id in s.failures then s.failures[id] else [] }

  /** The k-th failure (counting from one) pushes everything after it back by k bases. */
  predicate Spaced(log: seq<int>, base: int) {
    forall k :: 1 <= k < |log| ==> log[k] >= log[k - 1] + k * base
  }

  /** The earliest instant the row may be claimed at, given its failures. */
  function NotBefore(log: seq<int>, base: int): int
    requires log != []
  {
    log[|log| - 1] + |log| * base
  }

  predicate RowOk(row: Row, log: seq<int>, now: int, policy: Policy) {
    && |log| == row.attempts
    && Spaced(log, policy.base)
    && (log != [] ==> log[|log| - 1] <= now)
    && (if row.status == DeadLetter then row.attempts == policy.maxAttempts else row.attempts < policy.maxAttempts)
    && (row.status == Pending && log != [] ==> row.nextAttemptAt == NotBefore(log, policy.base))
    && (row.status == Processing ==>
          && row.lockedAt.Some?
          && row.lockedAt.value <= now
          && (log != [] ==> row.lockedAt.value >= NotBefore(log, policy.base)))
  }

  /** Worker w still owes event j of its batch, and the row shows exactly w's claim. */
  predicate Owns(s: Sys, w: Worker, j: int)
    requires 0 <= j < |w.batch|
  {
    var id := w.batch[j].id;
    && id in s.rows
    && s.rows[id].status == Processing
    && s.rows[id].lockedAt == Some(w.claimedAt)
    && s.rows[id].attempts == w.batch[j].row.attempts
  }

  predicate WorkerHolds(s: Sys, w: Worker) {
    && DistinctIds(w.batch)
    && w.claimedAt <= s.now
    && w.i <= |w.batch|
    && (forall j :: w.i <= j < |w.batch| ==> Owns(s, w, j))
    && (Busy(w) && w.pc.Writing? ==>
          Owns(s, w, w.i) && w.pc.row == s.rows[w.batch[w.i].id] && w.claimedAt <= w.pc.at <= s.now)
  }

  /** The dead-letter counter counts distinct rows, each dead-lettered. */
  predicate CountsDead(s: Sys, w: Worker) {
    && w.i <= |w.batch|
    && |w.dead| == w.deadCount
    && (forall id :: id in w.dead ==> id in s.rows && s.rows[id].status == DeadLetter)
    && (forall id :: id in w.dead ==> id in IdSet(w.batch[..w.i]))
  }

  predicate NoShare(a: Worker, b: Worker) {
    forall j, k :: a.i <= j < |a.batch| && b.i <= k < |b.batch| ==> a.batch[j].id != b.batch[k].id
  }

  predicate RowsOk(s: Sys, c: Config) {
    && (forall id :: id in s.rows ==> RowOk(s.rows[id], Log(s, id), s.now, c.policy))
    && (forall id :: id in s.failures ==> id in s.rows)
  }

  predicate WorkersHold(s: Sys) {
    forall w :: w in s.workers ==> WorkerHolds(s, s.workers[w]) && CountsDead(s, s.workers[w])
  }

  predicate OneOwner(s: Sys) {
    forall w, v :: w in s.workers && v in s.workers && w != v ==> NoShare(s.workers[w], s.workers[v])
  }

  predicate LeaseInv(s: Sys, c: Config) { RowsOk(s, c) && WorkersHold(s) && OneOwner(s) }

  // ------------------------------------------------------------------ steps

  /** What a live worker owes is claimable by nobody. */
  lemma OwnedIsNotClaimable(s: Sys, c: Config, v: string, j: int)
    requires LeaseInv(s, c) && Timely(s, c)
    requires v in s.workers && s.workers[v].i <= j < |s.workers[v].batch|
    ensures var id := s.workers[v].batch[j].id; id in s.rows && !Claimable(s.rows[id], s.now, s.now - c.timeout)
  {
    assert WorkerHolds(s, s.workers[v]);
    assert Owns(s, s.workers[v], j);
  }

  lemma ClaimedRowOk(row: Row, log: seq<int>, now: int, stale: int, owner: string, policy: Policy)
    requires RowOk(row, log, now, policy) && Claimable(row, now, stale)
    ensures RowOk(Claimed(row, now, owner), log, now, policy)
  {
  }

  lemma ClaimKeeps(s: Sys, c: Config, w: string, ids: seq<string>, owner: string)
    requires LeaseInv(s, c) && Timely(s, c) && Sensible(c)
    ensures LeaseInv(ClaimStep(s, c, w, ids, owner), c)
  {
    if !BusyAt(s, w) && CanClaim(s, c, ids) {
      var t := ClaimStep(s, c, w, ids, owner);
      var k := t.workers[w];
      assert forall id :: id in (set x | x in ids) <==> id in ids;
      forall id | id in t.rows ensures RowOk(t.rows[id], Log(t, id), t.now, c.policy) {
        if id in ids { ClaimedRowOk(s.rows[id], Log(s, id), s.now, s.now - c.timeout, owner, c.policy); }
      }
      forall j | 0 <= j < |k.batch| ensures Owns(t, k, j) { assert ids[j] in ids; }
      ClaimOthers(s, c, w, ids, owner);
    }
  }

  lemma ClaimOthers(s: Sys, c: Config, w: string, ids: seq<string>, owner: string)
    requires LeaseInv(s, c) && Timely(s, c) && Sensible(c)
    requires !BusyAt(s, w) && CanClaim(s, c, ids)
    ensures var t := ClaimStep(s, c, w, ids, owner);
            && (forall v :: v in s.workers && v != w ==>
                  && WorkerHolds(t, t.workers[v]) && CountsDead(t, t.workers[v])
                  && NoShare(t.workers[v], t.workers[w]) && NoShare(t.workers[w], t.workers[v]))
  {
    var t := ClaimStep(s, c, w, ids, owner);
    assert forall id :: id in ids ==> id in s.rows && Claimable(s.rows[id], s.now, s.now - c.timeout);
    forall v | v in s.workers && v != w
      ensures WorkerHolds(t, t.workers[v]) && CountsDead(t, t.workers[v])
      ensures NoShare(t.workers[v], t.workers[w]) && NoShare(t.workers[w], t.workers[v])
    {
      var k := s.workers[v];
      assert WorkerHolds(s, k) && CountsDead(s, k);
      forall j | k.i <= j < |k.batch| ensures k.batch[j].id !in ids && Owns(t, k, j) {
        assert Owns(s, k, j);
        OwnedIsNotClaimable(s, c, v, j);
      }
      forall id | id in k.dead ensures id in t.rows && t.rows[id].status == DeadLetter {
        assert !Claimable(s.rows[id], s.now, s.now - c.timeout);
      }
    }
  }

  lemma PcKeeps(s: Sys, c: Config, w: string, stream: seq<Entry>, pc: Pc)
    requires LeaseInv(s, c) && BusyAt(s, w)
    requires pc.Writing? ==>
               var id := s.workers[w].batch[s.workers[w].i].id; id in s.rows && pc.row == s.rows[id] && pc.at == s.now
    ensures LeaseInv(SetPc(s.(stream := stream), w, pc), c)
  {
    var t := SetPc(s.(stream := stream), w, pc);
    assert WorkerHolds(s, s.workers[w]) && CountsDead(s, s.workers[w]);
    forall v | v in t.workers ensures WorkerHolds(t, t.workers[v]) && CountsDead(t, t.workers[v]) {
      assert WorkerHolds(s, s.workers[v]) && CountsDead(s, s.workers[v]);
      forall j | t.workers[v].i <= j < |t.workers[v].batch| ensures Owns(t, t.workers[v], j) {
          assert Owns(s, s.workers[v], j); }
    }
    forall v, u | v in t.workers && u in t.workers && v != u ensures NoShare(t.workers[v], t.workers[u]) {
      assert NoShare(s.workers[v], s.workers[u]);
    }
  }

  lemma TickKeeps(s: Sys, c: Config, to: int)
    requires LeaseInv(s, c) && to > s.now
    ensures LeaseInv(s.(now := to), c)
  {
    var t := s.(now := to);
    forall id | id in t.rows ensures RowOk(t.rows[id], Log(t, id), t.now, c.policy) {
      assert RowOk(s.rows[id], Log(s, id), s.now, c.policy);
    }
    forall v | v in t.workers ensures WorkerHolds(t, t.workers[v]) && CountsDead(t, t.workers[v]) {
      assert WorkerHolds(s, s.workers[v]) && CountsDead(s, s.workers[v]);
      forall j | t.workers[v].i <= j < |t.workers[v].batch| ensures Owns(t, t.workers[v], j) {
          assert Owns(s, s.workers[v], j); }
    }
  }

  lemma CreateKeeps(s: Sys, c: Config, id: string, row: Row)
    requires LeaseInv(s, c) && Sensible(c) && id !in s.rows && row == NewRow(row.event, s.now)
    ensures LeaseInv(s.(rows := s.rows[id := row]), c)
  {
    var t := s.(rows := s.rows[id := row]);
    forall v | v in t.workers ensures WorkerHolds(t, t.workers[v]) && CountsDead(t, t.workers[v]) {
      assert WorkerHolds(s, s.workers[v]) && CountsDead(s, s.workers[v]);
      if Busy(s.workers[v]) { assert Owns(s, s.workers[v], s.workers[v].i); }
      forall j | t.workers[v].i <= j < |t.workers[v].batch| ensures Owns(t, t.workers[v], j) {
          assert Owns(s, s.workers[v], j); }
    }
  }

  lemma StopKeeps(s: Sys, c: Config, w: string)
    requires LeaseInv(s, c)
    ensures LeaseInv(s.(workers := s.workers - {w}), c)
  {
    var t := s.(workers := s.workers - {w});
    forall v | v in t.workers ensures WorkerHolds(t, t.workers[v]) && CountsDead(t, t.workers[v]) {
      assert WorkerHolds(s, s.workers[v]) && CountsDead(s, s.workers[v]);
      forall j | t.workers[v].i <= j < |t.workers[v].batch| ensures Owns(t, t.workers[v], j) {
          assert Owns(s, s.workers[v], j); }
    }
  }

  /** Finalizing the row as it stands: the log, the bound and the backoff stay in step. */
  lemma SettledRowOk(row: Row, log: seq<int>, ok: bool, at: int, claimedAt: int, now: int, policy: Policy)
    requires policy.maxAttempts >= 1 && policy.base >= 0
    requires RowOk(row, log, now, policy) && row.status == Processing
    requires row.lockedAt == Some(claimedAt) && claimedAt <= at <= now
    ensures RowOk(Settled(row, row.attempts, ok, at, policy), if ok then log else log + [at], now, policy)
  {
    if !ok {
      var more := log + [at];
      forall k | 1 <= k < |more| ensures more[k] >= more[k - 1] + k * policy.base {
        if k < |log| { assert log[k] >= log[k - 1] + k * policy.base; }
      }
    }
  }

  lemma WriteBackKeeps(s: Sys, c: Config, w: string)
    requires LeaseInv(s, c) && Sensible(c) && BusyAt(s, w) && s.workers[w].pc.Writing?
    ensures LeaseInv(WriteBackStep(s, c, w), c)
  {
    var t := WriteBackStep(s, c, w);
    var k := s.workers[w];
    var id := k.batch[k.i].id;
    assert WorkerHolds(s, k) && Owns(s, k, k.i);
    assert RowOk(s.rows[id], Log(s, id), s.now, c.policy);
    SettledRowOk(s.rows[id], Log(s, id), k.pc.ok, k.pc.at, k.claimedAt, s.now, c.policy);
    forall x | x in t.rows ensures RowOk(t.rows[x], Log(t, x), t.now, c.policy) {
      if x != id { assert RowOk(s.rows[x], Log(s, x), s.now, c.policy); }
    }
    WorkersKeep(s, c, w);
  }

  lemma WorkersKeep(s: Sys, c: Config, w: string)
    requires LeaseInv(s, c) && Sensible(c) && BusyAt(s, w) && s.workers[w].pc.Writing?
    ensures var t := WriteBackStep(s, c, w);
            && (forall v :: v in t.workers ==> WorkerHolds(t, t.workers[v]) && CountsDead(t, t.workers[v]))
            && (forall v, u :: v in t.workers && u in t.workers && v != u ==> NoShare(t.workers[v], t.workers[u]))
  {
    var t := WriteBackStep(s, c, w);
    WriterHolds(s, c, w);
    forall v | v in t.workers && v != w ensures WorkerHolds(t, t.workers[v]) && CountsDead(t, t.workers[v]) {
      BystanderHolds(s, c, w, v);
    }
    forall v, u | v in t.workers && u in t.workers && v != u ensures NoShare(t.workers[v], t.workers[u]) {
      assert NoShare(s.workers[v], s.workers[u]);
    }
  }

  lemma WriterHolds(s: Sys, c: Config, w: string)
    requires LeaseInv(s, c) && BusyAt(s, w) && s.workers[w].pc.Writing?
    ensures var t := WriteBackStep(s, c, w); WorkerHolds(t, t.workers[w]) && CountsDead(t, t.workers[w])
  {
    assert WorkerHolds(s, s.workers[w]) && CountsDead(s, s.workers[w]);
    WriterStillOwns(s, c, w);
    WriterCounts(s, c, w);
  }

  lemma WriterStillOwns(s: Sys, c: Config, w: string)
    requires BusyAt(s, w) && s.workers[w].pc.Writing? && WorkerHolds(s, s.workers[w])
    ensures var t := WriteBackStep(s, c, w); WorkerHolds(t, t.workers[w])
  {
    var t := WriteBackStep(s, c, w);
    var k, after := s.workers[w], t.workers[w];
    forall j | after.i <= j < |after.batch| ensures Owns(t, after, j) {
      assert Owns(s, k, j) && k.batch[j].id != k.batch[k.i].id;
    }
  }

  lemma WriterCounts(s: Sys, c: Config, w: string)
    requires BusyAt(s, w) && s.workers[w].pc.Writing? && WorkerHolds(s, s.workers[w]) && CountsDead(s, s.workers[w])
    ensures var t := WriteBackStep(s, c, w); CountsDead(t, t.workers[w])
  {
    var k := s.workers[w];
    var done, id := k.batch[..k.i], k.batch[k.i].id;
    assert k.batch[..k.i + 1] == done + [k.batch[k.i]];
    IdSetSnoc(done, k.batch[k.i]);
    assert id !in IdSet(done);
    assert id !in k.dead;
  }

  lemma IdSetSnoc(batch: seq<Copy>, c: Copy)
    ensures IdSet(batch + [c]) == IdSet(batch) + {c.id}
  {
    assert forall x :: x in batch + [c] <==> x in batch || x == c;
  }

  lemma BystanderHolds(s: Sys, c: Config, w: string, v: string)
    requires LeaseInv(s, c) && Sensible(c) && BusyAt(s, w) && s.workers[w].pc.Writing?
    requires v in s.workers && v != w
    ensures var t := WriteBackStep(s, c, w); WorkerHolds(t, t.workers[v]) && CountsDead(t, t.workers[v])
  {
    var t := WriteBackStep(s, c, w);
    var k, other := s.workers[w], s.workers[v];
    assert WorkerHolds(s, k) && Owns(s, k, k.i);
    assert WorkerHolds(s, other) && CountsDead(s, other) && NoShare(k, other);
    forall j | other.i <= j < |other.batch| ensures other.batch[j].id != k.batch[k.i].id && Owns(t, other, j) {
      assert Owns(s, other, j);
    }
  }

  lemma ApplyKeeps(s: Sys, c: Config, ev: Event)
    requires LeaseInv(s, c) && Timely(s, c) && Sensible(c)
    ensures LeaseInv(Apply(s, c, ev), c)
  {
    match ev
    case Tick(t) => if t > s.now { TickKeeps(s, c, t); }
    case Create(id, event) => if id !in s.rows { CreateKeeps(s, c, id, NewRow(event, s.now)); }
    case Claim(w, ids, owner) => ClaimKeeps(s, c, w, ids, owner);
    case Publish(w, ok, delivered) =>
      if BusyAt(s, w) && s.workers[w].pc.Publishing? {
        PcKeeps(s, c, w, PublishStep(s, w, ok, delivered).stream, Finalizing(ok));
      }
    case ReadBack(w) =>
      if BusyAt(s, w) && s.workers[w].pc.Finalizing? {
        assert WorkerHolds(s, s.workers[w]) && Owns(s, s.workers[w], s.workers[w].i);
        var c0 := s.workers[w].batch[s.workers[w].i];
        PcKeeps(s, c, w, s.stream, Writing(s.workers[w].pc.ok, s.rows[c0.id], s.now));
      }
    case WriteBack(w) => if BusyAt(s, w) && s.workers[w].pc.Writing? { WriteBackKeeps(s, c, w); }
    case Stop(w) => StopKeeps(s, c, w);
  }

  lemma {:induction false} RunKeeps(s: Sys, c: Config, events: seq<Event>)
    requires LeaseInv(s, c) && Sensible(c) && TimelyRun(s, c, events)
    ensures LeaseInv(Run(s, c, events), c) && Timely(Run(s, c, events), c)
    decreases |events|
  {
    assert events[..|events|] == events;
    if events != [] {
      var front := events[..|events| - 1];
      forall k | 0 <= k <= |front| ensures Timely(Run(s, c, front[..k]), c) { assert front[..k] == events[..k]; }
      RunKeeps(s, c, front);
      ApplyKeeps(Run(s, c, front), c, events[|events| - 1]);
    }
  }

  // ------------------------------------------------------------------ the promises

  /** Published and dead-lettered rows never change again. */
  lemma {:induction false} TerminalForever(s: Sys, c: Config, events: seq<Event>, k: nat, id: string)
    requires LeaseInv(s, c) && Sensible(c) && TimelyRun(s, c, events) && k <= |events|
    requires id in Run(s, c, events[..k]).rows && Terminal(Run(s, c, events[..k]).rows[id])
    ensures id in Run(s, c, events).rows && Run(s, c, events).rows[id] == Run(s, c, events[..k]).rows[id]
    decreases |events|
  {
    if k == |events| {
      assert events[..k] == events;
    } else {
      var front := events[..|events| - 1];
      assert front[..k] == events[..k];
      forall j | 0 <= j <= |front| ensures Timely(Run(s, c, front[..j]), c) { assert front[..j] == events[..j]; }
      TerminalForever(s, c, front, k, id);
      RunKeeps(s, c, front);
      TerminalStep(Run(s, c, front), c, events[|events| - 1], id);
    }
  }

  lemma TerminalStep(s: Sys, c: Config, ev: Event, id: string)
    requires LeaseInv(s, c) && id in s.rows && Terminal(s.rows[id])
    ensures id in Apply(s, c, ev).rows && Apply(s, c, ev).rows[id] == s.rows[id]
  {
    if ev.WriteBack? && BusyAt(s, ev.w) { assert WorkerHolds(s, s.workers[ev.w]); }
  }

  /** The bookkeeping of attempts, in every state of a timely run. */
  lemma AttemptsAreFailures(s: Sys, c: Config, events: seq<Event>, id: string)
    requires LeaseInv(s, c) && Sensible(c) && TimelyRun(s, c, events) && id in Run(s, c, events).rows
    ensures var f := Run(s, c, events);
            && f.rows[id].attempts == |Log(f, id)|
            && (f.rows[id].status == DeadLetter <==> f.rows[id].attempts == c.policy.maxAttempts)
            && f.rows[id].attempts <= c.policy.maxAttempts
  {
    RunKeeps(s, c, events);
    assert RowOk(Run(s, c, events).rows[id], Log(Run(s, c, events), id), Run(s, c, events).now, c.policy);
  }

  /** No event is in the hands of two live workers, and what a worker owes is still marked as its own. */
  lemma OneLiveOwner(s: Sys, c: Config, events: seq<Event>, w: string, j: nat, v: string, k: nat)
    requires LeaseInv(s, c) && Sensible(c) && TimelyRun(s, c, events)
    requires var f := Run(s, c, events);
             && w in f.workers && v in f.workers
             && f.workers[w].i <= j < |f.workers[w].batch| && f.workers[v].i <= k < |f.workers[v].batch|
             && f.workers[w].batch[j].id == f.workers[v].batch[k].id
    ensures w == v && j == k
    ensures Owns(Run(s, c, events), Run(s, c, events).workers[w], j)
  {
    RunKeeps(s, c, events);
    var f := Run(s, c, events);
    assert w != v ==> NoShare(f.workers[w], f.workers[v]);
    assert WorkerHolds(f, f.workers[w]);
  }

  /** Whether this event is a write by w that moves row id to the dead letters. */
  predicate Kills(s: Sys, c: Config, ev: Event, w: string, id: string) {
    && ev == WriteBack(w) && WritesTo(s, w, id) && id in s.rows
    && s.rows[id].status != DeadLetter && Apply(s, c, ev).rows[id].status == DeadLetter
  }

  /** The rows w moved to the dead letters, kept up over one event; a new batch starts from none. */
  function NextKilled(s: Sys, c: Config, ev: Event, w: string, killed: set<string>): set<string> {
    if ev.Claim? && ev.w == w && Apply(s, c, ev) != s then {}
    else if BusyAt(s, w) && Kills(s, c, ev, w, s.workers[w].batch[s.workers[w].i].id) then
      killed + {s.workers[w].batch[s.workers[w].i].id}
    else killed
  }

  function Killed(s: Sys, c: Config, events: seq<Event>, w: string): set<string> {
    if events == [] then {}
    else
      var front := events[..|events| - 1];
      NextKilled(Run(s, c, front), c, events[|events| - 1], w, Killed(s, c, front, w))
  }

  lemma WriteCountsKill(s: Sys, c: Config, w: string, killed: set<string>)
    requires LeaseInv(s, c) && BusyAt(s, w) && s.workers[w].pc.Writing? && s.workers[w].dead == killed
    ensures Apply(s, c, WriteBack(w)).workers[w].dead == NextKilled(s, c, WriteBack(w), w, killed)
  {
    assert WorkerHolds(s, s.workers[w]) && Owns(s, s.workers[w], s.workers[w].i);
    KillsExactly(s, c, w);
  }

  /** A write kills the row it owns exactly when it records the last failure. */
  lemma KillsExactly(s: Sys, c: Config, w: string)
    requires BusyAt(s, w) && s.workers[w].pc.Writing? && Owns(s, s.workers[w], s.workers[w].i)
    ensures var k := s.workers[w]; var copy := k.batch[k.i];
            && (Kills(s, c, WriteBack(w), w, copy.id) <==> !k.pc.ok && Exhausts(copy.row.attempts, c.policy))
            && WriteBackStep(s, c, w).workers[w].dead
               == if !k.pc.ok && Exhausts(copy.row.attempts, c.policy) then k.dead + {copy.id} else k.dead
  {
  }

  /** Only w's own writes and claims touch what it counted. */
  lemma OthersKillNone(s: Sys, c: Config, ev: Event, w: string)
    requires w in s.workers && ev != WriteBack(w)
    ensures w in Apply(s, c, ev).workers ==>
              var dead := Apply(s, c, ev).workers[w].dead;
              if ev.Claim? && ev.w == w && Apply(s, c, ev) != s then dead == {} else dead == s.workers[w].dead
  {
  }

  lemma StepCountsKill(s: Sys, c: Config, ev: Event, w: string, killed: set<string>)
    requires LeaseInv(s, c) && (w in s.workers ==> s.workers[w].dead == killed)
    ensures w in Apply(s, c, ev).workers ==> Apply(s, c, ev).workers[w].dead == NextKilled(s, c, ev, w, killed)
  {
    if ev == WriteBack(w) {
      if BusyAt(s, w) && s.workers[w].pc.Writing? { WriteCountsKill(s, c, w, killed); }
    } else if w in s.workers {
      OthersKillNone(s, c, ev, w);
    }
  }

  lemma {:induction false} CountsItsKills(s: Sys, c: Config, events: seq<Event>, w: string)
    requires LeaseInv(s, c) && Sensible(c) && TimelyRun(s, c, events) && w !in s.workers
    ensures w in Run(s, c, events).workers ==> Run(s, c, events).workers[w].dead == Killed(s, c, events, w)
    decreases |events|
  {
    if events != [] {
      var front := events[..|events| - 1];
      forall j | 0 <= j <= |front| ensures Timely(Run(s, c, front[..j]), c) { assert front[..j] == events[..j]; }
      CountsItsKills(s, c, front, w);
      RunKeeps(s, c, front);
      StepCountsKill(Run(s, c, front), c, events[|events| - 1], w, Killed(s, c, front, w));
    }
  }

  /**
   The dead-letter counter is exact: it is the number of rows that the worker's writes moved to the dead
   letters since it claimed its batch, no more and no fewer, and they are all still there.
   */
  lemma DeadCounterExact(s: Sys, c: Config, events: seq<Event>, w: string)
    requires LeaseInv(s, c) && Sensible(c) && TimelyRun(s, c, events) && w !in s.workers
        && w in Run(s, c, events).workers
    ensures var f := Run(s, c, events);
            && f.workers[w].deadCount == |Killed(s, c, events, w)|
            && forall id :: id in Killed(s, c, events, w) ==> id in f.rows && f.rows[id].status == DeadLetter
  {
    RunKeeps(s, c, events);
    CountsItsKills(s, c, events, w);
    assert CountsDead(Run(s, c, events), Run(s, c, events).workers[w]);
  }

  /** After a failure: not before so many bases, and while pending exactly from then on. */
  predicate WaitsExactly(row: Row, log: seq<int>, base: int, now: int, timeout: int)
    requires log != []
  {
    && (Claimable(row, now, now - timeout) ==> now >= NotBefore(log, base))
    && (row.status == Pending ==> (Claimable(row, now, now - timeout) <==> now >= NotBefore(log, base)))
  }

  lemma RowWaits(row: Row, log: seq<int>, now: int, policy: Policy, timeout: int)
    requires RowOk(row, log, now, policy) && log != []
    ensures WaitsExactly(row, log, policy.base, now, timeout)
  {
  }

  /**
   The k-th failure of a row keeps everyone from claiming it for k bases, and no longer: while it is pending
   it can be claimed exactly from then on.
   */
  lemma FailureDelaysClaim(s: Sys, c: Config, events: seq<Event>, id: string)
    requires LeaseInv(s, c) && Sensible(c) && TimelyRun(s, c, events)
    requires var f := Run(s, c, events); id in f.rows && Log(f, id) != []
    ensures var f := Run(s, c, events); WaitsExactly(f.rows[id], Log(f, id), c.policy.base, f.now, c.timeout)
  {
    RunKeeps(s, c, events);
    var f := Run(s, c, events);
    assert RowOk(f.rows[id], Log(f, id), f.now, c.policy);
    RowWaits(f.rows[id], Log(f, id), f.now, c.policy, c.timeout);
  }

  lemma {:induction false} SpacedSum(log: seq<int>, base: int, k: nat)
    requires Spaced(log, base) && k < |log|
    ensures 2 * (log[k] - log[0]) >= base * (k * (k + 1))
    decreases k
  {
    if k > 0 {
      SpacedSum(log, base, k - 1);
      assert base * (k * (k + 1)) == base * ((k - 1) * k) + 2 * (k * base);
    }
  }

  /** m failures, and between the first and the last at least base + 2 base + ... + (m - 1) base. */
  predicate SpentAllWaits(log: seq<int>, base: int, m: nat) {
    |log| == m >= 1 && 2 * (log[m - 1] - log[0]) >= base * (m * (m - 1))
  }

  /** Dead-lettering comes no sooner than base * m(m-1)/2 after the first of m failures. */
  lemma DeadLetterNotBefore(s: Sys, c: Config, events: seq<Event>, id: string)
    requires LeaseInv(s, c) && Sensible(c) && TimelyRun(s, c, events)
    requires id in Run(s, c, events).rows && Run(s, c, events).rows[id].status == DeadLetter
    ensures SpentAllWaits(Log(Run(s, c, events), id), c.policy.base, c.policy.maxAttempts)
  {
    RunKeeps(s, c, events);
    var f := Run(s, c, events);
    assert RowOk(f.rows[id], Log(f, id), f.now, c.policy);
    SpacedTotal(Log(f, id), c.policy.base, c.policy.maxAttempts);
  }

  lemma SpacedTotal(log: seq<int>, base: int, m: nat)
    requires Spaced(log, base) && |log| == m >= 1
    ensures SpentAllWaits(log, base, m)
  {
    var k := m - 1;
    SpacedSum(log, base, k);
    assert k * (k + 1) == m * (m - 1);
  }

  /** Whether this event records a publish failure of row id. */
  predicate Fails(s: Sys, ev: Event, id: string) { ev.WriteBack? && WritesTo(s, ev.w, id) && !s.workers[ev.w].pc.ok }

  function FailuresIn(s: Sys, c: Config, events: seq<Event>, id: string): nat {
    if events == [] then 0
    else
      var front := events[..|events| - 1];
      FailuresIn(s, c, front, id) + if Fails(Run(s, c, front), events[|events| - 1], id) then 1 else 0
  }

  function Attempts(s: Sys, id: string): nat { if id in s.rows then s.rows[id].attempts else 0 }

  lemma FailureIsLogged(s: Sys, c: Config, ev: Event, id: string)
    ensures |Log(Apply(s, c, ev), id)| == |Log(s, id)| + if Fails(s, ev, id) then 1 else 0
  {
  }

  lemma {:induction false} FailuresAreLogged(s: Sys, c: Config, events: seq<Event>, id: string)
    ensures |Log(Run(s, c, events), id)| == |Log(s, id)| + FailuresIn(s, c, events, id)
    decreases |events|
  {
    if events != [] {
      FailuresAreLogged(s, c, events[..|events| - 1], id);
      FailureIsLogged(Run(s, c, events[..|events| - 1]), c, events[|events| - 1], id);
    }
  }

  /** Failures run out: no timely run, however long, records more of them for a row than it had attempts left. */
  lemma FailuresRunOut(s: Sys, c: Config, events: seq<Event>, id: string)
    requires LeaseInv(s, c) && Sensible(c) && TimelyRun(s, c, events) && id in Run(s, c, events).rows
    ensures Run(s, c, events).rows[id].attempts == Attempts(s, id) + FailuresIn(s, c, events, id)
    ensures FailuresIn(s, c, events, id) <= c.policy.maxAttempts - Attempts(s, id)
  {
    AttemptsAreFailures(s, c, events, id);
    FailuresAreLogged(s, c, events, id);
    assert id in s.rows ==> RowOk(s.rows[id], Log(s, id), s.now, c.policy);
  }
}
