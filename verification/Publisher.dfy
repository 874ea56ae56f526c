/**
 Any number of publisher workers over one outbox table and one stream, interleaved step by step: the
 claim, each broker call, the read and the write of each finalizing transaction, and time. Workers
 may stop anywhere. A failed broker call may still have appended its entry.

 Some properties hold of every run; others need the lease hypothesis, that a worker is done with a
 claim before the claim counts as stale. Each theorem states which it uses.
 */
module Publisher {
  import opened Outbox
  import Tables

  /** What a stream entry carries. */
  datatype Entry = Entry(id: string, event: Tables.Event, createdAt: int)

  datatype Pc =
    | Publishing
    | Finalizing(ok: bool)
    | Writing(ok: bool, row: Row, at: int)

  /** `batch[i]` is the event in hand; `dead` are the ids this run counted as dead-lettered. */
  datatype Worker = Worker(batch: seq<Copy>, i: nat, claimedAt: int, pc: Pc, dead: set<string>, deadCount: nat)

  /** `failures` remembers, per row, the instants its publish failures were recorded at. */
  datatype Sys = Sys(
    now: int, rows: map<string, Row>, stream: seq<Entry>, workers: map<string, Worker>, failures: map<string, seq<int>>)

  datatype Config = Config(policy: Policy, timeout: int)

  datatype Event =
    | Tick(to: int)
    | Create(id: string, event: Tables.Event)
    | Claim(w: string, ids: seq<string>, owner: string)
    | Publish(w: string, ok: bool, delivered: bool)
    | ReadBack(w: string)
    | WriteBack(w: string)
    | Stop(w: string)

  predicate Busy(w: Worker) { w.i < |w.batch| }

  predicate BusyAt(s: Sys, w: string) { w in s.workers && Busy(s.workers[w]) }

  function EntryOf(id: string, row: Row): Entry { Entry(id, row.event, row.createdAt) }

  predicate Distinct(ids: seq<string>) { forall i, j :: 0 <= i < j < |ids| ==> ids[i] != ids[j] }

  predicate CanClaim(s: Sys, c: Config, ids: seq<string>) {
    && Distinct(ids)
    && forall i :: 0 <= i < |ids| ==> ids[i] in s.rows && Claimable(s.rows[ids[i]], s.now, s.now - c.timeout)
  }

  function Copies(rows: map<string, Row>, ids: seq<string>, now: int, owner: string): (r: seq<Copy>)
    requires forall i :: 0 <= i < |ids| ==> ids[i] in rows
    ensures |r| == |ids|
    ensures forall i :: 0 <= i < |r| ==> r[i] == Copy(ids[i], Claimed(rows[ids[i]], now, owner))
  {
    seq(|ids|, i requires 0 <= i < |ids| => Copy(ids[i], Claimed(rows[ids[i]], now, owner)))
  }

  function ClaimStep(s: Sys, c: Config, w: string, ids: seq<string>, owner: string): Sys {
    if BusyAt(s, w) || !CanClaim(s, c, ids) then s
    else
      s.(rows := ClaimRows(s.rows, (set id | id in ids), s.now, owner),
         workers := s.workers[w := Worker(Copies(s.rows, ids, s.now, owner), 0, s.now, Publishing, {}, 0)])
  }

  function SetPc(s: Sys, w: string, pc: Pc): Sys
    requires w in s.workers
  {
    s.(workers := s.workers[w := s.workers[w].(pc := pc)])
  }

  function PublishStep(s: Sys, w: string, ok: bool, delivered: bool): Sys {
    if !BusyAt(s, w) || !s.workers[w].pc.Publishing? then s
    else
      var c := s.workers[w].batch[s.workers[w].i];
      var sent := if ok || delivered then s.stream + [EntryOf(c.id, c.row)] else s.stream;
      SetPc(s.(stream := sent), w, Finalizing(ok))
  }

  /** The finalizing transaction reads the clock and its row, without a lock. */
  function ReadBackStep(s: Sys, w: string): Sys {
    if !BusyAt(s, w) || !s.workers[w].pc.Finalizing? then s
    else
      var c := s.workers[w].batch[s.workers[w].i];
      if c.id !in s.rows then s else SetPc(s, w, Writing(s.workers[w].pc.ok, s.rows[c.id], s.now))
  }

  /** It saves the whole row it read, changed, and commits. */
  function WriteBackStep(s: Sys, c: Config, w: string): Sys {
    if !BusyAt(s, w) || !s.workers[w].pc.Writing? then s
    else
      var k := s.workers[w];
      var copy := k.batch[k.i];
      var row := Settled(k.pc.row, copy.row.attempts, k.pc.ok, k.pc.at, c.policy);
      var dies := !k.pc.ok && Exhausts(copy.row.attempts, c.policy);
      var log := if copy.id in s.failures then s.failures[copy.id] else [];
      s.(rows := s.rows[copy.id := row],
         failures := if k.pc.ok then s.failures else s.failures[copy.id := log + [k.pc.at]],
         workers := s.workers[w := k.(i := k.i + 1, pc := Publishing,
                                      dead := if dies then k.dead + {copy.id} else k.dead,
                                      deadCount := if dies then k.deadCount + 1 else k.deadCount)])
  }

  function Apply(s: Sys, c: Config, ev: Event): Sys {
    match ev
    case Tick(t) => if t > s.now then s.(now := t) else s
    case Create(id, event) => if id in s.rows then s else s.(rows := s.rows[id := NewRow(event, s.now)])
    case Claim(w, ids, owner) => ClaimStep(s, c, w, ids, owner)
    case Publish(w, ok, delivered) => PublishStep(s, w, ok, delivered)
    case ReadBack(w) => ReadBackStep(s, w)
    case WriteBack(w) => WriteBackStep(s, c, w)
    case Stop(w) => s.(workers := s.workers - {w})
  }

  function Run(s: Sys, c: Config, events: seq<Event>): Sys {
    if events == [] then s else Apply(Run(s, c, events[..|events| - 1]), c, events[|events| - 1])
  }

  // ------------------------------------------------------------------ what every run keeps

  predicate Identical(a: Row, b: Row) { a.event == b.event && a.createdAt == b.createdAt }

  predicate Delivered(s: Sys, id: string) { exists k :: 0 <= k < |s.stream| && s.stream[k].id == id }

  predicate EntriesOk(s: Sys) {
    forall k :: 0 <= k < |s.stream| ==>
      s.stream[k].id in s.rows && s.stream[k] == EntryOf(s.stream[k].id, s.rows[s.stream[k].id])
  }

  predicate PublishedDelivered(s: Sys) {
    forall id :: id in s.rows && s.rows[id].status == Published ==> Delivered(s, id)
  }

  predicate WorkerOk(s: Sys, w: Worker) {
    && (forall j :: 0 <= j < |w.batch| ==> w.batch[j].id in s.rows && Identical(w.batch[j].row, s.rows[w.batch[j].id]))
    && (Busy(w) && w.pc.Finalizing? && w.pc.ok ==> Delivered(s, w.batch[w.i].id))
    && (Busy(w) && w.pc.Writing? ==>
          && Identical(w.pc.row, s.rows[w.batch[w.i].id])
          && (w.pc.ok ==> Delivered(s, w.batch[w.i].id)))
  }

  predicate Inv(s: Sys) {
    && EntriesOk(s)
    && PublishedDelivered(s)
    && forall w :: w in s.workers ==> WorkerOk(s, s.workers[w])
  }

  /** Rows keep their identity and the stream only grows. */
  predicate Extends(a: Sys, b: Sys) {
    && (forall id :: id in a.rows ==> id in b.rows && Identical(a.rows[id], b.rows[id]))
    && a.stream <= b.stream
  }

  lemma DeliveredStays(a: Sys, b: Sys, id: string)
    requires a.stream <= b.stream && Delivered(a, id)
    ensures Delivered(b, id)
  {
    var k :| 0 <= k < |a.stream| && a.stream[k].id == id;
    assert b.stream[k].id == id;
  }

  lemma StepExtends(s: Sys, c: Config, ev: Event)
    requires Inv(s)
    ensures Extends(s, Apply(s, c, ev))
  {
    if ev.WriteBack? && BusyAt(s, ev.w) { assert WorkerOk(s, s.workers[ev.w]); }
  }

  lemma WorkerStays(a: Sys, b: Sys, w: Worker)
    requires Extends(a, b) && WorkerOk(a, w)
    ensures WorkerOk(b, w)
  {
    if Busy(w) && Delivered(a, w.batch[w.i].id) { DeliveredStays(a, b, w.batch[w.i].id); }
  }

  lemma EntriesStay(s: Sys, c: Config, ev: Event)
    requires Inv(s)
    ensures EntriesOk(Apply(s, c, ev))
  {
    StepExtends(s, c, ev);
    if ev.Publish? && BusyAt(s, ev.w) { assert WorkerOk(s, s.workers[ev.w]); }
  }

  lemma PublishedStay(s: Sys, c: Config, ev: Event)
    requires Inv(s)
    ensures PublishedDelivered(Apply(s, c, ev))
  {
    var t := Apply(s, c, ev);
    StepExtends(s, c, ev);
    forall id | id in t.rows && t.rows[id].status == Published ensures Delivered(t, id) {
      if id in s.rows && s.rows[id].status == Published {
        DeliveredStays(s, t, id);
      } else if ev.WriteBack? {
        assert WorkerOk(s, s.workers[ev.w]);
      }
    }
  }

  lemma WorkersStay(s: Sys, c: Config, ev: Event)
    requires Inv(s)
    ensures var t := Apply(s, c, ev); forall w :: w in t.workers ==> WorkerOk(t, t.workers[w])
  {
    var t := Apply(s, c, ev);
    StepExtends(s, c, ev);
    forall w | w in t.workers ensures WorkerOk(t, t.workers[w]) {
      if w in s.workers { WorkerStays(s, t, s.workers[w]); }
      MovedWorker(s, c, ev, w);
    }
  }

  lemma MovedWorker(s: Sys, c: Config, ev: Event, w: string)
    requires Inv(s) && w in Apply(s, c, ev).workers && Extends(s, Apply(s, c, ev))
    requires w in s.workers ==> WorkerOk(Apply(s, c, ev), s.workers[w])
    ensures WorkerOk(Apply(s, c, ev), Apply(s, c, ev).workers[w])
  {
    var t := Apply(s, c, ev);
    if ev.Publish? && ev.w == w && BusyAt(s, w) && s.workers[w].pc.Publishing? && ev.ok {
      assert t.stream[|s.stream|].id == s.workers[w].batch[s.workers[w].i].id;
    }
  }

  lemma ApplyKeeps(s: Sys, c: Config, ev: Event)
    requires Inv(s)
    ensures Inv(Apply(s, c, ev))
  {
    EntriesStay(s, c, ev);
    PublishedStay(s, c, ev);
    WorkersStay(s, c, ev);
  }

  lemma {:induction false} RunKeeps(s: Sys, c: Config, events: seq<Event>)
    requires Inv(s)
    ensures Inv(Run(s, c, events)) && Extends(s, Run(s, c, events))
    decreases |events|
  {
    if events != [] {
      RunKeeps(s, c, events[..|events| - 1]);
      ApplyKeeps(Run(s, c, events[..|events| - 1]), c, events[|events| - 1]);
      StepExtends(Run(s, c, events[..|events| - 1]), c, events[|events| - 1]);
    }
  }

  /**
   Without any timing hypothesis: a row marked published has an entry in the stream, and every entry
   carries exactly the identity of a committed row.
   */
  lemma PublishedMeansDelivered(s: Sys, c: Config, events: seq<Event>, id: string)
    requires Inv(s)
    requires var f := Run(s, c, events); id in f.rows && f.rows[id].status == Published
    ensures var f := Run(s, c, events); exists k :: 0 <= k < |f.stream| && f.stream[k] == EntryOf(id, f.rows[id])
  {
    RunKeeps(s, c, events);
    var f := Run(s, c, events);
    assert Delivered(f, id);
    var k :| 0 <= k < |f.stream| && f.stream[k].id == id;
    assert f.stream[k] == EntryOf(id, f.rows[id]);
  }

  // ------------------------------------------------------------------ terminal rows

  predicate Terminal(row: Row) { row.status == Published || row.status == DeadLetter }

  /** The write in progress is to this row. */
  predicate WritesTo(s: Sys, w: string, id: string) {
    BusyAt(s, w) && s.workers[w].pc.Writing? && s.workers[w].batch[s.workers[w].i].id == id
  }

  /** A worker's verdict that changes the status of a row already published or dead-lettered. */
  predicate Overturns(s: Sys, c: Config, ev: Event, id: string) {
    && ev.WriteBack? && WritesTo(s, ev.w, id) && id in s.rows
    && var k := s.workers[ev.w];
       if s.rows[id].status == Published then !k.pc.ok
       else k.pc.ok || !Exhausts(k.batch[k.i].row.attempts, c.policy)
  }

  lemma StatusChangesExactly(s: Sys, c: Config, ev: Event, id: string)
    requires id in s.rows && (s.rows[id].status == Published || s.rows[id].status == DeadLetter)
    ensures id in Apply(s, c, ev).rows
    ensures Apply(s, c, ev).rows[id].status != s.rows[id].status <==> Overturns(s, c, ev, id)
  {
  }

  predicate StatusAt(s: Sys, c: Config, events: seq<Event>, j: nat, id: string, status: Status)
    requires j <= |events|
  {
    var t := Run(s, c, events[..j]); id in t.rows && t.rows[id].status == status
  }

  lemma RunPrefix(s: Sys, c: Config, events: seq<Event>, j: nat)
    requires j < |events|
    ensures Run(s, c, events[..j + 1]) == Apply(Run(s, c, events[..j]), c, events[j])
  {
    assert events[..j + 1][..j] == events[..j];
  }

  lemma {:induction false} StatusHolds(s: Sys, c: Config, events: seq<Event>, k: nat, j: nat, id: string,
          status: Status)
    requires k <= j <= |events| && (status == Published || status == DeadLetter)
        && StatusAt(s, c, events, k, id, status)
    requires forall i :: k <= i < j ==> !Overturns(Run(s, c, events[..i]), c, events[i], id)
    ensures StatusAt(s, c, events, j, id, status)
    decreases j
  {
    if k < j {
      StatusHolds(s, c, events, k, j - 1, id, status);
      RunPrefix(s, c, events, j - 1);
      StatusChangesExactly(Run(s, c, events[..j - 1]), c, events[j - 1], id);
    }
  }

  /**
   The finalizers check neither status nor owner. So in any run, timely or not, a published or
   dead-lettered row keeps that status from then on exactly when no worker writes the opposite verdict
   to it; claims, time, crashes and all other rows cannot reopen it.
   */
  lemma StaysTerminalExactly(s: Sys, c: Config, events: seq<Event>, k: nat, id: string, status: Status)
    requires k <= |events| && (status == Published || status == DeadLetter) && StatusAt(s, c, events, k, id, status)
    ensures (forall j :: k <= j <= |events| ==> StatusAt(s, c, events, j, id, status))
            <==> forall j :: k <= j < |events| ==> !Overturns(Run(s, c, events[..j]), c, events[j], id)
  {
    if forall j :: k <= j < |events| ==> !Overturns(Run(s, c, events[..j]), c, events[j], id) {
      forall j | k <= j <= |events| ensures StatusAt(s, c, events, j, id, status) {
        StatusHolds(s, c, events, k, j, id, status);
      }
    } else {
      var j :| k <= j < |events| && Overturns(Run(s, c, events[..j]), c, events[j], id);
      RunPrefix(s, c, events, j);
      if StatusAt(s, c, events, j, id, status) {
        StatusChangesExactly(Run(s, c, events[..j]), c, events[j], id);
        assert !StatusAt(s, c, events, j + 1, id, status);
      }
    }
  }

  // ------------------------------------------------------------------ when terminal is final

  /** The verdict a worker has reached for the event in hand, if it leaves a row at this status. */
  predicate Agrees(w: Worker, status: Status, policy: Policy)
    requires Busy(w)
  {
    match w.pc
    case Publishing => false
    case Finalizing(ok) => if status == Published then ok else !ok && Exhausts(w.batch[w.i].row.attempts, policy)
    case Writing(ok, _, _) => if status == Published then ok else !ok && Exhausts(w.batch[w.i].row.attempts, policy)
  }

  /** Worker w holds no claim on id but possibly an event in hand whose verdict agrees with the status. */
  predicate HoldsNone(w: Worker, policy: Policy, id: string, status: Status) {
    forall j :: w.i <= j < |w.batch| && w.batch[j].id == id ==> j == w.i && Agrees(w, status, policy)
  }

  /** No outstanding claim on id that could still end in the opposite verdict. */
  predicate NoneLeft(s: Sys, c: Config, id: string, status: Status) {
    forall w :: w in s.workers ==> HoldsNone(s.workers[w], c.policy, id, status)
  }

  predicate HasStatus(s: Sys, id: string, status: Status) { id in s.rows && s.rows[id].status == status }

  lemma NoneLeftKeepsStatus(s: Sys, c: Config, ev: Event, id: string, status: Status)
    requires (status == Published || status == DeadLetter) && HasStatus(s, id, status) && NoneLeft(s, c, id, status)
    ensures !Overturns(s, c, ev, id)
  {
    if ev.WriteBack? && WritesTo(s, ev.w, id) {
      assert HoldsNone(s.workers[ev.w], c.policy, id, status);
      assert s.workers[ev.w].batch[s.workers[ev.w].i].id == id;
    }
  }

  /** A row that is published or dead-lettered is not claimed again, and workers only move on. */
  lemma NoneLeftStays(s: Sys, c: Config, ev: Event, id: string, status: Status)
    requires (status == Published || status == DeadLetter) && HasStatus(s, id, status) && NoneLeft(s, c, id, status)
    ensures NoneLeft(Apply(s, c, ev), c, id, status)
  {
    var t := Apply(s, c, ev);
    forall w | w in t.workers ensures HoldsNone(t.workers[w], c.policy, id, status) {
      if w in s.workers { assert HoldsNone(s.workers[w], c.policy, id, status); }
      WorkerMoves(s, c, ev, w);
    }
  }

  lemma WorkerMoves(s: Sys, c: Config, ev: Event, w: string)
    requires w in Apply(s, c, ev).workers
    ensures var k' := Apply(s, c, ev).workers[w];
            || (w in s.workers && var k := s.workers[w];
                  && k'.batch == k.batch
                  && (k' == k || k'.i == k.i + 1
                      || (k'.i == k.i && Busy(k) && k.pc.Publishing?)
                      || (k'.i == k.i && Busy(k) && k.pc.Finalizing? && k'.pc.Writing? && k'.pc.ok == k.pc.ok)))
            || forall j :: 0 <= j < |k'.batch| ==>
                 k'.batch[j].id in s.rows
                     && (s.rows[k'.batch[j].id].status == Pending || s.rows[k'.batch[j].id].status == Processing)
  {
  }

  lemma {:induction false} NoneLeftForEver(s: Sys, c: Config, events: seq<Event>, id: string, status: Status)
    requires (status == Published || status == DeadLetter) && HasStatus(s, id, status) && NoneLeft(s, c, id, status)
    ensures HasStatus(Run(s, c, events), id, status) && NoneLeft(Run(s, c, events), c, id, status)
    decreases |events|
  {
    if events != [] {
      var front, ev := events[..|events| - 1], events[|events| - 1];
      NoneLeftForEver(s, c, front, id, status);
      var u := Run(s, c, front);
      NoneLeftKeepsStatus(u, c, ev, id, status);
      StatusChangesExactly(u, c, ev, id);
      NoneLeftStays(u, c, ev, id, status);
    }
  }

  lemma {:induction false} RunCons(s: Sys, c: Config, ev: Event, events: seq<Event>)
    ensures Run(s, c, [ev] + events) == Run(Apply(s, c, ev), c, events)
    decreases |events|
  {
    var all := [ev] + events;
    if events == [] {
      assert all == [ev] && all[..0] == [];
      assert Run(s, c, []) == s;
    } else {
      RunCons(s, c, ev, events[..|events| - 1]);
      assert all[..|all| - 1] == [ev] + events[..|events| - 1];
    }
  }

  function Stage(pc: Pc): nat { match pc case Publishing => 2 case Finalizing(_) => 1 case Writing(_, _, _) => 0 }

  /** Event number j of worker w's batch is row id, and its verdict can still be the opposite one. */
  predicate Outstanding(s: Sys, c: Config, w: string, j: nat, id: string, status: Status) {
    && w in s.workers && s.workers[w].i <= j < |s.workers[w].batch| && s.workers[w].batch[j].id == id
    && !(j == s.workers[w].i && Agrees(s.workers[w], status, c.policy))
  }

  /** The worker's next step; a broker call that can still go either way goes against the status. */
  function NextStep(s: Sys, w: string, status: Status): Event
    requires w in s.workers
  {
    match s.workers[w].pc
    case Publishing => Publish(w, status == DeadLetter, false)
    case Finalizing(_) => ReadBack(w)
    case Writing(_, _, _) => WriteBack(w)
  }

  lemma NextStepDrives(s: Sys, c: Config, w: string, j: nat, id: string, status: Status)
    requires Inv(s) && (status == Published || status == DeadLetter) && HasStatus(s, id, status)
    requires Outstanding(s, c, w, j, id, status)
    ensures var t := Apply(s, c, NextStep(s, w, status));
            || !HasStatus(t, id, status)
            || (&& Outstanding(t, c, w, j, id, status)
                && t.workers[w].i >= s.workers[w].i
                && (t.workers[w].i > s.workers[w].i || Stage(t.workers[w].pc) < Stage(s.workers[w].pc)))
  {
    var k := s.workers[w];
    assert WorkerOk(s, k);
    assert k.batch[k.i].id in s.rows;
    if k.pc.Writing? && j == k.i { StatusChangesExactly(s, c, WriteBack(w), id); }
  }

  /** A worker with such a claim can be driven, by its own steps alone, to write the opposite verdict. */
  lemma {:induction false} Reopens(s: Sys, c: Config, w: string, j: nat, id: string, status: Status)
          returns (events: seq<Event>)
    requires Inv(s) && (status == Published || status == DeadLetter) && HasStatus(s, id, status)
    requires Outstanding(s, c, w, j, id, status)
    ensures !HasStatus(Run(s, c, events), id, status)
    decreases j - s.workers[w].i, Stage(s.workers[w].pc)
  {
    var ev := NextStep(s, w, status);
    var t := Apply(s, c, ev);
    NextStepDrives(s, c, w, j, id, status);
    var rest := [];
    if HasStatus(t, id, status) {
      ApplyKeeps(s, c, ev);
      rest := Reopens(t, c, w, j, id, status);
    }
    RunCons(s, c, ev, rest);
    events := [ev] + rest;
  }

  /** Status is kept whatever happens from here on. */
  ghost predicate Final(s: Sys, c: Config, id: string, status: Status) {
    forall events :: HasStatus(Run(s, c, events), id, status)
  }

  /** No run from here contains a write of the opposite verdict. */
  ghost predicate Unopposed(s: Sys, c: Config, id: string) {
    forall events: seq<Event>, j: nat :: j < |events| ==> !Overturns(Run(s, c, events[..j]), c, events[j], id)
  }

  lemma FinalIsUnopposed(s: Sys, c: Config, id: string, status: Status)
    requires (status == Published || status == DeadLetter) && HasStatus(s, id, status)
    ensures Final(s, c, id, status) <==> Unopposed(s, c, id)
  {
    if Final(s, c, id, status) {
      forall events: seq<Event>, j: nat | j < |events| ensures !Overturns(Run(s, c, events[..j]), c, events[j], id) {
        assert events[..0] == [] && HasStatus(Run(s, c, []), id, status);
        forall i | 0 <= i <= |events| ensures StatusAt(s, c, events, i, id, status) {
          assert HasStatus(Run(s, c, events[..i]), id, status);
        }
        StaysTerminalExactly(s, c, events, 0, id, status);
      }
    } else {
      var events :| !HasStatus(Run(s, c, events), id, status);
      assert events[..0] == [] && events[..|events|] == events;
      StaysTerminalExactly(s, c, events, 0, id, status);
      assert !StatusAt(s, c, events, |events|, id, status);
    }
  }

  /**
   Exactly when published or dead-lettered is final, with no timing hypothesis: at the moment the row has
   that status, no worker holds another claim on it, save one whose verdict is already reached and agrees.
   Otherwise some run from here does write the opposite verdict.
   */
  lemma FinalExactly(s: Sys, c: Config, id: string, status: Status)
    requires Inv(s) && (status == Published || status == DeadLetter) && HasStatus(s, id, status)
    ensures Final(s, c, id, status) <==> NoneLeft(s, c, id, status)
    ensures Unopposed(s, c, id) <==> NoneLeft(s, c, id, status)
  {
    FinalIsUnopposed(s, c, id, status);
    if NoneLeft(s, c, id, status) {
      forall events ensures HasStatus(Run(s, c, events), id, status) { NoneLeftForEver(s, c, events, id, status); }
    } else {
      var w :| w in s.workers && !HoldsNone(s.workers[w], c.policy, id, status);
      var j: nat :| s.workers[w].i <= j < |s.workers[w].batch| && s.workers[w].batch[j].id == id
                    && !(j == s.workers[w].i && Agrees(s.workers[w], status, c.policy));
      var events := Reopens(s, c, w, j, id, status);
    }
  }

  const LEASE_EXAMPLE: Config := Config(Policy(60, 3), 900)

  function ExampleStart(event: Tables.Event): Sys { Sys(0, map["e" := NewRow(event, 0)], [], map[], map[]) }

  /** Worker a claims, fails to publish, and stalls until its claim is stale. */
  lemma ExampleStalls(event: Tables.Event) returns (s: Sys)
    ensures s == Apply(Apply(Apply(ExampleStart(event), LEASE_EXAMPLE, Claim("a", ["e"], "a")), LEASE_EXAMPLE,
                             Publish("a", false, false)), LEASE_EXAMPLE, Tick(900))
    ensures s == Sys(900, map["e" := Claimed(NewRow(event, 0), 0, "a")], [],
                     map["a" := Worker([Copy("e", Claimed(NewRow(event, 0), 0, "a"))], 0, 0, Finalizing(false), {},
                         0)], map[])
  {
    var s0 := ExampleStart(event);
    assert CanClaim(s0, LEASE_EXAMPLE, ["e"]);
    var s1 := Apply(s0, LEASE_EXAMPLE, Claim("a", ["e"], "a"));
    assert s1.rows == map["e" := Claimed(NewRow(event, 0), 0, "a")];
    assert s1.workers["a"].batch == [Copy("e", Claimed(NewRow(event, 0), 0, "a"))];
    var s2 := Apply(s1, LEASE_EXAMPLE, Publish("a", false, false));
    s := Apply(s2, LEASE_EXAMPLE, Tick(900));
  }

  /** Worker b claims the stale row and publishes it. */
  lemma ExamplePublishes(event: Tables.Event, s: Sys) returns (t: Sys)
    requires s == Sys(900, map["e" := Claimed(NewRow(event, 0), 0, "a")], [],
                      map["a" := Worker([Copy("e", Claimed(NewRow(event, 0), 0, "a"))], 0, 0, Finalizing(false), {},
                          0)], map[])
    ensures t == Apply(Apply(Apply(Apply(s, LEASE_EXAMPLE, Claim("b", ["e"], "b")), LEASE_EXAMPLE,
        Publish("b", true, true)),
                             LEASE_EXAMPLE, ReadBack("b")), LEASE_EXAMPLE, WriteBack("b"))
    ensures "e" in t.rows && t.rows["e"].status == Published
    ensures "a" in t.workers && t.workers["a"] == s.workers["a"]
  {
    assert CanClaim(s, LEASE_EXAMPLE, ["e"]);
    var s1 := Apply(s, LEASE_EXAMPLE, Claim("b", ["e"], "b"));
    assert s1.workers["b"].batch[0].id == "e";
    var s2 := Apply(s1, LEASE_EXAMPLE, Publish("b", true, true));
    var s3 := Apply(s2, LEASE_EXAMPLE, ReadBack("b"));
    t := Apply(s3, LEASE_EXAMPLE, WriteBack("b"));
  }

  /** It does happen without the lease: nine steps after which a published row is pending again. */
  lemma StaleWorkerReopens(event: Tables.Event) returns (stalled: Sys, published: Sys, reopened: Sys)
    ensures stalled == Apply(Apply(Apply(ExampleStart(event), LEASE_EXAMPLE, Claim("a", ["e"], "a")), LEASE_EXAMPLE,
                                   Publish("a", false, false)), LEASE_EXAMPLE, Tick(900))
    ensures published == Apply(Apply(Apply(Apply(stalled, LEASE_EXAMPLE, Claim("b", ["e"], "b")), LEASE_EXAMPLE,
                                           Publish("b", true, true)), LEASE_EXAMPLE, ReadBack("b")), LEASE_EXAMPLE,
                               WriteBack("b"))
    ensures reopened == Apply(Apply(published, LEASE_EXAMPLE, ReadBack("a")), LEASE_EXAMPLE, WriteBack("a"))
    ensures "e" in published.rows && published.rows["e"].status == Published
    ensures "e" in reopened.rows && reopened.rows["e"].status == Pending
  {
    stalled := ExampleStalls(event);
    published := ExamplePublishes(event, stalled);
    reopened := ExampleReopens(published, stalled.workers["a"]);
  }

  /** The stalled worker a finalizes its own copy. */
  lemma ExampleReopens(published: Sys, a: Worker) returns (reopened: Sys)
    requires a.pc == Finalizing(false) && a.i == 0 && |a.batch| == 1 && a.batch[0].id == "e"
        && a.batch[0].row.attempts == 0
    requires "e" in published.rows && "a" in published.workers && published.workers["a"] == a
    ensures reopened == Apply(Apply(published, LEASE_EXAMPLE, ReadBack("a")), LEASE_EXAMPLE, WriteBack("a"))
    ensures "e" in reopened.rows && reopened.rows["e"].status == Pending
  {
    reopened := Apply(Apply(published, LEASE_EXAMPLE, ReadBack("a")), LEASE_EXAMPLE, WriteBack("a"));
  }

  // ------------------------------------------------------------------ one worker, undisturbed

  /** Handling one event with nobody else in between: publish, then read and write back at an instant. */
  function Round(s: Sys, c: Config, w: string, v: Verdict): Sys {
    Apply(Apply(Apply(Apply(s, c, Publish(w, v.ok, v.ok)), c, Tick(v.at)), c, ReadBack(w)), c, WriteBack(w))
  }

  function Rounds(s: Sys, c: Config, w: string, verdicts: seq<Verdict>): Sys {
    if verdicts == [] then s else Round(Rounds(s, c, w, verdicts[..|verdicts| - 1]), c, w, verdicts[|verdicts| - 1])
  }

  /** Verdicts come at instants that never go back. */
  predicate InOrder(start: int, verdicts: seq<Verdict>) {
    && (forall i :: 0 <= i < |verdicts| ==> verdicts[i].at >= start)
    && (forall i, j :: 0 <= i < j < |verdicts| ==> verdicts[i].at <= verdicts[j].at)
  }

  /** t is s after worker w handled the first events of its batch with these verdicts, as the batch loop would. */
  predicate Handled(s: Sys, t: Sys, c: Config, w: string, verdicts: seq<Verdict>)
    requires w in s.workers && |verdicts| <= |s.workers[w].batch|
    requires forall j :: 0 <= j < |s.workers[w].batch| ==> s.workers[w].batch[j].id in s.rows
  {
    && t.rows == SettleBatch(s.rows, s.workers[w].batch, verdicts, c.policy)
    && t.rows.Keys == s.rows.Keys
    && w in t.workers && t.workers[w].batch == s.workers[w].batch
    && t.workers[w].i == |verdicts| && t.workers[w].pc.Publishing?
    && t.now == (if verdicts == [] then s.now else verdicts[|verdicts| - 1].at)
  }

  lemma HandlesNext(s: Sys, t: Sys, c: Config, w: string, verdicts: seq<Verdict>, u: Sys)
    requires w in s.workers && 0 < |verdicts| <= |s.workers[w].batch| && InOrder(s.now, verdicts)
    requires forall j :: 0 <= j < |s.workers[w].batch| ==> s.workers[w].batch[j].id in s.rows
    requires Handled(s, t, c, w, verdicts[..|verdicts| - 1])
    requires u == Round(t, c, w, verdicts[|verdicts| - 1])
    ensures Handled(s, u, c, w, verdicts)
  {
    RoundSettles(t, c, w, verdicts[|verdicts| - 1]);
  }

  /** The interleaved machine, run by one worker alone, is the batch loop: same rows, same position. */
  lemma {:induction false} RoundsAreTheBatch(s: Sys, c: Config, w: string, verdicts: seq<Verdict>)
    requires w in s.workers && s.workers[w].i == 0 && s.workers[w].pc.Publishing?
    requires |verdicts| <= |s.workers[w].batch| && InOrder(s.now, verdicts)
    requires forall j :: 0 <= j < |s.workers[w].batch| ==> s.workers[w].batch[j].id in s.rows
    ensures Handled(s, Rounds(s, c, w, verdicts), c, w, verdicts)
    decreases |verdicts|
  {
    if verdicts != [] {
      var n := |verdicts| - 1;
      RoundsAreTheBatch(s, c, w, verdicts[..n]);
      HandlesNext(s, Rounds(s, c, w, verdicts[..n]), c, w, verdicts, Rounds(s, c, w, verdicts));
    }
  }

  lemma RoundSettles(s: Sys, c: Config, w: string, v: Verdict)
    requires BusyAt(s, w) && s.workers[w].pc.Publishing? && v.at >= s.now
    requires s.workers[w].batch[s.workers[w].i].id in s.rows
    ensures var t := Round(s, c, w, v);
            var copy := s.workers[w].batch[s.workers[w].i];
            && t.rows == s.rows[copy.id := Settled(s.rows[copy.id], copy.row.attempts, v.ok, v.at, c.policy)]
            && w in t.workers && t.workers[w].batch == s.workers[w].batch
            && t.workers[w].i == s.workers[w].i + 1 && t.workers[w].pc.Publishing?
            && t.now == v.at
            && t.stream == if v.ok then s.stream + [EntryOf(copy.id, copy.row)] else s.stream
  {
  }

  // ------------------------------------------------------------------ every row gets its turn

  /** When row `row` comes due, if nobody touches it. */
  function ComesDue(row: Row, timeout: int): int
    requires !Terminal(row)
  {
    if row.status == Pending then row.nextAttemptAt
    else if row.lockedAt.Some? then row.lockedAt.value + timeout
    else 0
  }

  lemma DueFrom(row: Row, now: int, timeout: int)
    requires !Terminal(row) && now >= ComesDue(row, timeout)
    ensures Due(row, now, timeout)
  {
  }

  /** At instant t worker w claims this one row, publishes it or fails to, and settles it. */
  function Turn(s: Sys, c: Config, w: string, id: string, owner: string, ok: bool, t: int): Sys {
    Round(Apply(Apply(s, c, Tick(t)), c, Claim(w, [id], owner)), c, w, Verdict(ok, t))
  }

  lemma ClaimOne(s: Sys, c: Config, w: string, id: string, owner: string)
    requires id in s.rows && !BusyAt(s, w) && Due(s.rows[id], s.now, c.timeout)
    ensures var claimed := Claimed(s.rows[id], s.now, owner); var t := Apply(s, c, Claim(w, [id], owner));
            && t.rows == s.rows[id := claimed] && t.now == s.now && t.stream == s.stream
            && w in t.workers && t.workers[w] == Worker([Copy(id, claimed)], 0, s.now, Publishing, {}, 0)
  {
    var t := Apply(s, c, Claim(w, [id], owner));
    assert CanClaim(s, c, [id]);
    assert (set x | x in [id]) == {id};
    assert t.workers[w].batch == [Copy(id, Claimed(s.rows[id], s.now, owner))];
  }

  /**
   No row is stuck: from any state whatever, once the row is due any idle worker can take it, and publish it
   or record one more failure; its entry is appended, and no other row changes. And every row that is neither
   published nor dead-lettered comes due.
   */
  lemma EveryRowGetsItsTurn(s: Sys, c: Config, w: string, id: string, owner: string, ok: bool, t: int)
    requires id in s.rows && !Terminal(s.rows[id]) && !BusyAt(s, w)
    requires t >= s.now && t >= ComesDue(s.rows[id], c.timeout)
    ensures var f := Turn(s, c, w, id, owner, ok, t); var row := s.rows[id];
            && f.rows == s.rows[id := Settled(Claimed(row, t, owner), row.attempts, ok, t, c.policy)]
            && f.stream == (if ok then s.stream + [EntryOf(id, row)] else s.stream)
            && f.rows[id].status == (if ok then Published
                                     else if Exhausts(row.attempts, c.policy) then DeadLetter else Pending)
  {
    var ticked := Apply(s, c, Tick(t));
    DueFrom(s.rows[id], t, c.timeout);
    ClaimOne(ticked, c, w, id, owner);
    RoundSettles(Apply(ticked, c, Claim(w, [id], owner)), c, w, Verdict(ok, t));
    assert EntryOf(id, Claimed(s.rows[id], t, owner)) == EntryOf(id, s.rows[id]);
  }
}
