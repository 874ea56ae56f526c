/**
 Outbox rows, the statements that claim and finalize them, and one batch of the publisher worker as
 the imperative code it is. Module Publisher interleaves many workers over the same row functions.
 */
module Outbox {
  import opened Base
  import Tables

  datatype Status = Pending | Processing | Published | DeadLetter

  /** Times are instants of one clock, in any unit. */
  datatype Row = Row(
    event: Tables.Event, createdAt: int,
    status: Status, attempts: nat, nextAttemptAt: int, lockedAt: Option<int>, lockedBy: string,
        publishedAt: Option<int>)

  function NewRow(event: Tables.Event, now: int): Row {
    Row(event, now, Pending, 0, now, None, "", None)
  }

  predicate Claimable(row: Row, now: int, staleBefore: int) {
    || (row.status == Pending && row.nextAttemptAt <= now)
    || (row.status == Processing && (row.lockedAt.None? || row.lockedAt.value <= staleBefore))
  }

  function Claimed(row: Row, now: int, owner: string): Row {
    row.(status := Processing, lockedAt := Some(now), lockedBy := owner)
  }

  function AsPublished(row: Row, at: int): Row {
    row.(status := Published, publishedAt := Some(at), lockedAt := None, lockedBy := "")
  }

  function AsFailed(row: Row, nextAttemptAt: int): Row {
    row.(attempts := row.attempts + 1, status := Pending, nextAttemptAt := nextAttemptAt, lockedAt := None,
        lockedBy := "")
  }

  function AsDeadLetter(row: Row): Row { row.(status := DeadLetter, lockedAt := None, lockedBy := "") }

  /** Retry policy: linear backoff, and a bound on the attempts. */
  datatype Policy = Policy(base: int, maxAttempts: nat)

  predicate Exhausts(attempts: nat, policy: Policy) { attempts + 1 >= policy.maxAttempts }

  /** Recording a failure: the backoff and the bound use the claimed copy's attempts, the row its own. */
  function FailureRecorded(row: Row, claimedAttempts: nat, at: int, policy: Policy): Row {
    var failed := AsFailed(row, at + (claimedAttempts + 1) * policy.base);
    if Exhausts(claimedAttempts, policy) then AsDeadLetter(failed) else failed
  }

  /** Finalizing one event after its publish attempt. */
  function Settled(row: Row, claimedAttempts: nat, ok: bool, at: int, policy: Policy): Row {
    if ok then AsPublished(row, at) else FailureRecorded(row, claimedAttempts, at, policy)
  }

  /** When a row may be claimed: pending, when its time has come; processing, when its claim is stale; else never. */
  predicate Due(row: Row, now: int, timeout: int) {
    match row.status
    case Pending => now >= row.nextAttemptAt
    case Processing => row.lockedAt.None? || now - row.lockedAt.value >= timeout
    case _ => false
  }

  /**
   Who is due when: a new row at once, a claimed one when the claim has lasted the timeout, a failed one after as
   many bases as it has failures, unless that was the last one allowed; published rows never again.
   */
  lemma DueExactly(row: Row, event: Tables.Event, at: int, owner: string, k: nat, policy: Policy, now: int,
                   timeout: int)
    ensures Claimable(row, now, now - timeout) <==> Due(row, now, timeout)
    ensures Claimable(NewRow(event, at), now, now - timeout) <==> now >= at
    ensures Claimable(Claimed(row, at, owner), now, now - timeout) <==> now >= at + timeout
    ensures Claimable(Settled(row, k, false, at, policy), now, now - timeout) <==>
              k + 1 < policy.maxAttempts && now >= at + (k + 1) * policy.base
    ensures !Claimable(Settled(row, k, true, at, policy), now, now - timeout)
  {
  }

  /** What the verdict makes of a row: published, or one attempt more and pending again or given up. */
  lemma SettledExactly(row: Row, k: nat, ok: bool, at: int, policy: Policy)
    ensures var r := Settled(row, k, ok, at, policy);
            && r.event == row.event && r.createdAt == row.createdAt && r.lockedAt.None?
            && (ok ==> r.status == Published && r.publishedAt == Some(at) && r.attempts == row.attempts)
            && (!ok ==>
                  && r.attempts == row.attempts + 1
                  && r.status == if k + 1 >= policy.maxAttempts then DeadLetter else Pending)
  {
  }

  function ClaimRows(rows: map<string, Row>, ids: set<string>, now: int, owner: string): map<string, Row> {
    map id | id in rows :: if id in ids then Claimed(rows[id], now, owner) else rows[id]
  }

  /** A claimed copy held by the worker. */
  datatype Copy = Copy(id: string, row: Row)

  function IdSet(batch: seq<Copy>): set<string> { set c | c in batch :: c.id }

  function Ids(batch: seq<Copy>): (r: seq<string>)
    ensures |r| == |batch| && forall i :: 0 <= i < |r| ==> r[i] == batch[i].id
  {
    seq(|batch|, i requires 0 <= i < |batch| => batch[i].id)
  }

  function Owner(lockedBy: string): string { if lockedBy == "" then "unknown" else lockedBy }

  predicate DistinctIds(batch: seq<Copy>) {
    forall i, j :: 0 <= i < j < |batch| ==> batch[i].id != batch[j].id
  }

  const DEFAULT_LIMIT := 100

  function Limit(limit: int): nat { if limit <= 0 then DEFAULT_LIMIT else limit }

  /** Rows a claim may take: claimable and not locked by another transaction (`SKIP LOCKED`). */
  predicate Eligible(rows: map<string, Row>, id: string, now: int, staleBefore: int, locked: set<string>) {
    id in rows && id !in locked && Claimable(rows[id], now, staleBefore)
  }

  /** The oldest eligible rows, in order, as many as the limit allows. */
  ghost predicate IsOldestFirst(rows: map<string, Row>, batch: seq<string>, limit: nat, now: int, staleBefore: int,
          locked: set<string>) {
    && (forall i :: 0 <= i < |batch| ==> Eligible(rows, batch[i], now, staleBefore, locked))
    && (forall i, j :: 0 <= i < j < |batch| ==>
          batch[i] != batch[j] && rows[batch[i]].createdAt <= rows[batch[j]].createdAt)
    && |batch| <= limit
    && (forall id :: Eligible(rows, id, now, staleBefore, locked) && id !in batch ==>
          |batch| == limit && forall i :: 0 <= i < |batch| ==> rows[batch[i]].createdAt <= rows[id].createdAt)
  }

  /** So a claim takes due rows only, and every due row that nobody has locked unless its limit is reached. */
  lemma ClaimTakesDue(rows: map<string, Row>, ids: seq<string>, limit: int, now: int, timeout: int,
                      locked: set<string>)
    requires IsOldestFirst(rows, ids, Limit(limit), now, now - timeout, locked)
    ensures |ids| <= if limit <= 0 then 100 else limit
    ensures forall id :: id in ids ==> id in rows && id !in locked && Due(rows[id], now, timeout)
    ensures |ids| < (if limit <= 0 then 100 else limit) ==>
              forall id :: id in rows && id !in locked && Due(rows[id], now, timeout) ==> id in ids
  {
    forall id | id in rows && id !in locked ensures Eligible(rows, id, now, now - timeout, locked) <==>
        Due(rows[id], now, timeout) {}
  }

  /** The outbox rows, updated in place; `faults` counts the statements that failed. */
  class OutboxTable {
    ghost var faults: nat
    var rows: map<string, Row>

    constructor (rows: map<string, Row>)
      ensures this.rows == rows
    {
      faults := 0;
      this.rows := rows;
    }

    method Fault() returns (failed: bool)
      modifies this`faults
      ensures faults == old(faults) + if failed then 1 else 0
    {
      failed := *;
      if failed { faults := faults + 1; }
    }

    /** The row with the smallest creation time among some candidates. */
    method Oldest(candidates: set<string>) returns (id: string)
      requires candidates != {} && candidates <= rows.Keys
      ensures id in candidates
      ensures forall c :: c in candidates ==> rows[id].createdAt <= rows[c].createdAt
    {
      id :| id in candidates;
      var rest := candidates - {id};
      while rest != {}
        invariant id in candidates && rest <= candidates
        invariant forall c :: c in candidates - rest ==> rows[id].createdAt <= rows[c].createdAt
        decreases |rest|
      {
        var c :| c in rest;
        if rows[c].createdAt < rows[id].createdAt { id := c; }
        rest := rest - {c};
      }
    }

    /** `SELECT ... ORDER BY created_at LIMIT n FOR UPDATE SKIP LOCKED`. */
    method SelectReady(now: int, limit: int, staleBefore: int, locked: set<string>) returns (ids: seq<string>)
      ensures IsOldestFirst(rows, ids, Limit(limit), now, staleBefore, locked)
    {
      var rest := set id | id in rows && Eligible(rows, id, now, staleBefore, locked);
      ids := [];
      while rest != {} && |ids| < Limit(limit)
        invariant |ids| <= Limit(limit)
        invariant forall id :: id in rest ==> Eligible(rows, id, now, staleBefore, locked)
        invariant forall id :: Eligible(rows, id, now, staleBefore, locked) <==> id in rest || id in ids
        invariant forall i :: 0 <= i < |ids| ==> ids[i] !in rest && Eligible(rows, ids[i], now, staleBefore, locked)
        invariant forall i, j :: 0 <= i < j < |ids| ==>
                    ids[i] != ids[j] && rows[ids[i]].createdAt <= rows[ids[j]].createdAt
        invariant forall i, id :: 0 <= i < |ids| && id in rest ==> rows[ids[i]].createdAt <= rows[id].createdAt
        decreases |rest|
      {
        var id := Oldest(rest);
        ids := ids + [id];
        rest := rest - {id};
      }
    }

    /** Claims a batch and hands out copies that already show the claim; a failing statement changes nothing. */
    method ClaimReady(now: int, limit: int, lockedBy: string, staleBefore: int, locked: set<string>)
      returns (batch: seq<Copy>, ok: bool)
      modifies this
      ensures faults == old(faults) + if ok then 0 else 1
      ensures !ok ==> rows == old(rows) && batch == []
      ensures DistinctIds(batch)
      ensures ok ==> IsOldestFirst(old(rows), Ids(batch), Limit(limit), now, staleBefore, locked)
      ensures ok ==> rows == ClaimRows(old(rows), IdSet(batch), now, Owner(lockedBy))
      ensures forall i :: 0 <= i < |batch| ==> batch[i].id in rows && batch[i].row == rows[batch[i].id]
    {
      var failed := Fault();
      ok := !failed;
      if failed { return [], ok; }
      var owner := Owner(lockedBy);
      var ids := SelectReady(now, limit, staleBefore, locked);
      batch := [];
      var before := rows;
      for i := 0 to |ids|
        invariant rows == before
        invariant |batch| == i
        invariant forall j :: 0 <= j < i ==> batch[j] == Copy(ids[j], Claimed(rows[ids[j]], now, owner))
      {
        batch := batch + [Copy(ids[i], Claimed(rows[ids[i]], now, owner))];
      }
      rows := ClaimRows(rows, IdSet(batch), now, owner);
      forall i | 0 <= i < |batch| ensures batch[i].id in rows && batch[i].row == rows[batch[i].id] {
        assert batch[i] in batch;
      }
      assert Ids(batch) == ids;
    }

    /** Reads the row, then saves the whole row back: status and owner are not checked. */
    method MarkPublished(id: string, at: int) returns (ok: bool)
      modifies this
      ensures ok ==> id in old(rows) && rows == old(rows)[id := AsPublished(old(rows)[id], at)]
      ensures !ok ==> rows == old(rows)
      ensures faults >= old(faults) && (!ok && id in rows ==> faults > old(faults))
    {
      var failed := Fault();
      if failed || id !in rows { return false; }
      rows := rows[id := AsPublished(rows[id], at)];
      ok := true;
    }

    method RecordPublishFailure(id: string, claimedAttempts: nat, at: int, policy: Policy) returns (ok: bool)
      modifies this
      ensures ok ==>
                && id in old(rows)
                && rows == old(rows)[id := FailureRecorded(old(rows)[id], claimedAttempts, at, policy)]
      ensures !ok ==> rows == old(rows)
      ensures faults >= old(faults) && (!ok && id in rows ==> faults > old(faults))
    {
      var failed := Fault();
      if failed || id !in rows { return false; }
      var failedRow := AsFailed(rows[id], at + (claimedAttempts + 1) * policy.base);
      if claimedAttempts + 1 >= policy.maxAttempts {
        var failedAgain := Fault();
        if failedAgain { return false; }  // the transaction rolls the first save back
        rows := rows[id := AsDeadLetter(failedRow)];
      } else {
        rows := rows[id := failedRow];
      }
      ok := true;
    }
  }

  // ------------------------------------------------------------------ one batch

  /** How one event of a batch ended: whether it was published, and when it was finalized. */
  datatype Verdict = Verdict(ok: bool, at: int)

  function SettleBatch(rows: map<string, Row>, batch: seq<Copy>, verdicts: seq<Verdict>, policy: Policy)
    : map<string, Row>
    requires |verdicts| <= |batch|
    decreases |verdicts|
  {
    if verdicts == [] then rows
    else
      var n := |verdicts| - 1;
      var before := SettleBatch(rows, batch, verdicts[..n], policy);
      var c := batch[n];
      var v := verdicts[n];
      if c.id in before then before[c.id := Settled(before[c.id], c.row.attempts, v.ok, v.at, policy)] else before
  }

  function CountPublished(verdicts: seq<Verdict>): nat {
    if verdicts == [] then 0
    else CountPublished(verdicts[..|verdicts| - 1]) + if verdicts[|verdicts| - 1].ok then 1 else 0
  }

  /** Ids whose row was moved to dead letter by these verdicts. */
  function DeadIds(batch: seq<Copy>, verdicts: seq<Verdict>, policy: Policy): set<string>
    requires |verdicts| <= |batch|
  {
    if verdicts == [] then {}
    else
      var n := |verdicts| - 1;
      DeadIds(batch, verdicts[..n], policy)
      + if !verdicts[n].ok && Exhausts(batch[n].row.attempts, policy) then {batch[n].id} else {}
  }

  datatype BatchResult = BatchResult(fetched: nat, published: nat, failed: nat, deadLettered: nat)

  lemma {:induction false} SettledElsewhere(rows: map<string, Row>, batch: seq<Copy>, verdicts: seq<Verdict>,
          policy: Policy, id: string)
    requires |verdicts| <= |batch|
    requires forall i :: 0 <= i < |verdicts| ==> batch[i].id != id
    ensures var after := SettleBatch(rows, batch, verdicts, policy);
            after.Keys == rows.Keys && (id in rows ==> after[id] == rows[id])
    decreases |verdicts|
  {
    if verdicts != [] { SettledElsewhere(rows, batch, verdicts[..|verdicts| - 1], policy, id); }
  }

  /** Settling touches each event once: its row ends as its own verdict says, whatever the others were. */
  lemma {:induction false} SettledAt(rows: map<string, Row>, batch: seq<Copy>, verdicts: seq<Verdict>,
          policy: Policy, i: nat)
    requires i < |verdicts| <= |batch| && DistinctIds(batch) && batch[i].id in rows
    ensures var after := SettleBatch(rows, batch, verdicts, policy);
            && batch[i].id in after
            && after[batch[i].id]
                == Settled(rows[batch[i].id], batch[i].row.attempts, verdicts[i].ok, verdicts[i].at, policy)
    decreases |verdicts|
  {
    var n := |verdicts| - 1;
    if i == n {
      SettledElsewhere(rows, batch, verdicts[..n], policy, batch[n].id);
    } else {
      SettledAt(rows, batch, verdicts[..n], policy, i);
    }
  }

  /** The transaction that finalizes one event; false when it failed and rolled back. */
  method Finalize(table: OutboxTable, c: Copy, published: bool, at: int, policy: Policy) returns (ok: bool)
    modifies table
    ensures ok ==> && c.id in old(table.rows)
                   && var row := old(table.rows)[c.id];
                      table.rows == old(table.rows)[c.id := Settled(row, c.row.attempts, published, at, policy)]
    ensures !ok ==> table.rows == old(table.rows)
    ensures table.faults >= old(table.faults) && (!ok && c.id in table.rows ==> table.faults > old(table.faults))
  {
    if published {
      ok := table.MarkPublished(c.id, at);
    } else {
      ok := table.RecordPublishFailure(c.id, c.row.attempts, at, policy);
    }
  }

  /**
   One run of the worker. The claim may fail (`claimed` is false), and so may its commit, which can
   take effect and still report an error; fetched events are counted all the same. Unless finalizing
   failed, every fetched event was settled; the counters add up, and the dead-letter counter is the
   number of rows this run moved to dead letter.
   */
  method RunOnce(table: OutboxTable, workerId: string, limit: int, timeout: int, locked: set<string>, policy: Policy,
                 startedAt: int)
    returns (result: BatchResult, failed: bool, claimed: bool, commit: Outcome, claimedAt: int, batch: seq<Copy>,
             ghost verdicts: seq<Verdict>)
    modifies table
    ensures |verdicts| <= |batch| && DistinctIds(batch) && result.fetched == |batch|
    ensures failed ==> table.faults > old(table.faults)
    ensures !claimed ==> failed && batch == [] && table.rows == old(table.rows)
    ensures claimed ==> IsOldestFirst(old(table.rows), Ids(batch), Limit(limit), claimedAt, claimedAt - timeout, locked)
    ensures claimed ==>
              var rows := ClaimRows(old(table.rows), IdSet(batch), claimedAt, Owner(workerId));
              && (forall i :: 0 <= i < |batch| ==> batch[i].id in rows && batch[i].row == rows[batch[i].id])
              && table.rows == if commit == Lost then old(table.rows) else SettleBatch(rows, batch, verdicts, policy)
    ensures claimed && commit != Fine ==> failed && result == BatchResult(|batch|, 0, 0, 0) && verdicts == []
    ensures !failed ==> |verdicts| == |batch|
    ensures result.published == CountPublished(verdicts)
    ensures !failed ==> result.published + result.failed == result.fetched
    ensures result.deadLettered == |DeadIds(batch, verdicts, policy)|
    ensures startedAt <= claimedAt && forall i :: 0 <= i < |verdicts| ==> verdicts[i].at >= claimedAt
  {
    claimedAt := Later(startedAt);
    verdicts, failed := [], true;
    batch, claimed, commit := ClaimBatch(table, workerId, limit, timeout, locked, claimedAt);
    result := BatchResult(|batch|, 0, 0, 0);
    if !claimed || commit != Fine { return; }
    result, failed, verdicts := SettleAll(table, batch, claimedAt, policy);
  }

  /** The transaction that claims a batch. */
  method ClaimBatch(table: OutboxTable, workerId: string, limit: int, timeout: int, locked: set<string>,
                    claimedAt: int)
    returns (batch: seq<Copy>, claimed: bool, commit: Outcome)
    modifies table
    ensures DistinctIds(batch)
    ensures table.faults >= old(table.faults) && (!claimed || commit != Fine ==> table.faults > old(table.faults))
    ensures !claimed ==> batch == [] && table.rows == old(table.rows)
    ensures claimed ==> IsOldestFirst(old(table.rows), Ids(batch), Limit(limit), claimedAt, claimedAt - timeout, locked)
    ensures claimed ==>
              var rows := ClaimRows(old(table.rows), IdSet(batch), claimedAt, Owner(workerId));
              && (forall i :: 0 <= i < |batch| ==> batch[i].id in rows && batch[i].row == rows[batch[i].id])
              && table.rows == if commit == Lost then old(table.rows) else rows
  {
    var before := table.rows;
    commit := Fine;
    batch, claimed := table.ClaimReady(claimedAt, limit, workerId, claimedAt - timeout, locked);
    if !claimed { return; }
    commit := Commit(table);
    if commit == Lost { table.rows := before; }
  }

  method Commit(table: OutboxTable) returns (commit: Outcome)
    modifies table`faults
    ensures table.faults == old(table.faults) + if commit == Fine then 0 else 1
  {
    var lost := table.Fault();
    var unsure := false;
    if !lost { unsure := table.Fault(); }
    commit := if lost then Lost else if unsure then Unsure else Fine;
  }

  /** The batch loop: publish, then finalize, until an event cannot be finalized. */
  method SettleAll(table: OutboxTable, batch: seq<Copy>, claimedAt: int, policy: Policy)
    returns (result: BatchResult, failed: bool, ghost verdicts: seq<Verdict>)
    requires DistinctIds(batch) && forall i :: 0 <= i < |batch| ==> batch[i].id in table.rows
    modifies table
    ensures |verdicts| <= |batch| && table.rows == SettleBatch(old(table.rows), batch, verdicts, policy)
    ensures table.faults >= old(table.faults) && (failed ==> table.faults > old(table.faults))
    ensures !failed ==> |verdicts| == |batch|
    ensures result.fetched == |batch| && result.published == CountPublished(verdicts)
    ensures !failed ==> result.published + result.failed == result.fetched
    ensures result.deadLettered == |DeadIds(batch, verdicts, policy)|
    ensures forall i :: 0 <= i < |verdicts| ==> verdicts[i].at >= claimedAt
  {
    var clock := claimedAt;
    verdicts := [];
    result := BatchResult(|batch|, 0, 0, 0);
    for i := 0 to |batch|
      invariant |verdicts| == i && result.fetched == |batch|
      invariant table.faults >= old(table.faults)
      invariant forall j :: 0 <= j < |batch| ==> batch[j].id in table.rows
      invariant table.rows == SettleBatch(old(table.rows), batch, verdicts, policy)
      invariant result.published == CountPublished(verdicts)
      invariant result.published + result.failed == i
      invariant result.deadLettered == |DeadIds(batch, verdicts, policy)|
      invariant claimedAt <= clock
      invariant forall j :: 0 <= j < |verdicts| ==> verdicts[j].at >= claimedAt
    {
      var event := batch[i];
      clock := Later(clock);
      var published := *;  // the broker's answer
      if !published { result := result.(failed := result.failed + 1); }
      var finalized := Finalize(table, event, published, clock, policy);
      if !finalized { return result, true, verdicts; }
      ghost var next := verdicts + [Verdict(published, clock)];
      assert next[..i] == verdicts;
      DeadIdsNext(batch, verdicts, Verdict(published, clock), policy);
      if published {
        result := result.(published := result.published + 1);
      } else if event.row.attempts + 1 >= policy.maxAttempts {
        result := result.(deadLettered := result.deadLettered + 1);
      }
      verdicts := next;
    }
    failed := false;
  }

  method Later(clock: int) returns (t: int)
    ensures t >= clock
  {
    t := *;
    if t < clock { t := clock; }
  }

  lemma {:induction false} DeadIdsAreHandled(batch: seq<Copy>, verdicts: seq<Verdict>, policy: Policy, id: string)
    requires |verdicts| <= |batch| && id in DeadIds(batch, verdicts, policy)
    ensures exists i :: 0 <= i < |verdicts| && batch[i].id == id
    decreases |verdicts|
  {
    var n := |verdicts| - 1;
    if id in DeadIds(batch, verdicts[..n], policy) {
      DeadIdsAreHandled(batch, verdicts[..n], policy, id);
      var i :| 0 <= i < n && batch[i].id == id;
    } else {
      assert batch[n].id == id;
    }
  }

  lemma DeadIdsNext(batch: seq<Copy>, verdicts: seq<Verdict>, v: Verdict, policy: Policy)
    requires |verdicts| < |batch| && DistinctIds(batch)
    ensures |DeadIds(batch, verdicts + [v], policy)| ==
              |DeadIds(batch, verdicts, policy)| + if !v.ok && Exhausts(batch[|verdicts|].row.attempts, policy)
                  then 1 else 0
  {
    var id := batch[|verdicts|].id;
    assert (verdicts + [v])[..|verdicts|] == verdicts;
    if id in DeadIds(batch, verdicts, policy) {
      DeadIdsAreHandled(batch, verdicts, policy, id);
      assert false;
    }
  }
}
