/** The `Db` of src/db.rs: tables updated in place inside transactions. Each
    method is proved to have exactly the effect that Schema gives its transaction. */
module Store {
  import opened Wrappers
  import opened Text
  import opened Retry
  import opened Headers
  import opened Config
  import opened Schema
  import opened Columns

  function IdsOf(claimed: seq<ClaimedJob>): set<Uuid> {
    set i | 0 <= i < |claimed| :: claimed[i].id
  }

  /** The ids of rows in the order of `next_attempt_at`. */
  predicate Ascending(jobs: map<Uuid, JobRow>, ids: seq<Uuid>) {
    && (forall i :: 0 <= i < |ids| ==> ids[i] in jobs)
    && (forall i, j :: 0 <= i < j < |ids| ==> jobs[ids[i]].nextAttemptAt <= jobs[ids[j]].nextAttemptAt)
  }

  /** The rows the WHERE clause selects, without those that are skipped. */
  function DueRows(t: Tables, stale: Time, now: Time, skipped: set<Uuid>): set<Uuid> {
    set id | id in t.jobs && id !in skipped && Due(t.jobs[id], now, stale)
  }

  /** `order` has been taken off `due`, earliest first, and `left` remains. */
  predicate Picking(jobs: map<Uuid, JobRow>, due: set<Uuid>, order: seq<Uuid>, left: set<Uuid>) {
    && Distinct(order) && Ascending(jobs, order)
    && SetOf(order) !! left && SetOf(order) + left == due <= jobs.Keys
    && (forall p, q :: p in SetOf(order) && q in left ==> jobs[p].nextAttemptAt <= jobs[q].nextAttemptAt)
  }

  class Db {
    var events: map<Uuid, EventRow>
    var jobs: map<Uuid, JobRow>
    var attempts: map<AttemptKey, AttemptRow>

    function Contents(): Tables
      reads this
    {
      Tables(events, jobs, attempts)
    }

    constructor ()
      ensures Contents() == Tables(map[], map[], map[])
    {
      events, jobs, attempts := map[], map[], map[];
    }

    /** Transactions that other connections committed meanwhile. */
    method Observe(t: Tables)
      modifies this
      ensures Contents() == t
    {
      events, jobs, attempts := t.events, t.jobs, t.attempts;
    }

    // ---- enqueue ----

    /** Returns false when the primary key rejects the row. */
    method InsertDeliveryJob(id: Uuid, eventRowId: Uuid, destination: Destination, now: Time, deadlineAt: Time)
      returns (ok: bool)
      modifies this`jobs
      ensures ok <==> id !in old(jobs)
      ensures jobs == if ok then old(jobs)[id := NewJob(id, eventRowId, destination, now, deadlineAt)] else old(jobs)
    {
      if id in jobs {
        return false;
      }
      jobs := jobs[id := JobRow(id, eventRowId, destination.name, destination.url, Queued, 0, now, deadlineAt,
                                None, None, None, None, None, None, now, now)];
      return true;
    }

    method EnqueueEvent(r: Incoming, eventRowId: Uuid, ids: seq<Uuid>) returns (result: EnqueueResult)
      requires |ids| == |r.destinations|
      modifies this
      ensures result == Enqueue(old(Contents()), r, eventRowId, ids)
      ensures Contents() == AfterEnqueue(old(Contents()), r, eventRowId, ids)
      ensures result.Inserted? ==> HoldsWebhook(Contents(), r, eventRowId, ids)
    {
      var now := r.receivedAt;
      var deadlineAt := now + r.windowSecs * SECOND;
      var headersJson := HeadersToJson(r.headers);
      var sourceSvixId := HeaderToString(r.headers, "svix-id");
      if sourceSvixId.None? {
        return BadRequest;
      }
      var sourceSvixTimestamp := HeaderToString(r.headers, "svix-timestamp");
      if sourceSvixTimestamp.None? {
        return BadRequest;
      }
      var begin := Contents();
      if exists e :: e in events && events[e].sourceSvixId == sourceSvixId.value {
        return Duplicate;
      }
      if eventRowId in events {
        return Refused;
      }
      events := events[eventRowId := EventRow(eventRowId, sourceSvixId.value, sourceSvixTimestamp.value, now,
                                              r.event.eventId, r.event.eventType, r.body, headersJson, |r.destinations|)];
      for i := 0 to |r.destinations|
        invariant FreshIds(begin, ids[..i])
        invariant jobs == WithJobs(begin.jobs, r, eventRowId, ids, i)
        invariant events == begin.events[eventRowId := NewEvent(r, eventRowId, sourceSvixId.value, sourceSvixTimestamp.value)]
        invariant attempts == begin.attempts
      {
        TakenIds(begin.jobs, r, eventRowId, ids, i);
        var inserted := InsertDeliveryJob(ids[i], eventRowId, r.destinations[i], now, deadlineAt);
        if !inserted {
          StaleIds(begin, ids, i);
          events, jobs := begin.events, begin.jobs;
          return Refused;
        }
      }
      assert ids[..|ids|] == ids;
      EnqueueHolds(begin, r, eventRowId, ids);
      return Inserted(eventRowId);
    }

    // ---- claim ----

    /** Of some rows, one with the earliest `next_attempt_at`. */
    method Earliest(candidates: set<Uuid>) returns (best: Uuid)
      requires candidates != {} && candidates <= jobs.Keys
      ensures best in candidates
      ensures forall id :: id in candidates ==> jobs[best].nextAttemptAt <= jobs[id].nextAttemptAt
    {
      best :| best in candidates;
      var rest := candidates - {best};
      while rest != {}
        invariant rest <= candidates && best in candidates
        invariant forall id :: id in candidates - rest ==> jobs[best].nextAttemptAt <= jobs[id].nextAttemptAt
        decreases |rest|
      {
        var id :| id in rest;
        if jobs[id].nextAttemptAt < jobs[best].nextAttemptAt {
          best := id;
        }
        rest := rest - {id};
      }
    }

    /** ORDER BY next_attempt_at LIMIT with SKIP LOCKED: at most `limit` due rows,
        earliest first, leaving out those another transaction has locked. */
    method PickDue(limit: int, stale: Time, now: Time, skipped: set<Uuid>) returns (order: seq<Uuid>)
      requires 0 <= limit
      ensures Distinct(order) && Ascending(jobs, order)
      ensures LegalPick(Contents(), limit, stale, now, skipped, SetOf(order))
    {
      order := [];
      var left := DueRows(Contents(), stale, now, skipped);
      while |order| < limit && left != {}
        invariant |order| <= limit && left <= DueRows(Contents(), stale, now, skipped)
        invariant Picking(jobs, DueRows(Contents(), stale, now, skipped), order, left)
        decreases |left|
      {
        var id := Earliest(left);
        PickNext(jobs, DueRows(Contents(), stale, now, skipped), order, left, id);
        order := order + [id];
        left := left - {id};
      }
      PickedEnough(Contents(), limit, stale, now, skipped, order, left);
    }

    /** `claim_due_jobs`: picks, locks and returns snapshots of due rows. */
    method ClaimDueJobs(w: WorkerId, limit: int, stale: Time, now: Time, skipped: set<Uuid>)
      returns (claimed: seq<ClaimedJob>, ghost picked: set<Uuid>)
      requires 0 <= limit && ForeignKeys(Contents())
      modifies this`jobs
      ensures LegalPick(old(Contents()), limit, stale, now, skipped, picked)
      ensures Contents() == LockRows(old(Contents()), picked, w, now)
      ensures |claimed| == |picked| && IdsOf(claimed) == picked
      ensures forall i :: 0 <= i < |claimed| ==>
                claimed[i].id in picked && claimed[i] == Snapshot(old(Contents()), claimed[i].id, w)
      ensures forall i :: 0 <= i < |claimed| ==>
                var id := claimed[i].id;
                && ShowsRow(claimed[i], old(jobs)[id], events[old(jobs)[id].eventId], w)
                && LockedFor(old(jobs)[id], jobs[id], w, now)
    {
      var order := PickDue(limit, stale, now, skipped);
      ghost var before := Contents();
      picked := SetOf(order);
      DistinctSize(order);
      claimed := [];
      for i := 0 to |order|
        invariant Contents() == LockRows(before, SetOf(order[..i]), w, now)
        invariant |claimed| == i
        invariant forall k :: 0 <= k < i ==> claimed[k] == Snapshot(before, order[k], w)
      {
        var id := order[i];
        var r := jobs[id];
        LockOneMore(before, order, i, w, now);
        var event := events[r.eventId];
        claimed := claimed + [ClaimedJob(id, r.eventId, r.destinationName, r.destinationUrl, r.attemptCount,
                                         r.deadlineAt, w, event.rawBody, event.headers)];
        jobs := jobs[id := r.(status := Delivering, lockedAt := Some(now), lockedBy := Some(w), updatedAt := now)];
      }
      assert order[..|order|] == order;
      forall k | 0 <= k < |order| ensures claimed[k].id == order[k] {}
      SameIds(claimed, order);
      forall k | 0 <= k < |claimed|
        ensures ShowsRow(claimed[k], before.jobs[order[k]], before.events[before.jobs[order[k]].eventId], w)
        ensures LockedFor(before.jobs[order[k]], jobs[order[k]], w, now)
      {
        SnapshotColumns(before, order[k], w);
        ClaimColumns(before, picked, w, now, order[k]);
      }
    }

    // ---- url refresh ----

    method UpdateClaimedJobDestinationUrl(job: ClaimedJob, url: string, now: Time) returns (updated: bool)
      modifies this`jobs
      ensures updated <==> Holds(old(Contents()), job)
      ensures Contents() == RefreshUrl(old(Contents()), job, url, now)
    {
      if job.id in jobs && jobs[job.id].lockedBy == Some(job.lockedBy) && jobs[job.id].status == Delivering {
        jobs := jobs[job.id := jobs[job.id].(destinationUrl := url, updatedAt := now)];
        return true;
      }
      return false;
    }

    // ---- recording ----

    /** Returns false when a constraint rejects the row. */
    method InsertDeliveryAttempt(jobId: Uuid, attemptNumber: int, attemptedAt: Time, statusCode: Option<int>,
                                 error: Option<string>, durationMs: int, willRetry: bool, nextAttemptAt: Option<Time>)
      returns (ok: bool)
      modifies this`attempts
      ensures var a := AttemptRow(jobId, attemptNumber, attemptedAt, statusCode, error, WrapI32(durationMs), willRetry, nextAttemptAt);
              && (ok <==> AttemptAccepted(old(Contents()), a))
              && Contents() == if ok then WithAttempt(old(Contents()), a) else old(Contents())
    {
      var ms := WrapI32(durationMs);
      if jobId !in jobs || AttemptKey(jobId, attemptNumber) in attempts || attemptNumber <= 0 || ms < 0 {
        return false;
      }
      attempts := attempts[AttemptKey(jobId, attemptNumber) :=
        AttemptRow(jobId, attemptNumber, attemptedAt, statusCode, error, ms, willRetry, nextAttemptAt)];
      return true;
    }

    method RecordSuccess(job: ClaimedJob, statusCode: int, durationMs: int, now: Time) returns (result: RecordResult)
      modifies this
      ensures result == RecordOutcome(old(Contents()), job, Success(statusCode), durationMs, now)
      ensures Contents() == AfterRecord(old(Contents()), job, Success(statusCode), durationMs, now)
    {
      var attemptNumber := job.attemptCount + 1;
      var begin := attempts;
      var inserted := InsertDeliveryAttempt(job.id, attemptNumber, now, Some(statusCode), None, durationMs, false, None);
      if !inserted {
        return Rejected;
      }
      var rowsAffected := 0;
      if job.id in jobs && jobs[job.id].lockedBy == Some(job.lockedBy) && jobs[job.id].status == Delivering {
        jobs := jobs[job.id := jobs[job.id].(status := Succeeded, attemptCount := attemptNumber,
          lastAttemptAt := Some(now), lastStatusCode := Some(statusCode), lastError := None, completedAt := Some(now),
          lockedAt := None, lockedBy := None, updatedAt := now)];
        rowsAffected := 1;
      }
      if rowsAffected == 0 {
        attempts := begin;
        return LockLost;
      }
      return Recorded;
    }

    method RecordRetry(job: ClaimedJob, statusCode: Option<int>, error: Option<string>, durationMs: int,
                       nextAttemptAt: Time, now: Time)
      returns (result: RecordResult)
      modifies this
      ensures result == RecordOutcome(old(Contents()), job, Retry(statusCode, error, nextAttemptAt), durationMs, now)
      ensures Contents() == AfterRecord(old(Contents()), job, Retry(statusCode, error, nextAttemptAt), durationMs, now)
    {
      var attemptNumber := job.attemptCount + 1;
      var begin := attempts;
      var inserted := InsertDeliveryAttempt(job.id, attemptNumber, now, statusCode, error, durationMs, true, Some(nextAttemptAt));
      if !inserted {
        return Rejected;
      }
      var rowsAffected := 0;
      if job.id in jobs && jobs[job.id].lockedBy == Some(job.lockedBy) && jobs[job.id].status == Delivering {
        jobs := jobs[job.id := jobs[job.id].(status := Retrying, attemptCount := attemptNumber,
          nextAttemptAt := nextAttemptAt, lastAttemptAt := Some(now), lastStatusCode := statusCode, lastError := error,
          lockedAt := None, lockedBy := None, updatedAt := now)];
        rowsAffected := 1;
      }
      if rowsAffected == 0 {
        attempts := begin;
        return LockLost;
      }
      return Recorded;
    }

    method RecordFinalFailure(job: ClaimedJob, statusCode: Option<int>, error: Option<string>, durationMs: int, now: Time)
      returns (result: RecordResult)
      modifies this
      ensures result == RecordOutcome(old(Contents()), job, FinalFailure(statusCode, error), durationMs, now)
      ensures Contents() == AfterRecord(old(Contents()), job, FinalFailure(statusCode, error), durationMs, now)
    {
      var attemptNumber := job.attemptCount + 1;
      var begin := attempts;
      var inserted := InsertDeliveryAttempt(job.id, attemptNumber, now, statusCode, error, durationMs, false, None);
      if !inserted {
        return Rejected;
      }
      var rowsAffected := 0;
      if job.id in jobs && jobs[job.id].lockedBy == Some(job.lockedBy) && jobs[job.id].status == Delivering {
        jobs := jobs[job.id := jobs[job.id].(status := Failed, attemptCount := attemptNumber,
          lastAttemptAt := Some(now), lastStatusCode := statusCode, lastError := error, completedAt := Some(now),
          lockedAt := None, lockedBy := None, updatedAt := now)];
        rowsAffected := 1;
      }
      if rowsAffected == 0 {
        attempts := begin;
        return LockLost;
      }
      return Recorded;
    }
  }

  lemma PickNext(jobs: map<Uuid, JobRow>, due: set<Uuid>, order: seq<Uuid>, left: set<Uuid>, id: Uuid)
    requires Picking(jobs, due, order, left) && id in left
    requires forall q :: q in left ==> jobs[id].nextAttemptAt <= jobs[q].nextAttemptAt
    ensures Picking(jobs, due, order + [id], left - {id})
  {
    assert SetOf(order + [id]) == SetOf(order) + {id};
    forall i | 0 <= i < |order| ensures order[i] != id && jobs[order[i]].nextAttemptAt <= jobs[id].nextAttemptAt {
      assert order[i] in SetOf(order);
    }
  }

  lemma PickedEnough(t: Tables, limit: int, stale: Time, now: Time, skipped: set<Uuid>, order: seq<Uuid>, left: set<Uuid>)
    requires Picking(t.jobs, DueRows(t, stale, now, skipped), order, left)
    requires |order| <= limit && (|order| == limit || left == {})
    ensures LegalPick(t, limit, stale, now, skipped, SetOf(order))
  {
    DistinctSize(order);
    var due := DueRows(t, stale, now, skipped);
    forall id | id in SetOf(order) ensures id in due {}
    forall id | id in t.jobs && id !in SetOf(order) && id !in skipped && Due(t.jobs[id], now, stale) ensures id in left {
      assert id in due;
    }
  }

  lemma SameIds(claimed: seq<ClaimedJob>, ids: seq<Uuid>)
    requires |claimed| == |ids| && forall i :: 0 <= i < |ids| ==> claimed[i].id == ids[i]
    ensures IdsOf(claimed) == SetOf(ids)
  {
    forall id | id in SetOf(ids) ensures id in IdsOf(claimed) {
      var i :| 0 <= i < |ids| && ids[i] == id;
      assert claimed[i].id == id;
    }
  }

  /** Locking the next row of an order adds it to the rows locked so far. */
  lemma LockOneMore(t: Tables, order: seq<Uuid>, i: nat, w: WorkerId, now: Time)
    requires Distinct(order) && i < |order| && order[i] in t.jobs
    ensures order[i] in LockRows(t, SetOf(order[..i]), w, now).jobs
    ensures LockRows(t, SetOf(order[..i]), w, now).jobs[order[i]] == t.jobs[order[i]]
    ensures var done := LockRows(t, SetOf(order[..i]), w, now);
            LockRows(t, SetOf(order[..i + 1]), w, now)
              == done.(jobs := done.jobs[order[i] := Locked(t.jobs[order[i]], w, now)])
  {
    assert order[..i + 1] == order[..i] + [order[i]];
    assert SetOf(order[..i + 1]) == SetOf(order[..i]) + {order[i]};
  }

  /** While the first `i` ids are fresh, the next one is in the table exactly if it
      was there before or repeats one of them. */
  lemma TakenIds(jobs: map<Uuid, JobRow>, r: Incoming, eventRowId: Uuid, ids: seq<Uuid>, i: nat)
    requires i < |ids| == |r.destinations|
    ensures ids[i] in WithJobs(jobs, r, eventRowId, ids, i) <==> ids[i] in jobs || ids[i] in ids[..i]
  {
    WithJobsKeys(jobs, r, eventRowId, ids, i);
  }

  lemma {:induction false} WithJobsKeys(jobs: map<Uuid, JobRow>, r: Incoming, eventRowId: Uuid, ids: seq<Uuid>, n: nat)
    requires n <= |ids| == |r.destinations|
    ensures forall id :: id in WithJobs(jobs, r, eventRowId, ids, n) <==> id in jobs || id in ids[..n]
  {
    if n > 0 {
      WithJobsKeys(jobs, r, eventRowId, ids, n - 1);
      assert ids[..n] == ids[..n - 1] + [ids[n - 1]];
    }
  }

  lemma StaleIds(t: Tables, ids: seq<Uuid>, i: nat)
    requires i < |ids| && (ids[i] in t.jobs || ids[i] in ids[..i])
    ensures !FreshIds(t, ids)
  {
    if ids[i] in ids[..i] {
      var k :| 0 <= k < i && ids[..i][k] == ids[i];
      assert ids[k] == ids[i];
    }
  }
}
