/** What each transaction writes, column by column, and that it writes nothing else. */
module Columns {
  import opened Wrappers
  import opened Text
  import opened Retry
  import opened Json
  import opened Headers
  import opened Config
  import opened Schema

  /** The columns that are set once. */
  predicate SameFixed(r: JobRow, r': JobRow) {
    && r'.id == r.id && r'.eventId == r.eventId && r'.destinationName == r.destinationName
    && r'.deadlineAt == r.deadlineAt && r'.createdAt == r.createdAt
  }

  /** The columns that outcomes fill. */
  predicate SameOutcome(r: JobRow, r': JobRow) {
    && r'.attemptCount == r.attemptCount && r'.nextAttemptAt == r.nextAttemptAt
    && r'.lastAttemptAt == r.lastAttemptAt && r'.lastStatusCode == r.lastStatusCode && r'.lastError == r.lastError
    && r'.completedAt == r.completedAt
  }

  // ---- claims ----

  /** A row that has been locked for a worker. */
  predicate LockedFor(r: JobRow, r': JobRow, w: WorkerId, now: Time) {
    && r'.status == Delivering && r'.lockedAt == Some(now) && r'.lockedBy == Some(w) && r'.updatedAt == now
    && SameFixed(r, r') && SameOutcome(r, r') && r'.destinationUrl == r.destinationUrl
  }

  /** A claim locks exactly the picked rows, for this worker from now on. */
  lemma ClaimColumns(t: Tables, picked: set<Uuid>, w: WorkerId, now: Time, id: Uuid)
    requires id in t.jobs
    ensures var t' := LockRows(t, picked, w, now);
            && t'.events == t.events && t'.attempts == t.attempts && t'.jobs.Keys == t.jobs.Keys
            && (id !in picked ==> t'.jobs[id] == t.jobs[id])
            && (id in picked ==> LockedFor(t.jobs[id], t'.jobs[id], w, now))
  {
  }

  /** A snapshot shows a row and its event, field by field. */
  predicate ShowsRow(job: ClaimedJob, r: JobRow, e: EventRow, w: WorkerId) {
    && job.lockedBy == w
    && job.eventId == r.eventId && job.destinationName == r.destinationName
    && job.destinationUrl == r.destinationUrl
    && job.attemptCount == r.attemptCount && job.deadlineAt == r.deadlineAt
    && job.rawBody == e.rawBody && job.headers == e.headers
  }

  lemma SnapshotColumns(t: Tables, id: Uuid, w: WorkerId)
    requires id in t.jobs && t.jobs[id].eventId in t.events
    ensures Snapshot(t, id, w).id == id
    ensures ShowsRow(Snapshot(t, id, w), t.jobs[id], t.events[t.jobs[id].eventId], w)
  {
  }

  // ---- durations ----

  /** The `i32` that has the same low 32 bits. */
  lemma DurationWraps(ms: int)
    ensures -0x8000_0000 <= WrapI32(ms) < 0x8000_0000
    ensures (WrapI32(ms) - ms) % 0x1_0000_0000 == 0
    ensures WrapI32(ms) >= 0 <==> ms % 0x1_0000_0000 < 0x8000_0000
  {
  }

  // ---- url refresh ----

  /** A refresh stores the url, for the lock holder only. */
  lemma RefreshColumns(t: Tables, job: ClaimedJob, url: string, now: Time)
    ensures var t' := RefreshUrl(t, job, url, now);
            && t'.events == t.events && t'.attempts == t.attempts && t'.jobs.Keys == t.jobs.Keys
            && (forall id :: id in t.jobs && id != job.id ==> t'.jobs[id] == t.jobs[id])
            && (!Holds(t, job) ==> t' == t)
            && (Holds(t, job) ==>
                  var r, r' := t.jobs[job.id], t'.jobs[job.id];
                  && r'.destinationUrl == url && r'.updatedAt == now
                  && r'.status == r.status && r'.lockedAt == r.lockedAt && r'.lockedBy == r.lockedBy
                  && SameFixed(r, r') && SameOutcome(r, r'))
  {
  }

  // ---- outcomes ----

  /** The row of a job that has ended, with `status` and the last answer. */
  predicate Ended(r: JobRow, r': JobRow, status: Status, number: int, code: Option<int>, error: Option<string>, now: Time) {
    && r'.status == status && r'.attemptCount == number && r'.nextAttemptAt == r.nextAttemptAt
    && r'.lastAttemptAt == Some(now) && r'.lastStatusCode == code && r'.lastError == error
    && r'.completedAt == Some(now)
  }

  predicate Rescheduled(r: JobRow, r': JobRow, number: int, code: Option<int>, error: Option<string>, next: Time, now: Time) {
    && r'.status == Retrying && r'.attemptCount == number && r'.nextAttemptAt == next
    && r'.lastAttemptAt == Some(now) && r'.lastStatusCode == code && r'.lastError == error
    && r'.completedAt == r.completedAt
  }

  /** A recorded outcome is in the next attempt and in the job, which is released. */
  lemma OutcomeColumns(t: Tables, job: ClaimedJob, outcome: Outcome, ms: int, now: Time)
    requires RecordOutcome(t, job, outcome, ms, now) == Recorded
    ensures var t' := AfterRecord(t, job, outcome, ms, now);
            var key := AttemptKey(job.id, job.attemptCount + 1);
            && t'.events == t.events && t'.jobs.Keys == t.jobs.Keys && t'.attempts.Keys == t.attempts.Keys + {key}
            && (forall id :: id in t.jobs && id != job.id ==> t'.jobs[id] == t.jobs[id])
            && (forall k :: k in t.attempts ==> t'.attempts[k] == t.attempts[k])
            && var r, r', e := t.jobs[job.id], t'.jobs[job.id], t'.attempts[key];
            && e.jobId == job.id && e.attemptNumber == job.attemptCount + 1 && e.attemptedAt == now
            && (0 <= ms < 0x8000_0000 ==> e.durationMs == ms)
            && SameFixed(r, r') && r'.destinationUrl == r.destinationUrl
            && r'.lockedAt == None && r'.lockedBy == None && r'.updatedAt == now
            && match outcome
               case Success(code) =>
                 && e.statusCode == Some(code) && e.error == None && !e.willRetry && e.nextAttemptAt == None
                 && Ended(r, r', Succeeded, e.attemptNumber, Some(code), None, now)
               case Retry(status, error, next) =>
                 && e.statusCode == status && e.error == error && e.willRetry && e.nextAttemptAt == Some(next)
                 && Rescheduled(r, r', e.attemptNumber, status, error, next, now)
               case FinalFailure(status, error) =>
                 && e.statusCode == status && e.error == error && !e.willRetry && e.nextAttemptAt == None
                 && Ended(r, r', Failed, e.attemptNumber, status, error, now)
  {
  }

  // ---- enqueues ----

  /** One value is stored as a string, more as an array of strings in order. */
  predicate StandsFor(entry: Value, values: seq<string>) {
    if |values| == 1 then entry == String(values[0])
    else
      && entry.Array? && |entry.items| == |values| > 0
      && forall i :: 0 <= i < |values| ==> entry.items[i] == String(values[i])
  }

  /** The stored headers are exactly those sent, each name in lower case with its
      values in order. */
  ghost predicate StoresHeaders(stored: Value, headers: HeaderMap) {
    stored.Object? && forall key ::
      && (key in stored.fields <==> ValuesOf(headers, key) != [])
      && (key in stored.fields ==> StandsFor(stored.fields[key], ValuesOf(headers, key)))
  }

  lemma TableStores(headers: HeaderMap)
    ensures StoresHeaders(Object(HeaderTable(headers)), headers)
  {
    forall key ensures key in HeaderTable(headers) <==> ValuesOf(headers, key) != [] {
      NamesHaveValues(headers, key);
    }
  }

  /** The event row of an accepted webhook holds what was sent. */
  ghost predicate StoresWebhook(e: EventRow, r: Incoming) {
    && e.rawBody == r.body && StoresHeaders(e.headers, r.headers)
    && HeaderToString(r.headers, "svix-id") == Some(e.sourceSvixId)
    && HeaderToString(r.headers, "svix-timestamp") == Some(e.sourceSvixTimestamp)
    && e.receivedAt == r.receivedAt
    && e.resendEventId == r.event.eventId && e.resendEventType == r.event.eventType
    && e.matchedDestinationCount == |r.destinations|
  }

  lemma EventColumns(t: Tables, r: Incoming, eventRowId: Uuid, ids: seq<Uuid>)
    requires |ids| == |r.destinations| && Enqueue(t, r, eventRowId, ids).Inserted?
    ensures var t' := AfterEnqueue(t, r, eventRowId, ids);
            && t'.attempts == t.attempts
            && eventRowId in t'.events && t'.events[eventRowId].id == eventRowId
            && StoresWebhook(t'.events[eventRowId], r)
            && (forall e :: e in t.events ==> e in t'.events && t'.events[e] == t.events[e])
  {
    TableStores(r.headers);
  }

  /** A job queued for a destination, due at once, until the window ends. */
  predicate QueuedFor(row: JobRow, id: Uuid, eventRowId: Uuid, d: Destination, r: Incoming) {
    && row.id == id && row.eventId == eventRowId
    && row.destinationName == d.name && row.destinationUrl == d.url
    && row.status == Queued && row.attemptCount == 0
    && row.nextAttemptAt == row.createdAt == row.updatedAt == r.receivedAt
    && row.deadlineAt == r.receivedAt + r.windowSecs * 1_000_000
    && row.lockedAt == None && row.lockedBy == None && row.lastAttemptAt == None
    && row.lastStatusCode == None && row.lastError == None && row.completedAt == None
  }

  /** There is such a job for each matched destination; all other rows stay. */
  lemma JobColumns(t: Tables, r: Incoming, eventRowId: Uuid, ids: seq<Uuid>)
    requires |ids| == |r.destinations| && Enqueue(t, r, eventRowId, ids).Inserted?
    ensures var t' := AfterEnqueue(t, r, eventRowId, ids);
            && (forall i :: 0 <= i < |ids| ==>
                  ids[i] in t'.jobs && QueuedFor(t'.jobs[ids[i]], ids[i], eventRowId, r.destinations[i], r))
            && (forall id :: id in t.jobs ==> id in t'.jobs && t'.jobs[id] == t.jobs[id])
            && (forall id :: id in t'.jobs ==> id in t.jobs || id in ids)
  {
    WithJobsRows(t.jobs, r, eventRowId, ids, |ids|);
    assert ids[..|ids|] == ids;
  }

  /** The tables hold a webhook that has just been stored. */
  ghost predicate HoldsWebhook(t: Tables, r: Incoming, eventRowId: Uuid, ids: seq<Uuid>)
    requires |ids| == |r.destinations|
  {
    && eventRowId in t.events && t.events[eventRowId].id == eventRowId && StoresWebhook(t.events[eventRowId], r)
    && forall i :: 0 <= i < |ids| ==>
         ids[i] in t.jobs && QueuedFor(t.jobs[ids[i]], ids[i], eventRowId, r.destinations[i], r)
  }

  lemma EnqueueHolds(t: Tables, r: Incoming, eventRowId: Uuid, ids: seq<Uuid>)
    requires |ids| == |r.destinations| && Enqueue(t, r, eventRowId, ids).Inserted?
    ensures HoldsWebhook(AfterEnqueue(t, r, eventRowId, ids), r, eventRowId, ids)
  {
    EventColumns(t, r, eventRowId, ids);
    JobColumns(t, r, eventRowId, ids);
  }
}
