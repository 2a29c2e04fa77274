/** The three tables (migrations/0001_initial.sql) and what each database
    operation of src/db.rs does to them as one atomic transaction. */
module Schema {
  import opened Wrappers
  import opened Text
  import opened Retry
  import opened Json
  import opened Headers
  import opened Config
  import opened Router

  type WorkerId = string

  datatype Status = Queued | Delivering | Retrying | Succeeded | Failed

  datatype EventRow = EventRow(
    id: Uuid,
    sourceSvixId: string,
    sourceSvixTimestamp: string,
    receivedAt: Time,
    resendEventId: Option<string>,
    resendEventType: Option<string>,
    rawBody: Bytes,
    headers: Value,
    matchedDestinationCount: nat)

  datatype JobRow = JobRow(
    id: Uuid,
    eventId: Uuid,
    destinationName: string,
    destinationUrl: string,
    status: Status,
    attemptCount: int,
    nextAttemptAt: Time,
    deadlineAt: Time,
    lockedAt: Option<Time>,
    lockedBy: Option<WorkerId>,
    lastAttemptAt: Option<Time>,
    lastStatusCode: Option<int>,
    lastError: Option<string>,
    completedAt: Option<Time>,
    createdAt: Time,
    updatedAt: Time)

  datatype AttemptRow = AttemptRow(
    jobId: Uuid,
    attemptNumber: int,
    attemptedAt: Time,
    statusCode: Option<int>,
    error: Option<string>,
    durationMs: int,
    willRetry: bool,
    nextAttemptAt: Option<Time>)

  /** The columns of UNIQUE (job_id, attempt_number). */
  datatype AttemptKey = AttemptKey(jobId: Uuid, attemptNumber: int)

  datatype Tables = Tables(
    events: map<Uuid, EventRow>,
    jobs: map<Uuid, JobRow>,
    attempts: map<AttemptKey, AttemptRow>)

  /** The snapshot a claim returns. */
  datatype ClaimedJob = ClaimedJob(
    id: Uuid,
    eventId: Uuid,
    destinationName: string,
    destinationUrl: string,
    attemptCount: int,
    deadlineAt: Time,
    lockedBy: WorkerId,
    rawBody: Bytes,
    headers: Value)

  predicate Terminal(status: Status) {
    status == Succeeded || status == Failed
  }

  predicate Is2xx(code: Option<int>) {
    code.Some? && 200 <= code.value < 300
  }

  // ---- claiming ----

  /** The WHERE clause of the claim. */
  predicate Due(r: JobRow, now: Time, stale: Time) {
    || ((r.status == Queued || r.status == Retrying) && r.nextAttemptAt <= now)
    || (r.status == Delivering && r.lockedAt.Some? && r.lockedAt.value < now - stale)
  }

  /** What ORDER BY next_attempt_at LIMIT with SKIP LOCKED may pick: due rows
      outside `skipped`, earliest first, and fewer than the limit only when
      nothing else is left. */
  predicate LegalPick(t: Tables, limit: int, stale: Time, now: Time, skipped: set<Uuid>, picked: set<Uuid>) {
    && picked <= t.jobs.Keys
    && picked !! skipped
    && |picked| <= limit
    && (forall id :: id in picked ==> Due(t.jobs[id], now, stale))
    && (forall id :: id in t.jobs && id !in picked && id !in skipped && Due(t.jobs[id], now, stale) ==>
          && |picked| == limit
          && forall p :: p in picked ==> t.jobs[p].nextAttemptAt <= t.jobs[id].nextAttemptAt)
  }

  function Locked(r: JobRow, w: WorkerId, now: Time): JobRow {
    r.(status := Delivering, lockedAt := Some(now), lockedBy := Some(w), updatedAt := now)
  }

  function LockRows(t: Tables, picked: set<Uuid>, w: WorkerId, now: Time): Tables {
    t.(jobs := map id | id in t.jobs :: if id in picked then Locked(t.jobs[id], w, now) else t.jobs[id])
  }

  predicate ForeignKeys(t: Tables) {
    && (forall id :: id in t.jobs ==> t.jobs[id].eventId in t.events)
    && (forall k :: k in t.attempts ==> k.jobId in t.jobs)
  }

  function Snapshot(t: Tables, id: Uuid, w: WorkerId): ClaimedJob
    requires id in t.jobs && t.jobs[id].eventId in t.events
  {
    var r := t.jobs[id];
    var e := t.events[r.eventId];
    ClaimedJob(id, r.eventId, r.destinationName, r.destinationUrl, r.attemptCount, r.deadlineAt, w, e.rawBody, e.headers)
  }

  // ---- the fence ----

  /** `locked_by = me AND status = 'delivering'`. */
  predicate Holds(t: Tables, job: ClaimedJob) {
    && job.id in t.jobs
    && t.jobs[job.id].lockedBy == Some(job.lockedBy)
    && t.jobs[job.id].status == Delivering
  }

  function RefreshUrl(t: Tables, job: ClaimedJob, url: string, now: Time): Tables {
    if Holds(t, job) then
      t.(jobs := t.jobs[job.id := t.jobs[job.id].(destinationUrl := url, updatedAt := now)])
    else t
  }

  // ---- recording outcomes ----

  datatype Outcome =
    | Success(code: int)
    | Retry(status: Option<int>, error: Option<string>, next: Time)
    | FinalFailure(status: Option<int>, error: Option<string>)

  /** `Recorded` commits; `LockLost` rolls back after zero updated rows;
      `Rejected` is a constraint violation. */
  datatype RecordResult = Recorded | LockLost | Rejected

  /** `duration_ms as i32`. */
  function WrapI32(x: int): int {
    (x + 0x8000_0000) % 0x1_0000_0000 - 0x8000_0000
  }

  function AttemptOf(job: ClaimedJob, outcome: Outcome, durationMs: int, now: Time): AttemptRow {
    var number := job.attemptCount + 1;
    var ms := WrapI32(durationMs);
    match outcome
    case Success(code) => AttemptRow(job.id, number, now, Some(code), None, ms, false, None)
    case Retry(status, error, next) => AttemptRow(job.id, number, now, status, error, ms, true, Some(next))
    case FinalFailure(status, error) => AttemptRow(job.id, number, now, status, error, ms, false, None)
  }

  /** The constraints of `delivery_attempts`: foreign key, UNIQUE and CHECKs. */
  predicate AttemptAccepted(t: Tables, a: AttemptRow) {
    && a.jobId in t.jobs
    && AttemptKey(a.jobId, a.attemptNumber) !in t.attempts
    && a.attemptNumber > 0
    && a.durationMs >= 0
  }

  function WithAttempt(t: Tables, a: AttemptRow): Tables {
    t.(attempts := t.attempts[AttemptKey(a.jobId, a.attemptNumber) := a])
  }

  function Finished(r: JobRow, outcome: Outcome, number: int, now: Time): JobRow {
    match outcome
    case Success(code) =>
      r.(status := Succeeded, attemptCount := number, lastAttemptAt := Some(now), lastStatusCode := Some(code),
         lastError := None, completedAt := Some(now), lockedAt := None, lockedBy := None, updatedAt := now)
    case Retry(status, error, next) =>
      r.(status := Retrying, attemptCount := number, nextAttemptAt := next, lastAttemptAt := Some(now),
         lastStatusCode := status, lastError := error, lockedAt := None, lockedBy := None, updatedAt := now)
    case FinalFailure(status, error) =>
      r.(status := Failed, attemptCount := number, lastAttemptAt := Some(now), lastStatusCode := status,
         lastError := error, completedAt := Some(now), lockedAt := None, lockedBy := None, updatedAt := now)
  }

  function RecordOutcome(t: Tables, job: ClaimedJob, outcome: Outcome, durationMs: int, now: Time): RecordResult {
    if !AttemptAccepted(t, AttemptOf(job, outcome, durationMs, now)) then Rejected
    else if !Holds(t, job) then LockLost
    else Recorded
  }

  /** Insert the attempt, then update the row if the fence still holds; undo both otherwise. */
  function AfterRecord(t: Tables, job: ClaimedJob, outcome: Outcome, durationMs: int, now: Time): Tables {
    if RecordOutcome(t, job, outcome, durationMs, now) == Recorded then
      WithAttempt(t, AttemptOf(job, outcome, durationMs, now))
        .(jobs := t.jobs[job.id := Finished(t.jobs[job.id], outcome, job.attemptCount + 1, now)])
    else t
  }

  // ---- enqueueing ----

  datatype Incoming = Incoming(
    headers: HeaderMap,
    body: Bytes,
    event: RoutingEvent,
    destinations: seq<Destination>,
    receivedAt: Time,
    windowSecs: nat)
  {
    function DeadlineAt(): Time {
      receivedAt + windowSecs * SECOND
    }
  }

  datatype EnqueueResult = Inserted(eventRowId: Uuid) | Duplicate | BadRequest | Refused

  predicate SvixIdKnown(t: Tables, svixId: string) {
    exists e :: e in t.events && t.events[e].sourceSvixId == svixId
  }

  function NewEvent(r: Incoming, eventRowId: Uuid, svixId: string, svixTimestamp: string): EventRow {
    EventRow(eventRowId, svixId, svixTimestamp, r.receivedAt, r.event.eventId, r.event.eventType,
             r.body, Object(HeaderTable(r.headers)), |r.destinations|)
  }

  function NewJob(id: Uuid, eventRowId: Uuid, d: Destination, now: Time, deadlineAt: Time): JobRow {
    JobRow(id, eventRowId, d.name, d.url, Queued, 0, now, deadlineAt, None, None, None, None, None, None, now, now)
  }

  function SetOf(ids: seq<Uuid>): set<Uuid> {
    set id | id in ids
  }

  predicate Distinct(ids: seq<Uuid>) {
    forall i, j :: 0 <= i < j < |ids| ==> ids[i] != ids[j]
  }

  lemma {:induction false} SubsetSize<T>(a: set<T>, b: set<T>)
    requires a <= b
    ensures |a| <= |b|
  {
    assert b == a + (b - a);
    assert |b| == |a| + |b - a|;
  }

  lemma {:induction false} DistinctSize(ids: seq<Uuid>)
    requires Distinct(ids)
    ensures |SetOf(ids)| == |ids|
  {
    if ids == [] {
      assert SetOf(ids) == {};
    } else {
      var front, last := ids[..|ids| - 1], ids[|ids| - 1];
      DistinctSize(front);
      assert ids == front + [last];
      assert SetOf(ids) == SetOf(front) + {last} && last !in SetOf(front);
    }
  }

  /** New ids must be distinct and unused, or the primary key rejects them. */
  predicate FreshIds(t: Tables, ids: seq<Uuid>) {
    && Distinct(ids)
    && (forall i :: 0 <= i < |ids| ==> ids[i] !in t.jobs)
  }

  /** The jobs of the first `n` destinations, added one by one. */
  function WithJobs(jobs: map<Uuid, JobRow>, r: Incoming, eventRowId: Uuid, ids: seq<Uuid>, n: nat): map<Uuid, JobRow>
    requires n <= |ids| == |r.destinations|
  {
    if n == 0 then jobs
    else WithJobs(jobs, r, eventRowId, ids, n - 1)
         [ids[n - 1] := NewJob(ids[n - 1], eventRowId, r.destinations[n - 1], r.receivedAt, r.DeadlineAt())]
  }

  function Enqueue(t: Tables, r: Incoming, eventRowId: Uuid, ids: seq<Uuid>): EnqueueResult
    requires |ids| == |r.destinations|
  {
    var svixId := HeaderToString(r.headers, "svix-id");
    var svixTimestamp := HeaderToString(r.headers, "svix-timestamp");
    if svixId.None? || svixTimestamp.None? then BadRequest
    else if SvixIdKnown(t, svixId.value) then Duplicate
    else if eventRowId in t.events || !FreshIds(t, ids) then Refused
    else Inserted(eventRowId)
  }

  function AfterEnqueue(t: Tables, r: Incoming, eventRowId: Uuid, ids: seq<Uuid>): Tables
    requires |ids| == |r.destinations|
  {
    if Enqueue(t, r, eventRowId, ids).Inserted? then
      var svixId := HeaderToString(r.headers, "svix-id").value;
      var svixTimestamp := HeaderToString(r.headers, "svix-timestamp").value;
      t.(events := t.events[eventRowId := NewEvent(r, eventRowId, svixId, svixTimestamp)],
         jobs := WithJobs(t.jobs, r, eventRowId, ids, |ids|))
    else t
  }

  lemma {:induction false} WithJobsNew(jobs: map<Uuid, JobRow>, r: Incoming, eventRowId: Uuid, ids: seq<Uuid>, n: nat, i: nat)
    requires i < n <= |ids| == |r.destinations| && Distinct(ids)
    ensures ids[i] in WithJobs(jobs, r, eventRowId, ids, n)
    ensures WithJobs(jobs, r, eventRowId, ids, n)[ids[i]]
            == NewJob(ids[i], eventRowId, r.destinations[i], r.receivedAt, r.DeadlineAt())
  {
    if i < n - 1 {
      WithJobsNew(jobs, r, eventRowId, ids, n - 1, i);
    }
  }

  lemma {:induction false} WithJobsOld(jobs: map<Uuid, JobRow>, r: Incoming, eventRowId: Uuid, ids: seq<Uuid>, n: nat, id: Uuid)
    requires n <= |ids| == |r.destinations| && id !in ids[..n]
    ensures var after := WithJobs(jobs, r, eventRowId, ids, n);
            (id in after <==> id in jobs) && (id in jobs ==> after[id] == jobs[id])
  {
    if n > 0 {
      assert ids[..n] == ids[..n - 1] + [ids[n - 1]];
      WithJobsOld(jobs, r, eventRowId, ids, n - 1, id);
    }
  }

  /** The new rows: the `i`-th id holds the job of the `i`-th destination, all other rows stay. */
  lemma WithJobsRows(jobs: map<Uuid, JobRow>, r: Incoming, eventRowId: Uuid, ids: seq<Uuid>, n: nat)
    requires n <= |ids| == |r.destinations|
    requires Distinct(ids)
    ensures var after := WithJobs(jobs, r, eventRowId, ids, n);
            && (forall i :: 0 <= i < n ==>
                  && ids[i] in after
                  && after[ids[i]] == NewJob(ids[i], eventRowId, r.destinations[i], r.receivedAt, r.DeadlineAt()))
            && (forall id :: id !in ids[..n] ==> (id in after <==> id in jobs) && (id in jobs ==> after[id] == jobs[id]))
  {
    var after := WithJobs(jobs, r, eventRowId, ids, n);
    forall i | 0 <= i < n
      ensures ids[i] in after
      ensures after[ids[i]] == NewJob(ids[i], eventRowId, r.destinations[i], r.receivedAt, r.DeadlineAt())
    {
      WithJobsNew(jobs, r, eventRowId, ids, n, i);
    }
    forall id | id !in ids[..n] ensures (id in after <==> id in jobs) && (id in jobs ==> after[id] == jobs[id]) {
      WithJobsOld(jobs, r, eventRowId, ids, n, id);
    }
  }
}
