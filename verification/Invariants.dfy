/** What every reachable state satisfies, and the proof that every step keeps it. */
module Invariants {
  import opened Wrappers
  import opened Text
  import opened Retry
  import opened Config
  import opened Schema
  import opened Machine

  // ---- the database ----

  /** The earliest time at which attempt `n + 1` of a job can be due. */
  function Paced(createdAt: Time, n: int): Time {
    createdAt + LeastElapsedSecs(n) * SECOND
  }

  /** `delivering` holds exactly when both lock columns are set, and the end is
      dated exactly when there is one; a locked row was due. */
  predicate LocksOk(r: JobRow) {
    && (Terminal(r.status) <==> r.completedAt.Some?)
    && (r.status == Delivering <==> r.lockedAt.Some?)
    && (r.lockedAt.Some? <==> r.lockedBy.Some?)
    && (r.lockedAt.Some? ==> r.nextAttemptAt <= r.lockedAt.value)
  }

  predicate PacingOk(r: JobRow) {
    && r.createdAt <= r.nextAttemptAt <= r.deadlineAt
    && (r.attemptCount == 0 ==> r.nextAttemptAt == r.createdAt)
    && (!Terminal(r.status) ==>
          && Min(r.deadlineAt, Paced(r.createdAt, r.attemptCount)) <= r.nextAttemptAt
          && (r.attemptCount >= 1 ==> Paced(r.createdAt, r.attemptCount - 1) < r.deadlineAt))
    && (Terminal(r.status) ==>
          && r.attemptCount >= 1
          && (r.attemptCount >= 2 ==> Paced(r.createdAt, r.attemptCount - 2) < r.deadlineAt))
  }

  predicate RetryEntryOk(r: JobRow, n: int, e: AttemptRow) {
    && e.willRetry && !Is2xx(e.statusCode) && e.nextAttemptAt.Some?
    && Min(r.deadlineAt, Paced(r.createdAt, n)) <= e.nextAttemptAt.value <= r.deadlineAt
    && (n == r.attemptCount ==> e.nextAttemptAt.value == r.nextAttemptAt)
  }

  predicate FinalEntryOk(r: JobRow, e: AttemptRow) {
    && !e.willRetry && e.nextAttemptAt.None?
    && (r.status == Succeeded <==> Is2xx(e.statusCode))
    && r.completedAt == Some(e.attemptedAt)
    && (r.status == Failed ==> r.deadlineAt <= e.attemptedAt)
  }

  predicate EntryOk(r: JobRow, n: int, e: AttemptRow) {
    && e.jobId == r.id && e.attemptNumber == n
    && if n == r.attemptCount && Terminal(r.status) then FinalEntryOk(r, e) else RetryEntryOk(r, n, e)
  }

  /** A job's attempts are exactly those numbered 1 to `attempt_count`: retries
      first, and one last entry that is final exactly when the job is. */
  ghost predicate LedgerOk(attempts: map<AttemptKey, AttemptRow>, r: JobRow) {
    forall n :: 1 <= n <= r.attemptCount ==>
      AttemptKey(r.id, n) in attempts && EntryOk(r, n, attempts[AttemptKey(r.id, n)])
  }

  ghost predicate RowOk(attempts: map<AttemptKey, AttemptRow>, id: Uuid, r: JobRow) {
    && r.id == id
    && 0 <= r.attemptCount
    && (r.status == Queued ==> r.attemptCount == 0)
    && LocksOk(r)
    && PacingOk(r)
    && LedgerOk(attempts, r)
  }

  ghost predicate TablesOk(t: Tables) {
    && ForeignKeys(t)
    && (forall id :: id in t.jobs ==> RowOk(t.attempts, id, t.jobs[id]))
    && (forall k :: k in t.attempts ==> 1 <= k.attemptNumber <= t.jobs[k.jobId].attemptCount)
  }

  // ---- tasks ----

  predicate PhaseOk(now: Time, createdAt: Time, task: Task) {
    var deadline := task.job.deadlineAt;
    var count := task.job.attemptCount;
    match task.phase
    case Spawned => true
    case Cleared => task.claimedAt < deadline
    case Addressed(_) => task.claimedAt < deadline
    case Sending(_, startedAt) => task.claimedAt < deadline && task.claimedAt <= startedAt <= now
    case Answered(status, _, _) => task.claimedAt < deadline && !Is2xx(status)
    case Recording(outcome, _, decidedAt) =>
      && task.claimedAt <= decidedAt <= now
      && match outcome
         case Success(code) => 200 <= code < 300
         case Retry(status, _, next) =>
           && !Is2xx(status)
           && decidedAt < next <= deadline
           && Paced(createdAt, count) < deadline
           && Min(deadline, Paced(createdAt, count + 1)) <= next
           && Min(deadline, task.claimedAt + LeastDelaySecs(count + 1) * SECOND) <= next
         case FinalFailure(status, _) => !Is2xx(status) && deadline <= decidedAt
  }

  /** The fence: a task that would pass `locked_by = me AND status = 'delivering'`
      has an up-to-date snapshot. */
  predicate FenceOk(r: JobRow, w: WorkerId, task: Task) {
    r.status == Delivering && r.lockedBy == Some(w) ==>
      r.attemptCount == task.job.attemptCount && r.lockedAt == Some(task.claimedAt)
  }

  /** The attempt a task makes was scheduled for no later than its claim. */
  predicate ScheduleOk(t: Tables, r: JobRow, task: Task) {
    var count := task.job.attemptCount;
    && r.createdAt <= task.claimedAt
    && (Paced(r.createdAt, count) <= task.claimedAt || r.deadlineAt <= task.claimedAt)
    && (count >= 1 ==>
          && AttemptKey(r.id, count) in t.attempts
          && var e := t.attempts[AttemptKey(r.id, count)];
             e.nextAttemptAt.Some? && e.nextAttemptAt.value <= task.claimedAt)
  }

  predicate TaskOk(now: Time, t: Tables, w: WorkerId, id: Uuid, task: Task) {
    && id in t.jobs && t.jobs[id].id == id
    && var r := t.jobs[id];
    && task.job.id == id && task.job.lockedBy == w
    && task.job.eventId == r.eventId && task.job.destinationName == r.destinationName
    && task.job.deadlineAt == r.deadlineAt
    && r.eventId in t.events && task.job.rawBody == t.events[r.eventId].rawBody
    && 0 <= task.job.attemptCount <= r.attemptCount
    && task.claimedAt <= now
    && ScheduleOk(t, r, task)
    && FenceOk(r, w, task)
    && PhaseOk(now, r.createdAt, task)
  }

  ghost predicate TasksOk(s: Sys) {
    forall w, id :: HasTask(s, w, id) ==> TaskOk(s.now, s.db, w, id, TaskOf(s, w, id))
  }

  ghost predicate Inv(s: Sys) {
    && TablesOk(s.db)
    && TasksOk(s)
    && (forall r :: r in s.requests ==> s.requests[r].receivedAt <= s.now)
  }

  // ---- how the database may change under a task ----

  predicate SameJob(r: JobRow, r': JobRow) {
    && r'.id == r.id && r'.eventId == r.eventId && r'.destinationName == r.destinationName
    && r'.deadlineAt == r.deadlineAt && r'.createdAt == r.createdAt
    && r.attemptCount <= r'.attemptCount
  }

  /** The only way to hold a lock afterwards is to have held it before, at the same count. */
  predicate NoNewLock(r: JobRow, r': JobRow, w: WorkerId) {
    r'.status == Delivering && r'.lockedBy == Some(w) ==>
      r.status == Delivering && r.lockedBy == Some(w) && r.attemptCount == r'.attemptCount && r.lockedAt == r'.lockedAt
  }

  ghost predicate Grows(t: Tables, t': Tables) {
    && (forall e :: e in t.events ==> e in t'.events && t'.events[e] == t.events[e])
    && (forall k :: k in t.attempts ==> k in t'.attempts && t'.attempts[k] == t.attempts[k])
    && (forall id :: id in t.jobs ==> id in t'.jobs && SameJob(t.jobs[id], t'.jobs[id]))
  }

  ghost predicate KeepsFence(t: Tables, t': Tables, w: WorkerId) {
    forall id :: id in t.jobs && id in t'.jobs ==> NoNewLock(t.jobs[id], t'.jobs[id], w)
  }

  lemma TaskOkKept(now: Time, t: Tables, now': Time, t': Tables, w: WorkerId, id: Uuid, task: Task)
    requires TaskOk(now, t, w, id, task)
    requires now <= now' && Grows(t, t') && KeepsFence(t, t', w)
    ensures TaskOk(now', t', w, id, task)
  {
  }

  // ---- database operations keep the tables in order ----

  /** The columns a ledger depends on. */
  predicate SameLedgerColumns(r: JobRow, r': JobRow) {
    && r'.id == r.id && r'.attemptCount == r.attemptCount
    && r'.createdAt == r.createdAt && r'.deadlineAt == r.deadlineAt && r'.nextAttemptAt == r.nextAttemptAt
    && !Terminal(r.status) && !Terminal(r'.status)
  }

  lemma LedgerFrame(attempts: map<AttemptKey, AttemptRow>, attempts': map<AttemptKey, AttemptRow>, r: JobRow, r': JobRow)
    requires LedgerOk(attempts, r)
    requires r' == r || SameLedgerColumns(r, r')
    requires forall n :: AttemptKey(r.id, n) in attempts ==>
               AttemptKey(r.id, n) in attempts' && attempts'[AttemptKey(r.id, n)] == attempts[AttemptKey(r.id, n)]
    ensures LedgerOk(attempts', r')
  {
    forall n | 1 <= n <= r'.attemptCount
      ensures AttemptKey(r'.id, n) in attempts' && EntryOk(r', n, attempts'[AttemptKey(r'.id, n)])
    {
      assert EntryOk(r, n, attempts[AttemptKey(r.id, n)]);
    }
  }

  lemma LockedRowOk(attempts: map<AttemptKey, AttemptRow>, id: Uuid, r: JobRow, w: WorkerId, now: Time, stale: Time)
    requires RowOk(attempts, id, r) && Due(r, now, stale) && 0 <= stale
    ensures RowOk(attempts, id, Locked(r, w, now))
  {
    LedgerFrame(attempts, attempts, r, Locked(r, w, now));
  }

  lemma LockRowsOk(t: Tables, picked: set<Uuid>, w: WorkerId, now: Time, stale: Time)
    requires TablesOk(t) && picked <= t.jobs.Keys && 0 <= stale
    requires forall id :: id in picked ==> Due(t.jobs[id], now, stale)
    ensures TablesOk(LockRows(t, picked, w, now))
  {
    var t' := LockRows(t, picked, w, now);
    forall id | id in t'.jobs ensures RowOk(t'.attempts, id, t'.jobs[id]) {
      assert RowOk(t.attempts, id, t.jobs[id]);
      if id in picked {
        LockedRowOk(t.attempts, id, t.jobs[id], w, now, stale);
      }
    }
  }

  lemma LockRowsGrows(t: Tables, picked: set<Uuid>, w: WorkerId, now: Time)
    ensures Grows(t, LockRows(t, picked, w, now))
    ensures forall other :: other != w ==> KeepsFence(t, LockRows(t, picked, w, now), other)
  {
  }

  lemma RefreshUrlOk(t: Tables, job: ClaimedJob, url: string, now: Time)
    requires TablesOk(t)
    ensures TablesOk(RefreshUrl(t, job, url, now))
  {
    if Holds(t, job) {
      var t' := RefreshUrl(t, job, url, now);
      forall id | id in t'.jobs ensures RowOk(t'.attempts, id, t'.jobs[id]) {
        assert RowOk(t.attempts, id, t.jobs[id]);
        LedgerFrame(t.attempts, t'.attempts, t.jobs[id], t'.jobs[id]);
      }
    }
  }

  lemma RefreshUrlGrows(t: Tables, job: ClaimedJob, url: string, now: Time)
    ensures Grows(t, RefreshUrl(t, job, url, now))
    ensures forall w :: KeepsFence(t, RefreshUrl(t, job, url, now), w)
  {
  }

  /** What a task knows about its outcome when it comes to record it. */
  predicate Justified(r: JobRow, outcome: Outcome, now: Time) {
    match outcome
    case Success(code) => 200 <= code < 300
    case Retry(status, _, next) =>
      && !Is2xx(status)
      && r.createdAt <= next <= r.deadlineAt
      && Paced(r.createdAt, r.attemptCount) < r.deadlineAt
      && Min(r.deadlineAt, Paced(r.createdAt, r.attemptCount + 1)) <= next
    case FinalFailure(status, _) => !Is2xx(status) && r.deadlineAt <= now
  }

  lemma FinishedRowOk(t: Tables, job: ClaimedJob, outcome: Outcome, ms: int, now: Time)
    requires job.id in t.jobs && RowOk(t.attempts, job.id, t.jobs[job.id])
    requires t.jobs[job.id].status == Delivering && job.attemptCount == t.jobs[job.id].attemptCount
    requires Justified(t.jobs[job.id], outcome, now)
    ensures RowOk(WithAttempt(t, AttemptOf(job, outcome, ms, now)).attempts, job.id,
                  Finished(t.jobs[job.id], outcome, job.attemptCount + 1, now))
  {
    var r := t.jobs[job.id];
    var a := AttemptOf(job, outcome, ms, now);
    var r' := Finished(r, outcome, r.attemptCount + 1, now);
    var attempts' := WithAttempt(t, a).attempts;
    forall n | 1 <= n <= r'.attemptCount
      ensures AttemptKey(r.id, n) in attempts' && EntryOk(r', n, attempts'[AttemptKey(r.id, n)])
    {
      if n <= r.attemptCount {
        assert EntryOk(r, n, t.attempts[AttemptKey(r.id, n)]);
      }
    }
  }

  /** Adding the next attempt of one job, together with its updated row. */
  lemma OneRowRecorded(t: Tables, id: Uuid, a: AttemptRow, r': JobRow)
    requires TablesOk(t) && id in t.jobs
    requires a.jobId == id && a.attemptNumber == t.jobs[id].attemptCount + 1 == r'.attemptCount
    requires r'.eventId == t.jobs[id].eventId
    requires RowOk(WithAttempt(t, a).attempts, id, r')
    ensures TablesOk(WithAttempt(t, a).(jobs := t.jobs[id := r']))
  {
    var t' := WithAttempt(t, a).(jobs := t.jobs[id := r']);
    assert RowOk(t.attempts, id, t.jobs[id]);
    forall j | j in t'.jobs ensures RowOk(t'.attempts, j, t'.jobs[j]) {
      if j != id {
        OtherRowKept(t, a, j);
      }
    }
    forall k | k in t'.attempts ensures 1 <= k.attemptNumber <= t'.jobs[k.jobId].attemptCount {
    }
  }

  lemma OtherRowKept(t: Tables, a: AttemptRow, j: Uuid)
    requires j in t.jobs && RowOk(t.attempts, j, t.jobs[j]) && a.jobId != j
    ensures RowOk(WithAttempt(t, a).attempts, j, t.jobs[j])
  {
    LedgerFrame(t.attempts, WithAttempt(t, a).attempts, t.jobs[j], t.jobs[j]);
  }

  lemma RecordOk(t: Tables, job: ClaimedJob, outcome: Outcome, ms: int, now: Time)
    requires TablesOk(t)
    requires Holds(t, job) ==>
               t.jobs[job.id].attemptCount == job.attemptCount && Justified(t.jobs[job.id], outcome, now)
    ensures TablesOk(AfterRecord(t, job, outcome, ms, now))
  {
    if RecordOutcome(t, job, outcome, ms, now) == Recorded {
      RecordedOk(t, job, outcome, ms, now);
    }
  }

  lemma RecordedOk(t: Tables, job: ClaimedJob, outcome: Outcome, ms: int, now: Time)
    requires TablesOk(t) && Holds(t, job)
    requires t.jobs[job.id].attemptCount == job.attemptCount && Justified(t.jobs[job.id], outcome, now)
    ensures TablesOk(WithAttempt(t, AttemptOf(job, outcome, ms, now))
              .(jobs := t.jobs[job.id := Finished(t.jobs[job.id], outcome, job.attemptCount + 1, now)]))
  {
    var a := AttemptOf(job, outcome, ms, now);
    var r' := Finished(t.jobs[job.id], outcome, job.attemptCount + 1, now);
    FinishedRowOk(t, job, outcome, ms, now);
    assert a.jobId == job.id && a.attemptNumber == job.attemptCount + 1;
    assert r'.attemptCount == job.attemptCount + 1 && r'.eventId == t.jobs[job.id].eventId;
    OneRowRecorded(t, job.id, a, r');
  }

  lemma RecordGrows(t: Tables, job: ClaimedJob, outcome: Outcome, ms: int, now: Time)
    requires Holds(t, job) ==> t.jobs[job.id].attemptCount == job.attemptCount
    ensures Grows(t, AfterRecord(t, job, outcome, ms, now))
    ensures forall w :: KeepsFence(t, AfterRecord(t, job, outcome, ms, now), w)
  {
  }

  lemma NewJobOk(attempts: map<AttemptKey, AttemptRow>, id: Uuid, eventRowId: Uuid, d: Destination, now: Time, deadline: Time)
    requires now <= deadline
    ensures var r := NewJob(id, eventRowId, d, now, deadline); LocksOk(r) && PacingOk(r) && LedgerOk(attempts, r)
  {
  }

  lemma EnqueueOk(t: Tables, r: Incoming, eventRowId: Uuid, ids: seq<Uuid>)
    requires TablesOk(t) && |ids| == |r.destinations|
    ensures TablesOk(AfterEnqueue(t, r, eventRowId, ids))
  {
    if Enqueue(t, r, eventRowId, ids).Inserted? {
      var t' := AfterEnqueue(t, r, eventRowId, ids);
      WithJobsRows(t.jobs, r, eventRowId, ids, |ids|);
      assert ids[..|ids|] == ids;
      assert forall id :: id in t.jobs ==> id in t'.jobs && t'.jobs[id] == t.jobs[id];
      forall id | id in t'.jobs ensures RowOk(t'.attempts, id, t'.jobs[id]) && t'.jobs[id].eventId in t'.events {
        if id in t.jobs {
          assert RowOk(t.attempts, id, t.jobs[id]);
        } else {
          assert id in ids;
          var i :| 0 <= i < |ids| && ids[i] == id;
          NewJobOk(t'.attempts, id, eventRowId, r.destinations[i], r.receivedAt, r.DeadlineAt());
        }
      }
    }
  }

  lemma EnqueueGrows(t: Tables, r: Incoming, eventRowId: Uuid, ids: seq<Uuid>)
    requires |ids| == |r.destinations|
    ensures var t' := AfterEnqueue(t, r, eventRowId, ids);
            && (forall e :: e in t.events ==> e in t'.events && t'.events[e] == t.events[e])
            && t'.attempts == t.attempts
            && (forall id :: id in t.jobs ==> id in t'.jobs && t'.jobs[id] == t.jobs[id])
  {
    if Enqueue(t, r, eventRowId, ids).Inserted? {
      WithJobsRows(t.jobs, r, eventRowId, ids, |ids|);
      assert ids[..|ids|] == ids;
    }
  }

  // ---- steps keep the invariant ----

  /** A step that changes only the phase of a task, to one it may have. */
  lemma PhaseStep(s: Sys, w: WorkerId, id: Uuid, phase: Phase)
    requires Inv(s) && HasTask(s, w, id)
    requires PhaseOk(s.now, s.db.jobs[id].createdAt, TaskOf(s, w, id).(phase := phase))
    ensures Inv(SetPhase(s, w, id, phase))
  {
    assert TaskOk(s.now, s.db, w, id, TaskOf(s, w, id));
    var s' := SetPhase(s, w, id, phase);
    forall v, j | HasTask(s', v, j) ensures TaskOk(s'.now, s'.db, v, j, TaskOf(s', v, j)) {
      assert HasTask(s, v, j);
    }
  }

  lemma DropStep(s: Sys, w: WorkerId, id: Uuid)
    requires Inv(s) && HasTask(s, w, id)
    ensures Inv(DropTask(s, w, id))
  {
    var s' := DropTask(s, w, id);
    forall v, j | HasTask(s', v, j) ensures TaskOk(s'.now, s'.db, v, j, TaskOf(s', v, j)) {
      assert HasTask(s, v, j);
    }
  }

  /** A claim: the rows change hands, and the claiming worker, which had no
      task, gets one for each of them. */
  lemma ClaimStep(s: Sys, w: WorkerId, skipped: set<Uuid>, picked: set<Uuid>, s': Sys)
    requires Inv(s) && MayClaim(s, w, skipped, picked)
    requires 0 <= Stale(s.workers[w].cfg)
    requires s' == SetTasks(s, w, NewTasks(s.db, picked, w, s.now)).(db := LockRows(s.db, picked, w, s.now))
          || s' == s.(db := LockRows(s.db, picked, w, s.now))
    ensures Inv(s')
  {
    LockRowsOk(s.db, picked, w, s.now, Stale(s.workers[w].cfg));
    LockRowsGrows(s.db, picked, w, s.now);
    forall v, j | HasTask(s', v, j) ensures TaskOk(s'.now, s'.db, v, j, TaskOf(s', v, j)) {
      if v != w {
        assert HasTask(s, v, j);
        TaskOkKept(s.now, s.db, s'.now, s'.db, v, j, TaskOf(s, v, j));
      } else {
        assert j in picked;
        NewTaskOk(s.db, picked, w, s.now, Stale(s.workers[w].cfg), j);
      }
    }
  }

  lemma NewTaskOk(t: Tables, picked: set<Uuid>, w: WorkerId, now: Time, stale: Time, id: Uuid)
    requires TablesOk(t) && picked <= t.jobs.Keys && id in picked && 0 <= stale && Due(t.jobs[id], now, stale)
    ensures TaskOk(now, LockRows(t, picked, w, now), w, id, Task(Snapshot(t, id, w), now, Spawned))
  {
    assert RowOk(t.attempts, id, t.jobs[id]);
    var r := t.jobs[id];
    if r.attemptCount >= 1 {
      assert EntryOk(r, r.attemptCount, t.attempts[AttemptKey(r.id, r.attemptCount)]);
    }
    assert LeastElapsedSecs(0) == 0;
  }

  /** `record_failure` decides within its bounds: a rescheduled attempt keeps the
      pace, and a final failure is decided at or after the deadline. */
  lemma DecisionOk(now: Time, createdAt: Time, task: Task, random: int)
    requires task.phase.Answered? && PhaseOk(now, createdAt, task) && task.claimedAt <= now
    requires 0 <= task.job.attemptCount
    requires Paced(createdAt, task.job.attemptCount) <= task.claimedAt || task.job.deadlineAt <= task.claimedAt
    requires 0 <= random <= 2 * JitterWindow(task.job.attemptCount + 1)
    ensures PhaseOk(now, createdAt, task.(phase :=
              AfterDecision(task.job, task.phase.status, task.phase.error, task.phase.durationMs, now, random)))
  {
  }

  lemma DecideStep(s: Sys, w: WorkerId, id: Uuid, random: int)
    requires Inv(s) && Enabled(s, Decide(w, id, random))
    ensures Inv(Apply(s, Decide(w, id, random)))
  {
    var task := TaskOf(s, w, id);
    assert TaskOk(s.now, s.db, w, id, task);
    DecisionOk(s.now, s.db.jobs[id].createdAt, task, random);
    PhaseStep(s, w, id,
              AfterDecision(task.job, task.phase.status, task.phase.error, task.phase.durationMs, s.now, random));
  }

  lemma RefreshStep(s: Sys, w: WorkerId, id: Uuid)
    requires Inv(s) && Enabled(s, Refresh(w, id))
    ensures Inv(Apply(s, Refresh(w, id)))
  {
    var task := TaskOf(s, w, id);
    assert TaskOk(s.now, s.db, w, id, task);
    var url := ResolveDestinationUrl(s.workers[w].cfg, task.job).url;
    if !NeedsRefresh(s.workers[w].cfg, task.job) {
      PhaseStep(s, w, id, Addressed(url));
    } else if Holds(s.db, task.job) {
      var between := s.(db := RefreshUrl(s.db, task.job, url, s.now));
      RefreshUrlOk(s.db, task.job, url, s.now);
      RefreshUrlGrows(s.db, task.job, url, s.now);
      OtherStep(s, between);
      PhaseStep(between, w, id, Addressed(url));
    } else {
      DropStep(s, w, id);
    }
  }

  lemma CommitJustified(s: Sys, w: WorkerId, id: Uuid, at: Time)
    requires Inv(s) && Enabled(s, Commit(w, id, at))
    ensures var task := TaskOf(s, w, id);
            Holds(s.db, task.job) ==>
              s.db.jobs[id].attemptCount == task.job.attemptCount
              && Justified(s.db.jobs[id], task.phase.outcome, at)
  {
    assert TaskOk(s.now, s.db, w, id, TaskOf(s, w, id));
    assert RowOk(s.db.attempts, id, s.db.jobs[id]);
  }

  lemma CommitStep(s: Sys, w: WorkerId, id: Uuid, at: Time)
    requires Inv(s) && Enabled(s, Commit(w, id, at))
    ensures Inv(Apply(s, Commit(w, id, at)))
  {
    var task := TaskOf(s, w, id);
    assert TaskOk(s.now, s.db, w, id, task);
    CommitJustified(s, w, id, at);
    RecordOk(s.db, task.job, task.phase.outcome, task.phase.durationMs, at);
    RecordGrows(s.db, task.job, task.phase.outcome, task.phase.durationMs, at);
    var between := s.(db := AfterRecord(s.db, task.job, task.phase.outcome, task.phase.durationMs, at));
    OtherStep(s, between);
    DropStep(between, w, id);
  }

  /** A step that touches no existing task and grows the database. */
  lemma OtherStep(s: Sys, s': Sys)
    requires Inv(s) && TablesOk(s'.db) && s.now <= s'.now
    requires Grows(s.db, s'.db) && forall v :: KeepsFence(s.db, s'.db, v)
    requires forall v, j :: HasTask(s', v, j) ==> HasTask(s, v, j) && TaskOf(s', v, j) == TaskOf(s, v, j)
    requires forall r :: r in s'.requests ==> s'.requests[r].receivedAt <= s'.now
    ensures Inv(s')
  {
    forall v, j | HasTask(s', v, j) ensures TaskOk(s'.now, s'.db, v, j, TaskOf(s', v, j)) {
      TaskOkKept(s.now, s.db, s'.now, s'.db, v, j, TaskOf(s, v, j));
    }
  }

  /** Every worker's configuration passed validation. */
  ghost predicate ConfigsOk(s: Sys) {
    forall w :: w in s.workers ==> ValidSettings(s.workers[w].cfg)
  }

  predicate SameSettings(s: Sys, s': Sys, w: WorkerId)
    requires w in s'.workers
  {
    w in s.workers && s'.workers[w].cfg == s.workers[w].cfg
  }

  lemma SettingsOrigin(s: Sys, a: Action, w: WorkerId)
    requires Enabled(s, a) && w in Apply(s, a).workers
    ensures SameSettings(s, Apply(s, a), w) || (a.StartWorker? && a.w == w && Apply(s, a).workers[w].cfg == a.cfg)
  {
    if TaskAction(a) {
      TaskActionSettings(s, a);
    }
  }

  lemma TaskActionSettings(s: Sys, a: Action)
    requires Enabled(s, a) && TaskAction(a)
    ensures Apply(s, a).workers.Keys == s.workers.Keys
    ensures forall w :: w in s.workers ==> Apply(s, a).workers[w].cfg == s.workers[w].cfg
  {
    match a
    case Gate(_, _) =>
    case Refresh(_, _) =>
    case BeginPost(_, _) =>
    case EndPost(_, _, _, _) =>
    case Decide(_, _, _) =>
    case Commit(_, _, _) =>
    case Vanish(_, _) =>
  }

  lemma ConfigsStep(s: Sys, a: Action)
    requires ConfigsOk(s) && Enabled(s, a)
    ensures ConfigsOk(Apply(s, a))
  {
    forall w | w in Apply(s, a).workers ensures ValidSettings(Apply(s, a).workers[w].cfg) {
      SettingsOrigin(s, a, w);
    }
  }

  lemma GateStep(s: Sys, w: WorkerId, id: Uuid)
    requires Inv(s) && Enabled(s, Gate(w, id))
    ensures Inv(Apply(s, Gate(w, id)))
  {
    assert TaskOk(s.now, s.db, w, id, TaskOf(s, w, id));
    PhaseStep(s, w, id, AfterGate(TaskOf(s, w, id).job, s.now));
  }

  lemma BeginPostStep(s: Sys, w: WorkerId, id: Uuid)
    requires Inv(s) && Enabled(s, BeginPost(w, id))
    ensures Inv(Apply(s, BeginPost(w, id)))
  {
    assert TaskOk(s.now, s.db, w, id, TaskOf(s, w, id));
    var sending := Sending(TaskOf(s, w, id).phase.url, s.now);
    PhaseStep(s, w, id, sending);
    OtherStep(SetPhase(s, w, id, sending), Apply(s, BeginPost(w, id)));
  }

  lemma EndPostStep(s: Sys, w: WorkerId, id: Uuid, answer: Answer, ms: nat)
    requires Inv(s) && Enabled(s, EndPost(w, id, answer, ms))
    ensures Inv(Apply(s, EndPost(w, id, answer, ms)))
  {
    assert TaskOk(s.now, s.db, w, id, TaskOf(s, w, id));
    PhaseStep(s, w, id, AfterAnswer(answer, ms, s.now));
  }

  lemma EnqueueStep(s: Sys, r: nat, eventRowId: Uuid, ids: seq<Uuid>)
    requires Inv(s) && Enabled(s, CommitEnqueue(r, eventRowId, ids))
    ensures Inv(Apply(s, CommitEnqueue(r, eventRowId, ids)))
  {
    EnqueueOk(s.db, s.requests[r], eventRowId, ids);
    EnqueueGrows(s.db, s.requests[r], eventRowId, ids);
    OtherStep(s, Apply(s, CommitEnqueue(r, eventRowId, ids)));
  }

  predicate TaskAction(a: Action) {
    a.Gate? || a.Refresh? || a.BeginPost? || a.EndPost? || a.Decide? || a.Commit? || a.Vanish?
  }

  lemma TaskStep(s: Sys, a: Action)
    requires Inv(s) && Enabled(s, a) && TaskAction(a)
    ensures Inv(Apply(s, a))
  {
    match a
    case Gate(w, id) => GateStep(s, w, id);
    case Refresh(w, id) => RefreshStep(s, w, id);
    case BeginPost(w, id) => BeginPostStep(s, w, id);
    case EndPost(w, id, answer, ms) => EndPostStep(s, w, id, answer, ms);
    case Decide(w, id, random) => DecideStep(s, w, id, random);
    case Commit(w, id, at) => CommitStep(s, w, id, at);
    case Vanish(w, id) => DropStep(s, w, id);
  }

  predicate Harmless(a: Action) {
    a.Tick? || a.StartWorker? || a.Stop? || a.Kill? || a.Receive? || a.DropRequest?
  }

  lemma HarmlessStep(s: Sys, a: Action)
    requires Inv(s) && Enabled(s, a) && Harmless(a)
    ensures Inv(Apply(s, a))
  {
    OtherStep(s, Apply(s, a));
  }

  lemma Step(s: Sys, a: Action)
    requires Inv(s) && ConfigsOk(s) && Enabled(s, a)
    ensures Inv(Apply(s, a))
  {
    if TaskAction(a) {
      TaskStep(s, a);
    } else if Harmless(a) {
      HarmlessStep(s, a);
    } else if a.CommitEnqueue? {
      EnqueueStep(s, a.r, a.eventRowId, a.ids);
    } else {
      assert ValidSettings(s.workers[a.w].cfg);
      ClaimStep(s, a.w, a.skipped, a.picked, Apply(s, a));
    }
  }

  /** Every state of every run satisfies the invariant. */
  lemma {:induction false} InvHolds(s: Sys, run: seq<Action>)
    requires Inv(s) && ConfigsOk(s) && Legal(s, run)
    ensures Inv(Run(s, run)) && ConfigsOk(Run(s, run))
    decreases |run|
  {
    if run != [] {
      Step(s, run[0]);
      ConfigsStep(s, run[0]);
      InvHolds(Apply(s, run[0]), run[1..]);
    }
  }

  lemma Reachable(s: Sys)
    requires Reached(s)
    ensures Inv(s) && ConfigsOk(s)
  {
    var start: Time, run: seq<Action> :| Legal(InitSys(start), run) && s == Run(InitSys(start), run);
    InvHolds(InitSys(start), run);
  }

  // ---- what never changes ----

  lemma CommitGrows(s: Sys, w: WorkerId, id: Uuid, at: Time)
    requires Inv(s) && Enabled(s, Commit(w, id, at))
    ensures Grows(s.db, Apply(s, Commit(w, id, at)).db)
  {
    var task := TaskOf(s, w, id);
    CommitJustified(s, w, id, at);
    assert TaskOk(s.now, s.db, w, id, task);
    RecordGrows(s.db, task.job, task.phase.outcome, task.phase.durationMs, at);
  }

  lemma OtherStepGrows(s: Sys, a: Action)
    requires Enabled(s, a) && !a.Commit?
    ensures Grows(s.db, Apply(s, a).db)
  {
    match a
    case Claim(w, _, picked) => LockRowsGrows(s.db, picked, w, s.now);
    case LoseClaim(w, _, picked) => LockRowsGrows(s.db, picked, w, s.now);
    case Refresh(w, id) =>
      var job := TaskOf(s, w, id).job;
      RefreshUrlGrows(s.db, job, ResolveDestinationUrl(s.workers[w].cfg, job).url, s.now);
    case CommitEnqueue(r, eventRowId, ids) => EnqueueGrows(s.db, s.requests[r], eventRowId, ids);
    case _ =>
  }

  lemma OnlyCommitAddsAttempts(s: Sys, a: Action)
    requires Enabled(s, a) && !a.Commit?
    ensures Apply(s, a).db.attempts == s.db.attempts
  {
  }

  lemma WireAndClockGrow(s: Sys, a: Action)
    requires Enabled(s, a)
    ensures s.wire <= Apply(s, a).wire && s.now <= Apply(s, a).now
  {
  }

  /** Every step only adds to the database and the wire; time does not go back. */
  lemma StepGrows(s: Sys, a: Action)
    requires Inv(s) && Enabled(s, a)
    ensures Grows(s.db, Apply(s, a).db)
    ensures s.wire <= Apply(s, a).wire && s.now <= Apply(s, a).now
  {
    WireAndClockGrow(s, a);
    if a.Commit? {
      CommitGrows(s, a.w, a.id, a.at);
    } else {
      OtherStepGrows(s, a);
    }
  }

  lemma GrowsTransitive(t: Tables, u: Tables, v: Tables)
    requires Grows(t, u) && Grows(u, v)
    ensures Grows(t, v)
  {
  }

  lemma {:induction false} RunGrows(s: Sys, run: seq<Action>)
    requires Inv(s) && ConfigsOk(s) && Legal(s, run)
    ensures Grows(s.db, Run(s, run).db)
    ensures s.wire <= Run(s, run).wire && s.now <= Run(s, run).now
    decreases |run|
  {
    if run != [] {
      var mid := Apply(s, run[0]);
      Step(s, run[0]);
      ConfigsStep(s, run[0]);
      StepGrows(s, run[0]);
      RunGrows(mid, run[1..]);
      GrowsTransitive(s.db, mid.db, Run(s, run).db);
    }
  }

  // ---- where tasks come from ----

  predicate SameTask(s: Sys, s': Sys, w: WorkerId, id: Uuid)
    requires HasTask(s', w, id)
  {
    HasTask(s, w, id) && TaskOf(s', w, id) == TaskOf(s, w, id)
  }

  predicate ActsOn(a: Action, w: WorkerId, id: Uuid) {
    TaskAction(a) && a.w == w && a.id == id
  }

  /** Only a task's own actions change its phase, and none changes its snapshot. */
  lemma OwnTaskOrigin(s: Sys, a: Action, w: WorkerId, id: Uuid)
    requires Enabled(s, a) && TaskAction(a) && HasTask(Apply(s, a), w, id)
    ensures HasTask(s, w, id)
    ensures TaskOf(Apply(s, a), w, id).job == TaskOf(s, w, id).job
    ensures TaskOf(Apply(s, a), w, id).claimedAt == TaskOf(s, w, id).claimedAt
    ensures ActsOn(a, w, id) || SameTask(s, Apply(s, a), w, id)
  {
    match a
    case Gate(_, _) =>
    case Refresh(_, _) =>
    case BeginPost(_, _) =>
    case EndPost(_, _, _, _) =>
    case Decide(_, _, _) =>
    case Commit(_, _, _) =>
    case Vanish(_, _) =>
  }

  /** Any other step leaves tasks as they are, drops them, or spawns them by a claim. */
  lemma OtherTaskOrigin(s: Sys, a: Action, w: WorkerId, id: Uuid)
    requires Enabled(s, a) && !TaskAction(a) && HasTask(Apply(s, a), w, id)
    ensures SameTask(s, Apply(s, a), w, id)
            || (a.Claim? && a.w == w && id in a.picked
                && TaskOf(Apply(s, a), w, id) == Task(Snapshot(s.db, id, w), s.now, Spawned))
  {
  }

  /** Workers stay known, with the settings they started with. */
  lemma SettingsStay(s: Sys, a: Action, w: WorkerId)
    requires Enabled(s, a) && w in s.workers
    ensures w in Apply(s, a).workers && Apply(s, a).workers[w].cfg == s.workers[w].cfg
  {
    if TaskAction(a) {
      TaskActionSettings(s, a);
    }
  }
}
