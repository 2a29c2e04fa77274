/** The guarantees of the delivery queue, each for every run of any number of
    workers with steals, crashes, cancelled claims and lost outcomes. */
module Delivery {
  import opened Wrappers
  import opened Text
  import opened Retry
  import opened Config
  import opened Schema
  import opened Machine
  import opened Invariants
  import opened Columns

  // ---- the fence ----

  /** A task whose guard `locked_by = me AND status = 'delivering'` would pass
      holds the row's current attempt count and deadline and the current claim,
      although the guard names only the worker. */
  lemma FenceIsSound(s: Sys, w: WorkerId, id: Uuid)
    requires Reached(s) && HasTask(s, w, id)
    requires Holds(s.db, TaskOf(s, w, id).job)
    ensures var task := TaskOf(s, w, id);
            && id in s.db.jobs
            && task.job.attemptCount == s.db.jobs[id].attemptCount
            && task.job.deadlineAt == s.db.jobs[id].deadlineAt
            && s.db.jobs[id].lockedAt == Some(task.claimedAt)
  {
    Reachable(s);
    assert TaskOk(s.now, s.db, w, id, TaskOf(s, w, id));
  }

  /** At most one task in the whole system passes the guard for a job. */
  lemma OneHolder(s: Sys, w: WorkerId, v: WorkerId, id: Uuid)
    requires Reached(s)
    requires && HasTask(s, w, id) && Holds(s.db, TaskOf(s, w, id).job)
             && HasTask(s, v, id) && Holds(s.db, TaskOf(s, v, id).job)
    ensures w == v
  {
    Reachable(s);
    assert TaskOk(s.now, s.db, w, id, TaskOf(s, w, id));
    assert TaskOk(s.now, s.db, v, id, TaskOf(s, v, id));
  }

  /** Recording succeeds exactly for the lock holder (whose duration fits its
      column); UNIQUE (job_id, attempt_number) never rejects it. A displaced
      task changes no table: it meets the UNIQUE constraint if its attempt has
      been recorded by another, and updates no row otherwise. */
  lemma RecordingIsFenced(s: Sys, w: WorkerId, id: Uuid, at: Time)
    requires Reached(s) && Enabled(s, Commit(w, id, at))
    ensures var task := TaskOf(s, w, id);
            var result := RecordOutcome(s.db, task.job, task.phase.outcome, task.phase.durationMs, at);
            var fits := task.phase.durationMs % 0x1_0000_0000 < 0x8000_0000;
            && id in s.db.jobs
            && (result == Recorded <==> Holds(s.db, task.job) && fits)
            && (Holds(s.db, task.job) ==> AttemptKey(id, task.job.attemptCount + 1) !in s.db.attempts)
            && (result == LockLost <==>
                  !Holds(s.db, task.job) && fits && task.job.attemptCount == s.db.jobs[id].attemptCount)
            && (result != Recorded ==> Apply(s, Commit(w, id, at)).db == s.db)
  {
    Reachable(s);
    var task := TaskOf(s, w, id);
    assert TaskOk(s.now, s.db, w, id, task);
    assert RowOk(s.db.attempts, id, s.db.jobs[id]);
    NumberTaken(s.db, id, task.job.attemptCount + 1);
    DurationWraps(task.phase.durationMs);
  }

  /** An attempt number is taken exactly when it is one of 1 to `attempt_count`. */
  lemma NumberTaken(t: Tables, id: Uuid, n: int)
    requires TablesOk(t) && id in t.jobs
    ensures AttemptKey(id, n) in t.attempts <==> 1 <= n <= t.jobs[id].attemptCount
  {
    assert RowOk(t.attempts, id, t.jobs[id]);
  }

  /** The guard alone would not do: had a worker claimed again with a task still
      in flight, that task could pass the guard with an outdated count. Only the
      UNIQUE constraint would then stop it. That no reachable state gets there
      rests on the worker draining its batch first. */
  lemma GuardAloneIsNotEnough(t: Tables, job: ClaimedJob, first: Outcome, ms: int, at: Time, again: Time, late: Outcome)
    requires first.Retry? && RecordOutcome(t, job, first, ms, at) == Recorded
    ensures var t' := LockRows(AfterRecord(t, job, first, ms, at), {job.id}, job.lockedBy, again);
            && Holds(t', job)
            && t'.jobs[job.id].attemptCount == job.attemptCount + 1
            && RecordOutcome(t', job, late, ms, again) == Rejected
  {
    var t' := LockRows(AfterRecord(t, job, first, ms, at), {job.id}, job.lockedBy, again);
    assert AttemptKey(job.id, job.attemptCount + 1) in t'.attempts;
  }

  // ---- the ledger ----

  /** The attempt numbers recorded for a job are exactly 1 to `attempt_count`. */
  lemma LedgerIsExact(s: Sys, id: Uuid, n: int)
    requires Reached(s) && id in s.db.jobs
    ensures AttemptKey(id, n) in s.db.attempts <==> 1 <= n <= s.db.jobs[id].attemptCount
  {
    Reachable(s);
    NumberTaken(s.db, id, n);
  }

  /** A job's ledger is a run of failed attempts to be retried, with the time of
      the next one, followed by one final entry exactly when the job has ended;
      it has succeeded exactly when that entry has a 2xx code, and otherwise was
      recorded at or after the deadline. */
  lemma LedgerShape(s: Sys, id: Uuid, n: int)
    requires Reached(s)
    requires id in s.db.jobs
    requires 1 <= n <= s.db.jobs[id].attemptCount
    ensures var t := s.db;
            var r := t.jobs[id];
            && AttemptKey(id, n) in t.attempts
            && var e := t.attempts[AttemptKey(id, n)];
               && (e.willRetry <==> n < r.attemptCount || !Terminal(r.status))
               && (e.willRetry <==> e.nextAttemptAt.Some?)
               && (e.willRetry ==> !Is2xx(e.statusCode) && e.nextAttemptAt.value <= r.deadlineAt)
               && (!e.willRetry ==> (r.status == Succeeded <==> Is2xx(e.statusCode)))
               && (!e.willRetry && !Is2xx(e.statusCode) ==> r.deadlineAt <= e.attemptedAt)
  {
    Reachable(s);
    var t := s.db;
    assert RowOk(t.attempts, id, t.jobs[id]);
    assert EntryOk(t.jobs[id], n, t.attempts[AttemptKey(id, n)]);
  }

  lemma TerminalStep(s: Sys, a: Action, id: Uuid)
    requires Enabled(s, a) && id in s.db.jobs && Terminal(s.db.jobs[id].status)
    ensures id in Apply(s, a).db.jobs && Apply(s, a).db.jobs[id] == s.db.jobs[id]
  {
    if a.CommitEnqueue? {
      EnqueueGrows(s.db, s.requests[a.r], a.eventRowId, a.ids);
    }
  }

  lemma {:induction false} TerminalRun(s: Sys, run: seq<Action>, id: Uuid)
    requires Inv(s) && ConfigsOk(s) && Legal(s, run) && id in s.db.jobs && Terminal(s.db.jobs[id].status)
    ensures id in Run(s, run).db.jobs && Run(s, run).db.jobs[id] == s.db.jobs[id]
    decreases |run|
  {
    if run != [] {
      TerminalStep(s, run[0], id);
      Step(s, run[0]);
      ConfigsStep(s, run[0]);
      TerminalRun(Apply(s, run[0]), run[1..], id);
    }
  }

  /** No later step of any run changes an ended job or its ledger. */
  lemma EndsAreAbsorbing(s: Sys, run: seq<Action>, id: Uuid)
    requires Inv(s) && ConfigsOk(s) && Legal(s, run) && id in s.db.jobs && Terminal(s.db.jobs[id].status)
    ensures var t' := Run(s, run).db;
            && id in t'.jobs && t'.jobs[id] == s.db.jobs[id]
            && (forall n :: AttemptKey(id, n) in t'.attempts <==> AttemptKey(id, n) in s.db.attempts)
            && (forall n :: AttemptKey(id, n) in s.db.attempts ==>
                  t'.attempts[AttemptKey(id, n)] == s.db.attempts[AttemptKey(id, n)])
  {
    TerminalRun(s, run, id);
    RunGrows(s, run);
    InvHolds(s, run);
    forall n ensures AttemptKey(id, n) in Run(s, run).db.attempts <==> AttemptKey(id, n) in s.db.attempts {
      NumberTaken(s.db, id, n);
      NumberTaken(Run(s, run).db, id, n);
    }
  }

  // ---- decisions ----

  /** A failure handled at or past the deadline is final. An earlier one is retried
      after the delay of its draw, or at the deadline if that comes first. Both
      pass on the status and the error. */
  lemma DecisionInNumbers(job: ClaimedJob, status: Option<int>, error: Option<string>, ms: int, now: Time, draw: int)
    ensures var number := job.attemptCount + 1;
            var random := draw % (LastDraw(number) + 1);
            && 0 <= random <= 2 * JitterWindow(number)
            && AfterDecision(job, status, error, ms, now, random) ==
               if job.deadlineAt <= now then Recording(FinalFailure(status, error), ms, now)
               else Recording(Retry(status, error, Min(job.deadlineAt, now + DelayTable(number, random) * 1_000_000)), ms, now)
  {
    var number := job.attemptCount + 1;
    RetryDelayInNumbers(number, draw % (LastDraw(number) + 1));
  }

  // ---- bounds ----

  /** An open job is not due before the deadline or the least time its attempts
      have taken, whichever is earlier. */
  lemma RetriesArePaced(s: Sys, id: Uuid)
    requires Reached(s) && id in s.db.jobs && !Terminal(s.db.jobs[id].status)
    ensures var r := s.db.jobs[id];
            Min(r.deadlineAt, r.createdAt + LeastElapsedSecs(r.attemptCount) * SECOND) <= r.nextAttemptAt
  {
    Reachable(s);
    assert RowOk(s.db.attempts, id, s.db.jobs[id]);
  }

  /** A retry window of `windowSecs` seconds sees at most `AttemptBound(windowSecs)`
      attempts of a job. */
  lemma AttemptsAreBounded(s: Sys, id: Uuid, windowSecs: int)
    requires Reached(s) && id in s.db.jobs
    requires var r := s.db.jobs[id]; r.deadlineAt <= r.createdAt + windowSecs * SECOND
    ensures s.db.jobs[id].attemptCount <= AttemptBound(windowSecs)
  {
    Reachable(s);
    assert RowOk(s.db.attempts, id, s.db.jobs[id]);
    PacingBounds(s.db.jobs[id], windowSecs);
  }

  lemma PacingBounds(r: JobRow, windowSecs: int)
    requires PacingOk(r) && r.deadlineAt <= r.createdAt + windowSecs * SECOND
    ensures r.attemptCount <= AttemptBound(windowSecs)
  {
    if r.attemptCount >= 2 {
      LeastElapsedGrows(r.attemptCount - 2);
      FittingDelaysBoundAttempts(r.attemptCount - 2, windowSecs);
    }
  }

  lemma LeastElapsedGrows(n: nat)
    ensures LeastElapsedSecs(n) <= LeastElapsedSecs(n + 1)
  {
  }

  /** The default window of three days sees at most 96 attempts. */
  lemma DefaultWindowAttempts(s: Sys, id: Uuid)
    requires Reached(s) && id in s.db.jobs
    requires var r := s.db.jobs[id]; r.deadlineAt <= r.createdAt + 3 * 24 * 60 * 60 * SECOND
    ensures s.db.jobs[id].attemptCount <= 96
  {
    AttemptsAreBounded(s, id, 3 * 24 * 60 * 60);
  }

  /** `attempt_count + 1` never overflows an `i32` for windows of up to 6 * 10^12 seconds. */
  lemma AttemptNumberFitsI32(s: Sys, id: Uuid)
    requires Reached(s) && id in s.db.jobs
    requires var r := s.db.jobs[id];
             r.deadlineAt <= r.createdAt + 6_000_000_000_000 * SECOND
    ensures s.db.jobs[id].attemptCount + 1 <= 0x7FFF_FFFF
  {
    AttemptsAreBounded(s, id, 6_000_000_000_000);
  }

  // ---- progress ----

  /** The time from which an open job can be claimed if nothing happens to it. */
  function ClaimableFrom(r: JobRow, stale: Time): Time {
    if r.lockedAt.Some? then Max(r.deadlineAt, r.lockedAt.value + stale + 1) else r.deadlineAt
  }

  /** Never stuck: whatever was lost, an open job satisfies the claim predicate
      from a fixed time on, and an idle worker may then claim it. */
  lemma NeverStuck(s: Sys, id: Uuid, w: WorkerId, later: Time)
    requires Reached(s)
    requires && id in s.db.jobs && !Terminal(s.db.jobs[id].status)
             && w in s.workers && s.workers[w].running && s.workers[w].tasks == map[]
             && ClaimableFrom(s.db.jobs[id], Stale(s.workers[w].cfg)) <= later && s.now <= later
    ensures && Due(s.db.jobs[id], later, Stale(s.workers[w].cfg))
            && Enabled(s, Tick(later))
            && Enabled(Apply(s, Tick(later)), Claim(w, s.db.jobs.Keys - {id}, {id}))
  {
    Reachable(s);
    assert RowOk(s.db.attempts, id, s.db.jobs[id]);
    assert ValidSettings(s.workers[w].cfg);
  }

  /** `next_attempt_at` never passes the deadline, and a job is marked failed only
      at or after it; what the clock said when that was decided is in
      RecordedOutcomeProgress. */
  lemma DeadlineDiscipline(s: Sys, id: Uuid)
    requires Reached(s) && id in s.db.jobs
    ensures var r := s.db.jobs[id];
            && r.createdAt <= r.nextAttemptAt <= r.deadlineAt
            && (r.status == Failed ==> r.completedAt.Some? && r.deadlineAt <= r.completedAt.value)
            && (r.status == Delivering <==> r.lockedAt.Some?)
            && (r.status == Delivering <==> r.lockedBy.Some?)
  {
    Reachable(s);
    var t := s.db;
    var r := t.jobs[id];
    assert RowOk(t.attempts, id, r);
    if r.status == Failed {
      assert EntryOk(r, r.attemptCount, t.attempts[AttemptKey(id, r.attemptCount)]);
    }
  }

  /** A recorded outcome adds exactly one attempt; a claim made, or a failure
      decided, at or after the deadline ends the job when it is recorded, and a
      job fails only if the clock read that decided it was at or after the deadline. So
      recorded outcomes count down from the attempt bound. */
  lemma RecordedOutcomeProgress(s: Sys, w: WorkerId, id: Uuid, at: Time)
    requires Reached(s) && Enabled(s, Commit(w, id, at))
    requires var task := TaskOf(s, w, id);
             RecordOutcome(s.db, task.job, task.phase.outcome, task.phase.durationMs, at) == Recorded
    ensures var task := TaskOf(s, w, id);
            && id in s.db.jobs && id in Apply(s, Commit(w, id, at)).db.jobs
            && var r' := Apply(s, Commit(w, id, at)).db.jobs[id];
            && r'.attemptCount == s.db.jobs[id].attemptCount + 1
            && (task.job.deadlineAt <= task.claimedAt || task.job.deadlineAt <= task.phase.decidedAt ==> Terminal(r'.status))
            && (r'.status == Failed ==> task.job.deadlineAt <= task.phase.decidedAt)
            && (!Terminal(r'.status) ==> task.phase.decidedAt < r'.nextAttemptAt)
  {
    Reachable(s);
    assert TaskOk(s.now, s.db, w, id, TaskOf(s, w, id));
  }
}
