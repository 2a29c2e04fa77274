/** Refinement: the whole system behaves as one worker that appends attempts to
    ledgers, one at a time. */
module Ledger {
  import opened Wrappers
  import opened Text
  import opened Retry
  import opened Config
  import opened Schema
  import opened Machine
  import opened Invariants
  import opened Events

  // ---- the one-worker machine ----

  /** A job is what it was created as, and the attempts made so far. */
  datatype Job = Job(
    eventId: Uuid,
    destinationName: string,
    createdAt: Time,
    deadlineAt: Time,
    ledger: seq<AttemptRow>)
  {
    predicate Open() {
      ledger == [] || ledger[|ledger| - 1].willRetry
    }

    /** When the next attempt is due. */
    function DueAt(): Time {
      if ledger == [] then createdAt
      else match ledger[|ledger| - 1].nextAttemptAt case Some(next) => next case None => deadlineAt
    }

    predicate Succeeded() {
      ledger != [] && Is2xx(ledger[|ledger| - 1].statusCode)
    }
  }

  type Jobs = map<Uuid, Job>

  /** The attempt the one worker may make next: not before it is due; it ends the
      job with a 2xx answer or at the deadline, and otherwise reschedules it after
      at least the least delay, no later than the deadline. */
  predicate MayAttempt(j: Job, e: AttemptRow) {
    && j.Open()
    && e.attemptNumber == |j.ledger| + 1
    && j.DueAt() <= e.attemptedAt
    && (e.willRetry <==> e.nextAttemptAt.Some?)
    && if e.willRetry then
         && !Is2xx(e.statusCode)
         && j.DueAt() < j.deadlineAt
         && Min(j.deadlineAt, j.DueAt() + LeastDelaySecs(e.attemptNumber) * SECOND) <= e.nextAttemptAt.value <= j.deadlineAt
       else
         Is2xx(e.statusCode) || j.deadlineAt <= e.attemptedAt
  }

  ghost predicate Attempt(a: Jobs, a': Jobs, id: Uuid, e: AttemptRow) {
    && id in a && e.jobId == id && MayAttempt(a[id], e)
    && a' == a[id := Extended(a[id], e)]
  }

  /** New jobs: of one event that had none, with distinct names, one deadline and empty ledgers. */
  ghost predicate Accept(a: Jobs, a': Jobs, event: Uuid) {
    && (forall id :: id in a ==> id in a' && a'[id] == a[id])
    && (forall id :: id in a ==> a[id].eventId != event)
    && (forall id :: id in a' && id !in a ==> a'[id].eventId == event && a'[id].ledger == [])
    && (forall i, j :: i in a' && j in a' && i !in a && j !in a ==>
          && a'[i].createdAt == a'[j].createdAt && a'[i].deadlineAt == a'[j].deadlineAt
          && (a'[i].destinationName == a'[j].destinationName ==> i == j))
  }

  ghost predicate JobsNext(a: Jobs, a': Jobs) {
    || a' == a
    || (exists event :: Accept(a, a', event))
    || (exists id, e :: Attempt(a, a', id, e))
  }

  // ---- the abstraction ----

  /** The attempts of a job numbered 1 to `n`. */
  function LedgerUpTo(attempts: map<AttemptKey, AttemptRow>, id: Uuid, n: int): seq<AttemptRow>
    decreases Max(n, 0)
  {
    if n <= 0 then []
    else LedgerUpTo(attempts, id, n - 1)
         + if AttemptKey(id, n) in attempts then [attempts[AttemptKey(id, n)]] else []
  }

  function AbsJob(attempts: map<AttemptKey, AttemptRow>, r: JobRow): Job {
    Job(r.eventId, r.destinationName, r.createdAt, r.deadlineAt, LedgerUpTo(attempts, r.id, r.attemptCount))
  }

  function Abs(t: Tables): Jobs {
    map id | id in t.jobs :: AbsJob(t.attempts, t.jobs[id])
  }

  lemma {:induction false} LedgerFrom(attempts: map<AttemptKey, AttemptRow>, attempts': map<AttemptKey, AttemptRow>, id: Uuid, n: int)
    requires forall k :: 1 <= k <= n ==>
               AttemptKey(id, k) in attempts && AttemptKey(id, k) in attempts'
               && attempts'[AttemptKey(id, k)] == attempts[AttemptKey(id, k)]
    ensures LedgerUpTo(attempts', id, n) == LedgerUpTo(attempts, id, n)
    ensures n >= 0 ==> |LedgerUpTo(attempts, id, n)| == n
    decreases Max(n, 0)
  {
    if n > 0 {
      LedgerFrom(attempts, attempts', id, n - 1);
    }
  }

  // ---- what the abstraction shows ----

  /** The abstract job is open exactly while the row is not terminal, is due when
      the row says, and has succeeded exactly when the row has. */
  lemma AbsJobFaithful(attempts: map<AttemptKey, AttemptRow>, id: Uuid, r: JobRow)
    requires RowOk(attempts, id, r)
    ensures var j := AbsJob(attempts, r);
            && |j.ledger| == r.attemptCount
            && (j.Open() <==> !Terminal(r.status))
            && (j.Succeeded() <==> r.status == Succeeded)
            && (!Terminal(r.status) ==> j.DueAt() == r.nextAttemptAt)
  {
    LedgerFrom(attempts, attempts, id, r.attemptCount);
    if r.attemptCount >= 1 {
      assert EntryOk(r, r.attemptCount, attempts[AttemptKey(id, r.attemptCount)]);
    }
  }

  // ---- steps ----

  /** A row that keeps its attempts keeps its abstract job, whoever locks it. */
  lemma SameAbsJob(attempts: map<AttemptKey, AttemptRow>, attempts': map<AttemptKey, AttemptRow>, r: JobRow, r': JobRow)
    requires LedgerOk(attempts, r) && SameJob(r, r') && r'.attemptCount == r.attemptCount
    requires forall n :: 1 <= n <= r.attemptCount ==>
               AttemptKey(r.id, n) in attempts' && attempts'[AttemptKey(r.id, n)] == attempts[AttemptKey(r.id, n)]
    ensures AbsJob(attempts', r') == AbsJob(attempts, r)
  {
    LedgerFrom(attempts, attempts', r.id, r.attemptCount);
  }

  lemma SameAbs(t: Tables, t': Tables)
    requires TablesOk(t) && Grows(t, t') && t'.jobs.Keys == t.jobs.Keys && t'.attempts == t.attempts
    requires forall id :: id in t.jobs ==> t'.jobs[id].attemptCount == t.jobs[id].attemptCount
    ensures Abs(t') == Abs(t)
  {
    forall id | id in t.jobs ensures AbsJob(t'.attempts, t'.jobs[id]) == AbsJob(t.attempts, t.jobs[id]) {
      assert RowOk(t.attempts, id, t.jobs[id]);
      SameAbsJob(t.attempts, t'.attempts, t.jobs[id], t'.jobs[id]);
    }
  }

  /** A committed outcome appends exactly one attempt that the one worker may make. */
  lemma CommitRefines(s: Sys, w: WorkerId, id: Uuid, at: Time)
    requires Inv(s) && Enabled(s, Commit(w, id, at))
    ensures var task := TaskOf(s, w, id);
            var s' := Apply(s, Commit(w, id, at));
            if RecordOutcome(s.db, task.job, task.phase.outcome, task.phase.durationMs, at) == Recorded then
              Attempt(Abs(s.db), Abs(s'.db), id, AttemptOf(task.job, task.phase.outcome, task.phase.durationMs, at))
            else Abs(s'.db) == Abs(s.db)
  {
    var task := TaskOf(s, w, id);
    if RecordOutcome(s.db, task.job, task.phase.outcome, task.phase.durationMs, at) == Recorded {
      assert TaskOk(s.now, s.db, w, id, task);
      var e := AttemptOf(task.job, task.phase.outcome, task.phase.durationMs, at);
      RecordAppends(s.db, task.job, task.phase.outcome, task.phase.durationMs, at);
      HolderMayAttempt(s, w, id, at);
    }
  }

  lemma RecordAppends(t: Tables, job: ClaimedJob, outcome: Outcome, ms: int, at: Time)
    requires TablesOk(t) && RecordOutcome(t, job, outcome, ms, at) == Recorded
    requires t.jobs[job.id].attemptCount == job.attemptCount
    ensures Abs(AfterRecord(t, job, outcome, ms, at)) ==
            Abs(t)[job.id := Extended(AbsJob(t.attempts, t.jobs[job.id]), AttemptOf(job, outcome, ms, at))]
  {
    var e := AttemptOf(job, outcome, ms, at);
    var r' := Finished(t.jobs[job.id], outcome, job.attemptCount + 1, at);
    assert e.jobId == job.id && e.attemptNumber == job.attemptCount + 1;
    assert SameJob(t.jobs[job.id], r') && r'.attemptCount == job.attemptCount + 1;
    AppendedLedger(t, job.id, e, r');
  }

  function Extended(j: Job, e: AttemptRow): Job {
    j.(ledger := j.ledger + [e])
  }

  /** Only the job of the new attempt changes, by that attempt. */
  lemma AppendedLedger(t: Tables, id: Uuid, e: AttemptRow, r': JobRow)
    requires TablesOk(t) && id in t.jobs && e.jobId == id && e.attemptNumber == t.jobs[id].attemptCount + 1
    requires SameJob(t.jobs[id], r') && r'.attemptCount == t.jobs[id].attemptCount + 1
    ensures Abs(WithAttempt(t, e).(jobs := t.jobs[id := r'])) == Abs(t)[id := Extended(AbsJob(t.attempts, t.jobs[id]), e)]
  {
    var attempts' := WithAttempt(t, e).attempts;
    OthersStay(t, e);
    OnlyOneChanged(t, attempts', id, r');
    OwnExtends(t, id, e, r');
  }

  lemma OwnExtends(t: Tables, id: Uuid, e: AttemptRow, r': JobRow)
    requires TablesOk(t) && id in t.jobs && e.jobId == id && e.attemptNumber == t.jobs[id].attemptCount + 1
    requires SameJob(t.jobs[id], r') && r'.attemptCount == t.jobs[id].attemptCount + 1
    ensures AbsJob(WithAttempt(t, e).attempts, r') == Extended(AbsJob(t.attempts, t.jobs[id]), e)
  {
    assert RowOk(t.attempts, id, t.jobs[id]);
    OwnLedgerExtends(t.attempts, t.jobs[id], e, r');
  }

  lemma OthersStay(t: Tables, e: AttemptRow)
    requires TablesOk(t)
    ensures forall j :: j in t.jobs && j != e.jobId ==>
              AbsJob(WithAttempt(t, e).attempts, t.jobs[j]) == AbsJob(t.attempts, t.jobs[j])
  {
    forall j | j in t.jobs && j != e.jobId
      ensures AbsJob(WithAttempt(t, e).attempts, t.jobs[j]) == AbsJob(t.attempts, t.jobs[j])
    {
      OtherLedgerStays(t.attempts, j, t.jobs[j], e);
    }
  }

  lemma OtherLedgerStays(attempts: map<AttemptKey, AttemptRow>, id: Uuid, r: JobRow, e: AttemptRow)
    requires RowOk(attempts, id, r) && e.jobId != id
    ensures AbsJob(attempts[AttemptKey(e.jobId, e.attemptNumber) := e], r) == AbsJob(attempts, r)
  {
    SameAbsJob(attempts, attempts[AttemptKey(e.jobId, e.attemptNumber) := e], r, r);
  }

  lemma OnlyOneChanged(t: Tables, attempts': map<AttemptKey, AttemptRow>, id: Uuid, r': JobRow)
    requires forall j :: j in t.jobs && j != id ==> AbsJob(attempts', t.jobs[j]) == AbsJob(t.attempts, t.jobs[j])
    ensures Abs(Tables(t.events, t.jobs[id := r'], attempts')) == Abs(t)[id := AbsJob(attempts', r')]
  {
  }

  lemma OwnLedgerExtends(attempts: map<AttemptKey, AttemptRow>, r: JobRow, e: AttemptRow, r': JobRow)
    requires LedgerOk(attempts, r) && 0 <= r.attemptCount && SameJob(r, r') && r'.attemptCount == r.attemptCount + 1
    ensures AbsJob(attempts[AttemptKey(r.id, r.attemptCount + 1) := e], r') == Extended(AbsJob(attempts, r), e)
  {
    var attempts' := attempts[AttemptKey(r.id, r.attemptCount + 1) := e];
    LedgerFrom(attempts, attempts', r.id, r.attemptCount);
  }

  lemma HolderMayAttempt(s: Sys, w: WorkerId, id: Uuid, at: Time)
    requires Inv(s) && Enabled(s, Commit(w, id, at)) && Holds(s.db, TaskOf(s, w, id).job)
    ensures id in s.db.jobs
    ensures var task := TaskOf(s, w, id);
            MayAttempt(AbsJob(s.db.attempts, s.db.jobs[id]), AttemptOf(task.job, task.phase.outcome, task.phase.durationMs, at))
  {
    var task := TaskOf(s, w, id);
    assert TaskOk(s.now, s.db, w, id, task);
    OutcomeIsAttempt(s.now, s.db, id, task, at);
  }

  lemma OutcomeIsAttempt(now: Time, t: Tables, id: Uuid, task: Task, at: Time)
    requires id in t.jobs && RowOk(t.attempts, id, t.jobs[id]) && t.jobs[id].status == Delivering
    requires t.jobs[id].attemptCount == task.job.attemptCount && t.jobs[id].lockedAt == Some(task.claimedAt)
    requires task.job.id == id && task.job.deadlineAt == t.jobs[id].deadlineAt
    requires task.phase.Recording? && task.phase.decidedAt <= at && PhaseOk(now, t.jobs[id].createdAt, task)
    ensures MayAttempt(AbsJob(t.attempts, t.jobs[id]), AttemptOf(task.job, task.phase.outcome, task.phase.durationMs, at))
  {
    AbsJobFaithful(t.attempts, id, t.jobs[id]);
    var j := AbsJob(t.attempts, t.jobs[id]);
    assert j.DueAt() <= t.jobs[id].nextAttemptAt <= task.claimedAt;
  }

  /** An accepted webhook adds its jobs at once; a refused or repeated one nothing. */
  lemma EnqueueRefines(t: Tables, r: Incoming, eventRowId: Uuid, ids: seq<Uuid>)
    requires ForeignKeys(t) && DistinctNames(r.destinations) && |ids| == |r.destinations|
    ensures var t' := AfterEnqueue(t, r, eventRowId, ids);
            if Enqueue(t, r, eventRowId, ids).Inserted? then Accept(Abs(t), Abs(t'), eventRowId) else Abs(t') == Abs(t)
  {
    if Enqueue(t, r, eventRowId, ids).Inserted? {
      EnqueueAdds(t, r, eventRowId, ids);
      NewJobsAccepted(t, AfterEnqueue(t, r, eventRowId, ids), r, eventRowId, ids);
    }
  }

  lemma NewJobsAccepted(t: Tables, t': Tables, r: Incoming, event: Uuid, ids: seq<Uuid>)
    requires |ids| == |r.destinations| && ForeignKeys(t) && event !in t.events && DistinctNames(r.destinations)
    requires AddsJobs(t, t', r, event, ids) && t'.attempts == t.attempts
    ensures Accept(Abs(t), Abs(t'), event)
  {
    forall id | id in t'.jobs && id !in t.jobs
      ensures exists i :: 0 <= i < |ids| && ids[i] == id
                && AbsJob(t'.attempts, t'.jobs[id]) == Job(event, r.destinations[i].name, r.receivedAt, r.DeadlineAt(), [])
    {
      AddedRow(t, t', r, event, ids, id);
    }
  }

  /** Claims, steals, refreshes and lost claims are invisible. */
  lemma InvisibleStep(s: Sys, a: Action)
    requires Inv(s) && Enabled(s, a) && !a.Commit? && !a.CommitEnqueue?
    ensures Abs(Apply(s, a).db) == Abs(s.db)
  {
    OtherStepGrows(s, a);
    OnlyEnqueueAdds(s, a);
    OnlyCommitAddsAttempts(s, a);
    SameCounts(s, a);
    SameAbs(s.db, Apply(s, a).db);
  }

  lemma SameCounts(s: Sys, a: Action)
    requires Enabled(s, a) && !a.Commit? && !a.CommitEnqueue?
    ensures forall id :: id in s.db.jobs && id in Apply(s, a).db.jobs ==>
              Apply(s, a).db.jobs[id].attemptCount == s.db.jobs[id].attemptCount
  {
  }

  /** Every step is a step of the one-worker machine or no step of it at all;
      in particular every database call of a displaced holder is none. */
  lemma {:induction false} StepRefines(s: Sys, a: Action)
    requires Inv(s) && EventsInv(s) && Enabled(s, a)
    ensures JobsNext(Abs(s.db), Abs(Apply(s, a).db))
    ensures a.Commit? && !Holds(s.db, TaskOf(s, a.w, a.id).job) ==> Abs(Apply(s, a).db) == Abs(s.db)
  {
    if a.Commit? {
      CommitRefines(s, a.w, a.id, a.at);
    } else if a.CommitEnqueue? {
      EnqueueRefines(s.db, s.requests[a.r], a.eventRowId, a.ids);
    } else {
      InvisibleStep(s, a);
    }
  }

  /** The states a run passes through. */
  function States(s: Sys, run: seq<Action>): (states: seq<Sys>)
    requires Legal(s, run)
    ensures |states| == |run| + 1
    ensures states[0] == s && states[|run|] == Run(s, run)
    decreases |run|
  {
    if run == [] then [s] else [s] + States(Apply(s, run[0]), run[1..])
  }

  /** Seen through the abstraction, each state follows from the one before. */
  ghost predicate Follows(states: seq<Sys>) {
    forall i :: 0 <= i < |states| - 1 ==> JobsNext(Abs(states[i].db), Abs(states[i + 1].db))
  }

  lemma FollowsCons(s: Sys, rest: seq<Sys>)
    requires rest != [] && Follows(rest) && JobsNext(Abs(s.db), Abs(rest[0].db))
    ensures Follows([s] + rest)
  {
    var states := [s] + rest;
    forall i | 0 <= i < |states| - 1 ensures JobsNext(Abs(states[i].db), Abs(states[i + 1].db)) {
      assert states[i + 1] == rest[i];
      if i > 0 {
        assert states[i] == rest[i - 1];
        assert JobsNext(Abs(rest[i - 1].db), Abs(rest[i - 1 + 1].db));
      }
    }
  }

  /** Every run of the system, seen through the abstraction, is a run of the
      one-worker machine. */
  lemma {:induction false} RunRefines(s: Sys, run: seq<Action>)
    requires Inv(s) && ConfigsOk(s) && EventsInv(s) && Legal(s, run)
    ensures Follows(States(s, run))
    decreases |run|
  {
    if run != [] {
      Step(s, run[0]);
      ConfigsStep(s, run[0]);
      EventsStep(s, run[0]);
      StepRefines(s, run[0]);
      RunRefines(Apply(s, run[0]), run[1..]);
      FollowsCons(s, States(Apply(s, run[0]), run[1..]));
    }
  }

  /** From the empty database, for all runs of any number of workers. */
  lemma {:induction false} SystemRefinesOneWorker(start: Time, run: seq<Action>)
    requires Legal(InitSys(start), run)
    ensures Abs(InitSys(start).db) == map[] && Follows(States(InitSys(start), run))
  {
    RunRefines(InitSys(start), run);
  }
}
