/** Runs that exist: what can follow what when all workers and servers run one
    configuration. */
module Scenario {
  import opened Wrappers
  import opened Text
  import opened Retry
  import opened Json
  import opened Headers
  import opened Config
  import opened Router
  import opened Resend
  import opened Extraction
  import opened Schema
  import opened Machine
  import opened Events
  import opened Lease

  // ---- chaining runs ----

  ghost predicate Carries(s: Sys, run: seq<Action>, s': Sys, cfg: Settings, pace: Option<nat>) {
    Legal(s, run) && Run(s, run) == s' && OneConfig(run, cfg) && TimelyRun(s, run, pace)
  }

  /** Some run in pace takes `s` to `s'`. */
  ghost predicate Leads(s: Sys, s': Sys, cfg: Settings, pace: Option<nat>) {
    exists run :: Carries(s, run, s', cfg, pace)
  }

  lemma {:induction false} TimelyAppend(s: Sys, run: seq<Action>, more: seq<Action>, pace: Option<nat>)
    requires Legal(s, run) && Legal(Run(s, run), more)
    requires TimelyRun(s, run, pace) && TimelyRun(Run(s, run), more, pace)
    ensures Legal(s, run + more) && TimelyRun(s, run + more, pace)
    decreases |run|
  {
    RunAppend(s, run, more);
    if run == [] {
      assert run + more == more;
    } else {
      assert (run + more)[1..] == run[1..] + more;
      TimelyAppend(Apply(s, run[0]), run[1..], more, pace);
    }
  }

  lemma LeadsStep(s: Sys, m: Sys, a: Action, cfg: Settings, pace: Option<nat>)
    requires Leads(s, m, cfg, pace) && Enabled(m, a) && Timely(m, a, pace)
    requires a.StartWorker? || a.Receive? ==> a.cfg == cfg
    ensures Leads(s, Apply(m, a), cfg, pace)
  {
    var run :| Carries(s, run, m, cfg, pace);
    assert [a][1..] == [];
    RunAppend(s, run, [a]);
    TimelyAppend(s, run, [a], pace);
    assert Carries(s, run + [a], Apply(m, a), cfg, pace);
  }

  lemma LeadsNowhere(s: Sys, cfg: Settings, pace: Option<nat>)
    ensures Leads(s, s, cfg, pace)
  {
    assert Carries(s, [], s, cfg, pace);
  }

  // ---- a webhook and two workers ----

  const A: WorkerId := "a"
  const B: WorkerId := "b"

  const HEADERS: HeaderMap := [("svix-id", Visible("1")), ("svix-timestamp", Visible("1"))]

  lemma HeadersAreThere()
    ensures HeaderToString(HEADERS, "svix-id").Some? && HeaderToString(HEADERS, "svix-timestamp").Some?
  {
    assert |Lower("svix-id")| != |Lower("svix-timestamp")|;
    assert HEADERS[1..][0] == ("svix-timestamp", Visible("1"));
    assert HeaderToString(HEADERS[1..], "svix-timestamp") == Some("1");
  }

  lemma {:induction false} FilterShorter(ds: seq<Destination>, event: RoutingEvent)
    ensures |Filter(ds, event)| <= |ds|
  {
    if ds != [] {
      FilterShorter(ds[1..], event);
    }
  }

  function FirstIds(n: nat): (ids: seq<Uuid>)
    requires n <= UUID_LIMIT
    ensures |ids| == n && forall i :: 0 <= i < n ==> ids[i] == i
  {
    if n == 0 then [] else FirstIds(n - 1) + [n - 1]
  }

  /** Valid, with an address for some destination, and no more destinations than ids. */
  predicate Usable(cfg: Settings) {
    ValidSettings(cfg) && Served(cfg.destinations) && |cfg.destinations| <= UUID_LIMIT
  }

  predicate Idle(cfg: Settings, worker: Worker) {
    worker == Worker(cfg, true, map[])
  }

  /** Job 0 of the run: made at time 0, with `n` attempts. */
  ghost predicate JobZero(t: Tables, cfg: Settings, n: nat) {
    && ForeignKeys(t) && 0 in t.jobs
    && var r := t.jobs[0];
    && r.id == 0 && r.createdAt == 0 && r.deadlineAt == cfg.retryWindowSecs * SECOND && r.attemptCount == n
    && (forall k :: k in t.attempts && k.jobId == 0 ==> k.attemptNumber <= n)
  }

  /** It waits for a claim, due at `at`, and both workers are idle. */
  ghost predicate Waits(s: Sys, cfg: Settings, n: nat, at: Time) {
    && s.workers.Keys == {A, B} && Idle(cfg, s.workers[A]) && Idle(cfg, s.workers[B])
    && JobZero(s.db, cfg, n)
    && (s.db.jobs[0].status == Queued || s.db.jobs[0].status == Retrying)
    && s.db.jobs[0].nextAttemptAt == at
  }

  lemma Enqueued(s: Sys, cfg: Settings, ids: seq<Uuid>)
    requires s.now == 0 && s.db == Tables(map[], map[], map[]) && 0 in s.requests
    requires var r := s.requests[0];
             && r.headers == HEADERS && r.receivedAt == 0 && r.windowSecs == cfg.retryWindowSecs
             && |ids| == |r.destinations| > 0 && Distinct(ids) && ids[0] == 0
    ensures Enabled(s, CommitEnqueue(0, 0, ids)) && JobZero(Apply(s, CommitEnqueue(0, 0, ids)).db, cfg, 0)
    ensures Apply(s, CommitEnqueue(0, 0, ids)).db.jobs[0].status == Queued
    ensures Apply(s, CommitEnqueue(0, 0, ids)).db.jobs[0].nextAttemptAt == 0
  {
    HeadersAreThere();
    var t' := AfterEnqueue(s.db, s.requests[0], 0, ids);
    assert FreshIds(s.db, ids);
    EnqueueAdds(s.db, s.requests[0], 0, ids);
    forall id | id in t'.jobs ensures t'.jobs[id].eventId in t'.events {
      AddedRow(s.db, t', s.requests[0], 0, ids, id);
    }
  }

  lemma TwoWorkers(cfg: Settings, pace: Option<nat>) returns (s: Sys)
    requires ValidSettings(cfg)
    ensures Leads(InitSys(0), s, cfg, pace)
    ensures s == InitSys(0).(workers := map[A := Worker(cfg, true, map[]), B := Worker(cfg, true, map[])])
  {
    var s0 := InitSys(0);
    LeadsNowhere(s0, cfg, pace);
    LeadsStep(s0, s0, StartWorker(A, cfg), cfg, pace);
    var s1 := Apply(s0, StartWorker(A, cfg));
    LeadsStep(s0, s1, StartWorker(B, cfg), cfg, pace);
    s := Apply(s1, StartWorker(B, cfg));
  }

  lemma Received(cfg: Settings, pace: Option<nat>, payload: Value) returns (s: Sys)
    requires ValidSettings(cfg) && MatchDestinations(cfg.destinations, ParseEventForRouting(payload)) != []
    ensures Leads(InitSys(0), s, cfg, pace)
    ensures s.now == 0 && s.db == Tables(map[], map[], map[])
    ensures s.workers == map[A := Worker(cfg, true, map[]), B := Worker(cfg, true, map[])]
    ensures 0 in s.requests
    ensures var r := s.requests[0];
            && r.headers == HEADERS && r.receivedAt == 0 && r.windowSecs == cfg.retryWindowSecs
            && r.destinations == MatchDestinations(cfg.destinations, ParseEventForRouting(payload))
  {
    var s2 := TwoWorkers(cfg, pace);
    LeadsStep(InitSys(0), s2, Receive(0, cfg, HEADERS, [], payload), cfg, pace);
    s := Apply(s2, Receive(0, cfg, HEADERS, [], payload));
  }

  /** Two workers start, a webhook comes in and is stored. */
  lemma SetUp(cfg: Settings, pace: Option<nat>) returns (s: Sys)
    requires Usable(cfg)
    ensures Leads(InitSys(0), s, cfg, pace) && s.now == 0 && Waits(s, cfg, 0, 0)
  {
    var payload := MatchedPayload(cfg.destinations);
    var matched := MatchDestinations(cfg.destinations, ParseEventForRouting(payload));
    FilterShorter(NormalizeAll(cfg.destinations), ParseEventForRouting(payload));
    var ids := FirstIds(|matched|);
    var s0 := InitSys(0);
    var s3 := Received(cfg, pace, payload);
    Enqueued(s3, cfg, ids);
    LeadsStep(s0, s3, CommitEnqueue(0, 0, ids), cfg, pace);
    s := Apply(s3, CommitEnqueue(0, 0, ids));
  }

  // ---- the first worker's attempts ----

  /** Worker A holds job 0 with its only task, and B is idle. */
  ghost predicate Attempts(s: Sys, cfg: Settings, n: nat, task: Task) {
    && s.workers.Keys == {A, B} && s.workers[A] == Worker(cfg, true, map[0 := task]) && Idle(cfg, s.workers[B])
    && JobZero(s.db, cfg, n)
    && Holds(s.db, task.job) && s.db.jobs[0].lockedAt == Some(task.claimedAt)
    && task.job.id == 0 && task.job.lockedBy == A && task.job.attemptCount == n
    && task.job.deadlineAt == cfg.retryWindowSecs * SECOND
  }

  function ClaimZero(s: Sys, w: WorkerId): Action {
    Claim(w, s.db.jobs.Keys - {0}, {0})
  }

  lemma StepClaim(s: Sys, cfg: Settings, n: nat, at: Time) returns (task: Task)
    requires ValidSettings(cfg) && Waits(s, cfg, n, at) && at <= s.now
    ensures Enabled(s, ClaimZero(s, A)) && Apply(s, ClaimZero(s, A)).now == s.now
    ensures Attempts(Apply(s, ClaimZero(s, A)), cfg, n, task) && task.phase == Spawned && task.claimedAt == s.now
  {
    assert Due(s.db.jobs[0], s.now, Stale(cfg));
    assert |{0}| == 1;
    task := Task(Snapshot(s.db, 0, A), s.now, Spawned);
    assert NewTasks(s.db, {0}, A, s.now) == map[0 := task];
  }

  lemma StepGate(s: Sys, cfg: Settings, n: nat, task: Task)
    requires Attempts(s, cfg, n, task) && task.phase.Spawned?
    ensures Enabled(s, Gate(A, 0)) && Apply(s, Gate(A, 0)).now == s.now
    ensures Attempts(Apply(s, Gate(A, 0)), cfg, n, task.(phase := AfterGate(task.job, s.now)))
  {
  }

  lemma StepRefresh(s: Sys, cfg: Settings, n: nat, task: Task) returns (url: string)
    requires Attempts(s, cfg, n, task) && task.phase.Cleared?
    ensures Enabled(s, Refresh(A, 0)) && Apply(s, Refresh(A, 0)).now == s.now
    ensures Attempts(Apply(s, Refresh(A, 0)), cfg, n, task.(phase := Addressed(url)))
  {
    url := ResolveDestinationUrl(cfg, task.job).url;
  }

  lemma StepBegin(s: Sys, cfg: Settings, n: nat, task: Task)
    requires Attempts(s, cfg, n, task) && task.phase.Addressed?
    ensures Enabled(s, BeginPost(A, 0)) && Apply(s, BeginPost(A, 0)).now == s.now
    ensures Attempts(Apply(s, BeginPost(A, 0)), cfg, n, task.(phase := Sending(task.phase.url, s.now)))
  {
  }

  lemma StepEnd(s: Sys, cfg: Settings, n: nat, task: Task)
    requires Attempts(s, cfg, n, task) && task.phase.Sending?
    ensures Enabled(s, EndPost(A, 0, NoResponse(""), 0)) && Apply(s, EndPost(A, 0, NoResponse(""), 0)).now == s.now
    ensures Attempts(Apply(s, EndPost(A, 0, NoResponse(""), 0)), cfg, n, task.(phase := Answered(None, Some(""), 0)))
  {
  }

  /** The next attempt comes as soon as the jitter allows. */
  lemma StepDecide(s: Sys, cfg: Settings, n: nat, task: Task)
    requires Attempts(s, cfg, n, task) && task.phase == Answered(None, Some(""), 0) && s.now < cfg.retryWindowSecs * SECOND
    ensures Enabled(s, Decide(A, 0, 0)) && Apply(s, Decide(A, 0, 0)).now == s.now
    ensures var next := Min(cfg.retryWindowSecs * SECOND, s.now + LeastDelaySecs(n + 1) * SECOND);
            Attempts(Apply(s, Decide(A, 0, 0)), cfg, n, task.(phase := Recording(Retry(None, Some(""), next), 0, s.now)))
  {
  }

  lemma StepRetry(s: Sys, cfg: Settings, n: nat, task: Task)
    requires Attempts(s, cfg, n, task) && task.phase.Recording? && task.phase.outcome.Retry?
    requires task.phase.durationMs == 0 && task.phase.decidedAt <= s.now
    ensures Enabled(s, Commit(A, 0, s.now)) && Apply(s, Commit(A, 0, s.now)).now == s.now
    ensures Waits(Apply(s, Commit(A, 0, s.now)), cfg, n + 1, task.phase.outcome.next)
  {
    assert RecordOutcome(s.db, task.job, task.phase.outcome, 0, s.now) == Recorded;
  }

  lemma StepExpire(s: Sys, cfg: Settings, n: nat, task: Task)
    requires Attempts(s, cfg, n, task) && task.phase.Recording? && task.phase.outcome.FinalFailure?
    requires task.phase.durationMs == 0 && task.phase.decidedAt <= s.now
    ensures Enabled(s, Commit(A, 0, s.now))
    ensures JobZero(Apply(s, Commit(A, 0, s.now)).db, cfg, n + 1)
  {
    assert RecordOutcome(s.db, task.job, task.phase.outcome, 0, s.now) == Recorded;
  }

  // ---- no address, no job ----

  lemma {:induction false} NothingServed(s: Sys, run: seq<Action>, cfg: Settings)
    requires Legal(s, run) && OneConfig(run, cfg) && !Served(cfg.destinations)
    requires s.requests == map[] && s.db.jobs == map[]
    ensures Run(s, run).requests == map[] && Run(s, run).db.jobs == map[]
    decreases |run|
  {
    if run != [] {
      var s' := Apply(s, run[0]);
      NothingStarts(s, run[0], cfg);
      assert forall i :: 0 <= i < |run[1..]| ==> run[1..][i] == run[i + 1];
      NothingServed(s', run[1..], cfg);
    }
  }

  lemma NothingStarts(s: Sys, a: Action, cfg: Settings)
    requires Enabled(s, a) && (a.Receive? ==> a.cfg == cfg) && !Served(cfg.destinations)
    requires s.requests == map[] && s.db.jobs == map[]
    ensures Apply(s, a).requests == map[] && Apply(s, a).db.jobs == map[]
  {
    if a.Receive? {
      UnservedMatchesNothing(cfg.destinations, a.payload);
    } else if !a.CommitEnqueue? {
      OnlyEnqueueAdds(s, a);
      RequestsStayEmpty(s, a);
    }
  }

  lemma RequestsStayEmpty(s: Sys, a: Action)
    requires Enabled(s, a) && !a.Receive? && s.requests == map[]
    ensures Apply(s, a).requests == map[]
  {
  }

  /** A configuration that no address meets never makes a job. */
  lemma JobsAreServed(start: Time, s: Sys, cfg: Settings, pace: Option<nat>, id: Uuid)
    requires Leads(InitSys(start), s, cfg, pace) && id in s.db.jobs
    ensures Served(cfg.destinations)
  {
    var run :| Carries(InitSys(start), run, s, cfg, pace);
    if !Served(cfg.destinations) {
      NothingServed(InitSys(start), run, cfg);
    }
  }
}
