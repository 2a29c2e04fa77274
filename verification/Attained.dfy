/** The bound on attempts is exact: which attempt counts the jobs of a
    configuration can have. */
module Attained {
  import opened Wrappers
  import opened Text
  import opened Retry
  import opened Config
  import opened Schema
  import opened Machine
  import opened Invariants
  import opened Lease
  import opened Extraction
  import opened Scenario
  import opened Delivery
  import opened Posts

  /** Some run of this configuration has a job with `n` attempts. */
  ghost predicate CanHave(cfg: Settings, n: int) {
    exists start, s, id ::
      Leads(InitSys(start), s, cfg, None) && id in s.db.jobs && s.db.jobs[id].attemptCount == n
  }

  /** One attempt without an answer, as early as the jitter allows the next. */
  lemma FailOnce(s0: Sys, s: Sys, cfg: Settings, n: nat, at: Time) returns (s': Sys)
    requires ValidSettings(cfg) && Leads(s0, s, cfg, None) && Waits(s, cfg, n, at)
    requires at <= s.now < cfg.retryWindowSecs * SECOND
    ensures Leads(s0, s', cfg, None) && s'.now == s.now
    ensures Waits(s', cfg, n + 1, Min(cfg.retryWindowSecs * SECOND, s.now + LeastDelaySecs(n + 1) * SECOND))
  {
    var s1, t1 := ClaimedInTime(s0, s, cfg, n, at);
    var s2, t2 := Sent(s0, s1, cfg, n, t1);
    s' := NoAnswer(s0, s2, cfg, n, t2);
  }

  lemma ClaimedInTime(s0: Sys, s: Sys, cfg: Settings, n: nat, at: Time) returns (s': Sys, task: Task)
    requires ValidSettings(cfg) && Leads(s0, s, cfg, None) && Waits(s, cfg, n, at)
    requires at <= s.now < cfg.retryWindowSecs * SECOND
    ensures Leads(s0, s', cfg, None) && s'.now == s.now
    ensures Attempts(s', cfg, n, task) && task.phase == Cleared
  {
    var s1, t1 := Claimed(s0, s, cfg, n, at);
    StepGate(s1, cfg, n, t1);
    LeadsStep(s0, s1, Gate(A, 0), cfg, None);
    s', task := Apply(s1, Gate(A, 0)), t1.(phase := Cleared);
  }

  lemma Sent(s0: Sys, s: Sys, cfg: Settings, n: nat, task: Task) returns (s': Sys, task': Task)
    requires Leads(s0, s, cfg, None) && Attempts(s, cfg, n, task) && task.phase.Cleared?
    ensures Leads(s0, s', cfg, None) && s'.now == s.now
    ensures Attempts(s', cfg, n, task') && task'.phase.Sending?
  {
    var url := StepRefresh(s, cfg, n, task);
    LeadsStep(s0, s, Refresh(A, 0), cfg, None);
    var s1, t1 := Apply(s, Refresh(A, 0)), task.(phase := Addressed(url));
    StepBegin(s1, cfg, n, t1);
    LeadsStep(s0, s1, BeginPost(A, 0), cfg, None);
    s', task' := Apply(s1, BeginPost(A, 0)), t1.(phase := Sending(url, s1.now));
  }

  lemma Claimed(s0: Sys, s: Sys, cfg: Settings, n: nat, at: Time) returns (s': Sys, task: Task)
    requires ValidSettings(cfg) && Leads(s0, s, cfg, None) && Waits(s, cfg, n, at) && at <= s.now
    ensures Leads(s0, s', cfg, None) && s'.now == s.now
    ensures Attempts(s', cfg, n, task) && task.phase == Spawned
  {
    task := StepClaim(s, cfg, n, at);
    LeadsStep(s0, s, ClaimZero(s, A), cfg, None);
    s' := Apply(s, ClaimZero(s, A));
  }

  lemma NoAnswer(s0: Sys, s: Sys, cfg: Settings, n: nat, task: Task) returns (s': Sys)
    requires Leads(s0, s, cfg, None) && Attempts(s, cfg, n, task) && task.phase.Sending?
    requires s.now < cfg.retryWindowSecs * SECOND
    ensures Leads(s0, s', cfg, None) && s'.now == s.now
    ensures Waits(s', cfg, n + 1, Min(cfg.retryWindowSecs * SECOND, s.now + LeastDelaySecs(n + 1) * SECOND))
  {
    StepEnd(s, cfg, n, task);
    LeadsStep(s0, s, EndPost(A, 0, NoResponse(""), 0), cfg, None);
    s' := FailsOnce(s0, Apply(s, EndPost(A, 0, NoResponse(""), 0)), cfg, n, task.(phase := Answered(None, Some(""), 0)));
  }

  lemma FailsOnce(s0: Sys, s: Sys, cfg: Settings, n: nat, task: Task) returns (s': Sys)
    requires Leads(s0, s, cfg, None) && Attempts(s, cfg, n, task) && task.phase == Answered(None, Some(""), 0)
    requires s.now < cfg.retryWindowSecs * SECOND
    ensures Leads(s0, s', cfg, None) && s'.now == s.now
    ensures Waits(s', cfg, n + 1, Min(cfg.retryWindowSecs * SECOND, s.now + LeastDelaySecs(n + 1) * SECOND))
  {
    StepDecide(s, cfg, n, task);
    LeadsStep(s0, s, Decide(A, 0, 0), cfg, None);
    var next := Min(cfg.retryWindowSecs * SECOND, s.now + LeastDelaySecs(n + 1) * SECOND);
    var s1, t1 := Apply(s, Decide(A, 0, 0)), task.(phase := Recording(Retry(None, Some(""), next), 0, s.now));
    StepRetry(s1, cfg, n, t1);
    LeadsStep(s0, s1, Commit(A, 0, s1.now), cfg, None);
    s' := Apply(s1, Commit(A, 0, s1.now));
  }

  /** When attempt `n + 1` is due if all before it failed as early as possible. */
  function DueAfter(cfg: Settings, n: nat): Time {
    Min(cfg.retryWindowSecs * SECOND, LeastElapsedSecs(n) * SECOND)
  }

  lemma StartWaiting(cfg: Settings) returns (s: Sys)
    requires Usable(cfg)
    ensures Leads(InitSys(0), s, cfg, None) && Waits(s, cfg, 0, DueAfter(cfg, 0)) && s.now == DueAfter(cfg, 0)
  {
    s := SetUp(cfg, None);
  }

  /** `n` failures in a row, each at once when its attempt is due. */
  lemma {:induction false} FailTimes(cfg: Settings, n: nat) returns (s: Sys)
    requires Usable(cfg)
    requires n == 0 || LeastElapsedSecs(n - 1) < cfg.retryWindowSecs
    ensures Leads(InitSys(0), s, cfg, None) && Waits(s, cfg, n, DueAfter(cfg, n)) && s.now == DueAfter(cfg, n)
  {
    if n == 0 {
      s := StartWaiting(cfg);
    } else {
      DueNext(cfg, n - 1);
      var s1 := FailTimes(cfg, n - 1);
      s := FailAndWait(s1, cfg, n - 1);
    }
  }

  lemma FailAndWait(s: Sys, cfg: Settings, n: nat) returns (s': Sys)
    requires ValidSettings(cfg) && LeastElapsedSecs(n) < cfg.retryWindowSecs
    requires Leads(InitSys(0), s, cfg, None) && Waits(s, cfg, n, DueAfter(cfg, n)) && s.now == DueAfter(cfg, n)
    ensures Leads(InitSys(0), s', cfg, None) && Waits(s', cfg, n + 1, DueAfter(cfg, n + 1)) && s'.now == DueAfter(cfg, n + 1)
  {
    DueNext(cfg, n);
    var s1 := FailOnce(InitSys(0), s, cfg, n, DueAfter(cfg, n));
    s' := WaitUntil(InitSys(0), s1, cfg, n + 1, DueAfter(cfg, n + 1));
  }

  lemma DueNext(cfg: Settings, n: nat)
    requires LeastElapsedSecs(n) < cfg.retryWindowSecs
    ensures n >= 1 ==> LeastElapsedSecs(n - 1) < cfg.retryWindowSecs
    ensures DueAfter(cfg, n) < cfg.retryWindowSecs * SECOND && DueAfter(cfg, n) <= DueAfter(cfg, n + 1)
    ensures DueAfter(cfg, n + 1) == Min(cfg.retryWindowSecs * SECOND, DueAfter(cfg, n) + LeastDelaySecs(n + 1) * SECOND)
  {
    LeastElapsedGrows(n);
    if n >= 1 {
      LeastElapsedGrows(n - 1);
    }
  }

  lemma WaitUntil(s0: Sys, s: Sys, cfg: Settings, n: nat, at: Time) returns (s': Sys)
    requires Leads(s0, s, cfg, None) && Waits(s, cfg, n, at) && s.now <= at
    ensures Leads(s0, s', cfg, None) && Waits(s', cfg, n, at) && s'.now == at
  {
    LeadsStep(s0, s, Tick(at), cfg, None);
    s' := Apply(s, Tick(at));
  }

  /** At the deadline the last attempt is recorded without a request. */
  lemma Expire(s0: Sys, s: Sys, cfg: Settings, n: nat, at: Time) returns (s': Sys)
    requires ValidSettings(cfg) && Leads(s0, s, cfg, None) && Waits(s, cfg, n, at)
    requires at <= s.now && cfg.retryWindowSecs * SECOND <= s.now
    ensures Leads(s0, s', cfg, None) && JobZero(s'.db, cfg, n + 1)
  {
    var s1, t1 := Claimed(s0, s, cfg, n, at);
    StepGate(s1, cfg, n, t1);
    LeadsStep(s0, s1, Gate(A, 0), cfg, None);
    var s2, t2 := Apply(s1, Gate(A, 0)), t1.(phase := AfterGate(t1.job, s1.now));
    StepExpire(s2, cfg, n, t2);
    LeadsStep(s0, s2, Commit(A, 0, s2.now), cfg, None);
    s' := Apply(s2, Commit(A, 0, s2.now));
  }

  lemma BoundIsReached(cfg: Settings, n: nat)
    requires Usable(cfg)
    requires n >= 2 ==> LeastElapsedSecs(n - 2) < cfg.retryWindowSecs
    ensures CanHave(cfg, n)
  {
    var s: Sys;
    if n == 0 {
      s := SetUp(cfg, None);
    } else {
      var s1 := FailTimes(cfg, n - 1);
      var at := DueAfter(cfg, n - 1);
      if at < cfg.retryWindowSecs * SECOND {
        s := FailOnce(InitSys(0), s1, cfg, n - 1, at);
      } else {
        s := Expire(InitSys(0), s1, cfg, n - 1, at);
      }
    }
    assert 0 in s.db.jobs && s.db.jobs[0].attemptCount == n;
  }

  lemma CountsAreBounded(cfg: Settings, n: int)
    requires CanHave(cfg, n)
    ensures 0 <= n && (n >= 2 ==> LeastElapsedSecs(n - 2) < cfg.retryWindowSecs)
    ensures Served(cfg.destinations)
  {
    var start, s, id :|
      Leads(InitSys(start), s, cfg, None) && id in s.db.jobs && s.db.jobs[id].attemptCount == n;
    var run :| Carries(InitSys(start), run, s, cfg, None);
    CountOfRun(start, run, cfg, id);
    JobsAreServed(start, s, cfg, None, id);
  }

  lemma RowsInWindow(start: Time, run: seq<Action>, cfg: Settings)
    requires Legal(InitSys(start), run) && OneConfig(run, cfg)
    ensures TablesOk(Run(InitSys(start), run).db) && WindowInv(Run(InitSys(start), run), cfg.retryWindowSecs)
  {
    InvHolds(InitSys(start), run);
    WindowHolds(InitSys(start), run, cfg);
  }

  lemma CountOfRun(start: Time, run: seq<Action>, cfg: Settings, id: Uuid)
    requires Legal(InitSys(start), run) && OneConfig(run, cfg) && id in Run(InitSys(start), run).db.jobs
    ensures var n := Run(InitSys(start), run).db.jobs[id].attemptCount;
            0 <= n && (n >= 2 ==> LeastElapsedSecs(n - 2) < cfg.retryWindowSecs)
  {
    var t := Run(InitSys(start), run).db;
    RowsInWindow(start, run, cfg);
    assert RowOk(t.attempts, id, t.jobs[id]);
    CountFits(t.jobs[id], cfg.retryWindowSecs);
  }

  lemma CountFits(r: JobRow, windowSecs: nat)
    requires PacingOk(r) && r.deadlineAt == r.createdAt + windowSecs * SECOND
    ensures r.attemptCount >= 2 ==> LeastElapsedSecs(r.attemptCount - 2) < windowSecs
  {
    if r.attemptCount >= 2 {
      LeastElapsedGrows(r.attemptCount - 2);
    }
  }

  /** A job of a valid configuration with a destination that can be reached has
      from 0 to `AttemptBound(window)` attempts, and any of these numbers: the bound
      is attained, 96 for three days. */
  lemma CountsExactly(cfg: Settings, n: int)
    requires ValidSettings(cfg) && |cfg.destinations| <= UUID_LIMIT
    ensures CanHave(cfg, n) <==> Served(cfg.destinations) && 0 <= n <= AttemptBound(cfg.retryWindowSecs)
    ensures cfg.retryWindowSecs == 3 * 24 * 60 * 60 ==>
              (CanHave(cfg, n) <==> Served(cfg.destinations) && 0 <= n <= 96)
  {
    if n >= 2 {
      FittingDelaysBoundAttempts(n - 2, cfg.retryWindowSecs);
    }
    if CanHave(cfg, n) {
      CountsAreBounded(cfg, n);
    } else if Served(cfg.destinations) && 0 <= n <= AttemptBound(cfg.retryWindowSecs) {
      BoundIsReached(cfg, n);
    }
  }

  // ---- attempts that are sent ----

  /** Some run of this configuration sends attempt `n` of a job. */
  ghost predicate CanSend(cfg: Settings, n: int) {
    exists start, s, i: nat ::
      Leads(InitSys(start), s, cfg, None) && SentNumbered(s, i, n)
  }

  lemma WireInOrder(start: Time, run: seq<Action>)
    requires Legal(InitSys(start), run)
    ensures WireOk(Run(InitSys(start), run))
  {
    PostsInvHolds(InitSys(start), run);
  }

  lemma SentOnWire(s: Sys, i: nat, windowSecs: nat)
    requires TablesOk(s.db) && WireOk(s) && WindowInv(s, windowSecs) && i < |s.wire|
    ensures && s.wire[i].jobId in s.db.jobs && 1 <= s.wire[i].attempt
            && (s.wire[i].attempt >= 2 ==> LeastElapsedSecs(s.wire[i].attempt - 1) < windowSecs)
  {
    assert PostOk(s.now, s.db, s.wire[i]);
    assert RowOk(s.db.attempts, s.wire[i].jobId, s.db.jobs[s.wire[i].jobId]);
    SentInPace(s.now, s.db, s.wire[i], windowSecs);
  }

  lemma SentInPace(now: Time, t: Tables, p: Post, windowSecs: nat)
    requires PostOk(now, t, p) && RowOk(t.attempts, p.jobId, t.jobs[p.jobId]) && p.attempt >= 1
    requires t.jobs[p.jobId].deadlineAt == t.jobs[p.jobId].createdAt + windowSecs * SECOND
    ensures p.attempt >= 2 ==> LeastElapsedSecs(p.attempt - 1) < windowSecs
  {
    if p.attempt >= 2 {
      var n := p.attempt - 1;
      assert EntryOk(t.jobs[p.jobId], n, t.attempts[AttemptKey(p.jobId, n)]);
    }
  }

  lemma SendsAttempt(cfg: Settings, n: nat)
    requires Usable(cfg) && n >= 1 && LeastElapsedSecs(n - 1) < cfg.retryWindowSecs
    ensures CanSend(cfg, n)
  {
    DueNext(cfg, n - 1);
    var s0 := FailTimes(cfg, n - 1);
    var s1, t1 := ClaimedInTime(InitSys(0), s0, cfg, n - 1, DueAfter(cfg, n - 1));
    SendsNow(s1, cfg, n - 1, t1);
  }

  lemma SendsNow(s: Sys, cfg: Settings, n: nat, task: Task)
    requires Leads(InitSys(0), s, cfg, None) && Attempts(s, cfg, n, task) && task.phase.Cleared?
    ensures CanSend(cfg, n + 1)
  {
    var url := StepRefresh(s, cfg, n, task);
    LeadsStep(InitSys(0), s, Refresh(A, 0), cfg, None);
    var s1, t1 := Apply(s, Refresh(A, 0)), task.(phase := Addressed(url));
    StepBegin(s1, cfg, n, t1);
    LeadsStep(InitSys(0), s1, BeginPost(A, 0), cfg, None);
    var s2 := Apply(s1, BeginPost(A, 0));
    assert s2.wire == s1.wire + [PostOf(t1, url, s1.now)];
    assert SentNumbered(s2, |s1.wire|, n + 1);
  }

  predicate SentNumbered(s: Sys, i: nat, n: int) {
    i < |s.wire| && s.wire[i].attempt == n
  }

  lemma SentIsServed(cfg: Settings, n: int)
    requires CanSend(cfg, n)
    ensures Served(cfg.destinations) && n >= 1 && (n >= 2 ==> LeastElapsedSecs(n - 1) < cfg.retryWindowSecs)
  {
    var start, s, i: nat :| Leads(InitSys(start), s, cfg, None) && SentNumbered(s, i, n);
    SentInRun(start, s, cfg, i);
    JobsAreServed(start, s, cfg, None, s.wire[i].jobId);
  }

  lemma SentInRun(start: Time, s: Sys, cfg: Settings, i: nat)
    requires Leads(InitSys(start), s, cfg, None) && i < |s.wire|
    ensures && s.wire[i].jobId in s.db.jobs && 1 <= s.wire[i].attempt
            && (s.wire[i].attempt >= 2 ==> LeastElapsedSecs(s.wire[i].attempt - 1) < cfg.retryWindowSecs)
  {
    var run :| Carries(InitSys(start), run, s, cfg, None);
    WireInOrder(start, run);
    RowsInWindow(start, run, cfg);
    SentOnWire(s, i, cfg.retryWindowSecs);
  }

  lemma BelowBound(n: int, windowSecs: nat)
    requires windowSecs > 0
    ensures n >= 1 && (n >= 2 ==> LeastElapsedSecs(n - 1) < windowSecs) <==> 1 <= n < AttemptBound(windowSecs)
    ensures 1 <= n < AttemptBound(windowSecs) ==> LeastElapsedSecs(n - 1) < windowSecs
  {
    if n >= 1 {
      FittingDelaysBoundAttempts(n - 1, windowSecs);
      assert LeastElapsedSecs(0) == 0;
    }
  }

  /** The attempts of a job that can be sent are exactly those below the bound: the
      last one can only expire at the deadline. */
  lemma SentExactly(cfg: Settings, n: int)
    requires ValidSettings(cfg) && |cfg.destinations| <= UUID_LIMIT
    ensures CanSend(cfg, n) <==> Served(cfg.destinations) && 1 <= n < AttemptBound(cfg.retryWindowSecs)
  {
    BelowBound(n, cfg.retryWindowSecs);
    if CanSend(cfg, n) {
      SentIsServed(cfg, n);
    } else if Served(cfg.destinations) && 1 <= n < AttemptBound(cfg.retryWindowSecs) {
      SendsAttempt(cfg, n);
    }
  }
}
