/** Exactly when two requests for one job can overlap, as a condition on the
    configuration that all workers and servers share. */
module Overlap {
  import opened Wrappers
  import opened Text
  import opened Retry
  import opened Config
  import opened Schema
  import opened Machine
  import opened Invariants
  import opened Lease
  import opened Extraction
  import opened Scenario

  /** Some run of this configuration, in pace if one is given, has two tasks of
      different workers inside the HTTP call for one job. */
  ghost predicate CanOverlap(cfg: Settings, pace: Option<nat>) {
    exists start, s, w, v, id ::
      Leads(InitSys(start), s, cfg, pace) && w != v && BothSending(s, w, v, id)
  }

  lemma OverlapNeedsRoom(cfg: Settings, pace: Option<nat>)
    requires CanOverlap(cfg, pace)
    ensures cfg.staleDeliveryLockSecs < cfg.retryWindowSecs && Served(cfg.destinations)
    ensures pace.Some? ==> cfg.staleDeliveryLockSecs < pace.value + cfg.deliveryTimeoutSecs
  {
    var start, s, w, v, id :|
      Leads(InitSys(start), s, cfg, pace) && w != v && BothSending(s, w, v, id);
    var run :| Carries(InitSys(start), run, s, cfg, pace);
    OverlapNeeds(start, run, cfg, pace, w, v, id);
    SendersHaveJobs(start, run, w, id);
    JobsAreServed(start, s, cfg, pace, id);
  }

  lemma SendersHaveJobs(start: Time, run: seq<Action>, w: WorkerId, id: Uuid)
    requires Legal(InitSys(start), run) && HasTask(Run(InitSys(start), run), w, id)
    ensures id in Run(InitSys(start), run).db.jobs
  {
    var s := Run(InitSys(start), run);
    InvHolds(InitSys(start), run);
    assert TaskOk(s.now, s.db, w, id, TaskOf(s, w, id));
  }

  // ---- stealing a row from a task that is sending ----

  /** `w` is sending; the thief `v` has just taken the row and stands at `phase`. */
  predicate Stolen(s: Sys, w: WorkerId, v: WorkerId, id: Uuid, phase: Phase) {
    && w != v && HasTask(s, w, id) && TaskOf(s, w, id).phase.Sending?
    && HasTask(s, v, id) && TaskOf(s, v, id).phase == phase && TaskOf(s, v, id).claimedAt == s.now
    && Holds(s.db, TaskOf(s, v, id).job)
    && TaskOf(s, v, id).job.id == id && s.now < TaskOf(s, v, id).job.deadlineAt
  }

  function ClaimOnly(s: Sys, v: WorkerId, id: Uuid): Action {
    Claim(v, s.db.jobs.Keys - {id}, {id})
  }

  lemma ThiefClaims(s: Sys, w: WorkerId, v: WorkerId, id: Uuid)
    requires ForeignKeys(s.db) && w != v && HasTask(s, w, id) && TaskOf(s, w, id).phase.Sending?
    requires id in s.db.jobs && s.db.jobs[id].status == Delivering && s.db.jobs[id].lockedAt.Some?
    requires v in s.workers && s.workers[v].running && s.workers[v].tasks == map[] && ValidSettings(s.workers[v].cfg)
    requires s.db.jobs[id].lockedAt.value + Stale(s.workers[v].cfg) < s.now < s.db.jobs[id].deadlineAt
    ensures Enabled(s, ClaimOnly(s, v, id)) && Stolen(Apply(s, ClaimOnly(s, v, id)), w, v, id, Spawned)
  {
    assert Due(s.db.jobs[id], s.now, Stale(s.workers[v].cfg));
  }

  lemma ThiefPasses(s: Sys, w: WorkerId, v: WorkerId, id: Uuid)
    requires Stolen(s, w, v, id, Spawned)
    ensures Enabled(s, Gate(v, id)) && Stolen(Apply(s, Gate(v, id)), w, v, id, Cleared)
  {
  }

  lemma ThiefResolves(s: Sys, w: WorkerId, v: WorkerId, id: Uuid) returns (url: string)
    requires Stolen(s, w, v, id, Cleared)
    ensures Enabled(s, Refresh(v, id)) && Stolen(Apply(s, Refresh(v, id)), w, v, id, Addressed(url))
  {
    url := ResolveDestinationUrl(s.workers[v].cfg, TaskOf(s, v, id).job).url;
  }

  lemma ThiefSends(s: Sys, w: WorkerId, v: WorkerId, id: Uuid, url: string)
    requires Stolen(s, w, v, id, Addressed(url))
    ensures Enabled(s, BeginPost(v, id)) && BothSending(Apply(s, BeginPost(v, id)), w, v, id)
  {
  }

  /** A row whose lock is stale while its task is sending can be stolen and sent
      again at once; the thief itself is never late. */
  lemma StealWhileSending(s0: Sys, s: Sys, cfg: Settings, pace: Option<nat>, w: WorkerId, v: WorkerId, id: Uuid)
    returns (s': Sys)
    requires Leads(s0, s, cfg, pace)
    requires ForeignKeys(s.db) && w != v && HasTask(s, w, id) && TaskOf(s, w, id).phase.Sending?
    requires id in s.db.jobs && s.db.jobs[id].status == Delivering && s.db.jobs[id].lockedAt.Some?
    requires v in s.workers && s.workers[v].running && s.workers[v].tasks == map[] && ValidSettings(s.workers[v].cfg)
    requires s.db.jobs[id].lockedAt.value + Stale(s.workers[v].cfg) < s.now < s.db.jobs[id].deadlineAt
    ensures Leads(s0, s', cfg, pace) && BothSending(s', w, v, id)
  {
    ThiefClaims(s, w, v, id);
    LeadsStep(s0, s, ClaimOnly(s, v, id), cfg, pace);
    var s1 := Apply(s, ClaimOnly(s, v, id));
    ThiefPasses(s1, w, v, id);
    LeadsStep(s0, s1, Gate(v, id), cfg, pace);
    var s2 := Apply(s1, Gate(v, id));
    var url := ThiefResolves(s2, w, v, id);
    LeadsStep(s0, s2, Refresh(v, id), cfg, pace);
    var s3 := Apply(s2, Refresh(v, id));
    ThiefSends(s3, w, v, id, url);
    LeadsStep(s0, s3, BeginPost(v, id), cfg, pace);
    s' := Apply(s3, BeginPost(v, id));
  }

  /** When the thief first sees the lock as stale. */
  function StealTime(s: Sys, w: WorkerId, v: WorkerId, id: Uuid): Time
    requires HasTask(s, w, id) && v in s.workers
  {
    Max(s.now, TaskOf(s, w, id).claimedAt + Stale(s.workers[v].cfg) + 1)
  }

  /** Without a pace every reachable state in which a task holds its row and is
      about to send is only a few steps from an overlap, if another worker is
      idle and the lease runs out before the deadline. */
  lemma LateStartOverlaps(s: Sys, w: WorkerId, v: WorkerId, id: Uuid) returns (run: seq<Action>)
    requires Reached(s) && w != v
    requires HasTask(s, w, id) && TaskOf(s, w, id).phase.Addressed? && Holds(s.db, TaskOf(s, w, id).job)
    requires v in s.workers && s.workers[v].running && s.workers[v].tasks == map[]
    requires StealTime(s, w, v, id) < TaskOf(s, w, id).job.deadlineAt
    ensures Legal(s, run) && BothSending(Run(s, run), w, v, id)
  {
    Reachable(s);
    var cfg := s.workers[v].cfg;
    assert TaskOk(s.now, s.db, w, id, TaskOf(s, w, id));
    LeadsNowhere(s, cfg, None);
    LeadsStep(s, s, BeginPost(w, id), cfg, None);
    var s1 := Apply(s, BeginPost(w, id));
    LeadsStep(s, s1, Tick(StealTime(s, w, v, id)), cfg, None);
    var s' := StealWhileSending(s, Apply(s1, Tick(StealTime(s, w, v, id))), cfg, None, w, v, id);
    run :| Carries(s, run, s', cfg, None);
  }

  // ---- a run that overlaps ----

  lemma OnlyTask(s: Sys, cfg: Settings, n: nat, task: Task, w: WorkerId, id: Uuid)
    requires Attempts(s, cfg, n, task) && HasTask(s, w, id)
    ensures w == A && id == 0 && TaskOf(s, w, id) == task
  {
  }

  /** Time may pass while A's task is not sending or still within its timeout. */
  lemma TickInPace(s: Sys, cfg: Settings, n: nat, task: Task, to: Time, pace: Option<nat>)
    requires Attempts(s, cfg, n, task) && s.now <= to && InTime(cfg, task, to)
    ensures Enabled(s, Tick(to)) && Timely(s, Tick(to), pace)
    ensures Attempts(Apply(s, Tick(to)), cfg, n, task)
  {
    forall w, id | HasTask(s, w, id) ensures InTime(s.workers[w].cfg, TaskOf(s, w, id), to) {
      OnlyTask(s, cfg, n, task, w, id);
    }
  }

  /** A claims job 0 at time 0, and starts its request at `begin`. */
  lemma SendAt(cfg: Settings, slack: nat, begin: Time) returns (s: Sys, task: Task)
    requires Usable(cfg) && 0 <= begin <= slack * SECOND
    ensures Leads(InitSys(0), s, cfg, Some(slack)) && s.now == begin
    ensures Attempts(s, cfg, 0, task) && task.phase.Sending? && task.phase.startedAt == begin && task.claimedAt == 0
  {
    var init, pace := InitSys(0), Some(slack);
    var s0 := SetUp(cfg, pace);
    var t0 := StepClaim(s0, cfg, 0, 0);
    LeadsStep(init, s0, ClaimZero(s0, A), cfg, pace);
    var s1 := Apply(s0, ClaimZero(s0, A));
    StepGate(s1, cfg, 0, t0);
    LeadsStep(init, s1, Gate(A, 0), cfg, pace);
    var s2, t1 := Apply(s1, Gate(A, 0)), t0.(phase := Cleared);
    var url := StepRefresh(s2, cfg, 0, t1);
    LeadsStep(init, s2, Refresh(A, 0), cfg, pace);
    var s3, t2 := Apply(s2, Refresh(A, 0)), t1.(phase := Addressed(url));
    TickInPace(s3, cfg, 0, t2, begin, pace);
    LeadsStep(init, s3, Tick(begin), cfg, pace);
    var s4 := Apply(s3, Tick(begin));
    StepBegin(s4, cfg, 0, t2);
    LeadsStep(init, s4, BeginPost(A, 0), cfg, pace);
    s, task := Apply(s4, BeginPost(A, 0)), t2.(phase := Sending(url, begin));
  }

  /** If a request may still be running just after the lease, and the deadline is
      later, it overlaps with the next one. */
  lemma RoomForOverlap(cfg: Settings, slack: nat)
    requires Usable(cfg)
    requires cfg.staleDeliveryLockSecs < cfg.retryWindowSecs
    requires cfg.staleDeliveryLockSecs < slack + cfg.deliveryTimeoutSecs
    ensures CanOverlap(cfg, Some(slack))
  {
    var steal := Stale(cfg) + 1;
    var s, task := SendAt(cfg, slack, steal - cfg.deliveryTimeoutSecs * SECOND);
    TickInPace(s, cfg, 0, task, steal, Some(slack));
    LeadsStep(InitSys(0), s, Tick(steal), cfg, Some(slack));
    var s' := StealWhileSending(InitSys(0), Apply(s, Tick(steal)), cfg, Some(slack), A, B, 0);
    assert A != B;
  }

  // ---- theorems ----

  /** In pace, an overlap is possible exactly when some destination can be reached
      and the lease ends before the deadline and before a request started at the
      last moment would time out. */
  lemma OverlapExactlyWhen(cfg: Settings, slack: nat)
    requires ValidSettings(cfg) && |cfg.destinations| <= UUID_LIMIT
    ensures CanOverlap(cfg, Some(slack)) <==>
              && Served(cfg.destinations)
              && cfg.staleDeliveryLockSecs < cfg.retryWindowSecs
              && cfg.staleDeliveryLockSecs < slack + cfg.deliveryTimeoutSecs
  {
    if CanOverlap(cfg, Some(slack)) {
      OverlapNeedsRoom(cfg, Some(slack));
    } else if Served(cfg.destinations)
              && cfg.staleDeliveryLockSecs < cfg.retryWindowSecs
              && cfg.staleDeliveryLockSecs < slack + cfg.deliveryTimeoutSecs {
      RoomForOverlap(cfg, slack);
    }
  }

  lemma AnyPaceWillDo(cfg: Settings, slack: nat)
    requires CanOverlap(cfg, Some(slack))
    ensures CanOverlap(cfg, None)
  {
    var start, s, w, v, id :|
      Leads(InitSys(start), s, cfg, Some(slack)) && w != v && BothSending(s, w, v, id);
    var run :| Carries(InitSys(start), run, s, cfg, Some(slack));
    Unhurried(InitSys(start), run);
    assert Carries(InitSys(start), run, s, cfg, None);
    assert Leads(InitSys(start), s, cfg, None);
  }

  lemma {:induction false} Unhurried(s: Sys, run: seq<Action>)
    requires Legal(s, run)
    ensures TimelyRun(s, run, None)
    decreases |run|
  {
    if run != [] {
      Unhurried(Apply(s, run[0]), run[1..]);
    }
  }

  /** With no bound on how late a request starts, an overlap is possible exactly
      when the lease ends before the deadline; then some bound is still too long,
      even if every request keeps to its timeout. */
  lemma UntimedOverlapExactlyWhen(cfg: Settings)
    requires ValidSettings(cfg) && |cfg.destinations| <= UUID_LIMIT
    ensures CanOverlap(cfg, None) <==> Served(cfg.destinations) && cfg.staleDeliveryLockSecs < cfg.retryWindowSecs
    ensures CanOverlap(cfg, None) <==> exists slack: nat :: CanOverlap(cfg, Some(slack))
  {
    if Served(cfg.destinations) && cfg.staleDeliveryLockSecs < cfg.retryWindowSecs {
      var slack: nat := cfg.staleDeliveryLockSecs + 1;
      RoomForOverlap(cfg, slack);
      AnyPaceWillDo(cfg, slack);
    }
    if CanOverlap(cfg, None) {
      OverlapNeedsRoom(cfg, None);
    }
    forall slack: nat | CanOverlap(cfg, Some(slack)) ensures CanOverlap(cfg, None) {
      AnyPaceWillDo(cfg, slack);
    }
  }
}
