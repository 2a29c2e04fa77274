/** Leases over all runs: claims of one job by different workers lie more than a
    lease apart, and so, with the timing of requests, at most one task per job is
    inside the HTTP call (src/config.rs, src/db.rs, src/delivery.rs). */
module Lease {
  import opened Wrappers
  import opened Text
  import opened Retry
  import opened Config
  import opened Schema
  import opened Machine
  import opened Invariants
  import opened Events

  // ---- leases ----

  /** Every worker started in the run holds its locks for at least `lease` seconds. */
  predicate Lasting(run: seq<Action>, lease: int) {
    forall i :: 0 <= i < |run| && run[i].StartWorker? ==> lease <= run[i].cfg.staleDeliveryLockSecs
  }

  /** Until its lease runs out a task holds its row. */
  predicate LeaseOk(now: Time, t: Tables, task: Task, lease: int) {
    now <= task.claimedAt + lease * SECOND ==> Holds(t, task.job)
  }

  /** Two claims more than a lease apart. */
  predicate Apart(a: Task, b: Task, lease: int) {
    a.claimedAt + lease * SECOND < b.claimedAt || b.claimedAt + lease * SECOND < a.claimedAt
  }

  ghost predicate LeaseInv(s: Sys, lease: int) {
    && (forall w :: w in s.workers ==> lease <= s.workers[w].cfg.staleDeliveryLockSecs)
    && (forall w, id :: HasTask(s, w, id) ==> LeaseOk(s.now, s.db, TaskOf(s, w, id), lease))
    && (forall w, v, id :: w != v && HasTask(s, w, id) && HasTask(s, v, id) ==>
          Apart(TaskOf(s, w, id), TaskOf(s, v, id), lease))
  }

  /** Within its lease no step of anyone else takes a row away from its task. */
  lemma RowStaysHeld(s: Sys, a: Action, lease: int, w: WorkerId, id: Uuid)
    requires Enabled(s, a) && HasTask(s, w, id) && HasTask(Apply(s, a), w, id)
    requires TaskOk(s.now, s.db, w, id, TaskOf(s, w, id)) && Holds(s.db, TaskOf(s, w, id).job)
    requires TaskAction(a) ==> TaskOk(s.now, s.db, a.w, a.id, TaskOf(s, a.w, a.id))
    requires IsClaim(a) ==> lease <= s.workers[a.w].cfg.staleDeliveryLockSecs
    requires s.now <= TaskOf(s, w, id).claimedAt + lease * SECOND
    ensures Holds(Apply(s, a).db, TaskOf(s, w, id).job)
  {
    if IsClaim(a) {
      assert id !in a.picked;
    } else if a.CommitEnqueue? {
      EnqueueGrows(s.db, s.requests[a.r], a.eventRowId, a.ids);
    }
  }

  lemma LeaseTask(s: Sys, a: Action, lease: int, w: WorkerId, id: Uuid)
    requires Enabled(s, a) && HasTask(Apply(s, a), w, id)
    requires HasTask(s, w, id) ==>
               TaskOk(s.now, s.db, w, id, TaskOf(s, w, id)) && LeaseOk(s.now, s.db, TaskOf(s, w, id), lease)
    requires TaskAction(a) ==> TaskOk(s.now, s.db, a.w, a.id, TaskOf(s, a.w, a.id))
    requires IsClaim(a) ==> lease <= s.workers[a.w].cfg.staleDeliveryLockSecs
    ensures LeaseOk(Apply(s, a).now, Apply(s, a).db, TaskOf(Apply(s, a), w, id), lease)
  {
    TaskOrigin(s, a, w, id);
    WireAndClockGrow(s, a);
    if HasTask(s, w, id) && s.now <= TaskOf(s, w, id).claimedAt + lease * SECOND {
      RowStaysHeld(s, a, lease, w, id);
    }
  }

  /** A task was there before, with the same snapshot and claim, or a claim has just spawned it. */
  lemma TaskOrigin(s: Sys, a: Action, w: WorkerId, id: Uuid)
    requires Enabled(s, a) && HasTask(Apply(s, a), w, id)
    ensures var task := TaskOf(Apply(s, a), w, id);
            || (HasTask(s, w, id) && task.job == TaskOf(s, w, id).job && task.claimedAt == TaskOf(s, w, id).claimedAt)
            || (a.Claim? && a.w == w && id in a.picked && task == Task(Snapshot(s.db, id, w), s.now, Spawned))
  {
    if TaskAction(a) {
      OwnTaskOrigin(s, a, w, id);
    } else {
      OtherTaskOrigin(s, a, w, id);
    }
  }

  /** A new claim finds every other task of the job past its lease. */
  lemma ClaimFindsLeaseOver(s: Sys, v: WorkerId, skipped: set<Uuid>, picked: set<Uuid>, lease: int, w: WorkerId, id: Uuid)
    requires MayClaim(s, v, skipped, picked) && id in picked && lease <= s.workers[v].cfg.staleDeliveryLockSecs
    requires HasTask(s, w, id) && TaskOk(s.now, s.db, w, id, TaskOf(s, w, id))
    requires LeaseOk(s.now, s.db, TaskOf(s, w, id), lease)
    ensures TaskOf(s, w, id).claimedAt + lease * SECOND < s.now
  {
    assert Due(s.db.jobs[id], s.now, Stale(s.workers[v].cfg));
  }

  lemma ApartStep(s: Sys, a: Action, lease: int, w: WorkerId, v: WorkerId, id: Uuid)
    requires Inv(s) && LeaseInv(s, lease) && Enabled(s, a) && w != v
    requires HasTask(Apply(s, a), w, id) && HasTask(Apply(s, a), v, id)
    ensures Apart(TaskOf(Apply(s, a), w, id), TaskOf(Apply(s, a), v, id), lease)
  {
    TaskOrigin(s, a, w, id);
    TaskOrigin(s, a, v, id);
    if HasTask(s, w, id) && HasTask(s, v, id) {
      assert Apart(TaskOf(s, w, id), TaskOf(s, v, id), lease);
    }
    if a.Claim? && id in a.picked {
      var other := if a.w == v then w else v;
      assert HasTask(s, other, id) && TaskOk(s.now, s.db, other, id, TaskOf(s, other, id));
      ClaimFindsLeaseOver(s, a.w, a.skipped, a.picked, lease, other, id);
    }
  }

  lemma WorkersKeepLease(s: Sys, a: Action, lease: int)
    requires LeaseInv(s, lease) && Enabled(s, a) && (a.StartWorker? ==> lease <= a.cfg.staleDeliveryLockSecs)
    ensures forall w :: w in Apply(s, a).workers ==> lease <= Apply(s, a).workers[w].cfg.staleDeliveryLockSecs
  {
    forall w | w in Apply(s, a).workers ensures lease <= Apply(s, a).workers[w].cfg.staleDeliveryLockSecs {
      SettingsOrigin(s, a, w);
    }
  }

  lemma LeaseStep(s: Sys, a: Action, lease: int)
    requires Inv(s) && LeaseInv(s, lease) && Enabled(s, a) && (a.StartWorker? ==> lease <= a.cfg.staleDeliveryLockSecs)
    ensures LeaseInv(Apply(s, a), lease)
  {
    var s' := Apply(s, a);
    assert TaskAction(a) ==> TaskOk(s.now, s.db, a.w, a.id, TaskOf(s, a.w, a.id));
    forall w, id | HasTask(s', w, id) ensures LeaseOk(s'.now, s'.db, TaskOf(s', w, id), lease) {
      if HasTask(s, w, id) {
        assert TaskOk(s.now, s.db, w, id, TaskOf(s, w, id));
      }
      LeaseTask(s, a, lease, w, id);
    }
    forall w, v, id | w != v && HasTask(s', w, id) && HasTask(s', v, id)
      ensures Apart(TaskOf(s', w, id), TaskOf(s', v, id), lease)
    {
      ApartStep(s, a, lease, w, v, id);
    }
    WorkersKeepLease(s, a, lease);
  }

  lemma {:induction false} LeaseInvHolds(s: Sys, run: seq<Action>, lease: int)
    requires Inv(s) && ConfigsOk(s) && LeaseInv(s, lease) && Legal(s, run) && Lasting(run, lease)
    ensures LeaseInv(Run(s, run), lease)
    decreases |run|
  {
    if run != [] {
      Step(s, run[0]);
      ConfigsStep(s, run[0]);
      LeaseStep(s, run[0], lease);
      assert forall i :: 0 <= i < |run[1..]| ==> run[1..][i] == run[i + 1];
      LeaseInvHolds(Apply(s, run[0]), run[1..], lease);
    }
  }

  /** In every state of every run two tasks of one job were claimed more than a
      lease apart, although locks are never renewed. */
  lemma ClaimsAreLeaseApart(start: Time, run: seq<Action>, lease: int, w: WorkerId, v: WorkerId, id: Uuid)
    requires Legal(InitSys(start), run) && Lasting(run, lease) && w != v
    requires HasTask(Run(InitSys(start), run), w, id) && HasTask(Run(InitSys(start), run), v, id)
    ensures var s := Run(InitSys(start), run); Apart(TaskOf(s, w, id), TaskOf(s, v, id), lease)
  {
    LeaseInvHolds(InitSys(start), run, lease);
  }

  /** A task that records within its lease is never displaced: its outcome commits,
      unless the wrapped duration is negative and the row CHECK refuses it. */
  lemma OutcomeWithinLeaseCommits(start: Time, run: seq<Action>, lease: int, w: WorkerId, id: Uuid, at: Time)
    requires Legal(InitSys(start), run) && Lasting(run, lease)
    requires var s := Run(InitSys(start), run);
             Enabled(s, Commit(w, id, at)) && s.now <= TaskOf(s, w, id).claimedAt + lease * SECOND
    ensures var s := Run(InitSys(start), run);
            var task := TaskOf(s, w, id);
            RecordOutcome(s.db, task.job, task.phase.outcome, task.phase.durationMs, at)
              == if WrapI32(task.phase.durationMs) >= 0 then Recorded else Rejected
  {
    InvHolds(InitSys(start), run);
    LeaseInvHolds(InitSys(start), run, lease);
    var s := Run(InitSys(start), run);
    assert LeaseOk(s.now, s.db, TaskOf(s, w, id), lease);
    assert TaskOk(s.now, s.db, w, id, TaskOf(s, w, id));
    assert RowOk(s.db.attempts, id, s.db.jobs[id]);
  }

  /** A request that starts within its lease starts while its task holds the row:
      the job is open, and the attempt is its next. */
  lemma StartsWhileHolding(start: Time, run: seq<Action>, lease: int, w: WorkerId, id: Uuid)
    requires Legal(InitSys(start), run) && Lasting(run, lease)
    requires var s := Run(InitSys(start), run);
             Enabled(s, BeginPost(w, id)) && s.now <= TaskOf(s, w, id).claimedAt + lease * SECOND
    ensures var s := Run(InitSys(start), run);
            && Holds(s.db, TaskOf(s, w, id).job)
            && id in s.db.jobs && s.db.jobs[id].status == Delivering
            && s.db.jobs[id].attemptCount == TaskOf(s, w, id).job.attemptCount
  {
    var s := Run(InitSys(start), run);
    InvHolds(InitSys(start), run);
    LeaseInvHolds(InitSys(start), run, lease);
    assert LeaseOk(s.now, s.db, TaskOf(s, w, id), lease);
    assert TaskOk(s.now, s.db, w, id, TaskOf(s, w, id));
  }

  // ---- timing ----

  /** A pace, if there is one: requests start within so many seconds of their claim
      and end within the client's timeout. */
  ghost predicate Timely(s: Sys, a: Action, pace: Option<nat>)
    requires Enabled(s, a)
  {
    pace.Some? ==>
      match a
      case BeginPost(w, id) => s.now <= TaskOf(s, w, id).claimedAt + pace.value * SECOND
      case Tick(to) => forall w, id :: HasTask(s, w, id) ==> InTime(s.workers[w].cfg, TaskOf(s, w, id), to)
      case _ => true
  }

  predicate InTime(cfg: Settings, task: Task, now: Time) {
    task.phase.Sending? ==> now <= task.phase.startedAt + cfg.deliveryTimeoutSecs * SECOND
  }

  ghost predicate TimelyRun(s: Sys, run: seq<Action>, pace: Option<nat>)
    requires Legal(s, run)
    decreases |run|
  {
    run == [] || (Timely(s, run[0], pace) && TimelyRun(Apply(s, run[0]), run[1..], pace))
  }

  /** A request in progress began in pace and has not timed out. */
  predicate TimingOk(now: Time, cfg: Settings, task: Task, slack: nat) {
    && InTime(cfg, task, now)
    && (task.phase.Sending? ==> task.phase.startedAt <= task.claimedAt + slack * SECOND)
  }

  ghost predicate TimingInv(s: Sys, slack: nat) {
    forall w, id :: HasTask(s, w, id) ==> TimingOk(s.now, s.workers[w].cfg, TaskOf(s, w, id), slack)
  }

  lemma TimingTask(s: Sys, a: Action, slack: nat, w: WorkerId, id: Uuid)
    requires TimingInv(s, slack) && Enabled(s, a) && Timely(s, a, Some(slack))
    requires HasTask(Apply(s, a), w, id)
    ensures TimingOk(Apply(s, a).now, Apply(s, a).workers[w].cfg, TaskOf(Apply(s, a), w, id), slack)
  {
    if !TaskAction(a) {
      OtherTaskOrigin(s, a, w, id);
    } else {
      OwnTaskOrigin(s, a, w, id);
      if !ActsOn(a, w, id) {
        assert TimingOk(s.now, s.workers[w].cfg, TaskOf(s, w, id), slack);
      }
    }
  }

  lemma {:induction false} TimingHolds(s: Sys, run: seq<Action>, slack: nat)
    requires TimingInv(s, slack) && Legal(s, run) && TimelyRun(s, run, Some(slack))
    ensures TimingInv(Run(s, run), slack)
    decreases |run|
  {
    if run != [] {
      var s' := Apply(s, run[0]);
      forall w, id | HasTask(s', w, id) ensures TimingOk(s'.now, s'.workers[w].cfg, TaskOf(s', w, id), slack) {
        TimingTask(s, run[0], slack, w, id);
      }
      TimingHolds(s', run[1..], slack);
    }
  }

  // ---- exclusion ----

  /** Two tasks for one job, both inside the HTTP call. */
  predicate BothSending(s: Sys, w: WorkerId, v: WorkerId, id: Uuid) {
    && HasTask(s, w, id) && TaskOf(s, w, id).phase.Sending?
    && HasTask(s, v, id) && TaskOf(s, v, id).phase.Sending?
  }

  /** Each worker's requests, started within `slack`, are over before `lease` is. */
  predicate Fits(run: seq<Action>, lease: int, slack: nat) {
    forall i :: 0 <= i < |run| && run[i].StartWorker? ==>
      slack + run[i].cfg.deliveryTimeoutSecs <= lease <= run[i].cfg.staleDeliveryLockSecs
  }

  lemma {:induction false} StartedWith(s: Sys, run: seq<Action>, w: WorkerId)
    requires Legal(s, run) && w in Run(s, run).workers
    ensures || (w in s.workers && Run(s, run).workers[w].cfg == s.workers[w].cfg)
            || (exists i :: 0 <= i < |run| && run[i].StartWorker? && run[i].cfg == Run(s, run).workers[w].cfg)
    decreases |run|
  {
    if run != [] {
      var s' := Apply(s, run[0]);
      StartedWith(s', run[1..], w);
      if w in s'.workers && Run(s, run).workers[w].cfg == s'.workers[w].cfg {
        SettingsOrigin(s, run[0], w);
      } else {
        var i :| 0 <= i < |run[1..]| && run[1..][i].StartWorker? && run[1..][i].cfg == Run(s, run).workers[w].cfg;
        assert run[i + 1] == run[1..][i];
      }
    }
  }

  /** The one that claimed first must have started late or overrun: otherwise its
      request was over before the second claim. */
  lemma OverlapTakesTime(now: Time, cfg: Settings, first: Task, second: Task, lease: int, slack: nat)
    requires first.phase.Sending? && second.phase.Sending? && TimingOk(now, cfg, first, slack)
    requires first.claimedAt + lease * SECOND < second.claimedAt <= second.phase.startedAt <= now
    ensures lease < slack + cfg.deliveryTimeoutSecs
  {
  }

  /** Of two overlapping requests, the later claim came after the whole lease of the earlier. */
  lemma OverlapIsLong(start: Time, run: seq<Action>, lease: int, w: WorkerId, v: WorkerId, id: Uuid)
    returns (first: WorkerId, second: WorkerId)
    requires Legal(InitSys(start), run) && Lasting(run, lease) && w != v
    requires BothSending(Run(InitSys(start), run), w, v, id)
    ensures BothSending(Run(InitSys(start), run), first, second, id)
    ensures var s := Run(InitSys(start), run);
            && TaskOf(s, first, id).claimedAt + lease * SECOND < TaskOf(s, second, id).claimedAt
            && TaskOf(s, second, id).claimedAt <= TaskOf(s, second, id).phase.startedAt <= s.now
            && id in s.db.jobs && s.db.jobs[id].createdAt <= TaskOf(s, first, id).claimedAt
            && TaskOf(s, second, id).claimedAt < s.db.jobs[id].deadlineAt
  {
    var s := Run(InitSys(start), run);
    ClaimsAreLeaseApart(start, run, lease, w, v, id);
    InvHolds(InitSys(start), run);
    first, second := w, v;
    if TaskOf(s, v, id).claimedAt < TaskOf(s, w, id).claimedAt {
      first, second := v, w;
    }
    assert TaskOk(s.now, s.db, first, id, TaskOf(s, first, id));
    assert TaskOk(s.now, s.db, second, id, TaskOf(s, second, id));
  }

  /** Two overlapping requests of a run in pace show a worker whose requests do not fit the lease. */
  lemma OverlapBreaksFit(start: Time, run: seq<Action>, lease: int, slack: nat, w: WorkerId, v: WorkerId, id: Uuid)
    returns (i: nat)
    requires Legal(InitSys(start), run) && TimelyRun(InitSys(start), run, Some(slack)) && Lasting(run, lease)
    requires w != v && BothSending(Run(InitSys(start), run), w, v, id)
    ensures i < |run| && run[i].StartWorker? && lease < slack + run[i].cfg.deliveryTimeoutSecs
  {
    var first, second := OverlapIsLong(start, run, lease, w, v, id);
    var s := Run(InitSys(start), run);
    TimingHolds(InitSys(start), run, slack);
    assert TimingOk(s.now, s.workers[first].cfg, TaskOf(s, first, id), slack);
    OverlapTakesTime(s.now, s.workers[first].cfg, TaskOf(s, first, id), TaskOf(s, second, id), lease, slack);
    StartedWith(InitSys(start), run, first);
    i :| 0 <= i < |run| && run[i].StartWorker? && run[i].cfg == s.workers[first].cfg;
  }

  /** In every state of a run in pace at most one task per job is inside the HTTP
      call, if leases outlast slack and timeout together. */
  lemma AtMostOneRequestPerJob(start: Time, run: seq<Action>, lease: int, slack: nat, w: WorkerId, v: WorkerId, id: Uuid)
    requires Legal(InitSys(start), run) && TimelyRun(InitSys(start), run, Some(slack)) && Fits(run, lease, slack)
    requires BothSending(Run(InitSys(start), run), w, v, id)
    ensures w == v
  {
    if w != v {
      var i := OverlapBreaksFit(start, run, lease, slack, w, v, id);
    }
  }

  // ---- one configuration ----

  /** All workers and all servers run one configuration. */
  predicate OneConfig(run: seq<Action>, cfg: Settings) {
    forall i :: 0 <= i < |run| && (run[i].StartWorker? || run[i].Receive?) ==> run[i].cfg == cfg
  }

  /** Deadlines lie a retry window after creation. */
  ghost predicate WindowInv(s: Sys, windowSecs: nat) {
    && (forall id :: id in s.db.jobs ==> s.db.jobs[id].deadlineAt == s.db.jobs[id].createdAt + windowSecs * SECOND)
    && (forall r :: r in s.requests ==> s.requests[r].windowSecs == windowSecs)
  }

  lemma WindowOfRequests(s: Sys, a: Action, windowSecs: nat)
    requires WindowInv(s, windowSecs) && Enabled(s, a) && (a.Receive? ==> a.cfg.retryWindowSecs == windowSecs)
    ensures forall r :: r in Apply(s, a).requests ==> Apply(s, a).requests[r].windowSecs == windowSecs
  {
  }

  lemma WindowStep(s: Sys, a: Action, windowSecs: nat)
    requires Inv(s) && WindowInv(s, windowSecs) && Enabled(s, a) && (a.Receive? ==> a.cfg.retryWindowSecs == windowSecs)
    ensures WindowInv(Apply(s, a), windowSecs)
  {
    WindowOfRequests(s, a, windowSecs);
    if a.CommitEnqueue? {
      WindowOfNewJobs(s.db, s.requests[a.r], a.eventRowId, a.ids, windowSecs);
    } else {
      StepGrows(s, a);
      OnlyEnqueueAdds(s, a);
      WindowKept(s.db, Apply(s, a).db, windowSecs);
    }
  }

  lemma WindowKept(t: Tables, t': Tables, windowSecs: nat)
    requires forall id :: id in t.jobs ==> t.jobs[id].deadlineAt == t.jobs[id].createdAt + windowSecs * SECOND
    requires Grows(t, t') && t'.jobs.Keys == t.jobs.Keys
    ensures forall id :: id in t'.jobs ==> t'.jobs[id].deadlineAt == t'.jobs[id].createdAt + windowSecs * SECOND
  {
    forall id | id in t'.jobs ensures t'.jobs[id].deadlineAt == t'.jobs[id].createdAt + windowSecs * SECOND {
      assert SameJob(t.jobs[id], t'.jobs[id]);
    }
  }

  lemma WindowOfNewJobs(t: Tables, r: Incoming, eventRowId: Uuid, ids: seq<Uuid>, windowSecs: nat)
    requires forall id :: id in t.jobs ==> t.jobs[id].deadlineAt == t.jobs[id].createdAt + windowSecs * SECOND
    requires ForeignKeys(t) && |ids| == |r.destinations| && r.windowSecs == windowSecs
    ensures var t' := AfterEnqueue(t, r, eventRowId, ids);
            forall id :: id in t'.jobs ==> t'.jobs[id].deadlineAt == t'.jobs[id].createdAt + windowSecs * SECOND
  {
    if Enqueue(t, r, eventRowId, ids).Inserted? {
      var t' := AfterEnqueue(t, r, eventRowId, ids);
      EnqueueAdds(t, r, eventRowId, ids);
      forall id | id in t'.jobs ensures t'.jobs[id].deadlineAt == t'.jobs[id].createdAt + windowSecs * SECOND {
        AddedRow(t, t', r, eventRowId, ids, id);
      }
    }
  }

  lemma {:induction false} WindowHolds(s: Sys, run: seq<Action>, cfg: Settings)
    requires Inv(s) && ConfigsOk(s) && WindowInv(s, cfg.retryWindowSecs) && Legal(s, run) && OneConfig(run, cfg)
    ensures WindowInv(Run(s, run), cfg.retryWindowSecs)
    decreases |run|
  {
    if run != [] {
      Step(s, run[0]);
      ConfigsStep(s, run[0]);
      WindowStep(s, run[0], cfg.retryWindowSecs);
      assert forall i :: 0 <= i < |run[1..]| ==> run[1..][i] == run[i + 1];
      WindowHolds(Apply(s, run[0]), run[1..], cfg);
    }
  }

  /** What an overlap says of the configuration, with and without a pace. */
  lemma OverlapNeeds(start: Time, run: seq<Action>, cfg: Settings, pace: Option<nat>, w: WorkerId, v: WorkerId, id: Uuid)
    requires Legal(InitSys(start), run) && OneConfig(run, cfg) && TimelyRun(InitSys(start), run, pace)
    requires w != v && BothSending(Run(InitSys(start), run), w, v, id)
    ensures cfg.staleDeliveryLockSecs < cfg.retryWindowSecs
    ensures pace.Some? ==> cfg.staleDeliveryLockSecs < pace.value + cfg.deliveryTimeoutSecs
  {
    var lease := cfg.staleDeliveryLockSecs;
    var first, second := OverlapIsLong(start, run, lease, w, v, id);
    WindowHolds(InitSys(start), run, cfg);
    if pace.Some? {
      var i := OverlapBreaksFit(start, run, lease, pace.value, w, v, id);
    }
  }

  /** Validation demands a lease of more than the timeout plus five seconds; so for
      workers that share any valid configuration requests that start within five
      seconds of their claim never overlap. */
  lemma OneConfigExcludesOverlap(start: Time, run: seq<Action>, cfg: Settings, w: WorkerId, v: WorkerId, id: Uuid)
    requires Legal(InitSys(start), run) && TimelyRun(InitSys(start), run, Some(5))
    requires forall i :: 0 <= i < |run| && run[i].StartWorker? ==> run[i].cfg == cfg
    requires BothSending(Run(InitSys(start), run), w, v, id)
    ensures w == v
  {
    var s := Run(InitSys(start), run);
    InvHolds(InitSys(start), run);
    StartedWith(InitSys(start), run, w);
    assert ValidSettings(s.workers[w].cfg);
    AtMostOneRequestPerJob(start, run, cfg.staleDeliveryLockSecs, 5, w, v, id);
  }
}
