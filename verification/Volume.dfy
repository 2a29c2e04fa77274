/** How many requests a job can cause in all, those of displaced tasks included. */
module Volume {
  import opened Text
  import opened Retry
  import opened Schema
  import opened Machine
  import opened Invariants
  import opened Posts
  import opened Events
  import opened Lease

  // ---- arithmetic ----

  /** The whole leases of `d` that a stretch of time holds. */
  function Leases(time: int, d: int): int
    requires d > 0
  {
    time / d
  }

  lemma LeasesBounds(time: int, d: int)
    requires d > 0
    ensures Leases(time, d) * d <= time < (Leases(time, d) + 1) * d
  {
  }

  lemma LessFromProduct(a: int, b: int, d: int)
    requires d > 0 && a * d < b * d
    ensures a < b
  {
    if b <= a {
      ProductGrows(b, a, d);
    }
  }

  lemma ProductGrows(a: int, b: int, d: int)
    requires d > 0 && a <= b
    ensures a * d <= b * d
  {
  }

  lemma LeasesGrow(a: int, b: int, k: int, d: int)
    requires d > 0 && a + k * d <= b
    ensures Leases(a, d) + k <= Leases(b, d)
  {
    LeasesBounds(a, d);
    LeasesBounds(b, d);
    var i, j := Leases(a, d), Leases(b, d);
    assert (i + k) * d == i * d + k * d;
    LessFromProduct(i + k, j + 1, d);
  }

  lemma LeasesBelow(time: int, q: int, d: int)
    requires d > 0 && time < (q + 1) * d
    ensures Leases(time, d) <= q
  {
    LeasesBounds(time, d);
    LessFromProduct(Leases(time, d), q + 1, d);
  }

  lemma LeasesExact(q: int, d: int)
    requires d > 0
    ensures Leases(q * d, d) == q
  {
    LeasesGrow(0, q * d, q, d);
    assert (q + 1) * d == q * d + d;
    LeasesBelow(q * d, q, d);
  }

  lemma LeasesOfWindow(windowSecs: nat, lease: nat)
    requires lease > 0
    ensures Leases(windowSecs * SECOND, lease * SECOND) == windowSecs / lease
  {
    var q, r, d := windowSecs / lease, windowSecs % lease, lease * SECOND;
    assert windowSecs == q * lease + r;
    assert windowSecs * SECOND == q * d + r * SECOND && (q + 1) * d == q * d + d;
    LeasesExact(q, d);
    LeasesGrow(q * d, windowSecs * SECOND, 0, d);
    LeasesBelow(windowSecs * SECOND, q, d);
  }

  // ---- requests sent and still to come ----

  /** The requests of a job on the wire. */
  function PostsOf(wire: seq<Post>, id: Uuid): set<nat> {
    set i: nat | i < |wire| && wire[i].jobId == id
  }

  predicate MayPost(task: Task) {
    (task.phase.Spawned? || task.phase.Cleared? || task.phase.Addressed?) && task.claimedAt < task.job.deadlineAt
  }

  /** The workers with a task for the job that has yet to send. */
  function Coming(s: Sys, id: Uuid): set<WorkerId> {
    set w | w in s.workers && id in s.workers[w].tasks && MayPost(s.workers[w].tasks[id])
  }

  function Load(s: Sys, id: Uuid): nat {
    |PostsOf(s.wire, id)| + |Coming(s, id)|
  }

  /** A claim of the job in time to send. */
  predicate ClaimsInTime(s: Sys, a: Action, id: Uuid) {
    a.Claim? && id in a.picked && id in s.db.jobs && s.now < s.db.jobs[id].deadlineAt
  }

  function One(b: bool): nat {
    if b then 1 else 0
  }

  lemma MayPostOrigin(s: Sys, a: Action, w: WorkerId, id: Uuid)
    requires Enabled(s, a) && HasTask(Apply(s, a), w, id) && MayPost(TaskOf(Apply(s, a), w, id))
    ensures || (HasTask(s, w, id) && MayPost(TaskOf(s, w, id)) && a != BeginPost(w, id))
            || (ClaimsInTime(s, a, id) && a.w == w)
  {
    TaskOrigin(s, a, w, id);
    if TaskAction(a) {
      OwnTaskOrigin(s, a, w, id);
    } else {
      OtherTaskOrigin(s, a, w, id);
    }
  }

  lemma ComingStep(s: Sys, a: Action, id: Uuid)
    requires Enabled(s, a)
    ensures Coming(Apply(s, a), id) <= Coming(s, id) + (if ClaimsInTime(s, a, id) then {a.w} else {})
    ensures a.BeginPost? && a.id == id ==> a.w !in Coming(Apply(s, a), id)
  {
    var s' := Apply(s, a);
    forall w | w in Coming(s', id)
      ensures w in Coming(s, id) || (ClaimsInTime(s, a, id) && a.w == w)
      ensures a != BeginPost(w, id)
    {
      assert HasTask(s', w, id);
      MayPostOrigin(s, a, w, id);
    }
  }

  lemma PostsStep(s: Sys, a: Action, id: Uuid)
    requires Enabled(s, a) && (a.BeginPost? ==> TaskOf(s, a.w, a.id).job.id == a.id)
    ensures PostsOf(Apply(s, a).wire, id) ==
            PostsOf(s.wire, id) + if a.BeginPost? && a.id == id then {|s.wire|} else {}
  {
    if !a.BeginPost? {
      WireStays(s, a);
    }
  }

  lemma WireStays(s: Sys, a: Action)
    requires Enabled(s, a) && !a.BeginPost?
    ensures Apply(s, a).wire == s.wire
  {
  }

  /** Only a claim in time adds to the load. */
  lemma LoadStep(s: Sys, a: Action, id: Uuid)
    requires Enabled(s, a)
    requires a.BeginPost? ==> TaskOk(s.now, s.db, a.w, a.id, TaskOf(s, a.w, a.id))
    ensures Load(Apply(s, a), id) <= Load(s, id) + One(ClaimsInTime(s, a, id))
  {
    var s' := Apply(s, a);
    ComingStep(s, a, id);
    PostsStep(s, a, id);
    if a.BeginPost? && a.id == id {
      assert a.w in Coming(s, id);
      SubsetSize(Coming(s', id), Coming(s, id) - {a.w});
      SubsetSize(PostsOf(s'.wire, id), PostsOf(s.wire, id) + {|s.wire|});
    } else if ClaimsInTime(s, a, id) {
      SubsetSize(Coming(s', id), Coming(s, id) + {a.w});
    } else {
      SubsetSize(Coming(s', id), Coming(s, id));
    }
  }

  // ---- what a row allows ----

  /** No claim of the row has been later than this. */
  function Latest(r: JobRow): Time {
    match r.lockedAt
    case Some(at) => at
    case None => match r.completedAt case Some(at) => at case None => r.nextAttemptAt
  }

  /** The attempts begun. */
  function Started(r: JobRow): int {
    r.attemptCount + One(r.status == Delivering)
  }

  /** One request for each attempt begun before the deadline, and one more for each whole lease passed. */
  function Allowance(r: JobRow, most: int, d: int): int
    requires d > 0
  {
    Min(Started(r), most) + Leases(Min(Latest(r), r.deadlineAt) - r.createdAt, d)
  }

  /** Attempts that can begin before the deadline are among the first `most`. */
  ghost predicate CanBegin(r: JobRow, most: int) {
    forall m: nat :: Paced(r.createdAt, m) < r.deadlineAt ==> m + 1 <= most
  }

  lemma ClaimedAllowance(r: JobRow, w: WorkerId, now: Time, stale: Time, most: int, d: int)
    requires 0 < d <= stale && Due(r, now, stale) && LocksOk(r) && PacingOk(r) && 0 <= r.attemptCount && CanBegin(r, most)
    ensures Allowance(Locked(r, w, now), most, d) >= Allowance(r, most, d) + One(now < r.deadlineAt)
  {
    var before, after := Min(Latest(r), r.deadlineAt) - r.createdAt, Min(now, r.deadlineAt) - r.createdAt;
    if r.status == Delivering {
      assert Latest(r) + stale < now;
      LeasesGrow(before, after, One(now < r.deadlineAt), d);
    } else {
      assert Latest(r) == r.nextAttemptAt <= now;
      LeasesGrow(before, after, 0, d);
      if now < r.deadlineAt {
        assert Paced(r.createdAt, r.attemptCount) < r.deadlineAt;
      }
    }
  }

  lemma LaterAllowance(r: JobRow, r': JobRow, most: int, d: int)
    requires d > 0 && Started(r) <= Started(r') && Latest(r) <= Latest(r')
    requires r'.deadlineAt == r.deadlineAt && r'.createdAt == r.createdAt
    ensures Allowance(r, most, d) <= Allowance(r', most, d)
  {
    LeasesGrow(Min(Latest(r), r.deadlineAt) - r.createdAt, Min(Latest(r'), r.deadlineAt) - r.createdAt, 0, d);
  }

  /** A recorded outcome takes nothing from the allowance. */
  lemma CommitAllowance(s: Sys, w: WorkerId, id: Uuid, at: Time, most: int, d: int)
    requires d > 0 && Enabled(s, Commit(w, id, at)) && TaskOk(s.now, s.db, w, id, TaskOf(s, w, id))
    requires id in s.db.jobs && LocksOk(s.db.jobs[id])
    ensures id in Apply(s, Commit(w, id, at)).db.jobs
    ensures Allowance(s.db.jobs[id], most, d) <= Allowance(Apply(s, Commit(w, id, at)).db.jobs[id], most, d)
  {
    LaterAllowance(s.db.jobs[id], Apply(s, Commit(w, id, at)).db.jobs[id], most, d);
  }

  /** As far as claims and deadlines go, the row is the same. */
  predicate AsBefore(t: Tables, t': Tables, id: Uuid)
    requires id in t.jobs
  {
    && id in t'.jobs
    && Started(t'.jobs[id]) == Started(t.jobs[id]) && Latest(t'.jobs[id]) == Latest(t.jobs[id])
    && t'.jobs[id].deadlineAt == t.jobs[id].deadlineAt && t'.jobs[id].createdAt == t.jobs[id].createdAt
  }

  lemma RefreshedRow(t: Tables, job: ClaimedJob, url: string, now: Time, id: Uuid)
    requires id in t.jobs
    ensures AsBefore(t, RefreshUrl(t, job, url, now), id)
  {
  }

  lemma OtherRow(t: Tables, job: ClaimedJob, outcome: Outcome, ms: int, now: Time, id: Uuid)
    requires id in t.jobs && id != job.id
    ensures AsBefore(t, AfterRecord(t, job, outcome, ms, now), id)
  {
  }

  lemma SameRow(s: Sys, a: Action, id: Uuid)
    requires Enabled(s, a) && id in s.db.jobs
    requires !(IsClaim(a) && id in a.picked) && !(a.Commit? && TaskOf(s, a.w, a.id).job.id == id)
    ensures AsBefore(s.db, Apply(s, a).db, id)
  {
    match a
    case Refresh(w, j) =>
      var job := TaskOf(s, w, j).job;
      RefreshedRow(s.db, job, ResolveDestinationUrl(s.workers[w].cfg, job).url, s.now, id);
    case Commit(w, j, at) =>
      var task := TaskOf(s, w, j);
      OtherRow(s.db, task.job, task.phase.outcome, task.phase.durationMs, at, id);
    case CommitEnqueue(r, eventRowId, ids) => EnqueueGrows(s.db, s.requests[r], eventRowId, ids);
    case _ =>
  }

  lemma AllowanceStep(s: Sys, a: Action, id: Uuid, most: int, lease: nat)
    requires Inv(s) && ConfigsOk(s) && Enabled(s, a) && id in s.db.jobs && CanBegin(s.db.jobs[id], most)
    requires lease > 0 && (IsClaim(a) ==> lease <= s.workers[a.w].cfg.staleDeliveryLockSecs)
    ensures id in Apply(s, a).db.jobs
    ensures Allowance(Apply(s, a).db.jobs[id], most, lease * SECOND)
            >= Allowance(s.db.jobs[id], most, lease * SECOND) + One(ClaimsInTime(s, a, id))
  {
    var d := lease * SECOND;
    assert RowOk(s.db.attempts, id, s.db.jobs[id]);
    if IsClaim(a) && id in a.picked {
      ClaimedAllowance(s.db.jobs[id], a.w, s.now, Stale(s.workers[a.w].cfg), most, d);
    } else if a.Commit? && a.id == id {
      assert TaskOk(s.now, s.db, a.w, a.id, TaskOf(s, a.w, a.id));
      CommitAllowance(s, a.w, id, a.at, most, d);
    } else {
      assert a.Commit? ==> TaskOk(s.now, s.db, a.w, a.id, TaskOf(s, a.w, a.id));
      SameRow(s, a, id);
      LaterAllowance(s.db.jobs[id], Apply(s, a).db.jobs[id], most, d);
    }
  }

  // ---- over runs ----

  ghost predicate LoadOk(s: Sys, id: Uuid, windowSecs: nat, lease: nat)
    requires lease > 0 && id in s.db.jobs
  {
    var r := s.db.jobs[id];
    r.deadlineAt <= r.createdAt + windowSecs * SECOND ==>
      Load(s, id) <= Allowance(r, AttemptBound(windowSecs) - 1, lease * SECOND)
  }

  ghost predicate VolumeInv(s: Sys, windowSecs: nat, lease: nat)
    requires lease > 0
  {
    forall id :: id in s.db.jobs ==> LoadOk(s, id, windowSecs, lease)
  }

  lemma WindowBegins(r: JobRow, windowSecs: nat)
    requires r.deadlineAt <= r.createdAt + windowSecs * SECOND
    ensures CanBegin(r, AttemptBound(windowSecs) - 1)
  {
    forall m: nat | Paced(r.createdAt, m) < r.deadlineAt ensures m + 1 <= AttemptBound(windowSecs) - 1 {
      FittingDelaysBoundAttempts(m, windowSecs);
    }
  }

  /** A job not stored yet has caused no request. */
  lemma NoLoadBefore(s: Sys, id: Uuid)
    requires Inv(s) && WireOk(s) && id !in s.db.jobs
    ensures Load(s, id) == 0
  {
    forall i: nat | i < |s.wire| ensures s.wire[i].jobId != id {
      assert PostOk(s.now, s.db, s.wire[i]);
    }
    forall w, j | HasTask(s, w, j) ensures j in s.db.jobs {
      assert TaskOk(s.now, s.db, w, j, TaskOf(s, w, j));
    }
    forall w | w in s.workers ensures id !in s.workers[w].tasks {
      assert !HasTask(s, w, id);
    }
    assert PostsOf(s.wire, id) == {} && Coming(s, id) == {};
  }

  lemma OldJobStep(s: Sys, a: Action, id: Uuid, windowSecs: nat, lease: nat)
    requires Inv(s) && ConfigsOk(s) && Enabled(s, a) && id in s.db.jobs && lease > 0
    requires LoadOk(s, id, windowSecs, lease) && (IsClaim(a) ==> lease <= s.workers[a.w].cfg.staleDeliveryLockSecs)
    ensures id in Apply(s, a).db.jobs && LoadOk(Apply(s, a), id, windowSecs, lease)
  {
    StepGrows(s, a);
    assert SameJob(s.db.jobs[id], Apply(s, a).db.jobs[id]);
    var r := s.db.jobs[id];
    if r.deadlineAt <= r.createdAt + windowSecs * SECOND {
      WindowBegins(r, windowSecs);
      assert a.BeginPost? ==> TaskOk(s.now, s.db, a.w, a.id, TaskOf(s, a.w, a.id));
      LoadStep(s, a, id);
      AllowanceStep(s, a, id, AttemptBound(windowSecs) - 1, lease);
    }
  }

  lemma NewJobStep(s: Sys, a: Action, id: Uuid, windowSecs: nat, lease: nat)
    requires Inv(s) && WireOk(s) && Enabled(s, a) && lease > 0
    requires id !in s.db.jobs && id in Apply(s, a).db.jobs
    ensures LoadOk(Apply(s, a), id, windowSecs, lease)
  {
    NoLoadBefore(s, id);
    if !a.CommitEnqueue? {
      OnlyEnqueueAdds(s, a);
    }
    LoadStep(s, a, id);
    NewRow(s.db, s.requests[a.r], a.eventRowId, a.ids, id);
    LeasesExact(0, lease * SECOND);
    WindowBound(windowSecs);
  }

  lemma WindowBound(windowSecs: nat)
    ensures 1 <= AttemptBound(windowSecs)
  {
  }

  lemma NewRow(t: Tables, r: Incoming, eventRowId: Uuid, ids: seq<Uuid>, id: Uuid)
    requires |ids| == |r.destinations| && id !in t.jobs && id in AfterEnqueue(t, r, eventRowId, ids).jobs
    ensures var row := AfterEnqueue(t, r, eventRowId, ids).jobs[id];
            Started(row) == 0 && Latest(row) == row.createdAt <= row.deadlineAt
  {
    WithJobsRows(t.jobs, r, eventRowId, ids, |ids|);
    assert ids[..|ids|] == ids;
    var i :| 0 <= i < |ids| && ids[i] == id;
  }

  lemma VolumeStep(s: Sys, a: Action, windowSecs: nat, lease: nat)
    requires Inv(s) && ConfigsOk(s) && WireOk(s) && lease > 0 && VolumeInv(s, windowSecs, lease) && Enabled(s, a)
    requires IsClaim(a) ==> lease <= s.workers[a.w].cfg.staleDeliveryLockSecs
    ensures VolumeInv(Apply(s, a), windowSecs, lease)
  {
    forall id | id in Apply(s, a).db.jobs ensures LoadOk(Apply(s, a), id, windowSecs, lease) {
      if id in s.db.jobs {
        OldJobStep(s, a, id, windowSecs, lease);
      } else {
        NewJobStep(s, a, id, windowSecs, lease);
      }
    }
  }

  lemma {:induction false} VolumeHolds(s: Sys, run: seq<Action>, windowSecs: nat, lease: nat)
    requires Inv(s) && ConfigsOk(s) && WireOk(s) && LeaseInv(s, lease) && Legal(s, run) && Lasting(run, lease)
    requires lease > 0 && VolumeInv(s, windowSecs, lease)
    ensures VolumeInv(Run(s, run), windowSecs, lease)
    decreases |run|
  {
    if run != [] {
      Step(s, run[0]);
      ConfigsStep(s, run[0]);
      WireStep(s, run[0]);
      LeaseStep(s, run[0], lease);
      VolumeStep(s, run[0], windowSecs, lease);
      assert forall i :: 0 <= i < |run[1..]| ==> run[1..][i] == run[i + 1];
      VolumeHolds(Apply(s, run[0]), run[1..], windowSecs, lease);
    }
  }

  /** All requests a job ever causes, those of displaced tasks included: fewer than
      the bound on its attempts, and one more for each whole lease in its window. */
  lemma RequestsAreBounded(start: Time, run: seq<Action>, lease: nat, id: Uuid, windowSecs: nat)
    requires Legal(InitSys(start), run) && Lasting(run, lease) && lease > 0
    requires var t := Run(InitSys(start), run).db;
             id in t.jobs && t.jobs[id].deadlineAt <= t.jobs[id].createdAt + windowSecs * SECOND
    ensures |PostsOf(Run(InitSys(start), run).wire, id)| <= AttemptBound(windowSecs) - 1 + windowSecs / lease
  {
    var s := Run(InitSys(start), run);
    VolumeHolds(InitSys(start), run, windowSecs, lease);
    var r := s.db.jobs[id];
    assert LoadOk(s, id, windowSecs, lease);
    LeasesGrow(Min(Latest(r), r.deadlineAt) - r.createdAt, windowSecs * SECOND, 0, lease * SECOND);
    LeasesOfWindow(windowSecs, lease);
  }
}
