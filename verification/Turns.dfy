/** Bounded overtaking: due jobs are claimed in the order of `next_attempt_at`,
    and nothing recorded or enqueued later gets in front of them. */
module Turns {
  import opened Text
  import opened Retry
  import opened Config
  import opened Schema
  import opened Machine
  import opened Invariants

  /** Open jobs with a key of at most `x`. */
  function InFront(t: Tables, x: Time): set<Uuid> {
    set id | id in t.jobs && !Terminal(t.jobs[id].status) && t.jobs[id].nextAttemptAt <= x
  }

  /** Those of them that wait for a fresh claim. */
  function Waiting(t: Tables, x: Time): set<Uuid> {
    set id | id in t.jobs && t.jobs[id].status != Delivering && !Terminal(t.jobs[id].status) && t.jobs[id].nextAttemptAt <= x
  }

  /** `x` is past, also for every clock reading not yet committed. */
  ghost predicate Settled(s: Sys, x: Time) {
    && x < s.now
    && (forall w, id :: HasTask(s, w, id) ==> NextAfter(TaskOf(s, w, id), x))
    && (forall r :: r in s.requests ==> x < s.requests[r].receivedAt)
  }

  predicate NextAfter(task: Task, x: Time) {
    task.phase.Recording? && task.phase.outcome.Retry? ==> x < task.phase.outcome.next
  }

  /** The rows a step claims. */
  function Picks(a: Action): set<Uuid> {
    if a.Claim? || a.LoseClaim? then a.picked else {}
  }

  function Skips(a: Action): set<Uuid> {
    if a.Claim? || a.LoseClaim? then a.skipped else {}
  }

  // ---- single steps ----

  lemma OwnNextAfter(s: Sys, a: Action, x: Time)
    requires Enabled(s, a) && TaskAction(a) && x < s.now && NextAfter(TaskOf(s, a.w, a.id), x)
    requires HasTask(Apply(s, a), a.w, a.id)
    ensures NextAfter(TaskOf(Apply(s, a), a.w, a.id), x)
  {
  }

  lemma SettledStep(s: Sys, a: Action, x: Time)
    requires Settled(s, x) && Enabled(s, a)
    ensures Settled(Apply(s, a), x)
  {
    var s' := Apply(s, a);
    forall w, id | HasTask(s', w, id) ensures NextAfter(TaskOf(s', w, id), x) {
      if !TaskAction(a) {
        OtherTaskOrigin(s, a, w, id);
      } else {
        OwnTaskOrigin(s, a, w, id);
        if ActsOn(a, w, id) {
          OwnNextAfter(s, a, x);
        }
      }
    }
    WireAndClockGrow(s, a);
    RequestsAfter(s, a, x);
  }

  lemma RequestsAfter(s: Sys, a: Action, x: Time)
    requires Enabled(s, a) && x < s.now && forall r :: r in s.requests ==> x < s.requests[r].receivedAt
    ensures forall r :: r in Apply(s, a).requests ==> x < Apply(s, a).requests[r].receivedAt
  {
  }

  /** A recorded outcome takes its job out of the front set. */
  lemma CommitLeavesFront(t: Tables, job: ClaimedJob, outcome: Outcome, ms: int, at: Time, x: Time)
    requires outcome.Retry? ==> x < outcome.next
    ensures var t' := AfterRecord(t, job, outcome, ms, at);
            && InFront(t', x) <= InFront(t, x) && Waiting(t', x) <= Waiting(t, x)
            && (RecordOutcome(t, job, outcome, ms, at) == Recorded ==> job.id !in InFront(t', x))
  {
  }

  lemma EnqueueBehind(t: Tables, r: Incoming, eventRowId: Uuid, ids: seq<Uuid>, x: Time)
    requires |ids| == |r.destinations| && x < r.receivedAt
    ensures var t' := AfterEnqueue(t, r, eventRowId, ids);
            InFront(t', x) <= InFront(t, x) && Waiting(t', x) <= Waiting(t, x)
  {
    if Enqueue(t, r, eventRowId, ids).Inserted? {
      WithJobsRows(t.jobs, r, eventRowId, ids, |ids|);
      assert ids[..|ids|] == ids;
      var t' := AfterEnqueue(t, r, eventRowId, ids);
      assert forall i :: 0 <= i < |ids| ==> t'.jobs[ids[i]].nextAttemptAt > x;
      forall id | id in t'.jobs && t'.jobs[id].nextAttemptAt <= x ensures id in t.jobs && t'.jobs[id] == t.jobs[id] {
        assert id !in ids;
      }
    }
  }

  lemma ClaimLeavesWaiting(t: Tables, picked: set<Uuid>, w: WorkerId, now: Time, x: Time)
    requires forall id :: id in picked && id in t.jobs ==> !Terminal(t.jobs[id].status)
    ensures InFront(LockRows(t, picked, w, now), x) == InFront(t, x)
    ensures Waiting(LockRows(t, picked, w, now), x) == Waiting(t, x) - picked
  {
  }

  lemma RefreshKeepsFront(t: Tables, job: ClaimedJob, url: string, now: Time, x: Time)
    ensures InFront(RefreshUrl(t, job, url, now), x) == InFront(t, x)
    ensures Waiting(RefreshUrl(t, job, url, now), x) == Waiting(t, x)
  {
  }

  /** For any settled `x`: the front set never gains a member, every recorded
      outcome removes its job from it, and a fresh claim takes its picks out of
      the waiting part. */
  lemma FrontStep(s: Sys, a: Action, x: Time)
    requires Settled(s, x) && Enabled(s, a)
    ensures InFront(Apply(s, a).db, x) <= InFront(s.db, x)
    ensures Waiting(Apply(s, a).db, x) <= Waiting(s.db, x) - Picks(a)
    ensures forall id :: Records(s, a, id) ==> id !in InFront(Apply(s, a).db, x)
  {
    match a
    case Claim(w, _, picked) => ClaimLeavesWaiting(s.db, picked, w, s.now, x);
    case LoseClaim(w, _, picked) => ClaimLeavesWaiting(s.db, picked, w, s.now, x);
    case Refresh(w, id) =>
      var job := TaskOf(s, w, id).job;
      RefreshKeepsFront(s.db, job, ResolveDestinationUrl(s.workers[w].cfg, job).url, s.now, x);
    case Commit(w, id, at) =>
      var task := TaskOf(s, w, id);
      assert NextAfter(task, x);
      CommitLeavesFront(s.db, task.job, task.phase.outcome, task.phase.durationMs, at, x);
    case CommitEnqueue(r, eventRowId, ids) => EnqueueBehind(s.db, s.requests[r], eventRowId, ids, x);
    case _ =>
  }

  /** Over a whole run, then, the front set never gains a member. */
  lemma {:induction false} FrontRun(s: Sys, run: seq<Action>, x: Time)
    requires Settled(s, x) && Legal(s, run)
    ensures Settled(Run(s, run), x) && InFront(Run(s, run).db, x) <= InFront(s.db, x)
    decreases |run|
  {
    if run != [] {
      SettledStep(s, run[0], x);
      FrontStep(s, run[0], x);
      FrontRun(Apply(s, run[0]), run[1..], x);
    }
  }

  // ---- what is still under way ----

  /** Tasks about to put their job back with a key of at most `x`. */
  function PendingRetries(s: Sys, x: Time): set<(WorkerId, Uuid)> {
    set w, id | w in s.workers && id in s.workers[w].tasks && !NextAfter(s.workers[w].tasks[id], x) :: (w, id)
  }

  /** Jobs yet to be stored for requests whose clock was read at `x` or before. */
  function PendingJobs(s: Sys, x: Time): set<(nat, nat)> {
    set r, i: nat | r in s.requests && s.requests[r].receivedAt <= x && i < |s.requests[r].destinations| :: (r, i)
  }

  function Pending(s: Sys, x: Time): nat {
    |PendingRetries(s, x)| + |PendingJobs(s, x)|
  }

  /** A settled state has nothing under way. */
  lemma SettledHasNonePending(s: Sys, x: Time)
    requires Settled(s, x)
    ensures Pending(s, x) == 0
  {
    forall p ensures p !in PendingRetries(s, x) {
      assert HasTask(s, p.0, p.1) ==> NextAfter(TaskOf(s, p.0, p.1), x);
    }
    forall p ensures p !in PendingJobs(s, x) {
      assert p.0 in s.requests ==> x < s.requests[p.0].receivedAt;
    }
    assert PendingRetries(s, x) == {} && PendingJobs(s, x) == {};
  }

  lemma RetriesShrink(s: Sys, a: Action, x: Time)
    requires x < s.now && Enabled(s, a)
    ensures PendingRetries(Apply(s, a), x) <= PendingRetries(s, x)
    ensures a.Commit? ==> (a.w, a.id) !in PendingRetries(Apply(s, a), x)
  {
    var s' := Apply(s, a);
    forall w, id | HasTask(s', w, id) && !NextAfter(TaskOf(s', w, id), x)
      ensures HasTask(s, w, id) && !NextAfter(TaskOf(s, w, id), x)
    {
      PendingOrigin(s, a, x, w, id);
    }
    if a.Commit? {
      assert !HasTask(s', a.w, a.id);
    }
  }

  lemma PendingOrigin(s: Sys, a: Action, x: Time, w: WorkerId, id: Uuid)
    requires x < s.now && Enabled(s, a) && HasTask(Apply(s, a), w, id) && !NextAfter(TaskOf(Apply(s, a), w, id), x)
    ensures HasTask(s, w, id) && !NextAfter(TaskOf(s, w, id), x)
  {
    if !TaskAction(a) {
      OtherTaskOrigin(s, a, w, id);
    } else {
      OwnTaskOrigin(s, a, w, id);
      if ActsOn(a, w, id) && NextAfter(TaskOf(s, w, id), x) {
        OwnNextAfter(s, a, x);
      }
    }
  }

  lemma RequestOrigin(s: Sys, a: Action, r: nat)
    requires Enabled(s, a) && r in Apply(s, a).requests
    ensures if a.Receive? && a.r == r then Apply(s, a).requests[r].receivedAt == s.now
            else r in s.requests && Apply(s, a).requests[r] == s.requests[r]
    ensures a.CommitEnqueue? ==> r != a.r
  {
  }

  lemma PendingJobsShrink(s: Sys, a: Action, x: Time)
    requires x < s.now && Enabled(s, a)
    ensures PendingJobs(Apply(s, a), x) <= PendingJobs(s, x)
    ensures a.CommitEnqueue? ==> forall i :: (a.r, i) !in PendingJobs(Apply(s, a), x)
  {
    forall r | r in Apply(s, a).requests ensures
      && (Apply(s, a).requests[r].receivedAt <= x ==> r in s.requests && Apply(s, a).requests[r] == s.requests[r])
      && (a.CommitEnqueue? ==> r != a.r)
    {
      RequestOrigin(s, a, r);
    }
  }

  function Pairs(r: nat, n: nat): set<(nat, nat)> {
    set i: nat | i < n :: (r, i)
  }

  lemma {:induction false} PairsSize(r: nat, n: nat)
    ensures |Pairs(r, n)| == n
  {
    if n == 0 {
      assert Pairs(r, n) == {};
    } else {
      PairsSize(r, n - 1);
      assert Pairs(r, n) == Pairs(r, n - 1) + {(r, n - 1)};
    }
  }

  lemma {:induction false} SetOfSize(ids: seq<Uuid>)
    ensures |SetOf(ids)| <= |ids|
  {
    if ids == [] {
      assert SetOf(ids) == {};
    } else {
      var n := |ids| - 1;
      SetOfSize(ids[..n]);
      assert ids == ids[..n] + [ids[n]];
      assert SetOf(ids) == SetOf(ids[..n]) + {ids[n]};
    }
  }

  lemma EnqueueWaits(t: Tables, r: Incoming, eventRowId: Uuid, ids: seq<Uuid>, x: Time)
    requires |ids| == |r.destinations|
    ensures Waiting(AfterEnqueue(t, r, eventRowId, ids), x) <= Waiting(t, x) + SetOf(ids)
  {
    if Enqueue(t, r, eventRowId, ids).Inserted? {
      WithJobsRows(t.jobs, r, eventRowId, ids, |ids|);
      assert ids[..|ids|] == ids;
    }
  }

  lemma CommitWaits(t: Tables, job: ClaimedJob, outcome: Outcome, ms: int, at: Time, x: Time)
    ensures Waiting(AfterRecord(t, job, outcome, ms, at), x) <= Waiting(t, x) + {job.id}
  {
  }

  lemma CommitPotential(s: Sys, w: WorkerId, id: Uuid, at: Time, x: Time)
    requires x < s.now && Enabled(s, Commit(w, id, at))
    ensures var s' := Apply(s, Commit(w, id, at));
            |Waiting(s'.db, x)| + |PendingRetries(s', x)| <= |Waiting(s.db, x)| + |PendingRetries(s, x)|
  {
    var task := TaskOf(s, w, id);
    var s' := Apply(s, Commit(w, id, at));
    RetriesShrink(s, Commit(w, id, at), x);
    if NextAfter(task, x) {
      CommitLeavesFront(s.db, task.job, task.phase.outcome, task.phase.durationMs, at, x);
      SubsetSize(Waiting(s'.db, x), Waiting(s.db, x));
      SubsetSize(PendingRetries(s', x), PendingRetries(s, x));
    } else {
      CommitWaits(s.db, task.job, task.phase.outcome, task.phase.durationMs, at, x);
      SubsetSize(Waiting(s'.db, x), Waiting(s.db, x) + {task.job.id});
      assert (w, id) in PendingRetries(s, x);
      SubsetSize(PendingRetries(s', x), PendingRetries(s, x) - {(w, id)});
    }
  }

  lemma EnqueuePotential(s: Sys, r: nat, eventRowId: Uuid, ids: seq<Uuid>, x: Time)
    requires x < s.now && Enabled(s, CommitEnqueue(r, eventRowId, ids))
    ensures var s' := Apply(s, CommitEnqueue(r, eventRowId, ids));
            |Waiting(s'.db, x)| + |PendingJobs(s', x)| <= |Waiting(s.db, x)| + |PendingJobs(s, x)|
  {
    var s' := Apply(s, CommitEnqueue(r, eventRowId, ids));
    PendingJobsShrink(s, CommitEnqueue(r, eventRowId, ids), x);
    if x < s.requests[r].receivedAt {
      EnqueueBehind(s.db, s.requests[r], eventRowId, ids, x);
      SubsetSize(Waiting(s'.db, x), Waiting(s.db, x));
      SubsetSize(PendingJobs(s', x), PendingJobs(s, x));
    } else {
      var mine := Pairs(r, |ids|);
      EnqueueWaits(s.db, s.requests[r], eventRowId, ids, x);
      SetOfSize(ids);
      PairsSize(r, |ids|);
      SubsetSize(Waiting(s'.db, x), Waiting(s.db, x) + SetOf(ids));
      assert mine <= PendingJobs(s, x);
      SubsetSize(PendingJobs(s', x), PendingJobs(s, x) - mine);
    }
  }

  lemma OtherWaiting(s: Sys, a: Action, x: Time)
    requires Enabled(s, a) && !a.Commit? && !a.CommitEnqueue?
    ensures Waiting(Apply(s, a).db, x) <= Waiting(s.db, x) - Picks(a)
  {
    match a
    case Claim(w, _, picked) => ClaimLeavesWaiting(s.db, picked, w, s.now, x);
    case LoseClaim(w, _, picked) => ClaimLeavesWaiting(s.db, picked, w, s.now, x);
    case Refresh(w, id) =>
      var job := TaskOf(s, w, id).job;
      RefreshKeepsFront(s.db, job, ResolveDestinationUrl(s.workers[w].cfg, job).url, s.now, x);
    case _ =>
  }

  /** What waits in front of `x` or may still get there never grows, and a fresh claim uses it up. */
  lemma PotentialStep(s: Sys, a: Action, x: Time)
    requires x < s.now && Enabled(s, a)
    ensures |Picks(a) * Waiting(s.db, x)| + |Waiting(Apply(s, a).db, x)| + Pending(Apply(s, a), x)
            <= |Waiting(s.db, x)| + Pending(s, x)
  {
    var s' := Apply(s, a);
    RetriesShrink(s, a, x);
    PendingJobsShrink(s, a, x);
    SubsetSize(PendingRetries(s', x), PendingRetries(s, x));
    SubsetSize(PendingJobs(s', x), PendingJobs(s, x));
    if a.Commit? {
      assert Picks(a) * Waiting(s.db, x) == {};
      CommitPotential(s, a.w, a.id, a.at, x);
    } else if a.CommitEnqueue? {
      assert Picks(a) * Waiting(s.db, x) == {};
      EnqueuePotential(s, a.r, a.eventRowId, a.ids, x);
    } else {
      OtherWaiting(s, a, x);
      TakenOut(Waiting(s.db, x), Picks(a), Waiting(s'.db, x));
    }
  }

  // ---- runs ----

  /** Rows with a key of at most `x` claimed fresh during a run. */
  ghost function FreshClaims(s: Sys, run: seq<Action>, x: Time): nat
    requires Legal(s, run)
    decreases |run|
  {
    if run == [] then 0
    else |Picks(run[0]) * Waiting(s.db, x)| + FreshClaims(Apply(s, run[0]), run[1..], x)
  }

  /** The picked rows that another claim still holds. */
  function Stolen(t: Tables, picked: set<Uuid>): set<Uuid> {
    set id | id in picked && id in t.jobs && t.jobs[id].status == Delivering
  }

  ghost function Steals(s: Sys, run: seq<Action>): nat
    requires Legal(s, run)
    decreases |run|
  {
    if run == [] then 0
    else |Stolen(s.db, Picks(run[0]))| + Steals(Apply(s, run[0]), run[1..])
  }

  /** The picks there would be if every claim statement of the run filled its limit. */
  ghost function Limits(s: Sys, run: seq<Action>): int
    requires Legal(s, run)
    decreases |run|
  {
    if run == [] then 0
    else (if IsClaim(run[0]) then s.workers[run[0].w].cfg.deliveryClaimLimit else 0)
         + Limits(Apply(s, run[0]), run[1..])
  }

  function ClaimCount(run: seq<Action>): nat {
    if run == [] then 0 else (if IsClaim(run[0]) then 1 else 0) + ClaimCount(run[1..])
  }

  /** Each job in front of `x` is claimed fresh at most once, and so is each that
      a pending retry or enqueue may still put there. */
  lemma {:induction false} FreshClaimsBounded(s: Sys, run: seq<Action>, x: Time)
    requires x < s.now && Legal(s, run)
    ensures FreshClaims(s, run, x) + |Waiting(Run(s, run).db, x)| + Pending(Run(s, run), x)
            <= |Waiting(s.db, x)| + Pending(s, x)
    decreases |run|
  {
    if run != [] {
      WireAndClockGrow(s, run[0]);
      PotentialStep(s, run[0], x);
      FreshClaimsBounded(Apply(s, run[0]), run[1..], x);
    }
  }

  lemma TakenOut(before: set<Uuid>, picks: set<Uuid>, after: set<Uuid>)
    requires after <= before - picks
    ensures |picks * before| + |after| <= |before|
  {
    SubsetSize(after, before - picks);
    assert before == (before - picks) + (picks * before);
    assert |before| == |before - picks| + |picks * before|;
  }

  /** The run passes `id` over: no claim skips or picks it. */
  predicate PassesOver(run: seq<Action>, id: Uuid) {
    forall i :: 0 <= i < |run| ==> id !in Picks(run[i]) && id !in Skips(run[i])
  }

  lemma WaitingRowStays(s: Sys, a: Action, id: Uuid)
    requires Enabled(s, a) && id !in Picks(a)
    requires id in s.db.jobs && s.db.jobs[id].status != Delivering
    ensures id in Apply(s, a).db.jobs && Apply(s, a).db.jobs[id] == s.db.jobs[id]
  {
    if a.CommitEnqueue? {
      EnqueueGrows(s.db, s.requests[a.r], a.eventRowId, a.ids);
    }
  }

  /** A claim that passes over a due job picks a full batch, all with keys no
      later: rows that wait in front of `x`, and stolen ones. */
  lemma PassingClaimIsFull(t: Tables, limit: int, stale: Time, now: Time, skipped: set<Uuid>, picked: set<Uuid>, x: Time, id: Uuid)
    requires LegalPick(t, limit, stale, now, skipped, picked) && id !in picked && id !in skipped
    requires id in Waiting(t, x) && x < now
    ensures |picked| == limit
    ensures forall p :: p in picked ==> t.jobs[p].nextAttemptAt <= x
    ensures |picked| == |picked * Waiting(t, x)| + |Stolen(t, picked)|
  {
    var untouched, stolen := picked * Waiting(t, x), Stolen(t, picked);
    assert Due(t.jobs[id], now, stale);
    assert picked == untouched + stolen && untouched !! stolen;
    assert |untouched + stolen| == |untouched| + |stolen|;
  }

  /** Bounded overtaking. While a job with key at most `x` waits and no claim
      skips it, all claim statements of all workers together fill their limits,
      and what they pick is at most the rest of the waiting set, what was under
      way to it, and stale steals; so that many picks later at the latest it is
      the job's turn. */
  lemma {:induction false} BoundedOvertaking(s: Sys, run: seq<Action>, x: Time, id: Uuid)
    requires x < s.now && ConfigsOk(s) && Legal(s, run)
    requires id in Waiting(s.db, x) && PassesOver(run, id)
    ensures Limits(s, run) == FreshClaims(s, run, x) + Steals(s, run)
    ensures Limits(s, run) <= |Waiting(s.db, x)| - 1 + Pending(s, x) + Steals(s, run)
    ensures ClaimCount(run) <= |Waiting(s.db, x)| - 1 + Pending(s, x) + Steals(s, run)
    ensures Settled(s, x) ==> Pending(s, x) == 0
  {
    PassedOverClaims(s, run, x, id);
    FreshClaimsBounded(s, run, x);
    assert id in Waiting(Run(s, run).db, x);
    SubsetSize({id}, Waiting(Run(s, run).db, x));
    if Settled(s, x) {
      SettledHasNonePending(s, x);
    }
  }

  lemma {:induction false} PassedOverClaims(s: Sys, run: seq<Action>, x: Time, id: Uuid)
    requires x < s.now && ConfigsOk(s) && Legal(s, run)
    requires id in Waiting(s.db, x) && PassesOver(run, id)
    ensures Limits(s, run) == FreshClaims(s, run, x) + Steals(s, run)
    ensures ClaimCount(run) <= Limits(s, run)
    ensures id in Waiting(Run(s, run).db, x)
    decreases |run|
  {
    if run != [] {
      var a := run[0];
      var s' := Apply(s, a);
      assert id !in Picks(run[0]) && id !in Skips(run[0]);
      WireAndClockGrow(s, a);
      ConfigsStep(s, a);
      WaitingRowStays(s, a, id);
      assert forall i :: 0 <= i < |run[1..]| ==> run[1..][i] == run[i + 1];
      PassedOverClaims(s', run[1..], x, id);
      if IsClaim(a) {
        var cfg := s.workers[a.w].cfg;
        assert ValidSettings(cfg);
        PassingClaimIsFull(s.db, cfg.deliveryClaimLimit, Stale(cfg), s.now, a.skipped, a.picked, x, id);
      }
    }
  }

  // ---- claims do not overlap ----

  /** No step of the run records an outcome of `id`. */
  ghost predicate NoOutcome(s: Sys, run: seq<Action>, id: Uuid)
    requires Legal(s, run)
    decreases |run|
  {
    run == []
    || (!Records(s, run[0], id) && NoOutcome(Apply(s, run[0]), run[1..], id))
  }

  predicate LockedSince(t: Tables, id: Uuid, since: Time) {
    && id in t.jobs && t.jobs[id].status == Delivering
    && t.jobs[id].lockedAt.Some? && since <= t.jobs[id].lockedAt.value
  }

  lemma LockedStep(s: Sys, a: Action, id: Uuid, since: Time)
    requires Enabled(s, a) && LockedSince(s.db, id, since) && since <= s.now && !Records(s, a, id)
    ensures LockedSince(Apply(s, a).db, id, since)
  {
    if a.CommitEnqueue? {
      EnqueueGrows(s.db, s.requests[a.r], a.eventRowId, a.ids);
    }
  }

  lemma {:induction false} LockedRun(s: Sys, run: seq<Action>, id: Uuid, since: Time)
    requires Legal(s, run) && LockedSince(s.db, id, since) && since <= s.now && NoOutcome(s, run, id)
    ensures LockedSince(Run(s, run).db, id, since)
    decreases |run|
  {
    if run != [] {
      LockedStep(s, run[0], id, since);
      WireAndClockGrow(s, run[0]);
      LockedRun(Apply(s, run[0]), run[1..], id, since);
    }
  }

  /** Two claims pick disjoint rows unless an outcome was recorded in between or
      the second worker finds the first claim stale. */
  lemma {:induction false} ClaimsAreDisjoint(s: Sys, first: Action, run: seq<Action>, second: Action, id: Uuid)
    requires Enabled(s, first) && IsClaim(first) && id in Picks(first)
    requires Legal(Apply(s, first), run) && NoOutcome(Apply(s, first), run, id)
    requires Enabled(Run(Apply(s, first), run), second) && IsClaim(second)
    requires var s' := Run(Apply(s, first), run); s'.now <= s.now + Stale(s'.workers[second.w].cfg)
    ensures id !in Picks(second)
  {
    LockedRun(Apply(s, first), run, id, s.now);
  }
}
