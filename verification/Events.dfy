/** Deduplication of webhooks and conservation of deliveries, over all runs. */
module Events {
  import opened Wrappers
  import opened Text
  import opened Retry
  import opened Headers
  import opened Config
  import opened Router
  import opened Resend
  import opened Schema
  import opened Machine
  import opened Invariants

  function JobsOf(jobs: map<Uuid, JobRow>, event: Uuid): set<Uuid> {
    set id | id in jobs && jobs[id].eventId == event
  }

  /** UNIQUE (source_svix_id). */
  ghost predicate SvixIdsUnique(t: Tables) {
    forall e, f :: e in t.events && f in t.events && t.events[e].sourceSvixId == t.events[f].sourceSvixId ==> e == f
  }

  /** Each event has as many jobs as it matched destinations. */
  ghost predicate CountsOk(t: Tables) {
    forall e :: e in t.events ==> |JobsOf(t.jobs, e)| == t.events[e].matchedDestinationCount
  }

  predicate SameDelivery(r: JobRow, q: JobRow) {
    r.eventId == q.eventId && r.destinationName == q.destinationName
  }

  /** (event, destination name) is unique, although no constraint says so. */
  ghost predicate NamesUnique(t: Tables) {
    forall i, j :: i in t.jobs && j in t.jobs && SameDelivery(t.jobs[i], t.jobs[j]) ==> i == j
  }

  ghost predicate EventsOk(t: Tables) {
    SvixIdsUnique(t) && CountsOk(t) && NamesUnique(t)
  }

  ghost predicate EventsInv(s: Sys) {
    && EventsOk(s.db)
    && (forall r :: r in s.requests ==> DistinctNames(s.requests[r].destinations))
  }

  /** The sum of `matched_destination_count` over all events. */
  ghost function TotalMatched(events: map<Uuid, EventRow>): nat
    decreases |events|
  {
    if events == map[] then 0
    else
      var e :| e in events;
      events[e].matchedDestinationCount + TotalMatched(events - {e})
  }

  lemma {:induction false} TotalMatchedPick(events: map<Uuid, EventRow>, e: Uuid)
    requires e in events
    ensures TotalMatched(events) == events[e].matchedDestinationCount + TotalMatched(events - {e})
    decreases |events|
  {
    var f :| f in events && TotalMatched(events) == events[f].matchedDestinationCount + TotalMatched(events - {f});
    if e != f {
      TotalMatchedPick(events - {f}, e);
      TotalMatchedPick(events - {e}, f);
      assert events - {f} - {e} == events - {e} - {f};
    }
  }

  /** The new jobs: one for each destination, in order, under unused ids. */
  ghost predicate AddsJobs(t: Tables, t': Tables, r: Incoming, event: Uuid, ids: seq<Uuid>)
    requires |ids| == |r.destinations|
  {
    && t'.jobs.Keys == t.jobs.Keys + SetOf(ids)
    && (forall id :: id in t.jobs ==> t'.jobs[id] == t.jobs[id])
    && (forall i :: 0 <= i < |ids| ==> ids[i] !in t.jobs)
    && (forall i :: 0 <= i < |ids| ==>
          t'.jobs[ids[i]] == NewJob(ids[i], event, r.destinations[i], r.receivedAt, r.DeadlineAt()))
  }

  /** One more event, with a new svix-id and `n` matched destinations. */
  ghost predicate AddsEvent(t: Tables, t': Tables, event: Uuid, n: nat) {
    && event !in t.events && event in t'.events && t'.events == t.events[event := t'.events[event]]
    && t'.events[event].matchedDestinationCount == n
    && !SvixIdKnown(t, t'.events[event].sourceSvixId)
  }

  /** What an accepted webhook adds: one event, and one job for each matched destination. */
  lemma EnqueueAdds(t: Tables, r: Incoming, eventRowId: Uuid, ids: seq<Uuid>)
    requires |ids| == |r.destinations| && Enqueue(t, r, eventRowId, ids).Inserted?
    ensures var t' := AfterEnqueue(t, r, eventRowId, ids);
            AddsEvent(t, t', eventRowId, |ids|) && AddsJobs(t, t', r, eventRowId, ids) && t'.attempts == t.attempts
  {
    var t' := AfterEnqueue(t, r, eventRowId, ids);
    WithJobsRows(t.jobs, r, eventRowId, ids, |ids|);
    assert ids[..|ids|] == ids;
    assert t'.jobs.Keys == t.jobs.Keys + SetOf(ids);
  }

  /** The new jobs belong to the new event, the old ones to old events. */
  lemma AddedRow(t: Tables, t': Tables, r: Incoming, event: Uuid, ids: seq<Uuid>, id: Uuid)
    requires |ids| == |r.destinations| && ForeignKeys(t) && event !in t.events && AddsJobs(t, t', r, event, ids)
    requires id in t'.jobs
    ensures id in t.jobs <==> t'.jobs[id].eventId != event
    ensures id !in t.jobs ==> exists i :: 0 <= i < |ids| && ids[i] == id
  {
    if id !in t.jobs {
      assert id in SetOf(ids);
      var i :| 0 <= i < |ids| && ids[i] == id;
    }
  }

  lemma AddedJobsOf(t: Tables, t': Tables, r: Incoming, event: Uuid, ids: seq<Uuid>)
    requires |ids| == |r.destinations| && ForeignKeys(t) && event !in t.events && AddsJobs(t, t', r, event, ids)
    ensures JobsOf(t'.jobs, event) == SetOf(ids)
    ensures forall e :: e in t.events ==> JobsOf(t'.jobs, e) == JobsOf(t.jobs, e)
  {
    forall id | id in t'.jobs ensures id in t.jobs <==> t'.jobs[id].eventId != event {
      AddedRow(t, t', r, event, ids, id);
    }
    forall id | id in SetOf(ids) ensures id in t'.jobs && id !in t.jobs {
      var i :| 0 <= i < |ids| && ids[i] == id;
    }
  }

  lemma EnqueueEventsOk(t: Tables, r: Incoming, eventRowId: Uuid, ids: seq<Uuid>)
    requires ForeignKeys(t) && EventsOk(t) && DistinctNames(r.destinations) && |ids| == |r.destinations|
    ensures EventsOk(AfterEnqueue(t, r, eventRowId, ids))
  {
    if Enqueue(t, r, eventRowId, ids).Inserted? {
      EnqueueAdds(t, r, eventRowId, ids);
      InsertedIdsDistinct(t, r, eventRowId, ids);
      AddedEventsOk(t, AfterEnqueue(t, r, eventRowId, ids), r, eventRowId, ids);
    }
  }

  lemma InsertedIdsDistinct(t: Tables, r: Incoming, eventRowId: Uuid, ids: seq<Uuid>)
    requires |ids| == |r.destinations| && Enqueue(t, r, eventRowId, ids).Inserted?
    ensures Distinct(ids)
  {
  }

  lemma AddedEventsOk(t: Tables, t': Tables, r: Incoming, event: Uuid, ids: seq<Uuid>)
    requires |ids| == |r.destinations| && Distinct(ids)
    requires ForeignKeys(t) && EventsOk(t) && DistinctNames(r.destinations)
    requires AddsEvent(t, t', event, |ids|) && AddsJobs(t, t', r, event, ids)
    ensures EventsOk(t')
  {
    DistinctSize(ids);
    AddedJobsOf(t, t', r, event, ids);
    NewCounts(t, t', event, |ids|);
    NewSvixId(t, t', event, |ids|);
    NewNamesUnique(t, t', r, event, ids);
  }

  lemma NewCounts(t: Tables, t': Tables, event: Uuid, n: nat)
    requires CountsOk(t) && AddsEvent(t, t', event, n) && |JobsOf(t'.jobs, event)| == n
    requires forall e :: e in t.events ==> JobsOf(t'.jobs, e) == JobsOf(t.jobs, e)
    ensures CountsOk(t')
  {
  }

  lemma NewSvixId(t: Tables, t': Tables, event: Uuid, n: nat)
    requires SvixIdsUnique(t) && AddsEvent(t, t', event, n)
    ensures SvixIdsUnique(t')
  {
  }

  lemma NewNamesUnique(t: Tables, t': Tables, r: Incoming, event: Uuid, ids: seq<Uuid>)
    requires |ids| == |r.destinations| && ForeignKeys(t) && NamesUnique(t) && DistinctNames(r.destinations)
    requires event !in t.events && AddsJobs(t, t', r, event, ids)
    ensures NamesUnique(t')
  {
    forall a, b | a in t'.jobs && b in t'.jobs && SameDelivery(t'.jobs[a], t'.jobs[b]) ensures a == b {
      AddedRow(t, t', r, event, ids, a);
      AddedRow(t, t', r, event, ids, b);
      if a !in t.jobs {
        var i :| 0 <= i < |ids| && ids[i] == a;
        var j :| 0 <= j < |ids| && ids[j] == b;
        assert r.destinations[i].name == r.destinations[j].name;
      }
    }
  }

  /** No step but an enqueue changes which events and jobs there are. */
  lemma OnlyEnqueueAdds(s: Sys, a: Action)
    requires Enabled(s, a) && !a.CommitEnqueue?
    ensures Apply(s, a).db.events == s.db.events && Apply(s, a).db.jobs.Keys == s.db.jobs.Keys
  {
    if TaskAction(a) {
      TaskActionAddsNothing(s, a);
    }
  }

  lemma TaskActionAddsNothing(s: Sys, a: Action)
    requires Enabled(s, a) && TaskAction(a)
    ensures Apply(s, a).db.events == s.db.events && Apply(s, a).db.jobs.Keys == s.db.jobs.Keys
  {
  }

  lemma SameEventsOk(t: Tables, t': Tables)
    requires EventsOk(t) && Grows(t, t') && t'.events == t.events && t'.jobs.Keys == t.jobs.Keys
    ensures EventsOk(t')
  {
    forall e | e in t.events ensures JobsOf(t'.jobs, e) == JobsOf(t.jobs, e) {
      forall id | id in JobsOf(t'.jobs, e) ensures id in JobsOf(t.jobs, e) {
        assert id in t.jobs && SameJob(t.jobs[id], t'.jobs[id]);
      }
      forall id | id in JobsOf(t.jobs, e) ensures id in JobsOf(t'.jobs, e) {
        assert SameJob(t.jobs[id], t'.jobs[id]);
      }
    }
    forall i, j | i in t'.jobs && j in t'.jobs && SameDelivery(t'.jobs[i], t'.jobs[j]) ensures i == j {
      assert i in t.jobs && j in t.jobs;
      assert SameJob(t.jobs[i], t'.jobs[i]) && SameJob(t.jobs[j], t'.jobs[j]);
    }
  }

  lemma RequestsStep(s: Sys, a: Action)
    requires EventsInv(s) && Enabled(s, a)
    ensures forall r :: r in Apply(s, a).requests ==> DistinctNames(Apply(s, a).requests[r].destinations)
  {
    if a.Receive? {
      MatchedNamesAreDistinct(a.cfg.destinations, ParseEventForRouting(a.payload));
    }
  }

  lemma EventsStep(s: Sys, a: Action)
    requires Inv(s) && EventsInv(s) && Enabled(s, a)
    ensures EventsInv(Apply(s, a))
  {
    RequestsStep(s, a);
    if a.CommitEnqueue? {
      EnqueueEventsOk(s.db, s.requests[a.r], a.eventRowId, a.ids);
    } else {
      StepGrows(s, a);
      OnlyEnqueueAdds(s, a);
      SameEventsOk(s.db, Apply(s, a).db);
    }
  }

  lemma {:induction false} EventsInvHolds(s: Sys, run: seq<Action>)
    requires Inv(s) && ConfigsOk(s) && EventsInv(s) && Legal(s, run)
    ensures EventsInv(Run(s, run))
    decreases |run|
  {
    if run != [] {
      Step(s, run[0]);
      ConfigsStep(s, run[0]);
      EventsStep(s, run[0]);
      EventsInvHolds(Apply(s, run[0]), run[1..]);
    }
  }

  // ---- theorems ----

  lemma EventsHold(s: Sys)
    requires Reached(s)
    ensures EventsInv(s)
  {
    var start: Time, run: seq<Action> :| Legal(InitSys(start), run) && s == Run(InitSys(start), run);
    EventsInvHolds(InitSys(start), run);
  }

  /** At most one event per svix-id, one job per event and destination name, and
      as many jobs of each event as it matched destinations. */
  lemma DedupAndConservation(s: Sys)
    requires Reached(s)
    ensures SvixIdsUnique(s.db) && NamesUnique(s.db) && CountsOk(s.db)
    ensures |s.db.jobs| == TotalMatched(s.db.events)
  {
    EventsHold(s);
    Reachable(s);
    ConservedTotal(s.db);
  }

  lemma ConservedTotal(t: Tables)
    requires ForeignKeys(t) && CountsOk(t)
    ensures |t.jobs| == TotalMatched(t.events)
  {
    JobsSumUp(t.jobs, t.events);
  }

  /** Counting the jobs event by event. */
  lemma {:induction false} JobsSumUp(jobs: map<Uuid, JobRow>, events: map<Uuid, EventRow>)
    requires Counted(jobs, events)
    ensures |jobs| == TotalMatched(events)
    decreases |events|
  {
    if events == map[] {
      assert jobs == map[];
    } else {
      var e :| e in events;
      WithoutEvent(jobs, e);
      OthersCounted(jobs, events, e);
      JobsSumUp(jobs - JobsOf(jobs, e), events - {e});
      TotalMatchedPick(events, e);
    }
  }

  ghost predicate Counted(jobs: map<Uuid, JobRow>, events: map<Uuid, EventRow>) {
    && (forall id :: id in jobs ==> jobs[id].eventId in events)
    && (forall e :: e in events ==> |JobsOf(jobs, e)| == events[e].matchedDestinationCount)
  }

  lemma OthersCounted(jobs: map<Uuid, JobRow>, events: map<Uuid, EventRow>, e: Uuid)
    requires Counted(jobs, events) && e in events
    ensures Counted(jobs - JobsOf(jobs, e), events - {e}) && |JobsOf(jobs, e)| == events[e].matchedDestinationCount
  {
    WithoutEvent(jobs, e);
  }

  lemma WithoutEvent(jobs: map<Uuid, JobRow>, e: Uuid)
    ensures var others := jobs - JobsOf(jobs, e);
            && |jobs| == |JobsOf(jobs, e)| + |others|
            && (forall id :: id in others ==> jobs[id].eventId != e && others[id] == jobs[id])
            && (forall f :: f != e ==> JobsOf(others, f) == JobsOf(jobs, f))
  {
    var mine := JobsOf(jobs, e);
    var others := jobs - mine;
    assert others.Keys == jobs.Keys - mine && mine <= jobs.Keys;
    assert jobs.Keys == mine + others.Keys && mine !! others.Keys;
    assert |jobs.Keys| == |mine| + |others.Keys|;
    forall f | f != e ensures JobsOf(others, f) == JobsOf(jobs, f) {
    }
  }

  /** Once an event with a svix-id is stored, a webhook with the same id, whatever
      its body and destinations, adds nothing in any later state. */
  lemma ReplayAddsNothing(s: Sys, run: seq<Action>, event: Uuid, r: Incoming, eventRowId: Uuid, ids: seq<Uuid>)
    requires Inv(s) && ConfigsOk(s) && Legal(s, run)
    requires event in s.db.events && |ids| == |r.destinations|
    requires HeaderToString(r.headers, "svix-id") == Some(s.db.events[event].sourceSvixId)
    ensures AfterEnqueue(Run(s, run).db, r, eventRowId, ids) == Run(s, run).db
    ensures HeaderToString(r.headers, "svix-timestamp").Some? ==> Enqueue(Run(s, run).db, r, eventRowId, ids) == Duplicate
  {
    RunGrows(s, run);
    assert Run(s, run).db.events[event] == s.db.events[event];
  }
}
