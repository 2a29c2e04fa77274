/** Where everything stored and sent comes from: the webhooks received, the rows
    claimed and the answers heard in the course of a run. */
module Provenance {
  import opened Wrappers
  import opened Text
  import opened Retry
  import opened Json
  import opened Headers
  import opened Config
  import opened Router
  import opened Resend
  import opened Schema
  import opened Columns
  import opened Machine
  import opened Invariants
  import opened Posts

  // ---- what a run has seen ----

  /** A webhook as it came in, a row and its event as a worker claimed them, and the
      answer to a request for an attempt. */
  datatype Note =
    | Receipt(at: Time, server: Settings, headers: HeaderMap, body: Bytes, payload: Value)
    | Claimed(w: WorkerId, cfg: Settings, at: Time, row: JobRow, event: EventRow)
    | Reply(id: Uuid, attempt: int, answer: Answer)

  ghost function NotesOf(s: Sys, a: Action): set<Note>
    requires Enabled(s, a)
  {
    match a
    case Receive(_, cfg, headers, body, payload) => {Receipt(s.now, cfg, headers, body, payload)}
    case Claim(w, _, picked) =>
      set id | id in picked :: Claimed(w, s.workers[w].cfg, s.now, s.db.jobs[id], s.db.events[s.db.jobs[id].eventId])
    case EndPost(w, id, answer, _) => {Reply(id, TaskOf(s, w, id).job.attemptCount + 1, answer)}
    case _ => {}
  }

  ghost function Notes(s: Sys, run: seq<Action>): set<Note>
    requires Legal(s, run)
    decreases |run|
  {
    if run == [] then {} else NotesOf(s, run[0]) + Notes(Apply(s, run[0]), run[1..])
  }

  // ---- webhooks ----

  /** A request being handled is what came in. */
  predicate IsReceived(r: Incoming, n: Note) {
    && n.Receipt?
    && r.headers == n.headers && r.body == n.body && r.receivedAt == n.at && r.windowSecs == n.server.retryWindowSecs
    && r.event == ParseEventForRouting(n.payload)
    && r.destinations == MatchDestinations(n.server.destinations, r.event)
  }

  /** An event row holds a webhook that came in, column by column. */
  ghost predicate IsStored(e: EventRow, n: Note) {
    && n.Receipt?
    && e.rawBody == n.body && StoresHeaders(e.headers, n.headers)
    && HeaderToString(n.headers, "svix-id") == Some(e.sourceSvixId)
    && HeaderToString(n.headers, "svix-timestamp") == Some(e.sourceSvixTimestamp)
    && e.receivedAt == n.at
    && var event := ParseEventForRouting(n.payload);
    && e.resendEventId == event.eventId && e.resendEventType == event.eventType
    && e.matchedDestinationCount == |MatchDestinations(n.server.destinations, event)|
  }

  ghost predicate StoredFrom(e: EventRow, notes: set<Note>) {
    exists n :: n in notes && IsStored(e, n)
  }

  ghost predicate ReceivedFrom(r: Incoming, notes: set<Note>) {
    exists n :: n in notes && IsReceived(r, n)
  }

  ghost predicate WebhooksInv(s: Sys, notes: set<Note>) {
    && (forall r :: r in s.requests ==> ReceivedFrom(s.requests[r], notes))
    && (forall e :: e in s.db.events ==> StoredFrom(s.db.events[e], notes))
    && (forall n :: n in notes && n.Claimed? ==> StoredFrom(n.event, notes))
  }

  lemma MoreNotes(e: EventRow, notes: set<Note>, more: set<Note>)
    requires StoredFrom(e, notes) && notes <= more
    ensures StoredFrom(e, more)
  {
  }

  lemma RequestFrom(s: Sys, a: Action, notes: set<Note>, r: nat)
    requires WebhooksInv(s, notes) && Enabled(s, a) && r in Apply(s, a).requests
    ensures ReceivedFrom(Apply(s, a).requests[r], notes + NotesOf(s, a))
  {
    if a.Receive? && a.r == r {
      var n := Receipt(s.now, a.cfg, a.headers, a.body, a.payload);
      assert n in NotesOf(s, a) && IsReceived(Apply(s, a).requests[r], n);
    } else {
      RequestStays(s, a, r);
      var n :| n in notes && IsReceived(s.requests[r], n);
      assert n in notes + NotesOf(s, a);
    }
  }

  lemma RequestStays(s: Sys, a: Action, r: nat)
    requires Enabled(s, a) && r in Apply(s, a).requests && !(a.Receive? && a.r == r)
    ensures r in s.requests && Apply(s, a).requests[r] == s.requests[r]
  {
  }

  lemma NewEventFrom(t: Tables, r: Incoming, eventRowId: Uuid, ids: seq<Uuid>, notes: set<Note>, e: Uuid)
    requires |ids| == |r.destinations| && ReceivedFrom(r, notes)
    requires e in AfterEnqueue(t, r, eventRowId, ids).events && e !in t.events
    ensures StoredFrom(AfterEnqueue(t, r, eventRowId, ids).events[e], notes)
  {
    EventColumns(t, r, eventRowId, ids);
    var n :| n in notes && IsReceived(r, n);
    assert IsStored(AfterEnqueue(t, r, eventRowId, ids).events[e], n);
  }

  lemma EventFrom(s: Sys, a: Action, notes: set<Note>, e: Uuid)
    requires WebhooksInv(s, notes) && Enabled(s, a) && e in Apply(s, a).db.events
    ensures StoredFrom(Apply(s, a).db.events[e], notes)
  {
    if a.CommitEnqueue? {
      EnqueueGrows(s.db, s.requests[a.r], a.eventRowId, a.ids);
      if e !in s.db.events {
        NewEventFrom(s.db, s.requests[a.r], a.eventRowId, a.ids, notes, e);
      }
    } else {
      EventsStay(s, a);
    }
  }

  lemma EventsStay(s: Sys, a: Action)
    requires Enabled(s, a) && !a.CommitEnqueue?
    ensures Apply(s, a).db.events == s.db.events
  {
  }

  lemma WebhooksStep(s: Sys, a: Action, notes: set<Note>)
    requires WebhooksInv(s, notes) && Enabled(s, a)
    ensures WebhooksInv(Apply(s, a), notes + NotesOf(s, a))
  {
    var more := notes + NotesOf(s, a);
    forall r | r in Apply(s, a).requests ensures ReceivedFrom(Apply(s, a).requests[r], more) {
      RequestFrom(s, a, notes, r);
    }
    forall e | e in Apply(s, a).db.events ensures StoredFrom(Apply(s, a).db.events[e], more) {
      EventFrom(s, a, notes, e);
      MoreNotes(Apply(s, a).db.events[e], notes, more);
    }
    forall n | n in more && n.Claimed? ensures StoredFrom(n.event, more) {
      ClaimedEventFrom(s, a, notes, n);
      MoreNotes(n.event, notes, more);
    }
  }

  lemma ClaimedEventFrom(s: Sys, a: Action, notes: set<Note>, n: Note)
    requires WebhooksInv(s, notes) && Enabled(s, a) && n in notes + NotesOf(s, a) && n.Claimed?
    ensures StoredFrom(n.event, notes)
  {
    if n !in notes {
      var e := ClaimedEvent(s, a, n);
    }
  }

  lemma ClaimedEvent(s: Sys, a: Action, n: Note) returns (e: Uuid)
    requires Enabled(s, a) && n in NotesOf(s, a) && n.Claimed?
    ensures e in s.db.events && n.event == s.db.events[e]
  {
    var id :| id in a.picked
      && n == Claimed(a.w, s.workers[a.w].cfg, s.now, s.db.jobs[id], s.db.events[s.db.jobs[id].eventId]);
    e := s.db.jobs[id].eventId;
  }

  // ---- claims and requests ----

  /** A task works on the row and the event as they were when it was claimed. */
  predicate IsClaimed(w: WorkerId, cfg: Settings, task: Task, n: Note) {
    && n.Claimed? && n.w == w && n.cfg == cfg && n.at == task.claimedAt
    && task.job.id == n.row.id && task.job.eventId == n.row.eventId
    && task.job.destinationName == n.row.destinationName && task.job.destinationUrl == n.row.destinationUrl
    && task.job.attemptCount == n.row.attemptCount && task.job.deadlineAt == n.row.deadlineAt
    && task.job.rawBody == n.event.rawBody && task.job.headers == n.event.headers
  }

  /** A request is for the claimed row's next attempt, carries its event's body and
      content type, and goes to the url configured for its destination; to the url
      the row had when claimed if the configuration lacks the name. */
  predicate IsSent(p: Post, n: Note) {
    && n.Claimed? && n.at <= p.sentAt
    && p.jobId == n.row.id && p.eventId == n.row.eventId && p.destinationName == n.row.destinationName
    && p.attempt == n.row.attemptCount + 1
    && p.body == n.event.rawBody
    && p.contentType == (match HeaderValueFromJson(n.event.headers, "content-type")
                         case Some(value) => value
                         case None => "application/json")
    && p.url == (match DestinationUrl(n.cfg.destinations, n.row.destinationName)
                 case Some(url) => url
                 case None => n.row.destinationUrl)
  }

  ghost predicate ClaimedFrom(w: WorkerId, cfg: Settings, task: Task, notes: set<Note>) {
    exists n :: n in notes && IsClaimed(w, cfg, task, n)
  }

  ghost predicate SentFrom(p: Post, notes: set<Note>) {
    exists n :: n in notes && IsSent(p, n)
  }

  ghost predicate TasksInv(s: Sys, notes: set<Note>) {
    forall w, id :: HasTask(s, w, id) ==> ClaimedFrom(w, s.workers[w].cfg, TaskOf(s, w, id), notes)
  }

  ghost predicate WireInv(s: Sys, notes: set<Note>) {
    forall i :: 0 <= i < |s.wire| ==> SentFrom(s.wire[i], notes)
  }

  lemma NewTaskFrom(s: Sys, w: WorkerId, skipped: set<Uuid>, picked: set<Uuid>, id: Uuid)
    requires MayClaim(s, w, skipped, picked) && id in picked && s.db.jobs[id].id == id
    ensures ClaimedFrom(w, s.workers[w].cfg, Task(Snapshot(s.db, id, w), s.now, Spawned), NotesOf(s, Claim(w, skipped, picked)))
  {
    var n := Claimed(w, s.workers[w].cfg, s.now, s.db.jobs[id], s.db.events[s.db.jobs[id].eventId]);
    SnapshotColumns(s.db, id, w);
    assert n in NotesOf(s, Claim(w, skipped, picked));
    assert IsClaimed(w, s.workers[w].cfg, Task(Snapshot(s.db, id, w), s.now, Spawned), n);
  }

  lemma TaskFrom(s: Sys, a: Action, notes: set<Note>, w: WorkerId, id: Uuid)
    requires Inv(s) && TasksInv(s, notes) && Enabled(s, a) && HasTask(Apply(s, a), w, id)
    ensures ClaimedFrom(w, Apply(s, a).workers[w].cfg, TaskOf(Apply(s, a), w, id), notes + NotesOf(s, a))
  {
    if TaskAction(a) {
      OwnTaskOrigin(s, a, w, id);
    } else {
      OtherTaskOrigin(s, a, w, id);
    }
    if w in s.workers {
      SettingsStay(s, a, w);
    }
    if HasTask(s, w, id) && TaskOf(Apply(s, a), w, id).job == TaskOf(s, w, id).job
       && TaskOf(Apply(s, a), w, id).claimedAt == TaskOf(s, w, id).claimedAt {
      var n :| n in notes && IsClaimed(w, s.workers[w].cfg, TaskOf(s, w, id), n);
      assert n in notes + NotesOf(s, a) && IsClaimed(w, s.workers[w].cfg, TaskOf(Apply(s, a), w, id), n);
    } else {
      assert RowOk(s.db.attempts, id, s.db.jobs[id]);
      NewTaskFrom(s, w, a.skipped, a.picked, id);
    }
  }

  lemma TasksStep(s: Sys, a: Action, notes: set<Note>)
    requires Inv(s) && TasksInv(s, notes) && Enabled(s, a)
    ensures TasksInv(Apply(s, a), notes + NotesOf(s, a))
  {
    forall w, id | HasTask(Apply(s, a), w, id)
      ensures ClaimedFrom(w, Apply(s, a).workers[w].cfg, TaskOf(Apply(s, a), w, id), notes + NotesOf(s, a))
    {
      TaskFrom(s, a, notes, w, id);
    }
  }

  lemma NewPostFrom(s: Sys, w: WorkerId, id: Uuid, notes: set<Note>)
    requires TasksInv(s, notes) && UrlsOk(s) && Enabled(s, BeginPost(w, id)) && TaskOf(s, w, id).claimedAt <= s.now
    ensures SentFrom(PostOf(TaskOf(s, w, id), TaskOf(s, w, id).phase.url, s.now), notes)
  {
    var task := TaskOf(s, w, id);
    var n :| n in notes && IsClaimed(w, s.workers[w].cfg, task, n);
    assert UrlOk(s.workers[w].cfg, task);
    assert IsSent(PostOf(task, task.phase.url, s.now), n);
  }

  lemma WireNotesStep(s: Sys, a: Action, notes: set<Note>)
    requires Inv(s) && TasksInv(s, notes) && UrlsOk(s) && WireInv(s, notes) && Enabled(s, a)
    ensures WireInv(Apply(s, a), notes + NotesOf(s, a))
  {
    var wire := Apply(s, a).wire;
    WireAndClockGrow(s, a);
    if a.BeginPost? {
      assert TaskOk(s.now, s.db, a.w, a.id, TaskOf(s, a.w, a.id));
      NewPostFrom(s, a.w, a.id, notes);
    }
    forall i | 0 <= i < |wire| ensures SentFrom(wire[i], notes + NotesOf(s, a)) {
      if i < |s.wire| {
        assert wire[i] == s.wire[i];
      } else {
        NewestPost(s, a, i);
      }
      MoreSent(wire[i], notes, notes + NotesOf(s, a));
    }
  }

  lemma NewestPost(s: Sys, a: Action, i: nat)
    requires Enabled(s, a) && |s.wire| <= i < |Apply(s, a).wire|
    ensures a.BeginPost? && Apply(s, a).wire[i] == PostOf(TaskOf(s, a.w, a.id), TaskOf(s, a.w, a.id).phase.url, s.now)
  {
  }

  lemma MoreSent(p: Post, notes: set<Note>, more: set<Note>)
    requires SentFrom(p, notes) && notes <= more
    ensures SentFrom(p, more)
  {
  }

  // ---- answers ----

  /** What a failed request leaves behind: the status and a text naming it, or only
      the error. */
  predicate Says(answer: Answer, status: Option<int>, error: Option<string>) {
    match answer
    case Status(code) =>
      !(200 <= code < 300) && status == Some(code) && error == Some("destination returned HTTP " + Decimal(code))
    case NoResponse(e) => status == None && error == Some(e)
  }

  ghost predicate Failed(id: Uuid, attempt: int, status: Option<int>, error: Option<string>, notes: set<Note>) {
    exists answer :: Reply(id, attempt, answer) in notes && Says(answer, status, error)
  }

  predicate Expired(status: Option<int>, error: Option<string>) {
    status == None && error == Some("retry window expired before delivery attempt")
  }

  ghost predicate Succeeded2xx(id: Uuid, attempt: int, code: int, notes: set<Note>) {
    200 <= code < 300 && Reply(id, attempt, Status(code)) in notes
  }

  ghost predicate PhaseFrom(id: Uuid, attempt: int, phase: Phase, notes: set<Note>) {
    match phase
    case Answered(status, error, _) => Failed(id, attempt, status, error, notes)
    case Recording(Success(code), _, _) => Succeeded2xx(id, attempt, code, notes)
    case Recording(Retry(status, error, _), _, _) => Failed(id, attempt, status, error, notes)
    case Recording(FinalFailure(status, error), _, _) => Failed(id, attempt, status, error, notes) || Expired(status, error)
    case _ => true
  }

  /** A recorded attempt shows an answer to a request for it: a 2xx status as a
      success, another status or none as a failure. Only an attempt that expired
      shows none. */
  ghost predicate EntryFrom(e: AttemptRow, notes: set<Note>) {
    if Is2xx(e.statusCode) then
      Succeeded2xx(e.jobId, e.attemptNumber, e.statusCode.value, notes) && e.error == None && !e.willRetry
    else
      || Failed(e.jobId, e.attemptNumber, e.statusCode, e.error, notes)
      || (Expired(e.statusCode, e.error) && !e.willRetry)
  }

  ghost predicate RepliesInv(s: Sys, notes: set<Note>) {
    && (forall w, id :: HasTask(s, w, id) ==>
          PhaseFrom(id, TaskOf(s, w, id).job.attemptCount + 1, TaskOf(s, w, id).phase, notes))
    && (forall k :: k in s.db.attempts ==> EntryFrom(s.db.attempts[k], notes))
  }

  lemma MorePhase(id: Uuid, attempt: int, phase: Phase, notes: set<Note>, more: set<Note>)
    requires PhaseFrom(id, attempt, phase, notes) && notes <= more
    ensures PhaseFrom(id, attempt, phase, more)
  {
  }

  lemma MoreEntry(e: AttemptRow, notes: set<Note>, more: set<Note>)
    requires EntryFrom(e, notes) && notes <= more
    ensures EntryFrom(e, more)
  {
  }

  lemma AnswerSays(id: Uuid, attempt: int, answer: Answer, ms: nat, now: Time, notes: set<Note>)
    requires Reply(id, attempt, answer) in notes
    ensures PhaseFrom(id, attempt, AfterAnswer(answer, ms, now), notes)
  {
    match answer
    case Status(code) =>
      if !(200 <= code < 300) {
        assert Says(answer, Some(code), Some(HttpError(code)));
      }
    case NoResponse(e) => assert Says(answer, None, Some(e));
  }

  lemma OwnPhase(s: Sys, a: Action, notes: set<Note>)
    requires Enabled(s, a) && TaskAction(a) && HasTask(Apply(s, a), a.w, a.id)
    requires PhaseFrom(a.id, TaskOf(s, a.w, a.id).job.attemptCount + 1, TaskOf(s, a.w, a.id).phase, notes)
    ensures PhaseFrom(a.id, TaskOf(s, a.w, a.id).job.attemptCount + 1, TaskOf(Apply(s, a), a.w, a.id).phase, notes + NotesOf(s, a))
  {
    match a
    case EndPost(w, id, answer, ms) =>
      AnswerSays(id, TaskOf(s, w, id).job.attemptCount + 1, answer, ms, s.now, notes + NotesOf(s, a));
    case Decide(w, id, random) =>
      var phase := TaskOf(s, w, id).phase;
      var answer :| Reply(id, TaskOf(s, w, id).job.attemptCount + 1, answer) in notes && Says(answer, phase.status, phase.error);
    case _ =>
  }

  lemma PhaseStepFrom(s: Sys, a: Action, notes: set<Note>, w: WorkerId, id: Uuid)
    requires RepliesInv(s, notes) && Enabled(s, a) && HasTask(Apply(s, a), w, id)
    ensures PhaseFrom(id, TaskOf(Apply(s, a), w, id).job.attemptCount + 1, TaskOf(Apply(s, a), w, id).phase,
                      notes + NotesOf(s, a))
  {
    if TaskAction(a) {
      OwnTaskOrigin(s, a, w, id);
      if ActsOn(a, w, id) {
        OwnPhase(s, a, notes);
      }
    } else {
      OtherTaskOrigin(s, a, w, id);
    }
    if HasTask(s, w, id) && SameTask(s, Apply(s, a), w, id) {
      MorePhase(id, TaskOf(s, w, id).job.attemptCount + 1, TaskOf(s, w, id).phase, notes, notes + NotesOf(s, a));
    }
  }

  lemma RecordedFrom(t: Tables, task: Task, at: Time, notes: set<Note>, k: AttemptKey)
    requires task.phase.Recording? && PhaseFrom(task.job.id, task.job.attemptCount + 1, task.phase, notes)
    requires FailureCode(task.phase.outcome)
    requires var t' := AfterRecord(t, task.job, task.phase.outcome, task.phase.durationMs, at);
             k in t'.attempts && k !in t.attempts
    ensures EntryFrom(AfterRecord(t, task.job, task.phase.outcome, task.phase.durationMs, at).attempts[k], notes)
  {
    OutcomeColumns(t, task.job, task.phase.outcome, task.phase.durationMs, at);
  }

  /** Only a recorded outcome adds an attempt. */
  lemma NewEntry(s: Sys, a: Action, k: AttemptKey)
    requires Inv(s) && Enabled(s, a) && k in Apply(s, a).db.attempts
    ensures k in s.db.attempts ==> Apply(s, a).db.attempts[k] == s.db.attempts[k]
    ensures k !in s.db.attempts ==> a.Commit? && TaskOk(s.now, s.db, a.w, a.id, TaskOf(s, a.w, a.id))
  {
    StepGrows(s, a);
    if !a.Commit? {
      OnlyCommitAddsAttempts(s, a);
    }
  }

  lemma EntriesStep(s: Sys, a: Action, notes: set<Note>, k: AttemptKey)
    requires Inv(s) && RepliesInv(s, notes) && Enabled(s, a) && k in Apply(s, a).db.attempts
    ensures EntryFrom(Apply(s, a).db.attempts[k], notes)
  {
    NewEntry(s, a, k);
    if k !in s.db.attempts {
      var task := TaskOf(s, a.w, a.id);
      TaskFacts(s.now, s.db, a.w, a.id, task);
      CommittedEntry(s, a.w, a.id, a.at, notes, k);
    }
  }

  lemma TaskFacts(now: Time, t: Tables, w: WorkerId, id: Uuid, task: Task)
    requires TaskOk(now, t, w, id, task)
    ensures task.job.id == id && (task.phase.Recording? ==> FailureCode(task.phase.outcome))
  {
  }

  predicate FailureCode(outcome: Outcome) {
    outcome.FinalFailure? || outcome.Retry? ==> !Is2xx(outcome.status)
  }

  lemma CommittedEntry(s: Sys, w: WorkerId, id: Uuid, at: Time, notes: set<Note>, k: AttemptKey)
    requires Enabled(s, Commit(w, id, at)) && k in Apply(s, Commit(w, id, at)).db.attempts && k !in s.db.attempts
    requires RepliesInv(s, notes) && TaskOf(s, w, id).job.id == id && FailureCode(TaskOf(s, w, id).phase.outcome)
    ensures EntryFrom(Apply(s, Commit(w, id, at)).db.attempts[k], notes)
  {
    RecordedFrom(s.db, TaskOf(s, w, id), at, notes, k);
  }

  lemma RepliesStep(s: Sys, a: Action, notes: set<Note>)
    requires Inv(s) && RepliesInv(s, notes) && Enabled(s, a)
    ensures RepliesInv(Apply(s, a), notes + NotesOf(s, a))
  {
    forall w, id | HasTask(Apply(s, a), w, id)
      ensures PhaseFrom(id, TaskOf(Apply(s, a), w, id).job.attemptCount + 1, TaskOf(Apply(s, a), w, id).phase,
                        notes + NotesOf(s, a))
    {
      PhaseStepFrom(s, a, notes, w, id);
    }
    forall k | k in Apply(s, a).db.attempts ensures EntryFrom(Apply(s, a).db.attempts[k], notes + NotesOf(s, a)) {
      EntriesStep(s, a, notes, k);
      MoreEntry(Apply(s, a).db.attempts[k], notes, notes + NotesOf(s, a));
    }
  }

  // ---- over runs ----

  ghost predicate NotedInv(s: Sys, notes: set<Note>) {
    WebhooksInv(s, notes) && TasksInv(s, notes) && UrlsOk(s) && WireInv(s, notes) && RepliesInv(s, notes)
  }

  lemma NotedStep(s: Sys, a: Action, notes: set<Note>)
    requires Inv(s) && NotedInv(s, notes) && Enabled(s, a)
    ensures NotedInv(Apply(s, a), notes + NotesOf(s, a))
  {
    WebhooksStep(s, a, notes);
    TasksStep(s, a, notes);
    UrlsStep(s, a);
    WireNotesStep(s, a, notes);
    RepliesStep(s, a, notes);
  }

  lemma NotesAppend(s: Sys, run: seq<Action>, notes: set<Note>)
    requires run != [] && Legal(s, run)
    ensures notes + Notes(s, run) == (notes + NotesOf(s, run[0])) + Notes(Apply(s, run[0]), run[1..])
  {
  }

  lemma NotedNext(s: Sys, a: Action, notes: set<Note>)
    requires Inv(s) && ConfigsOk(s) && NotedInv(s, notes) && Enabled(s, a)
    ensures Inv(Apply(s, a)) && ConfigsOk(Apply(s, a)) && NotedInv(Apply(s, a), notes + NotesOf(s, a))
  {
    Step(s, a);
    ConfigsStep(s, a);
    NotedStep(s, a, notes);
  }

  lemma {:induction false} NotedRun(s: Sys, run: seq<Action>, notes: set<Note>)
    requires Inv(s) && ConfigsOk(s) && NotedInv(s, notes) && Legal(s, run)
    ensures NotedInv(Run(s, run), notes + Notes(s, run))
    decreases |run|
  {
    if run == [] {
      assert notes + Notes(s, run) == notes;
    } else {
      NotedNext(s, run[0], notes);
      NotedRun(Apply(s, run[0]), run[1..], notes + NotesOf(s, run[0]));
      NotesAppend(s, run, notes);
    }
  }

  lemma Noted(start: Time, run: seq<Action>)
    requires Legal(InitSys(start), run)
    ensures NotedInv(Run(InitSys(start), run), Notes(InitSys(start), run))
  {
    NotedRun(InitSys(start), run, {});
    assert {} + Notes(InitSys(start), run) == Notes(InitSys(start), run);
  }

  // ---- theorems ----

  /** Every stored event is a webhook that came in, column by column. */
  lemma EventsWereReceived(start: Time, run: seq<Action>, e: Uuid)
    requires Legal(InitSys(start), run) && e in Run(InitSys(start), run).db.events
    ensures exists n :: n in Notes(InitSys(start), run) && IsStored(Run(InitSys(start), run).db.events[e], n)
  {
    Noted(start, run);
    assert StoredFrom(Run(InitSys(start), run).db.events[e], Notes(InitSys(start), run));
  }

  /** The content type a webhook asks for: its first value, or the default. */
  function AskedType(headers: HeaderMap): string {
    var values := ValuesOf(headers, "content-type");
    if values == [] then "application/json" else values[0]
  }

  lemma StoredType(e: EventRow, n: Note)
    requires IsStored(e, n)
    ensures (match HeaderValueFromJson(e.headers, "content-type")
             case Some(value) => value
             case None => "application/json") == AskedType(n.headers)
  {
    ContentTypeIsLower();
    var key := "content-type";
    assert key in e.headers.fields ==> StandsFor(e.headers.fields[key], ValuesOf(n.headers, key));
  }

  lemma ContentTypeIsLower()
    ensures Lower("content-type") == "content-type"
  {
  }

  /** Every request carries the body of a webhook that came in, and its content type,
      for a row as it was claimed; it goes to the url configured for the name, or to
      the one the row had when it was claimed. */
  lemma PostsWereReceived(start: Time, run: seq<Action>, i: nat)
    requires Legal(InitSys(start), run) && i < |Run(InitSys(start), run).wire|
    ensures var p, notes := Run(InitSys(start), run).wire[i], Notes(InitSys(start), run);
            exists claim, receipt ::
              && claim in notes && IsSent(p, claim)
              && receipt in notes && IsStored(claim.event, receipt)
              && p.body == receipt.body && p.contentType == AskedType(receipt.headers)
  {
    Noted(start, run);
    var s, notes := Run(InitSys(start), run), Notes(InitSys(start), run);
    assert SentFrom(s.wire[i], notes);
    var claim :| claim in notes && IsSent(s.wire[i], claim);
    assert StoredFrom(claim.event, notes);
    var receipt :| receipt in notes && IsStored(claim.event, receipt);
    StoredType(claim.event, receipt);
  }

  /** Every recorded attempt shows an answer that came for it. */
  lemma AttemptsWereAnswered(start: Time, run: seq<Action>, k: AttemptKey)
    requires Legal(InitSys(start), run) && k in Run(InitSys(start), run).db.attempts
    ensures EntryFrom(Run(InitSys(start), run).db.attempts[k], Notes(InitSys(start), run))
  {
    Noted(start, run);
  }
}
