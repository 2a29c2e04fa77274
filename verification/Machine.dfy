/** The running system: a clock, the database, any number of workers with their
    tasks in flight, webhook requests being handled, and everything posted so
    far. Each action is one atomic step of src/delivery.rs, src/db.rs or
    src/web.rs, or something the environment may do to them; all choices the
    code does not make are parameters of the action. */
module Machine {
  import opened Wrappers
  import opened Text
  import opened Retry
  import opened Json
  import opened Headers
  import opened Config
  import opened Router
  import opened Resend
  import opened Schema
  import opened Signing

  /** Where a task of `deliver_and_record` stands. */
  datatype Phase =
    | Spawned
    | Cleared
    | Addressed(url: string)
    | Sending(url: string, startedAt: Time)
    | Answered(status: Option<int>, error: Option<string>, durationMs: int)
    | Recording(outcome: Outcome, durationMs: int, decidedAt: Time)

  /** A spawned task: its snapshot, the time of its claim, and its phase. */
  datatype Task = Task(job: ClaimedJob, claimedAt: Time, phase: Phase)

  /** A worker and its join set. */
  datatype Worker = Worker(cfg: Settings, running: bool, tasks: map<Uuid, Task>)

  /** A request put on the wire. */
  datatype Post = Post(
    jobId: Uuid,
    eventId: Uuid,
    destinationName: string,
    attempt: int,
    sentAt: Time,
    body: Bytes,
    contentType: string,
    url: string)
  {
    /** `unix_timestamp`. */
    function Timestamp(): int {
      sentAt / SECOND
    }

    function Content(): Bytes {
      SignedContent(Decimal(Timestamp()), UuidText(jobId), UuidText(eventId), destinationName, attempt, body)
    }
  }

  datatype Sys = Sys(
    now: Time,
    db: Tables,
    workers: map<WorkerId, Worker>,
    requests: map<nat, Incoming>,
    wire: seq<Post>)

  datatype Answer = Status(code: int) | NoResponse(error: string)

  datatype Action =
    | Tick(to: Time)
    | StartWorker(w: WorkerId, cfg: Settings)
    | Claim(w: WorkerId, skipped: set<Uuid>, picked: set<Uuid>)
    | LoseClaim(w: WorkerId, skipped: set<Uuid>, picked: set<Uuid>)  // locked, but no task is spawned
    | Gate(w: WorkerId, id: Uuid)
    | Refresh(w: WorkerId, id: Uuid)
    | BeginPost(w: WorkerId, id: Uuid)
    | EndPost(w: WorkerId, id: Uuid, answer: Answer, ms: nat)
    | Decide(w: WorkerId, id: Uuid, random: int)
    | Commit(w: WorkerId, id: Uuid, at: Time)
    | Vanish(w: WorkerId, id: Uuid)                                  // panic, or a failed database call
    | Stop(w: WorkerId)
    | Kill(w: WorkerId)
    | Receive(r: nat, cfg: Settings, headers: HeaderMap, body: Bytes, payload: Value)
    | CommitEnqueue(r: nat, eventRowId: Uuid, ids: seq<Uuid>)
    | DropRequest(r: nat)

  function InitSys(now: Time): Sys {
    Sys(now, Tables(map[], map[], map[]), map[], map[], [])
  }

  // ---- access to tasks ----

  predicate HasTask(s: Sys, w: WorkerId, id: Uuid) {
    w in s.workers && id in s.workers[w].tasks
  }

  function TaskOf(s: Sys, w: WorkerId, id: Uuid): Task
    requires HasTask(s, w, id)
  {
    s.workers[w].tasks[id]
  }

  function PutTask(s: Sys, w: WorkerId, id: Uuid, task: Task): Sys
    requires HasTask(s, w, id)
  {
    s.(workers := s.workers[w := s.workers[w].(tasks := s.workers[w].tasks[id := task])])
  }

  function SetPhase(s: Sys, w: WorkerId, id: Uuid, phase: Phase): Sys
    requires HasTask(s, w, id)
  {
    PutTask(s, w, id, TaskOf(s, w, id).(phase := phase))
  }

  function DropTask(s: Sys, w: WorkerId, id: Uuid): Sys
    requires HasTask(s, w, id)
  {
    s.(workers := s.workers[w := s.workers[w].(tasks := s.workers[w].tasks - {id})])
  }

  function SetTasks(s: Sys, w: WorkerId, tasks: map<Uuid, Task>): Sys
    requires w in s.workers
  {
    s.(workers := s.workers[w := s.workers[w].(tasks := tasks)])
  }

  // ---- what a task computes (src/delivery.rs) ----

  const EXPIRED := "retry window expired before delivery attempt"

  /** The deadline gate at the start of `deliver_and_record`. */
  function AfterGate(job: ClaimedJob, now: Time): Phase {
    if now >= job.deadlineAt then Recording(FinalFailure(None, Some(EXPIRED)), 0, now) else Cleared
  }

  datatype ResolvedUrl = ResolvedUrl(url: string, fromCurrentConfig: bool)

  /** `resolve_destination_url`. */
  function ResolveDestinationUrl(cfg: Settings, job: ClaimedJob): ResolvedUrl {
    match DestinationUrl(cfg.destinations, job.destinationName)
    case Some(url) => ResolvedUrl(url, true)
    case None => ResolvedUrl(job.destinationUrl, false)
  }

  predicate NeedsRefresh(cfg: Settings, job: ClaimedJob) {
    var resolved := ResolveDestinationUrl(cfg, job);
    resolved.fromCurrentConfig && resolved.url != job.destinationUrl
  }

  function HttpError(code: int): string {
    "destination returned HTTP " + Decimal(code)
  }

  /** What follows the response: a 2xx status is a success, anything else a failure. */
  function AfterAnswer(answer: Answer, ms: nat, now: Time): Phase {
    match answer
    case Status(code) =>
      if 200 <= code < 300 then Recording(Success(code), ms, now)
      else Answered(Some(code), Some(HttpError(code)), ms)
    case NoResponse(error) => Answered(None, Some(error), ms)
  }

  /** `record_failure` up to the database call. */
  function AfterDecision(job: ClaimedJob, status: Option<int>, error: Option<string>, ms: int, now: Time, random: int): Phase
    requires 0 <= random <= 2 * JitterWindow(job.attemptCount + 1)
  {
    if now >= job.deadlineAt then Recording(FinalFailure(status, error), ms, now)
    else
      var next := NextAttemptAt(now, job.deadlineAt, job.attemptCount + 1, random);
      Recording(Retry(status, error, next), ms, now)
  }

  /** The stored content type, or the default. */
  function ContentType(headers: Value): string {
    match HeaderValueFromJson(headers, "content-type")
    case Some(value) => value
    case None => "application/json"
  }

  function PostOf(task: Task, url: string, now: Time): Post {
    Post(task.job.id, task.job.eventId, task.job.destinationName, task.job.attemptCount + 1, now, task.job.rawBody,
         ContentType(task.job.headers), url)
  }

  function Stale(cfg: Settings): Time {
    cfg.staleDeliveryLockSecs * SECOND
  }

  function NewTasks(t: Tables, picked: set<Uuid>, w: WorkerId, now: Time): map<Uuid, Task>
    requires picked <= t.jobs.Keys && ForeignKeys(t)
  {
    map id | id in picked :: Task(Snapshot(t, id, w), now, Spawned)
  }

  // ---- steps ----

  predicate MayClaim(s: Sys, w: WorkerId, skipped: set<Uuid>, picked: set<Uuid>) {
    && w in s.workers && s.workers[w].running
    && s.workers[w].tasks == map[]
    && ForeignKeys(s.db)
    && LegalPick(s.db, s.workers[w].cfg.deliveryClaimLimit, Stale(s.workers[w].cfg), s.now, skipped, picked)
  }

  predicate Enabled(s: Sys, a: Action) {
    match a
    case Tick(to) => s.now <= to
    case StartWorker(w, cfg) => w !in s.workers && ValidSettings(cfg)
    case Claim(w, skipped, picked) => MayClaim(s, w, skipped, picked)
    case LoseClaim(w, skipped, picked) => MayClaim(s, w, skipped, picked)
    case Gate(w, id) => HasTask(s, w, id) && TaskOf(s, w, id).phase.Spawned?
    case Refresh(w, id) => HasTask(s, w, id) && TaskOf(s, w, id).phase.Cleared?
    case BeginPost(w, id) => HasTask(s, w, id) && TaskOf(s, w, id).phase.Addressed?
    case EndPost(w, id, _, _) => HasTask(s, w, id) && TaskOf(s, w, id).phase.Sending?
    case Decide(w, id, random) =>
      && HasTask(s, w, id) && TaskOf(s, w, id).phase.Answered?
      && 0 <= random <= 2 * JitterWindow(TaskOf(s, w, id).job.attemptCount + 1)
    case Commit(w, id, at) =>
      && HasTask(s, w, id) && TaskOf(s, w, id).phase.Recording?
      && TaskOf(s, w, id).phase.decidedAt <= at <= s.now
    case Vanish(w, id) => HasTask(s, w, id)
    case Stop(w) => w in s.workers && s.workers[w].tasks == map[]
    case Kill(w) => w in s.workers
    case Receive(r, cfg, headers, body, payload) =>
      && r !in s.requests && ValidSettings(cfg)
      && MatchDestinations(cfg.destinations, ParseEventForRouting(payload)) != []
    case CommitEnqueue(r, _, ids) => r in s.requests && |ids| == |s.requests[r].destinations|
    case DropRequest(r) => r in s.requests
  }

  function ApplyRefresh(s: Sys, w: WorkerId, id: Uuid): Sys
    requires HasTask(s, w, id)
  {
    var job := TaskOf(s, w, id).job;
    var cfg := s.workers[w].cfg;
    var url := ResolveDestinationUrl(cfg, job).url;
    if !NeedsRefresh(cfg, job) then SetPhase(s, w, id, Addressed(url))
    else if Holds(s.db, job) then SetPhase(s, w, id, Addressed(url)).(db := RefreshUrl(s.db, job, url, s.now))
    else DropTask(s, w, id)
  }

  function ApplyBeginPost(s: Sys, w: WorkerId, id: Uuid): Sys
    requires HasTask(s, w, id) && TaskOf(s, w, id).phase.Addressed?
  {
    var task := TaskOf(s, w, id);
    SetPhase(s, w, id, Sending(task.phase.url, s.now)).(wire := s.wire + [PostOf(task, task.phase.url, s.now)])
  }

  function ApplyCommit(s: Sys, w: WorkerId, id: Uuid, at: Time): Sys
    requires HasTask(s, w, id) && TaskOf(s, w, id).phase.Recording?
  {
    var task := TaskOf(s, w, id);
    DropTask(s, w, id).(db := AfterRecord(s.db, task.job, task.phase.outcome, task.phase.durationMs, at))
  }

  /** `payload` is the body parsed as JSON. */
  function ApplyReceive(s: Sys, r: nat, cfg: Settings, headers: HeaderMap, body: Bytes, payload: Value): Sys {
    var event := ParseEventForRouting(payload);
    var incoming := Incoming(headers, body, event, MatchDestinations(cfg.destinations, event), s.now, cfg.retryWindowSecs);
    s.(requests := s.requests[r := incoming])
  }

  function Apply(s: Sys, a: Action): Sys
    requires Enabled(s, a)
  {
    match a
    case Tick(to) => s.(now := to)
    case StartWorker(w, cfg) => s.(workers := s.workers[w := Worker(cfg, true, map[])])
    case Claim(w, _, picked) =>
      SetTasks(s, w, NewTasks(s.db, picked, w, s.now)).(db := LockRows(s.db, picked, w, s.now))
    case LoseClaim(w, _, picked) => s.(db := LockRows(s.db, picked, w, s.now))
    case Gate(w, id) => SetPhase(s, w, id, AfterGate(TaskOf(s, w, id).job, s.now))
    case Refresh(w, id) => ApplyRefresh(s, w, id)
    case BeginPost(w, id) => ApplyBeginPost(s, w, id)
    case EndPost(w, id, answer, ms) => SetPhase(s, w, id, AfterAnswer(answer, ms, s.now))
    case Decide(w, id, random) =>
      var task := TaskOf(s, w, id);
      SetPhase(s, w, id, AfterDecision(task.job, task.phase.status, task.phase.error, task.phase.durationMs, s.now, random))
    case Commit(w, id, at) => ApplyCommit(s, w, id, at)
    case Vanish(w, id) => DropTask(s, w, id)
    case Stop(w) => s.(workers := s.workers[w := s.workers[w].(running := false)])
    case Kill(w) => s.(workers := s.workers[w := s.workers[w].(running := false, tasks := map[])])
    case Receive(r, cfg, headers, body, payload) => ApplyReceive(s, r, cfg, headers, body, payload)
    case CommitEnqueue(r, eventRowId, ids) =>
      s.(requests := s.requests - {r}, db := AfterEnqueue(s.db, s.requests[r], eventRowId, ids))
    case DropRequest(r) => s.(requests := s.requests - {r})
  }

  predicate IsClaim(a: Action) {
    a.Claim? || a.LoseClaim?
  }

  /** The step records an outcome of job `id`. */
  predicate Records(s: Sys, a: Action, id: Uuid)
    requires Enabled(s, a)
  {
    && a.Commit?
    && var task := TaskOf(s, a.w, a.id);
       task.job.id == id
       && RecordOutcome(s.db, task.job, task.phase.outcome, task.phase.durationMs, a.at) == Recorded
  }

  // ---- runs ----

  /** Every action is enabled in the state it is applied to. */
  predicate Legal(s: Sys, run: seq<Action>)
    decreases |run|
  {
    run == [] || (Enabled(s, run[0]) && Legal(Apply(s, run[0]), run[1..]))
  }

  /** The state a run ends in. */
  function Run(s: Sys, run: seq<Action>): Sys
    requires Legal(s, run)
    decreases |run|
  {
    if run == [] then s else Run(Apply(s, run[0]), run[1..])
  }

  /** The states of all runs from the empty database. */
  ghost predicate Reached(s: Sys) {
    exists start: Time, run: seq<Action> :: Legal(InitSys(start), run) && s == Run(InitSys(start), run)
  }

  lemma {:induction false} RunAppend(s: Sys, run: seq<Action>, more: seq<Action>)
    requires Legal(s, run) && Legal(Run(s, run), more)
    ensures Legal(s, run + more) && Run(s, run + more) == Run(Run(s, run), more)
    decreases |run|
  {
    if run == [] {
      assert run + more == more;
    } else {
      assert (run + more)[1..] == run[1..] + more;
      RunAppend(Apply(s, run[0]), run[1..], more);
    }
  }
}
