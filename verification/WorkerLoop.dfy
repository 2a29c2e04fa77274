/** The worker loop of src/delivery.rs as it runs inside the system: batches,
    tasks and the other actors' steps at every await point. Whatever it does is
    a legal run of Machine, so everything proved of all runs holds of it. */
module WorkerLoop {
  import opened Wrappers
  import opened Text
  import opened Retry
  import opened Json
  import opened Headers
  import opened Config
  import opened Router
  import opened Resend
  import opened Schema
  import opened Machine
  import opened Invariants
  import opened Columns
  import opened Delivery
  import opened Store

  lemma RunSnoc(s: Sys, run: seq<Action>, a: Action)
    requires Legal(s, run) && Enabled(Run(s, run), a)
    ensures Legal(s, run + [a]) && Run(s, run + [a]) == Apply(Run(s, run), a)
  {
    assert [a][1..] == [];
    RunAppend(s, run, [a]);
  }

  /** What happens at an await point: steps of other actors, and whether the task
      is lost (a panic, or an error the task returns early with). */
  datatype Pause = Pause(others: seq<Action>, lost: bool)

  /** What one delivery meets on its way. */
  datatype Fate = Fate(
    atGate: Pause,
    atRefresh: Pause,
    atSend: Pause,
    atAnswer: Pause,
    atDecision: Pause,
    atClock: Pause,
    atCommit: Pause,
    answer: Answer,
    ms: nat,
    draw: int)

  /** Nothing takes the task away: no panic, no failed call, no kill. */
  predicate Calm(pause: Pause, w: WorkerId) {
    !pause.lost && Kill(w) !in pause.others
  }

  predicate Gentle(fate: Fate, w: WorkerId) {
    && Calm(fate.atGate, w) && Calm(fate.atRefresh, w) && Calm(fate.atSend, w) && Calm(fate.atAnswer, w)
    && Calm(fate.atDecision, w) && Calm(fate.atClock, w) && Calm(fate.atCommit, w)
  }

  /** The last step was the task's own: a recorded outcome, or a url refresh that
      found the lock lost. */
  predicate Finishes(history: seq<Action>, w: WorkerId, id: Uuid) {
    && history != []
    && var last := history[|history| - 1];
       ActsOn(last, w, id) && (last.Commit? || last.Refresh?)
  }

  /** The last step was the transaction that records the task's outcome. */
  predicate Concludes(history: seq<Action>, w: WorkerId, id: Uuid) {
    history != [] && ActsOn(history[|history| - 1], w, id) && history[|history| - 1].Commit?
  }

  /** How a delivery ended, and the clock read that decided what to record. */
  datatype Ending =
    | TakenAway
    | LostAtRefresh
    | Expired(result: RecordResult)
    | Handled(result: RecordResult, decidedAt: Time)

  /** The tables show the next attempt of a job, and the job as it left it: in both
      the same answer. */
  predicate Shows(t: Tables, job: ClaimedJob, status: Status, code: Option<int>, error: Option<string>, ms: int) {
    var key := AttemptKey(job.id, job.attemptCount + 1);
    && job.id in t.jobs && key in t.attempts
    && var row, entry := t.jobs[job.id], t.attempts[key];
       && row.status == status && row.attemptCount == job.attemptCount + 1
       && row.lockedBy == None && row.lockedAt == None
       && row.lastStatusCode == code && row.lastError == error
       && entry.statusCode == code && entry.error == error
       && (0 <= ms < 0x8000_0000 ==> entry.durationMs == ms)
       && (entry.willRetry <==> status == Retrying)
       && entry.nextAttemptAt == (if status == Retrying then Some(row.nextAttemptAt) else None)
  }

  /** A failure handled at or past the deadline ended the job. An earlier one left it
      to be retried after the delay of the draw, but no later than the deadline. */
  predicate ShowsFailure(t: Tables, job: ClaimedJob, code: Option<int>, error: Option<string>, ms: int, at: Time, draw: int) {
    var number := job.attemptCount + 1;
    if job.deadlineAt <= at then Shows(t, job, Failed, code, error, ms)
    else
      && Shows(t, job, Retrying, code, error, ms)
      && t.jobs[job.id].nextAttemptAt
         == Min(job.deadlineAt, at + DelayTable(number, draw % (LastDraw(number) + 1)) * 1_000_000)
  }

  /** A 2xx status is a success, any other status a failure that names it, and no
      response a failure with its error. */
  predicate ShowsAnswer(t: Tables, job: ClaimedJob, fate: Fate, at: Time) {
    match fate.answer
    case Status(code) =>
      if 200 <= code < 300 then Shows(t, job, Succeeded, Some(code), None, fate.ms)
      else ShowsFailure(t, job, Some(code), Some("destination returned HTTP " + Decimal(code)), fate.ms, at, fate.draw)
    case NoResponse(error) => ShowsFailure(t, job, None, Some(error), fate.ms, at, fate.draw)
  }

  /** Where an answer takes a task. */
  predicate PhaseShows(phase: Phase, answer: Answer, ms: int, now: Time) {
    match answer
    case Status(code) =>
      if 200 <= code < 300 then phase == Recording(Success(code), ms, now)
      else phase == Answered(Some(code), Some("destination returned HTTP " + Decimal(code)), ms)
    case NoResponse(error) => phase == Answered(None, Some(error), ms)
  }

  /** What each ending means for the tables `t` at its end, for a delivery that lasted
      from `start` to `end`. */
  predicate EndedAs(ending: Ending, cfg: Settings, job: ClaimedJob, fate: Fate, t: Tables, start: Time, end: Time) {
    match ending
    case TakenAway => true
    case LostAtRefresh =>
      && !Holds(t, job)
      && DestinationUrl(cfg.destinations, job.destinationName) !in {None, Some(job.destinationUrl)}
    case Expired(result) =>
      && job.deadlineAt <= end
      && if result == Recorded
         then Shows(t, job, Failed, None, Some("retry window expired before delivery attempt"), 0)
         else !Holds(t, job)
    case Handled(result, decidedAt) =>
      && start <= decidedAt <= end
      && if result == Recorded then ShowsAnswer(t, job, fate, decidedAt) else Barred(t, job, fate.ms)
  }

  predicate ShowsOutcome(t: Tables, job: ClaimedJob, outcome: Outcome, ms: int) {
    match outcome
    case Success(code) => Shows(t, job, Succeeded, Some(code), None, ms)
    case Retry(status, error, next) =>
      Shows(t, job, Retrying, status, error, ms) && t.jobs[job.id].nextAttemptAt == next
    case FinalFailure(status, error) => Shows(t, job, Failed, status, error, ms)
  }

  lemma OutcomeShows(t: Tables, job: ClaimedJob, outcome: Outcome, ms: int, at: Time)
    requires RecordOutcome(t, job, outcome, ms, at) == Recorded
    ensures ShowsOutcome(AfterRecord(t, job, outcome, ms, at), job, outcome, ms)
  {
    OutcomeColumns(t, job, outcome, ms, at);
  }

  /** Why nothing was recorded: the lock is lost, or the duration is negative as an `i32`. */
  predicate Barred(t: Tables, job: ClaimedJob, ms: int) {
    !Holds(t, job) || ms % 0x1_0000_0000 >= 0x8000_0000
  }

  predicate ClaimBy(a: Action, w: WorkerId) {
    IsClaim(a) && a.w == w
  }

  /** Steps of anyone but this task; its worker claims nothing meanwhile. */
  predicate Foreign(a: Action, w: WorkerId, id: Uuid) {
    !ActsOn(a, w, id) && !ClaimBy(a, w)
  }

  lemma ForeignStep(s: Sys, a: Action, w: WorkerId, id: Uuid)
    requires Enabled(s, a) && Foreign(a, w, id) && HasTask(Apply(s, a), w, id)
    ensures SameTask(s, Apply(s, a), w, id)
  {
    if TaskAction(a) {
      OwnTaskOrigin(s, a, w, id);
    } else {
      OtherTaskOrigin(s, a, w, id);
    }
  }

  lemma ForeignStepKeeps(s: Sys, a: Action, w: WorkerId, id: Uuid)
    requires Enabled(s, a) && Foreign(a, w, id) && HasTask(s, w, id) && a != Kill(w)
    ensures HasTask(Apply(s, a), w, id)
  {
  }

  /** The claim statements of a worker in a run. */
  function ClaimsBy(history: seq<Action>, w: WorkerId): nat {
    if history == [] then 0
    else ClaimsBy(history[..|history| - 1], w) + if ClaimBy(history[|history| - 1], w) then 1 else 0
  }

  lemma ClaimsSnoc(history: seq<Action>, a: Action, w: WorkerId)
    ensures ClaimsBy(history + [a], w) == ClaimsBy(history, w) + if ClaimBy(a, w) then 1 else 0
  {
    assert (history + [a])[..|history|] == history;
  }

  /** What a claim of the worker loop meets. */
  datatype LoopEvent =
    | Shutdown
    | ClaimFails                                              // the statement fails
    | ClaimCancelled(skipped: set<Uuid>)                      // it commits, but nobody sees its rows
    | ClaimReturns(skipped: set<Uuid>, steps: seq<Action>)    // and the steps of the batch and of the others follow

  datatype Round = Round(idle: seq<Action>, event: LoopEvent)

  /** Nobody stops or kills the worker. */
  predicate Quiet(round: Round, w: WorkerId) {
    && !round.event.Shutdown?
    && Kill(w) !in round.idle && Stop(w) !in round.idle
    && (round.event.ClaimReturns? ==> Kill(w) !in round.event.steps)
  }

  function ClaimsOf(round: Round): nat {
    if round.event.ClaimCancelled? || round.event.ClaimReturns? then 1 else 0
  }

  function ClaimsIn(rounds: seq<Round>): nat {
    if rounds == [] then 0
    else ClaimsIn(rounds[..|rounds| - 1]) + ClaimsOf(rounds[|rounds| - 1])
  }

  /** What `record_failure` records: a final failure at the deadline, or a retry. */
  method ChooseOutcome(job: ClaimedJob, status: Option<int>, error: Option<string>, now: Time, random: int)
    returns (outcome: Outcome)
    requires 0 <= random <= LastDraw(job.attemptCount + 1)
    ensures job.deadlineAt <= now ==> outcome == FinalFailure(status, error)
    ensures now < job.deadlineAt ==>
              outcome == Retry(status, error,
                               Min(job.deadlineAt, now + DelayTable(job.attemptCount + 1, random) * 1_000_000))
    ensures 0 <= random <= 2 * JitterWindow(job.attemptCount + 1)
    ensures forall ms :: AfterDecision(job, status, error, ms, now, random) == Recording(outcome, ms, now)
  {
    RetryDelayInNumbers(job.attemptCount + 1, random);
    if now >= job.deadlineAt {
      return FinalFailure(status, error);
    }
    var delay := RetryDelaySecs(job.attemptCount + 1, random);
    var nextAttemptAt := now + delay * SECOND;
    if nextAttemptAt > job.deadlineAt {
      nextAttemptAt := job.deadlineAt;
    }
    return Retry(status, error, nextAttemptAt);
  }

  class Cluster {
    const start: Time
    const db: Db
    var now: Time
    var workers: map<WorkerId, Worker>
    var requests: map<nat, Incoming>
    var wire: seq<Post>
    ghost var history: seq<Action>

    function State(): Sys
      reads this, db
    {
      Sys(now, db.Contents(), workers, requests, wire)
    }

    /** The present state is the end of a legal run from the empty database. */
    ghost predicate Valid()
      reads this, db
    {
      Legal(InitSys(start), history) && State() == Run(InitSys(start), history)
    }

    constructor (start: Time)
      ensures Valid() && history == [] && fresh(db)
    {
      this.start := start;
      db := new Db();
      now, workers, requests, wire := start, map[], map[], [];
      history := [];
    }

    ghost method Log(a: Action, before: Sys)
      requires Legal(InitSys(start), history) && before == Run(InitSys(start), history)
      requires Enabled(before, a) && State() == Apply(before, a)
      modifies this`history
      ensures Valid() && history == old(history) + [a]
    {
      RunSnoc(InitSys(start), history, a);
      history := history + [a];
    }

    // ---- other actors ----

    method Perform(a: Action)
      requires Valid() && Enabled(State(), a)
      modifies this, db
      ensures Valid() && history == old(history) + [a] && State() == Apply(old(State()), a)
    {
      ghost var before := State();
      var after := Apply(State(), a);
      now, workers, requests, wire := after.now, after.workers, after.requests, after.wire;
      db.Observe(after.db);
      Log(a, before);
    }

    /** The other actors do those of `steps` that are possible; then the task may
        be lost. If it is still there, it is where it was. */
    method Await(w: WorkerId, id: Uuid, pause: Pause) returns (alive: bool)
      requires Valid() && HasTask(State(), w, id)
      modifies this, db
      ensures Valid() && old(history) <= history && old(now) <= now && old(wire) <= wire
      ensures alive == HasTask(State(), w, id)
      ensures alive ==> SameTask(old(State()), State(), w, id) && workers[w].cfg == old(workers)[w].cfg
      ensures Calm(pause, w) ==> alive
    {
      for i := 0 to |pause.others|
        invariant Valid() && old(history) <= history && old(now) <= now && old(wire) <= wire
        invariant w in workers && workers[w].cfg == old(workers)[w].cfg
        invariant HasTask(State(), w, id) ==> SameTask(old(State()), State(), w, id)
        invariant Calm(pause, w) ==> HasTask(State(), w, id)
      {
        var a := pause.others[i];
        if Enabled(State(), a) && Foreign(a, w, id) {
          ghost var s := State();
          if Calm(pause, w) {
            ForeignStepKeeps(s, a, w, id);
          }
          WireAndClockGrow(s, a);
          SettingsStay(s, a, w);
          Perform(a);
          if HasTask(State(), w, id) {
            ForeignStep(s, a, w, id);
          }
        }
      }
      alive := id in workers[w].tasks;
      if alive && pause.lost {
        ghost var s := State();
        WireAndClockGrow(s, Vanish(w, id));
        Perform(Vanish(w, id));
        alive := false;
      }
    }

    // ---- one delivery ----

    method SetPhase(w: WorkerId, id: Uuid, phase: Phase)
      requires HasTask(State(), w, id)
      modifies this`workers
      ensures State() == Machine.SetPhase(old(State()), w, id, phase)
    {
      var worker := workers[w];
      workers := workers[w := worker.(tasks := worker.tasks[id := worker.tasks[id].(phase := phase)])];
    }

    method LeaveJoinSet(w: WorkerId, id: Uuid)
      requires HasTask(State(), w, id)
      modifies this`workers
      ensures State() == DropTask(old(State()), w, id)
    {
      var worker := workers[w];
      workers := workers[w := worker.(tasks := worker.tasks - {id})];
    }

    /** The transaction of `record_success`, `record_retry` or `record_final_failure`;
        the task is done whether it committed or not. */
    method CommitOutcome(w: WorkerId, id: Uuid, job: ClaimedJob, outcome: Outcome, ms: int, at: Time) returns (result: RecordResult)
      requires Valid() && Enabled(State(), Commit(w, id, at))
      requires var task := TaskOf(State(), w, id);
               task.job == job && task.phase.outcome == outcome && task.phase.durationMs == ms
      modifies this`workers, this`history, db
      ensures Valid() && history == old(history) + [Commit(w, id, at)]
      ensures !HasTask(State(), w, id)
      ensures result == RecordOutcome(old(db.Contents()), job, outcome, ms, at)
      ensures db.Contents() == AfterRecord(old(db.Contents()), job, outcome, ms, at)
      ensures result != Recorded ==> Barred(db.Contents(), job, ms)
    {
      ghost var before := State();
      RecordingIsFenced(before, w, id, at);
      match outcome {
        case Success(code) => result := db.RecordSuccess(job, code, ms, at);
        case Retry(status, error, next) => result := db.RecordRetry(job, status, error, ms, next, at);
        case FinalFailure(status, error) => result := db.RecordFinalFailure(job, status, error, ms, at);
      }
      LeaveJoinSet(w, id);
      Log(Commit(w, id, at), before);
    }

    /** The end of every delivery that comes to record an outcome: the clock is
        read, and the transaction runs. */
    method Record(w: WorkerId, id: Uuid, outcome: Outcome, ms: int, fate: Fate) returns (ghost result: Option<RecordResult>)
      requires Valid() && HasTask(State(), w, id)
      requires TaskOf(State(), w, id).phase.Recording? && TaskOf(State(), w, id).phase.decidedAt <= now
      requires TaskOf(State(), w, id).phase.outcome == outcome && TaskOf(State(), w, id).phase.durationMs == ms
      modifies this, db
      ensures Valid() && old(history) <= history && old(now) <= now
      ensures !HasTask(State(), w, id)
      ensures Gentle(fate, w) ==> result.Some?
      ensures result.Some? ==> Concludes(history, w, id)
      ensures result == Some(Recorded) ==> ShowsOutcome(db.Contents(), old(TaskOf(State(), w, id).job), outcome, ms)
      ensures result.Some? && result != Some(Recorded) ==> Barred(db.Contents(), old(TaskOf(State(), w, id).job), ms)
    {
      var job := workers[w].tasks[id].job;
      var alive := Await(w, id, fate.atClock);
      if !alive {
        return None;
      }
      var at := now;
      alive := Await(w, id, fate.atCommit);
      if !alive {
        return None;
      }
      ghost var before := db.Contents();
      var recorded := CommitOutcome(w, id, job, outcome, ms, at);
      if recorded == Recorded {
        OutcomeShows(before, job, outcome, ms, at);
      }
      return Some(recorded);
    }

    /** The first half of `record_failure`: give up at the deadline, or reschedule. */
    method Reschedule(w: WorkerId, id: Uuid, draw: int) returns (outcome: Outcome)
      requires Valid() && HasTask(State(), w, id) && TaskOf(State(), w, id).phase.Answered?
      modifies this`workers, this`history
      ensures Valid() && old(history) <= history
      ensures HasTask(State(), w, id)
      ensures var job, failed := old(TaskOf(State(), w, id).job), old(TaskOf(State(), w, id).phase);
              var number := job.attemptCount + 1;
              && TaskOf(State(), w, id).job == job
              && if job.deadlineAt <= now then outcome == FinalFailure(failed.status, failed.error)
                 else
                   && outcome.Retry? && outcome.status == failed.status && outcome.error == failed.error
                   && outcome.next
                      == Min(job.deadlineAt, now + DelayTable(number, draw % (LastDraw(number) + 1)) * 1_000_000)
      ensures TaskOf(State(), w, id).phase == Recording(outcome, old(TaskOf(State(), w, id).phase.durationMs), now)
    {
      ghost var before := State();
      var task := workers[w].tasks[id];
      var job, failed := task.job, task.phase;
      var random := draw % (2 * JitterWindow(job.attemptCount + 1) + 1);
      RetryDelayInNumbers(job.attemptCount + 1, random);
      outcome := ChooseOutcome(job, failed.status, failed.error, now, random);
      SetPhase(w, id, Recording(outcome, failed.durationMs, now));
      Log(Decide(w, id, random), before);
    }

    /** `record_failure`. */
    method RecordFailure(w: WorkerId, id: Uuid, status: Option<int>, error: Option<string>, ms: int, fate: Fate)
      returns (ghost ending: Ending)
      requires Valid() && HasTask(State(), w, id)
      requires TaskOf(State(), w, id).phase == Answered(status, error, ms)
      modifies this, db
      ensures Valid() && old(history) <= history && old(now) <= now
      ensures !HasTask(State(), w, id)
      ensures ending.TakenAway? || ending.Handled?
      ensures Gentle(fate, w) ==> ending.Handled?
      ensures ending.Handled? ==> Concludes(history, w, id) && old(now) <= ending.decidedAt <= now
      ensures ending.Handled? ==>
                var job := old(TaskOf(State(), w, id).job);
                if ending.result == Recorded
                then ShowsFailure(db.Contents(), job, status, error, ms, ending.decidedAt, fate.draw)
                else Barred(db.Contents(), job, ms)
    {
      var alive := Await(w, id, fate.atDecision);
      if !alive {
        return TakenAway;
      }
      var outcome := Reschedule(w, id, fate.draw);
      ghost var decidedAt := now;
      ghost var result := Record(w, id, outcome, ms, fate);
      return match result case Some(end) => Handled(end, decidedAt) case None => TakenAway;
    }

    /** The gate of `deliver_and_record`. */
    method PassGate(w: WorkerId, id: Uuid) returns (expired: bool)
      requires Valid() && HasTask(State(), w, id) && TaskOf(State(), w, id).phase.Spawned?
      modifies this`workers, this`history
      ensures Valid() && history == old(history) + [Gate(w, id)]
      ensures HasTask(State(), w, id) && workers[w].cfg == old(workers)[w].cfg
      ensures TaskOf(State(), w, id).job == old(TaskOf(State(), w, id).job)
      ensures expired <==> old(TaskOf(State(), w, id).job.deadlineAt) <= now
      ensures TaskOf(State(), w, id).phase ==
                if expired then Recording(FinalFailure(None, Some(EXPIRED)), 0, now) else Cleared
    {
      ghost var before := State();
      expired := now >= workers[w].tasks[id].job.deadlineAt;
      if expired {
        SetPhase(w, id, Recording(FinalFailure(None, Some(EXPIRED)), 0, now));
      } else {
        SetPhase(w, id, Cleared);
      }
      Log(Gate(w, id), before);
    }

    /** Stores a url from the configuration if it is new. */
    method StoreUrl(job: ClaimedJob, resolved: ResolvedUrl) returns (held: bool)
      modifies db
      ensures db.Contents() ==
                if resolved.fromCurrentConfig && resolved.url != job.destinationUrl
                then RefreshUrl(old(db.Contents()), job, resolved.url, now)
                else old(db.Contents())
      ensures held <==> (resolved.fromCurrentConfig && resolved.url != job.destinationUrl ==> Holds(old(db.Contents()), job))
    {
      held := true;
      if resolved.fromCurrentConfig && resolved.url != job.destinationUrl {
        held := db.UpdateClaimedJobDestinationUrl(job, resolved.url, now);
      }
    }

    /** Resolves the destination's url, and stores it if the configuration has a
        new one. Without the lock the task ends. */
    method ResolveUrl(w: WorkerId, id: Uuid) returns (held: bool)
      requires Valid() && HasTask(State(), w, id) && TaskOf(State(), w, id).phase.Cleared?
      modifies this`workers, this`history, db
      ensures Valid() && history == old(history) + [Refresh(w, id)]
      ensures held == HasTask(State(), w, id)
      ensures held ==> workers[w].cfg == old(workers)[w].cfg && TaskOf(State(), w, id).job == old(TaskOf(State(), w, id).job)
      ensures var job := old(TaskOf(State(), w, id).job);
              match DestinationUrl(old(workers)[w].cfg.destinations, job.destinationName)
              case None => held && TaskOf(State(), w, id).phase == Addressed(job.destinationUrl)
              case Some(url) => held ==> TaskOf(State(), w, id).phase == Addressed(url)
      ensures var job := old(TaskOf(State(), w, id).job);
              match DestinationUrl(old(workers)[w].cfg.destinations, job.destinationName)
              case Some(url) =>
                if url == job.destinationUrl then held && db.Contents() == old(db.Contents())
                else
                  && held == Holds(old(db.Contents()), job)
                  && db.Contents() == RefreshUrl(old(db.Contents()), job, url, now)
                  && (held ==> db.Contents().jobs[job.id].destinationUrl == url)
              case None => db.Contents() == old(db.Contents())
      ensures Finishes(history, w, id)
    {
      ghost var before := State();
      var job := workers[w].tasks[id].job;
      var resolved := ResolveDestinationUrl(workers[w].cfg, job);
      held := StoreUrl(job, resolved);
      if held {
        SetPhase(w, id, Addressed(resolved.url));
      } else {
        LeaveJoinSet(w, id);
      }
      Log(Refresh(w, id), before);
    }

    /** The first half of `deliver`: the request goes out. */
    method Send(w: WorkerId, id: Uuid)
      requires Valid() && HasTask(State(), w, id) && TaskOf(State(), w, id).phase.Addressed?
      modifies this`workers, this`wire, this`history
      ensures Valid() && history == old(history) + [BeginPost(w, id)]
      ensures HasTask(State(), w, id) && TaskOf(State(), w, id).phase.Sending?
      ensures TaskOf(State(), w, id).job == old(TaskOf(State(), w, id).job)
      ensures wire == old(wire) + [PostOf(old(TaskOf(State(), w, id)), old(TaskOf(State(), w, id).phase.url), now)]
    {
      ghost var before := State();
      var task := workers[w].tasks[id];
      var contentType := HeaderValueFromJson(task.job.headers, "content-type");
      wire := wire + [Post(task.job.id, task.job.eventId, task.job.destinationName, task.job.attemptCount + 1, now,
                           task.job.rawBody,
                           if contentType.Some? then contentType.value else "application/json",
                           task.phase.url)];
      SetPhase(w, id, Sending(task.phase.url, now));
      Log(BeginPost(w, id), before);
    }

    /** `deliver`: the request goes out, and later its answer or an error comes back. */
    method Deliver(w: WorkerId, id: Uuid, fate: Fate) returns (alive: bool)
      requires Valid() && HasTask(State(), w, id) && TaskOf(State(), w, id).phase.Addressed?
      modifies this, db
      ensures Valid() && old(history) <= history
      ensures alive == HasTask(State(), w, id)
      ensures alive ==> TaskOf(State(), w, id).job == old(TaskOf(State(), w, id).job)
      ensures alive ==> PhaseShows(TaskOf(State(), w, id).phase, fate.answer, fate.ms, now)
      ensures old(now) <= now && old(history) + [BeginPost(w, id)] <= history
      ensures alive ==> history[|history| - 1] == EndPost(w, id, fate.answer, fate.ms)
      ensures old(wire) + [PostOf(old(TaskOf(State(), w, id)), old(TaskOf(State(), w, id).phase.url), old(now))] <= wire
      ensures Gentle(fate, w) ==> alive
    {
      Send(w, id);
      alive := Await(w, id, fate.atAnswer);
      if !alive {
        return;
      }
      ghost var before := State();
      SetPhase(w, id, AfterAnswer(fate.answer, fate.ms, now));
      Log(EndPost(w, id, fate.answer, fate.ms), before);
    }

    /** What follows the response. */
    method HandleResponse(w: WorkerId, id: Uuid, fate: Fate) returns (ghost ending: Ending)
      requires Valid() && HasTask(State(), w, id)
      requires PhaseShows(TaskOf(State(), w, id).phase, fate.answer, fate.ms, now)
      modifies this, db
      ensures Valid() && old(history) <= history && old(now) <= now
      ensures !HasTask(State(), w, id)
      ensures ending.TakenAway? || ending.Handled?
      ensures Gentle(fate, w) ==> ending.Handled?
      ensures ending.Handled? ==> Concludes(history, w, id) && old(now) <= ending.decidedAt <= now
      ensures ending.Handled? ==>
                var job := old(TaskOf(State(), w, id).job);
                if ending.result == Recorded then ShowsAnswer(db.Contents(), job, fate, ending.decidedAt)
                else Barred(db.Contents(), job, fate.ms)
    {
      match fate.answer {
        case Status(code) =>
          if 200 <= code < 300 {
            ghost var decidedAt := now;
            ghost var result := Record(w, id, Success(code), fate.ms, fate);
            ending := match result case Some(end) => Handled(end, decidedAt) case None => TakenAway;
          } else {
            ending := RecordFailure(w, id, Some(code), Some(HttpError(code)), fate.ms, fate);
          }
        case NoResponse(error) =>
          ending := RecordFailure(w, id, None, Some(error), fate.ms, fate);
      }
    }

    /** Request and response. */
    method PostAndRecord(w: WorkerId, id: Uuid, fate: Fate) returns (ghost ending: Ending)
      requires Valid() && HasTask(State(), w, id) && TaskOf(State(), w, id).phase.Addressed?
      modifies this, db
      ensures Valid() && old(history) <= history && old(now) <= now
      ensures !HasTask(State(), w, id)
      ensures ending.TakenAway? || ending.Handled?
      ensures Gentle(fate, w) ==> ending.Handled?
      ensures ending.Handled? ==> Concludes(history, w, id) && old(now) <= ending.decidedAt <= now
      ensures ending.Handled? ==>
                var job := old(TaskOf(State(), w, id).job);
                if ending.result == Recorded then ShowsAnswer(db.Contents(), job, fate, ending.decidedAt)
                else Barred(db.Contents(), job, fate.ms)
      ensures ending.Handled? ==>
                BeginPost(w, id) in history[|old(history)|..] && EndPost(w, id, fate.answer, fate.ms) in history[|old(history)|..]
    {
      ghost var begun := |history|;
      var alive := Deliver(w, id, fate);
      if !alive {
        return TakenAway;
      }
      ghost var ended := |history| - 1;
      ending := HandleResponse(w, id, fate);
      assert history[begun] == BeginPost(w, id) && history[ended] == EndPost(w, id, fate.answer, fate.ms);
    }

    /** Behind the gate: url, request, response. */
    method SendAndRecord(w: WorkerId, id: Uuid, fate: Fate) returns (ghost ending: Ending)
      requires Valid() && HasTask(State(), w, id) && TaskOf(State(), w, id).phase.Cleared?
      modifies this, db
      ensures Valid() && old(history) <= history && old(now) <= now
      ensures !HasTask(State(), w, id)
      ensures !ending.Expired? && (Gentle(fate, w) ==> !ending.TakenAway?)
      ensures !ending.TakenAway? ==> Finishes(history, w, id)
      ensures EndedAs(ending, old(workers[w].cfg), old(TaskOf(State(), w, id).job), fate, db.Contents(), old(now), now)
      ensures ending.Handled? ==>
                BeginPost(w, id) in history[|old(history)|..] && EndPost(w, id, fate.answer, fate.ms) in history[|old(history)|..]
    {
      var alive := Await(w, id, fate.atRefresh);
      if !alive {
        return TakenAway;
      }
      var held := ResolveUrl(w, id);
      if !held {
        return LostAtRefresh;
      }
      alive := Await(w, id, fate.atSend);
      if !alive {
        return TakenAway;
      }
      ending := PostAndRecord(w, id, fate);
    }

    /** `deliver_and_record`: from a spawned task to one that is gone, whatever the
        other actors do in between. Unless something takes the task away, it ends
        with its answer recorded, or as expired, or by finding the lock lost. */
    method DeliverAndRecord(w: WorkerId, id: Uuid, fate: Fate) returns (ghost ending: Ending)
      requires Valid() && HasTask(State(), w, id) && TaskOf(State(), w, id).phase.Spawned?
      modifies this, db
      ensures Valid() && old(history) <= history
      ensures !HasTask(State(), w, id)
      ensures Gentle(fate, w) ==> !ending.TakenAway?
      ensures !ending.TakenAway? ==> Finishes(history, w, id)
      ensures EndedAs(ending, old(workers[w].cfg), old(TaskOf(State(), w, id).job), fate, db.Contents(), old(now), now)
      ensures ending.LostAtRefresh? || ending.Handled? ==> old(now) < old(TaskOf(State(), w, id).job.deadlineAt)
      ensures ending.Handled? ==>
                BeginPost(w, id) in history[|old(history)|..] && EndPost(w, id, fate.answer, fate.ms) in history[|old(history)|..]
    {
      var alive := Await(w, id, fate.atGate);
      if !alive {
        return TakenAway;
      }
      var expired := PassGate(w, id);
      if expired {
        ghost var result := Record(w, id, FinalFailure(None, Some(EXPIRED)), 0, fate);
        return match result case Some(end) => Expired(end) case None => TakenAway;
      }
      ending := SendAndRecord(w, id, fate);
    }

    // ---- batches ----

    /** The tasks of a batch are spawned at once. */
    method SpawnAll(claimed: seq<ClaimedJob>) returns (joinSet: map<Uuid, Task>)
      ensures joinSet.Keys == IdsOf(claimed)
      ensures forall id :: id in joinSet ==>
                exists i :: 0 <= i < |claimed| && claimed[i].id == id && joinSet[id] == Task(claimed[i], now, Spawned)
    {
      joinSet := map[];
      for i := 0 to |claimed|
        invariant joinSet.Keys == IdsOf(claimed[..i])
        invariant forall id :: id in joinSet ==>
                    exists k :: 0 <= k < i && claimed[k].id == id && joinSet[id] == Task(claimed[k], now, Spawned)
      {
        joinSet := joinSet[claimed[i].id := Task(claimed[i], now, Spawned)];
        IdsSnoc(claimed, i);
      }
      assert claimed[..|claimed|] == claimed;
    }

    /** Others go on, and so do the worker's tasks, but the worker itself claims
        nothing until its join set is empty. A task without further steps is lost. */
    method Drain(w: WorkerId, steps: seq<Action>)
      requires Valid() && w in workers
      modifies this, db
      ensures Valid() && old(history) <= history
      ensures w in workers && workers[w].tasks == map[] && workers[w].cfg == old(workers)[w].cfg
      ensures ClaimsBy(history, w) == ClaimsBy(old(history), w)
      ensures Kill(w) !in steps ==> workers[w].running == old(workers)[w].running
    {
      var i := 0;
      while workers[w].tasks != map[] && i < |steps|
        invariant Valid() && old(history) <= history
        invariant w in workers && workers[w].cfg == old(workers)[w].cfg
        invariant ClaimsBy(history, w) == ClaimsBy(old(history), w)
        invariant Kill(w) !in steps ==> workers[w].running == old(workers)[w].running
        decreases |steps| - i
      {
        var a := steps[i];
        if Enabled(State(), a) && !ClaimBy(a, w) {
          SettingsStay(State(), a, w);
          if a != Kill(w) {
            StaysRunning(State(), a, w);
          }
          ClaimsSnoc(history, a, w);
          Perform(a);
        }
        i := i + 1;
      }
      while workers[w].tasks != map[]
        invariant Valid() && old(history) <= history
        invariant w in workers && workers[w].cfg == old(workers)[w].cfg
        invariant ClaimsBy(history, w) == ClaimsBy(old(history), w)
        invariant Kill(w) !in steps ==> workers[w].running == old(workers)[w].running
        decreases |workers[w].tasks.Keys|
      {
        var id :| id in workers[w].tasks;
        ghost var left := workers[w].tasks.Keys - {id};
        ClaimsSnoc(history, Vanish(w, id), w);
        Perform(Vanish(w, id));
        assert workers[w].tasks.Keys == left;
      }
    }

    /** The first half of `process_jobs`: the claim becomes a batch of tasks. */
    method Spawn(w: WorkerId, claimed: seq<ClaimedJob>, ghost before: Sys, ghost skipped: set<Uuid>, ghost picked: set<Uuid>)
      requires Legal(InitSys(start), history) && before == Run(InitSys(start), history)
      requires MayClaim(before, w, skipped, picked)
      requires State() == before.(db := LockRows(before.db, picked, w, before.now))
      requires IdsOf(claimed) == picked
      requires forall i :: 0 <= i < |claimed| ==> claimed[i].id in picked && claimed[i] == Snapshot(before.db, claimed[i].id, w)
      modifies this`workers, this`history
      ensures Valid() && history == old(history) + [Claim(w, skipped, picked)]
      ensures w in workers && workers[w].running && workers[w].cfg == old(workers)[w].cfg
    {
      var joinSet := SpawnAll(claimed);
      SpawnsNewTasks(claimed, joinSet, before.db, picked, w, before.now);
      workers := workers[w := workers[w].(tasks := joinSet)];
      ClaimGives(before, w, skipped, picked, joinSet);
      assert State() == SetTasks(before, w, joinSet).(db := LockRows(before.db, picked, w, before.now));
      Log(Claim(w, skipped, picked), before);
    }

    /** `process_jobs`: spawns a task for every claimed job and waits for all of them. */
    method ProcessJobs(w: WorkerId, claimed: seq<ClaimedJob>, steps: seq<Action>,
                       ghost before: Sys, ghost skipped: set<Uuid>, ghost picked: set<Uuid>)
      requires Legal(InitSys(start), history) && before == Run(InitSys(start), history)
      requires MayClaim(before, w, skipped, picked)
      requires State() == before.(db := LockRows(before.db, picked, w, before.now))
      requires IdsOf(claimed) == picked
      requires forall i :: 0 <= i < |claimed| ==> claimed[i].id in picked && claimed[i] == Snapshot(before.db, claimed[i].id, w)
      modifies this, db
      ensures Valid() && old(history) <= history
      ensures w in workers && workers[w].tasks == map[] && workers[w].cfg == old(workers)[w].cfg
      ensures ClaimsBy(history, w) == ClaimsBy(old(history), w) + 1
      ensures Kill(w) !in steps ==> workers[w].running
    {
      ClaimsSnoc(history, Claim(w, skipped, picked), w);
      Spawn(w, claimed, before, skipped, picked);
      Drain(w, steps);
    }

    /** One turn of the loop: the claim statement and what follows it. */
    method ClaimOnce(w: WorkerId, event: LoopEvent)
      requires Valid() && w in workers && workers[w].running && workers[w].tasks == map[]
      requires event.ClaimCancelled? || event.ClaimReturns?
      modifies this, db
      ensures Valid() && old(history) <= history
      ensures w in workers && workers[w].tasks == map[] && workers[w].cfg == old(workers)[w].cfg
      ensures ClaimsBy(history, w) == ClaimsBy(old(history), w) + 1
      ensures (event.ClaimReturns? ==> Kill(w) !in event.steps) ==> workers[w].running
    {
      ghost var before := State();
      InvHolds(InitSys(start), history);
      var config := workers[w].cfg;
      assert ValidSettings(config);
      var claimed, picked := db.ClaimDueJobs(w, config.deliveryClaimLimit, Stale(config), now, event.skipped);
      if event.ClaimCancelled? {
        ClaimsSnoc(history, LoseClaim(w, event.skipped, picked), w);
        Log(LoseClaim(w, event.skipped, picked), before);
      } else {
        ProcessJobs(w, claimed, event.steps, before, event.skipped, picked);
      }
    }

    /** One turn of the loop. Returns false when the worker stops. */
    method Turn(w: WorkerId, round: Round) returns (goOn: bool)
      requires Valid() && w in workers && workers[w].tasks == map[]
      modifies this, db
      ensures Valid() && old(history) <= history
      ensures w in workers && workers[w].tasks == map[]
      ensures !goOn ==> !workers[w].running
      ensures old(workers[w].running) && Quiet(round, w) ==> goOn && workers[w].running
      ensures ClaimsBy(history, w) == ClaimsBy(old(history), w) + if goOn then ClaimsOf(round) else 0
      ensures round.event.Shutdown? ==> !goOn
    {
      Idle(w, round.idle);
      if !workers[w].running {
        return false;
      }
      match round.event {
        case Shutdown =>
          ClaimsSnoc(history, Stop(w), w);
          Perform(Stop(w));
          return false;
        case ClaimFails =>
        case _ =>
          ClaimOnce(w, round.event);
      }
      return true;
    }

    /** `run_worker`: turn after turn until the worker is told to stop or the
        process dies. Each turn makes one claim, and with an empty join set. */
    method RunWorker(w: WorkerId, cfg: Settings, rounds: seq<Round>) returns (served: nat)
      requires Valid() && w !in workers && ValidSettings(cfg)
      modifies this, db
      ensures Valid() && old(history) <= history
      ensures w in workers && workers[w].tasks == map[] && !workers[w].running
      ensures served <= |rounds|
      ensures (forall k :: 0 <= k < |rounds| ==> Quiet(rounds[k], w)) ==> served == |rounds|
      ensures ClaimsBy(history, w) == ClaimsBy(old(history), w) + ClaimsIn(rounds[..served])
    {
      ClaimsSnoc(history, StartWorker(w, cfg), w);
      Perform(StartWorker(w, cfg));
      served := 0;
      while served < |rounds|
        invariant Valid() && old(history) <= history && served <= |rounds|
        invariant w in workers && workers[w].tasks == map[]
        invariant ClaimsBy(history, w) == ClaimsBy(old(history), w) + ClaimsIn(rounds[..served])
        invariant (forall k :: 0 <= k < |rounds| ==> Quiet(rounds[k], w)) ==> workers[w].running
        decreases |rounds| - served
      {
        var goOn := Turn(w, rounds[served]);
        if !goOn {
          return;
        }
        assert rounds[..served + 1][..served] == rounds[..served];
        served := served + 1;
      }
      if workers[w].running {
        ClaimsSnoc(history, Kill(w), w);
        Perform(Kill(w));
      }
    }

    /** The worker sleeps or waits for its claim; the others go on. */
    method Idle(w: WorkerId, others: seq<Action>)
      requires Valid() && w in workers && workers[w].tasks == map[]
      modifies this, db
      ensures Valid() && old(history) <= history
      ensures w in workers && workers[w].tasks == map[] && workers[w].cfg == old(workers)[w].cfg
      ensures ClaimsBy(history, w) == ClaimsBy(old(history), w)
      ensures Kill(w) !in others && Stop(w) !in others ==> workers[w].running == old(workers)[w].running
    {
      for i := 0 to |others|
        invariant Valid() && old(history) <= history
        invariant w in workers && workers[w].tasks == map[] && workers[w].cfg == old(workers)[w].cfg
        invariant ClaimsBy(history, w) == ClaimsBy(old(history), w)
        invariant Kill(w) !in others && Stop(w) !in others ==> workers[w].running == old(workers)[w].running
      {
        var a := others[i];
        if Enabled(State(), a) && !ClaimBy(a, w) {
          SettingsStay(State(), a, w);
          IdleStep(State(), a, w);
          ClaimsSnoc(history, a, w);
          Perform(a);
        }
      }
    }

    // ---- webhooks ----

    /** The handler behind the signature check and the JSON parser: an event without a
        destination is dropped; otherwise a webhook is acknowledged only once its
        event is stored, by this request or an earlier one, and answered with an
        error only if it lacks a header, its new ids are not new, or the call fails. */
    method HandleWebhook(r: nat, cfg: Settings, headers: HeaderMap, body: Bytes, payload: Value,
                         eventRowId: Uuid, ids: seq<Uuid>, others: seq<Action>, call: Call)
      returns (answer: WebhookAnswer, ghost result: Option<EnqueueResult>)
      requires Valid() && ValidSettings(cfg) && r !in requests
      requires |ids| == |MatchDestinations(cfg.destinations, ParseEventForRouting(payload))|
      modifies this, db
      ensures Valid() && old(history) <= history
      ensures answer == Dropped <==> MatchDestinations(cfg.destinations, ParseEventForRouting(payload)) == []
      ensures answer == Dropped ==> history == old(history)
      ensures answer == Accepted ==> Acknowledged(db.Contents(), headers)
      ensures answer == Error ==> call != Works || Unusable(db.Contents(), headers, eventRowId, ids)
      ensures answer != Dropped ==>
                old(history) + [Receive(r, cfg, headers, body, payload)] <= history
      ensures result.Some? <==> answer != Dropped && call != FailsBefore
      ensures answer == Accepted <==> call == Works && result.Some? && (result.value.Inserted? || result.value.Duplicate?)
      ensures result.Some? && result.value.Inserted? ==>
                var event := ParseEventForRouting(payload);
                var destinations := MatchDestinations(cfg.destinations, event);
                HoldsWebhook(db.Contents(), Incoming(headers, body, event, destinations, old(now), cfg.retryWindowSecs), eventRowId, ids)
    {
      var event := ParseEventForRouting(payload);
      var destinations := MatchDestinations(cfg.destinations, event);
      if destinations == [] {
        return Dropped, None;
      }
      var incoming := Incoming(headers, body, event, destinations, now, cfg.retryWindowSecs);
      Perform(Receive(r, cfg, headers, body, payload));
      AwaitRequest(r, others);
      if call == FailsBefore {
        Perform(DropRequest(r));
        return Error, None;
      }
      var stored := StoreEvent(r, incoming, eventRowId, ids);
      return if call == Works && (stored.Inserted? || stored.Duplicate?) then Accepted else Error, Some(stored);
    }

    /** Others go on while the handler waits. */
    method AwaitRequest(r: nat, others: seq<Action>)
      requires Valid() && r in requests
      modifies this, db
      ensures Valid() && old(history) <= history
      ensures r in requests && requests[r] == old(requests[r])
    {
      for i := 0 to |others|
        invariant Valid() && old(history) <= history
        invariant r in requests && requests[r] == old(requests[r])
      {
        var a := others[i];
        if Enabled(State(), a) && !RequestAction(a, r) {
          RequestWaits(State(), a, r);
          Perform(a);
        }
      }
    }

    /** `enqueue_event` in the running system. */
    method StoreEvent(r: nat, incoming: Incoming, eventRowId: Uuid, ids: seq<Uuid>) returns (result: EnqueueResult)
      requires Valid() && r in requests && requests[r] == incoming && |ids| == |incoming.destinations|
      modifies this, db
      ensures Valid() && history == old(history) + [CommitEnqueue(r, eventRowId, ids)]
      ensures result.Inserted? || result.Duplicate? ==> Acknowledged(db.Contents(), incoming.headers)
      ensures result.Inserted? ==> HoldsWebhook(db.Contents(), incoming, eventRowId, ids)
      ensures result.BadRequest? || result.Refused? ==> Unusable(db.Contents(), incoming.headers, eventRowId, ids)
    {
      ghost var before := State();
      result := db.EnqueueEvent(incoming, eventRowId, ids);
      requests := requests - {r};
      Log(CommitEnqueue(r, eventRowId, ids), before);
      if result.Inserted? {
        assert db.Contents().events[eventRowId].sourceSvixId == HeaderToString(incoming.headers, "svix-id").value;
      }
    }
  }

  /** The spawned join set is the one the claim step gives the worker. */
  lemma SpawnsNewTasks(claimed: seq<ClaimedJob>, joinSet: map<Uuid, Task>, t: Tables, picked: set<Uuid>, w: WorkerId, now: Time)
    requires picked <= t.jobs.Keys && ForeignKeys(t) && joinSet.Keys == picked
    requires forall i :: 0 <= i < |claimed| ==> claimed[i].id in picked && claimed[i] == Snapshot(t, claimed[i].id, w)
    requires forall id :: id in joinSet ==>
               exists i :: 0 <= i < |claimed| && claimed[i].id == id && joinSet[id] == Task(claimed[i], now, Spawned)
    ensures joinSet == NewTasks(t, picked, w, now)
  {
  }

  lemma ClaimGives(s: Sys, w: WorkerId, skipped: set<Uuid>, picked: set<Uuid>, joinSet: map<Uuid, Task>)
    requires MayClaim(s, w, skipped, picked) && joinSet == NewTasks(s.db, picked, w, s.now)
    ensures Enabled(s, Claim(w, skipped, picked))
    ensures Apply(s, Claim(w, skipped, picked)) == SetTasks(s, w, joinSet).(db := LockRows(s.db, picked, w, s.now))
  {
  }

  /** How a transaction of the handler goes: a failed call may still have committed. */
  datatype Call = Works | FailsBefore | FailsAfterCommit

  datatype WebhookAnswer = Dropped | Accepted | Error

  /** The webhook's event is stored. */
  ghost predicate Acknowledged(t: Tables, headers: HeaderMap) {
    var svixId := HeaderToString(headers, "svix-id");
    svixId.Some? && SvixIdKnown(t, svixId.value)
  }

  /** A header is missing, or a new id is not new. */
  ghost predicate Unusable(t: Tables, headers: HeaderMap, eventRowId: Uuid, ids: seq<Uuid>) {
    || HeaderToString(headers, "svix-id").None? || HeaderToString(headers, "svix-timestamp").None?
    || eventRowId in t.events || !FreshIds(t, ids)
  }

  predicate RequestAction(a: Action, r: nat) {
    (a.CommitEnqueue? || a.DropRequest?) && a.r == r
  }

  lemma RequestWaits(s: Sys, a: Action, r: nat)
    requires Enabled(s, a) && !RequestAction(a, r) && r in s.requests
    ensures r in Apply(s, a).requests && Apply(s, a).requests[r] == s.requests[r]
  {
  }

  /** A worker with tasks in flight does not stop. */
  lemma StaysRunning(s: Sys, a: Action, w: WorkerId)
    requires Enabled(s, a) && w in s.workers && s.workers[w].tasks != map[] && a != Kill(w)
    ensures w in Apply(s, a).workers && Apply(s, a).workers[w].running == s.workers[w].running
  {
    if TaskAction(a) {
      TaskActionRunning(s, a, w);
    }
  }

  lemma TaskActionRunning(s: Sys, a: Action, w: WorkerId)
    requires Enabled(s, a) && TaskAction(a) && w in s.workers
    ensures w in Apply(s, a).workers && Apply(s, a).workers[w].running == s.workers[w].running
  {
  }

  lemma IdleStep(s: Sys, a: Action, w: WorkerId)
    requires Enabled(s, a) && !ClaimBy(a, w) && w in s.workers && s.workers[w].tasks == map[]
    ensures w in Apply(s, a).workers && Apply(s, a).workers[w].tasks == map[]
    ensures a != Kill(w) && a != Stop(w) ==> Apply(s, a).workers[w].running == s.workers[w].running
  {
  }

  lemma IdsSnoc(claimed: seq<ClaimedJob>, i: nat)
    requires i < |claimed|
    ensures IdsOf(claimed[..i + 1]) == IdsOf(claimed[..i]) + {claimed[i].id}
  {
    var more, now := claimed[..i + 1], claimed[..i];
    assert forall k :: 0 <= k < i ==> more[k] == now[k];
    forall id | id in IdsOf(more) ensures id in IdsOf(now) + {claimed[i].id} {
      var k :| 0 <= k < |more| && more[k].id == id;
    }
    forall id | id in IdsOf(now) ensures id in IdsOf(more) {
      var k :| 0 <= k < |now| && now[k].id == id;
      assert more[k].id == id;
    }
    assert more[i].id == claimed[i].id;
  }
}
