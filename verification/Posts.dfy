/** What is true of the requests put on the wire, over all runs. */
module Posts {
  import opened Text
  import opened Retry
  import opened Config
  import opened Schema
  import opened Signing
  import opened Machine
  import opened Invariants

  ghost predicate Posted(wire: seq<Post>, id: Uuid, attempt: int) {
    exists i :: 0 <= i < |wire| && wire[i].jobId == id && wire[i].attempt == attempt
  }

  /** A request carries its job's fixed fields and its event's body, and was due:
      the attempt before it was rescheduled for a time before the deadline, no
      later than the request. */
  predicate PostOk(now: Time, t: Tables, p: Post) {
    && p.jobId in t.jobs && t.jobs[p.jobId].id == p.jobId
    && var r := t.jobs[p.jobId];
    && p.eventId == r.eventId && p.destinationName == r.destinationName
    && r.eventId in t.events && p.body == t.events[r.eventId].rawBody
    && 1 <= p.attempt <= r.attemptCount + 1
    && r.createdAt <= p.sentAt <= now
    && (p.attempt >= 2 ==>
          && AttemptKey(p.jobId, p.attempt - 1) in t.attempts
          && var e := t.attempts[AttemptKey(p.jobId, p.attempt - 1)];
             e.nextAttemptAt.Some? && e.nextAttemptAt.value < r.deadlineAt && e.nextAttemptAt.value <= p.sentAt)
  }

  /** Phases that are reached only through a request. */
  predicate PastPost(phase: Phase) {
    match phase
    case Sending(_, _) => true
    case Answered(_, _, _) => true
    case Recording(Success(_), _, _) => true
    case Recording(Retry(_, _, _), _, _) => true
    case Recording(FinalFailure(status, _), _, _) => status.Some?
    case _ => false
  }

  ghost predicate TasksPosted(s: Sys) {
    forall w, id :: HasTask(s, w, id) && PastPost(TaskOf(s, w, id).phase) ==>
      Posted(s.wire, id, TaskOf(s, w, id).job.attemptCount + 1)
  }

  ghost predicate LedgerPosted(s: Sys) {
    forall k :: k in s.db.attempts && (s.db.attempts[k].willRetry || s.db.attempts[k].statusCode.Some?) ==>
      Posted(s.wire, k.jobId, k.attemptNumber)
  }

  ghost predicate WireOk(s: Sys) {
    forall i :: 0 <= i < |s.wire| ==> PostOk(s.now, s.db, s.wire[i])
  }

  ghost predicate PostsInv(s: Sys) {
    WireOk(s) && TasksPosted(s) && LedgerPosted(s)
  }

  lemma PostedGrows(wire: seq<Post>, wire': seq<Post>, id: Uuid, attempt: int)
    requires Posted(wire, id, attempt) && wire <= wire'
    ensures Posted(wire', id, attempt)
  {
    var i :| 0 <= i < |wire| && wire[i].jobId == id && wire[i].attempt == attempt;
    assert wire'[i] == wire[i];
  }

  lemma PostOkKept(now: Time, t: Tables, now': Time, t': Tables, p: Post)
    requires PostOk(now, t, p) && now <= now' && Grows(t, t')
    ensures PostOk(now', t', p)
  {
  }

  lemma NewPostOk(s: Sys, w: WorkerId, id: Uuid)
    requires Inv(s) && Enabled(s, BeginPost(w, id))
    ensures PostOk(s.now, s.db, PostOf(TaskOf(s, w, id), TaskOf(s, w, id).phase.url, s.now))
  {
    assert TaskOk(s.now, s.db, w, id, TaskOf(s, w, id));
  }

  lemma WireStep(s: Sys, a: Action)
    requires Inv(s) && WireOk(s) && Enabled(s, a)
    ensures WireOk(Apply(s, a))
  {
    var s' := Apply(s, a);
    StepGrows(s, a);
    if a.BeginPost? {
      NewPostOk(s, a.w, a.id);
    }
    forall i | 0 <= i < |s'.wire| ensures PostOk(s'.now, s'.db, s'.wire[i]) {
      if i < |s.wire| {
        assert s'.wire[i] == s.wire[i];
        PostOkKept(s.now, s.db, s'.now, s'.db, s.wire[i]);
      }
    }
  }

  /** The only ways into a phase past the request are from another such phase or by sending. */
  lemma PastPostStep(s: Sys, a: Action, w: WorkerId, id: Uuid)
    requires Enabled(s, a) && (TaskAction(a) && HasTask(s, w, id) ==> TaskOk(s.now, s.db, w, id, TaskOf(s, w, id)))
    requires HasTask(Apply(s, a), w, id) && PastPost(TaskOf(Apply(s, a), w, id).phase)
    ensures HasTask(s, w, id)
    ensures TaskOf(Apply(s, a), w, id).job == TaskOf(s, w, id).job
    ensures PastPost(TaskOf(s, w, id).phase) || a == BeginPost(w, id)
  {
    if TaskAction(a) {
      OwnTaskOrigin(s, a, w, id);
    } else {
      OtherTaskOrigin(s, a, w, id);
    }
  }

  lemma TasksPostedStep(s: Sys, a: Action)
    requires Inv(s) && TasksPosted(s) && Enabled(s, a)
    ensures TasksPosted(Apply(s, a))
  {
    var s' := Apply(s, a);
    forall w, id | HasTask(s', w, id) && PastPost(TaskOf(s', w, id).phase)
      ensures Posted(s'.wire, id, TaskOf(s', w, id).job.attemptCount + 1)
    {
      assert HasTask(s, w, id) ==> TaskOk(s.now, s.db, w, id, TaskOf(s, w, id));
      TaskPostedStep(s, a, w, id);
    }
  }

  lemma TaskPostedStep(s: Sys, a: Action, w: WorkerId, id: Uuid)
    requires TasksPosted(s) && Enabled(s, a)
    requires HasTask(s, w, id) ==> TaskOk(s.now, s.db, w, id, TaskOf(s, w, id))
    requires HasTask(Apply(s, a), w, id) && PastPost(TaskOf(Apply(s, a), w, id).phase)
    ensures Posted(Apply(s, a).wire, id, TaskOf(Apply(s, a), w, id).job.attemptCount + 1)
  {
    PastPostStep(s, a, w, id);
    WireAndClockGrow(s, a);
    var attempt := TaskOf(s, w, id).job.attemptCount + 1;
    if PastPost(TaskOf(s, w, id).phase) {
      PostedGrows(s.wire, Apply(s, a).wire, id, attempt);
    } else {
      var wire := Apply(s, a).wire;
      assert wire[|s.wire|].jobId == id && wire[|s.wire|].attempt == attempt;
    }
  }

  lemma LedgerPostedStep(s: Sys, a: Action)
    requires Inv(s) && PostsInv(s) && Enabled(s, a)
    ensures LedgerPosted(Apply(s, a))
  {
    var s' := Apply(s, a);
    StepGrows(s, a);
    forall k | k in s'.db.attempts && (s'.db.attempts[k].willRetry || s'.db.attempts[k].statusCode.Some?)
      ensures Posted(s'.wire, k.jobId, k.attemptNumber)
    {
      if k in s.db.attempts {
        PostedGrows(s.wire, s'.wire, k.jobId, k.attemptNumber);
      } else {
        NewAttemptPosted(s, a, k);
      }
    }
  }

  lemma NewAttemptPosted(s: Sys, a: Action, k: AttemptKey)
    requires Inv(s) && TasksPosted(s) && Enabled(s, a)
    requires var t' := Apply(s, a).db;
             k in t'.attempts && k !in s.db.attempts && (t'.attempts[k].willRetry || t'.attempts[k].statusCode.Some?)
    ensures Posted(Apply(s, a).wire, k.jobId, k.attemptNumber)
  {
    if !a.Commit? {
      OnlyCommitAddsAttempts(s, a);
    }
    assert TaskOk(s.now, s.db, a.w, a.id, TaskOf(s, a.w, a.id));
    CommittedWasPosted(s, a.w, a.id, a.at, k);
  }

  lemma CommittedWasPosted(s: Sys, w: WorkerId, id: Uuid, at: Time, k: AttemptKey)
    requires TasksPosted(s) && Enabled(s, Commit(w, id, at)) && TaskOk(s.now, s.db, w, id, TaskOf(s, w, id))
    requires var t' := Apply(s, Commit(w, id, at)).db;
             k in t'.attempts && k !in s.db.attempts && (t'.attempts[k].willRetry || t'.attempts[k].statusCode.Some?)
    ensures Posted(s.wire, k.jobId, k.attemptNumber)
  {
    assert PastPost(TaskOf(s, w, id).phase);
  }

  lemma {:induction false} PostsInvHolds(s: Sys, run: seq<Action>)
    requires Inv(s) && ConfigsOk(s) && PostsInv(s) && Legal(s, run)
    ensures PostsInv(Run(s, run))
    decreases |run|
  {
    if run != [] {
      Step(s, run[0]);
      ConfigsStep(s, run[0]);
      WireStep(s, run[0]);
      TasksPostedStep(s, run[0]);
      LedgerPostedStep(s, run[0]);
      PostsInvHolds(Apply(s, run[0]), run[1..]);
    }
  }

  lemma PostsHold(s: Sys)
    requires Reached(s)
    ensures PostsInv(s)
  {
    var start: Time, run: seq<Action> :| Legal(InitSys(start), run) && s == Run(InitSys(start), run);
    PostsInvHolds(InitSys(start), run);
  }

  // ---- theorems ----

  /** Signed content identifies the delivery: two requests of any run with equal
      signed content have the same timestamp, job and attempt, and so the same
      event, destination and body. */
  lemma SignedContentIdentifies(s: Sys, i: nat, j: nat)
    requires Reached(s)
    requires i < |s.wire| && j < |s.wire|
    requires s.wire[i].Content() == s.wire[j].Content()
    ensures var p, q := s.wire[i], s.wire[j];
            && p.Timestamp() == q.Timestamp() && p.jobId == q.jobId && p.attempt == q.attempt
            && p.eventId == q.eventId && p.destinationName == q.destinationName && p.body == q.body
  {
    PostsHold(s);
    var p, q := s.wire[i], s.wire[j];
    assert PostOk(s.now, s.db, p) && PostOk(s.now, s.db, q);
    ContentIdentifies(p.Timestamp(), p.jobId, p.eventId, p.destinationName, p.attempt, p.body,
                      q.Timestamp(), q.jobId, q.eventId, q.destinationName, q.attempt, q.body);
  }

  /** A retry clamped to the deadline is never posted again, and no attempt is
      posted before it was scheduled, whichever worker posts it. */
  lemma NoPostAfterClampedRetry(s: Sys, i: nat)
    requires Reached(s) && i < |s.wire|
    ensures var p := s.wire[i];
            var key := AttemptKey(p.jobId, p.attempt - 1);
            && p.jobId in s.db.jobs
            && s.db.jobs[p.jobId].createdAt <= p.sentAt
            && (p.attempt >= 2 ==>
                  && key in s.db.attempts && s.db.attempts[key].nextAttemptAt.Some?
                  && s.db.attempts[key].nextAttemptAt.value < s.db.jobs[p.jobId].deadlineAt
                  && s.db.attempts[key].nextAttemptAt.value <= p.sentAt)
  {
    PostsHold(s);
    assert PostOk(s.now, s.db, s.wire[i]);
  }

  /** No response is invented: every recorded status or retry, and so every
      success, answers a request that was really sent for that attempt. */
  lemma RecordedAttemptsWerePosted(s: Sys, id: Uuid, n: int)
    requires Reached(s)
    requires && id in s.db.jobs && 1 <= n <= s.db.jobs[id].attemptCount
             && (n < s.db.jobs[id].attemptCount || s.db.jobs[id].status != Failed
                 || (AttemptKey(id, n) in s.db.attempts && s.db.attempts[AttemptKey(id, n)].statusCode.Some?))
    ensures Posted(s.wire, id, n)
  {
    PostsHold(s);
    Reachable(s);
    assert RowOk(s.db.attempts, id, s.db.jobs[id]);
    assert EntryOk(s.db.jobs[id], n, s.db.attempts[AttemptKey(id, n)]);
  }

  // ---- where requests go ----

  /** A url once resolved is that of the worker's configuration. */
  predicate UrlOk(cfg: Settings, task: Task) {
    task.phase.Addressed? ==> task.phase.url == ResolveDestinationUrl(cfg, task.job).url
  }

  ghost predicate UrlsOk(s: Sys) {
    forall w, id :: HasTask(s, w, id) ==> UrlOk(s.workers[w].cfg, TaskOf(s, w, id))
  }

  lemma UrlsStep(s: Sys, a: Action)
    requires UrlsOk(s) && Enabled(s, a)
    ensures UrlsOk(Apply(s, a))
  {
    var s' := Apply(s, a);
    forall w, id | HasTask(s', w, id) ensures UrlOk(s'.workers[w].cfg, TaskOf(s', w, id)) {
      if TaskAction(a) {
        OwnTaskOrigin(s, a, w, id);
      } else {
        OtherTaskOrigin(s, a, w, id);
      }
      if w in s.workers {
        SettingsStay(s, a, w);
      }
    }
  }

  lemma {:induction false} UrlsHold(s: Sys, run: seq<Action>)
    requires UrlsOk(s) && Legal(s, run)
    ensures UrlsOk(Run(s, run))
    decreases |run|
  {
    if run != [] {
      UrlsStep(s, run[0]);
      UrlsHold(Apply(s, run[0]), run[1..]);
    }
  }

  /** Every request goes to the url its worker's configuration has for the job's
      destination name, whatever was stored with the job; to the stored url only
      when the configuration no longer has that name. */
  lemma CurrentUrlIsUsed(s: Sys, w: WorkerId, id: Uuid)
    requires Reached(s) && Enabled(s, BeginPost(w, id))
    ensures var job := TaskOf(s, w, id).job;
            var s' := Apply(s, BeginPost(w, id));
            && |s'.wire| == |s.wire| + 1 && s'.wire[|s.wire|].jobId == job.id
            && s'.wire[|s.wire|].url ==
                 match DestinationUrl(s.workers[w].cfg.destinations, job.destinationName)
                 case Some(url) => url
                 case None => job.destinationUrl
  {
    var start: Time, run: seq<Action> :| Legal(InitSys(start), run) && s == Run(InitSys(start), run);
    UrlsHold(InitSys(start), run);
    assert UrlOk(s.workers[w].cfg, TaskOf(s, w, id));
  }

  /** What is signed for a request, byte by byte: the whole seconds of its time, the two
      ids, the name, the attempt and the body, each in the text that reads back as it. */
  lemma SignedTexts(p: Post)
    ensures var seconds, delivery, event, number :=
              Decimal(p.Timestamp()), UuidText(p.jobId), UuidText(p.eventId), Decimal(p.attempt);
            && p.Content() == Utf8(seconds) + ([46] + (Utf8(delivery) + ([46] + (Utf8(event) + ([46]
                              + (Utf8(p.destinationName) + ([46] + (Utf8(number) + ([46] + p.body)))))))))
            && IsDecimal(seconds, p.Timestamp())
            && p.Timestamp() * 1_000_000 <= p.sentAt < (p.Timestamp() + 1) * 1_000_000
            && IsUuid(delivery, p.jobId) && IsUuid(event, p.eventId)
            && IsDecimal(number, p.attempt)
  {
    ContentInOrder(Decimal(p.Timestamp()), UuidText(p.jobId), UuidText(p.eventId), p.destinationName, p.attempt, p.body);
    DecimalReads(p.Timestamp());
    UuidReads(p.jobId);
    UuidReads(p.eventId);
  }
}
