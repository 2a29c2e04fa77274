# resend-router: a verified model

resend-router receives Resend webhooks, stores one event and one delivery job per
matching destination in Postgres, and lets any number of workers deliver the jobs
over HTTP until a destination answers 2xx or the retry window ends. Workers lease
jobs by writing their id and the time into the row, post the jobs of a batch
concurrently, and record each outcome in a transaction that inserts an attempt and
then updates the job only if the row is still theirs. A lease that has become stale
can be stolen.

This project models that queue as a state machine over its atomic steps, models the
database layer, the worker loop and the other mutating code as imperative methods
proved against specification functions, and proves what holds in every reachable
state of every run: with steals, panics, failed database calls, cancelled claims and
killed workers anywhere. It also models the pure parts around the queue: routing,
address parsing, configuration, the stored headers and the signed content.

`dafny verify dfyconfig.toml` checks everything.

## How it is organised

| file | content |
|---|---|
| `Wrappers`, `Text`, `Json` | options, strings as the source trims and encodes them, JSON values |
| `Retry` | the clock unit and the retry arithmetic |
| `Config`, `Router`, `Resend` | validation, matching, extraction of domains |
| `Addresses` | the forms of addresses that extraction understands, and where they are routed |
| `Extraction` | exactly which domains addresses give, which events webhooks give, and which destinations can be reached |
| `Documented` | the README's matching rule to the letter, and when the code follows it |
| `Headers`, `Signing` | the stored header map, the signed content |
| `Schema` | the three tables, and what each transaction does to them, as functions |
| `Columns` | what each transaction writes, column by column |
| `Store` | the class `Db`: the same transactions as methods that change tables in place |
| `Machine` | the running system: `Action`, `Enabled`, `Apply`, runs |
| `Invariants` | the inductive invariant of the machine, and that every step keeps it |
| `Delivery`, `Ledger`, `Turns`, `Lease`, `Events`, `Posts`, `Volume` | the theorems over all runs |
| `Provenance` | over all runs: which webhook, claimed row and answer everything stored and sent comes from |
| `Scenario`, `Overlap`, `Attained` | runs that exist, and with them the exact conditions for overlapping requests and for attempt counts and numbers sent |
| `WorkerLoop` | the class `Cluster`: `run_worker` down to `record_failure`, and the webhook handler, with other actors stepping at every await |

`WorkerLoop` closes the circle: its methods are proved to produce only legal runs of
`Machine` from the empty database, so every theorem about reachable states holds of
them. The condition on which the fence depends, that a worker claims only with an
empty join set, is a guard of the machine's claim step, and it is `process_jobs`
draining its batch that discharges it there.

## What is assumed

- There is one clock, read by the database and the workers alike, and it does not go
  back. Time is a whole number of microseconds, and a deadline is representable.
- Each transaction is one atomic step. A claim reads `now()` in its own step. The clock
  reads of `record_failure` and `record_*`, and of the enqueue, are separate from the
  commit that uses them, and anything may happen in between.
- A cancelled or failed claim statement took effect at once or never does.
- `FOR UPDATE SKIP LOCKED` may leave out any set of rows, and the order among equal
  keys is free. Random draws, HTTP answers and durations are arbitrary.
- A repeated primary key makes its transaction fail; a worker id is never used twice.
- Durations are non-negative and wrap into 32 bits as in the code; a wrapped negative
  one is refused by the row's CHECK, which the theorems account for.
- A webhook carries any JSON value. The theorems that say which runs exist need no more
  destinations than there are ids.
- Running workers and servers have a `delivery_timeout_secs` of at most 2^63 - 6, so that
  the cast in the lease check does not wrap (`Config.AcceptedIsValidExactlyWhen`), and a
  `retry_window_secs` below 2^63. The stale lease, sent as a double, is exact. The
  addition in the lease check wraps, as in a build without overflow checks.
- Attempt numbers are unbounded in the model; `Delivery.AttemptNumberFitsI32` shows
  when they fit the column.

Where text and code differ the model follows the code. The README speaks of trimming a
leading `@`; the code strips all of them, and outer spaces and trailing dots too:
`Documented` says exactly when that makes a difference. The message of the lease check
says "at least" timeout + 5; the code demands more than that. The check itself does not
exclude overlapping requests, since no code bounds how long after its claim a request
starts: `Overlap` gives the exact condition.

## Model

| member | source | states |
|---|---|---|
| Delivery.FenceIsSound | src/db.rs:227-229 | in every reachable state a task that would pass `locked_by = me AND status = 'delivering'` holds the row's current attempt count, deadline and claim time, though the guard names only the worker |
| Delivery.OneHolder | src/db.rs:137-144 | at most one task in the whole system would pass the guard for a job |
| Delivery.RecordingIsFenced | src/db.rs:191-369 | recording commits exactly for the lock holder (with a duration that fits); UNIQUE never rejects the holder; a displaced task meets UNIQUE or zero rows, exactly by whether its number is taken, and leaves every table as it was |
| Delivery.GuardAloneIsNotEnough | src/delivery.rs:97-116 | had the worker claimed again with a task in flight, that task would pass the guard with an outdated count, and only UNIQUE would stop it (tables no run reaches) |
| Delivery.LedgerIsExact | migrations/0001_initial.sql:54 | the attempt numbers recorded for a job are exactly 1 to `attempt_count` |
| Delivery.LedgerShape | src/delivery.rs:178-222 | failed attempts with a next time, then at most one final entry, present exactly when the job ended; succeeded exactly when it is 2xx, otherwise recorded at or after the deadline |
| Delivery.EndsAreAbsorbing | src/db.rs:125-132 | no step of any later run changes an ended job or adds to, removes from or alters its ledger |
| Delivery.RetriesArePaced | src/delivery.rs:319-323 | an open job is never due before its deadline or its creation plus the sum of the least delays of its attempts |
| Delivery.AttemptsAreBounded | src/delivery.rs:293-323 | a window of W > 2460 seconds sees at most 6 + ceil((W - 2460) / 2880) attempts of a job, a shorter one 2 to 6, however clock reads and commits interleave |
| Delivery.DefaultWindowAttempts | README.md:5 | the default three days see at most 96 attempts |
| Delivery.AttemptNumberFitsI32 | src/db.rs:198 | `attempt_count + 1` fits an `i32` for windows up to 6 * 10^12 seconds |
| Attained.CountsExactly | src/delivery.rs:284-404 | the bound is exact: some run of a valid configuration has a job with n attempts if and only if some destination can be reached and n is 0 to the bound, so 96 is attained with three days |
| Attained.SentExactly | src/delivery.rs:119-175 | and some run sends attempt n if and only if some destination can be reached and n is 1 to one below the bound: the last attempt can only expire |
| Volume.RequestsAreBounded | src/db.rs:125-132 | all requests a job ever causes, those of displaced tasks included, number at most one less than the bound on its attempts, plus the whole leases in its window |
| Delivery.NeverStuck | src/db.rs:125-132 | whatever was lost, an open job meets the claim predicate by just after max(deadline, lock + stale), and an idle worker can claim it |
| Delivery.DeadlineDiscipline | src/delivery.rs:293-323 | `next_attempt_at` never passes the deadline; a job is marked failed only at or after it; `delivering` holds exactly when both lock columns are set |
| Delivery.RecordedOutcomeProgress | src/delivery.rs:125-141 | each recorded outcome adds one attempt; one of a claim or a decision at or after the deadline ends the job; a job fails only if the clock read that decided it was at or after the deadline |
| Ledger.SystemRefinesOneWorker | src/delivery.rs:21-367 | every run of any number of workers, seen as ledgers, is a run of a one-worker machine that appends one due attempt at a time; all else stutters |
| Ledger.StepRefines | src/db.rs:191-369 | the same for one step; every database call of a displaced holder is a stutter |
| Ledger.AbsJobFaithful | src/db.rs:214-229 | the abstract job is open, due and succeeded exactly as the row says |
| Turns.BoundedOvertaking | src/db.rs:122-135 | while a due job waits unskipped, all claims together fill their limits and pick at most the other waiting jobs in front of it, those that uncommitted retries and enqueues may still put there (none in a settled state), and stale steals |
| Turns.FrontStep | src/db.rs:392-400 | for a settled past time, one that no uncommitted clock read falls before, a step adds no open job with a key up to it, a recorded outcome removes its job, and a fresh claim uses up the waiting ones |
| Turns.FrontRun | src/db.rs:392-400 | over any run from a settled state the open jobs with a key up to that time never gain a member |
| Turns.FreshClaimsBounded | src/db.rs:122-144 | for any past time each job in front of it, or under way to there, is claimed fresh at most once in a run |
| Turns.PassingClaimIsFull | src/db.rs:133-135 | a claim that passes over a due row picks a full batch of rows with keys no later, each waiting or stolen |
| Turns.ClaimsAreDisjoint | src/db.rs:125-132 | two claims without an outcome in between pick disjoint rows unless the first has gone stale |
| Lease.AtMostOneRequestPerJob | src/config.rs:164-168 | if each request starts within a slack of its claim and ends within the timeout, and slack plus timeout is at most the lease, at most one task per job is inside the HTTP call in any state |
| Lease.ClaimsAreLeaseApart | src/db.rs:128-132 | in every state of every run two tasks of different workers for one job were claimed more than a lease apart, though locks are never renewed |
| Lease.OutcomeWithinLeaseCommits | src/db.rs:128-132 | in every run a task that records within its lease commits, if its duration fits the column |
| Lease.StartsWhileHolding | src/delivery.rs:175 | a request that starts within its lease starts while its task holds the row, so never for an ended job or an outdated attempt |
| Lease.OneConfigExcludesOverlap | src/main.rs:21-36 | validation leaves room for a slack of 5 s: workers that share a valid configuration and start requests within it never overlap |
| Overlap.OverlapExactlyWhen | src/config.rs:164-168 | for a valid configuration and any slack, some run in pace has two requests for one job at once if and only if some destination can be reached, lease < window, and lease < slack + timeout |
| Overlap.UntimedOverlapExactlyWhen | src/config.rs:164-168 | with no bound on how late requests start, some run overlaps if and only if some destination can be reached and lease < window; and then some slack already allows it with every request inside its timeout |
| Overlap.LateStartOverlaps | src/delivery.rs:143-175 | and then it is near: from every reachable state in which a holder is about to send and another worker is idle, an overlap can follow, if the lease ends before the deadline |
| Events.DedupAndConservation | src/db.rs:63-111 | at most one event per svix-id; (event, destination name) is unique though no constraint says so; jobs per event, and in total, equal the matched destination counts |
| Events.ReplayAddsNothing | src/db.rs:94-97 | once an event is stored, a webhook with its svix-id adds nothing in any later state, whatever its body |
| Events.EnqueueAdds | src/db.rs:99-108 | an accepted webhook adds exactly its event and one job per destination, in order, and touches nothing else |
| Posts.SignedContentIdentifies | src/delivery.rs:234-244 | two requests of a run with equal signed content have the same timestamp, job, attempt, event, destination and body, although names may contain dots |
| Posts.SignedTexts | src/delivery.rs:234-244 | what is signed for a request, byte by byte: numerals that read as the whole seconds of its time and as its attempt, and texts that read as its job and event ids |
| Posts.NoPostAfterClampedRetry | src/delivery.rs:321-323 | no attempt is posted before it was scheduled, and none after a retry clamped to the deadline |
| Posts.RecordedAttemptsWerePosted | src/delivery.rs:175-222 | every recorded status, retry or success answers a request that was sent for that attempt |
| Posts.CurrentUrlIsUsed | src/delivery.rs:271-282 | every request goes to the URL the worker's configuration has for the name, and to the stored one only if it has none |
| Invariants.InvHolds | src/db.rs:114-369 | the invariant (ledgers, locks, pace, fence, snapshots, phases) holds in every state of every run |
| Invariants.ClaimStep | src/delivery.rs:31-75 | a claim keeps the fence, given that the claiming worker has no task left |
| Invariants.DecisionOk | src/delivery.rs:293-323 | a failure is rescheduled in pace and within the deadline, or ends the job at or after the deadline |
| Invariants.StepGrows | src/db.rs:47-369 | no step changes an event, an attempt, or a job's fixed columns, or lowers its count; clock and wire only grow |
| Store.Db.EnqueueEvent | src/db.rs:47-112 | the loop of inserts has exactly the effect of the specified transaction: all rows, or none when refused or a duplicate; an inserted event row has the body, both svix headers, receipt time, parsed id and type, count and headers of the webhook, and each job the name and URL of its destination |
| Store.Db.InsertDeliveryJob | src/db.rs:372-405 | adds the queued row, due now, unless its key is taken |
| Store.Db.PickDue | src/db.rs:122-136 | the selection loop returns distinct due rows in key order, at most `limit`, and leaves no earlier due row that is not skipped |
| Store.Db.ClaimDueJobs | src/db.rs:114-164 | exactly the picked rows are locked, for this worker from now on, and each is returned once with the name, URL, count and deadline of its row and the body and headers of its event |
| Store.Db.UpdateClaimedJobDestinationUrl | src/db.rs:166-189 | the URL changes exactly if the fence holds |
| Store.Db.InsertDeliveryAttempt | src/db.rs:408-447 | the row is added exactly if foreign key, UNIQUE and CHECKs accept it |
| Store.Db.RecordSuccess | src/db.rs:191-247 | insert, guarded update, commit or rollback have exactly the specified result and effect |
| Store.Db.RecordRetry | src/db.rs:249-309 | the same for a retry |
| Store.Db.RecordFinalFailure | src/db.rs:311-369 | the same for a final failure |
| Columns.ClaimColumns | src/db.rs:137-144 | a claim sets the status, both lock columns and the update time of the picked rows, and nothing else |
| Columns.SnapshotColumns | src/db.rs:145-155 | a snapshot has its row's and its event's columns under their own names |
| Columns.RefreshColumns | src/db.rs:166-189 | a refresh stores the URL for the lock holder and leaves all else |
| Columns.OutcomeColumns | src/db.rs:191-447 | a recorded outcome adds one attempt with its status, error, times and duration, and the row shows the same, released; all other rows stay |
| Columns.DurationWraps | src/db.rs:440 | the cast of a duration gives the `i32` with the same low 32 bits |
| Columns.EventColumns | src/db.rs:67-92 | an accepted webhook's event row has what was sent, column by column; all other events stay |
| Columns.JobColumns | src/db.rs:99-108 | each destination gets a job with its name and URL, due at once, until the retry window has passed; all other rows stay |
| Columns.TableStores | src/db.rs:449-496 | the stored headers are a string for one value and an array of strings for more, in order, under the names in lower case |
| Provenance.EventsWereReceived | src/web.rs:54-117 | in every run each stored event is a webhook that came in: its body, headers, svix headers, time, parsed id and type, and the count of its matches |
| Provenance.PostsWereReceived | src/delivery.rs:227-282 | in every run each request carries the body and the content type of a webhook that came in; it is for the next attempt of a row as it was claimed, and goes to the URL configured for the row's destination, or to the one the row had when claimed |
| Provenance.AttemptsWereAnswered | src/delivery.rs:175-222 | in every run each recorded attempt shows an answer that came to a request for it: 200 to 299 as a success with that status, another status or an error as a failure that names it; only an expired one shows none |
| WorkerLoop.Cluster.RunWorker | src/delivery.rs:21-78 | every turn that claims makes one claim, always with an empty join set; unless stopped or killed it serves all turns; whatever the others do, the whole is a legal run |
| WorkerLoop.Cluster.Turn | src/delivery.rs:31-75 | one turn makes at most one claim, and the loop goes on unless told to stop or killed |
| WorkerLoop.Cluster.ProcessJobs | src/delivery.rs:87-117 | the spawned join set is that of the claim step, and the method returns only when it is empty |
| WorkerLoop.Cluster.DeliverAndRecord | src/delivery.rs:119-225 | from spawned to gone under any interference; unless the task is taken away it ends in one of three ways: past the deadline the job fails as expired; the refresh finds the lock lost; or its request was answered, and then a status of 200 to 299 makes the job succeed with that status, any other status or error is in the attempt and in the job, which fails at the deadline and otherwise is due after the delay of the draw. Nothing is recorded only if the lock is lost at the end or the duration does not fit |
| WorkerLoop.Cluster.PassGate | src/delivery.rs:125-141 | the task goes to its final failure exactly if the clock is at or past the deadline, by one gate step |
| WorkerLoop.Cluster.ResolveUrl | src/delivery.rs:145-173 | the task goes on with the configured URL, or the stored one; the row gets it exactly if it differs and the task holds the row, and without the lock the task ends |
| WorkerLoop.Cluster.Deliver | src/delivery.rs:227-263 | the wire gains the task's request next, whatever follows; a status of 200 to 299 becomes a success to record, any other a failure that names it, and an error a failure without status |
| WorkerLoop.Cluster.HandleResponse | src/delivery.rs:178-222 | the answer ends in the tables as that of its attempt, unless the task is taken away, has lost the lock, or its duration does not fit |
| WorkerLoop.Cluster.Reschedule | src/delivery.rs:293-323 | final failure exactly at or past the deadline; otherwise a retry at the deadline or, if earlier, now plus the delay that the table has for the draw; status and error are passed on, and it is a legal decision step |
| WorkerLoop.Cluster.RecordFailure | src/delivery.rs:284-367 | unless it is taken away the task ends with the transaction for its retry or final failure; row and attempt then show its status, its error and the time of the retry, or the lock is lost or the duration does not fit |
| WorkerLoop.Cluster.HandleWebhook | src/web.rs:54-117 | an event without destinations is dropped and changes nothing; any other is received with its own body and headers, and if inserted the tables hold them with a job per destination; 202 is answered exactly when the call works and the event was inserted or known, an error only for a missing header, a repeated new id or a failed call, which may have committed |
| Retry.RetryDelaySecs | src/delivery.rs:391-404 | for attempts 1 to 5 and later the delay is 12, 48, 240, 720, 1440 or 2880 seconds plus the draw, at most an hour |
| Retry.RetryDelayInNumbers | src/delivery.rs:379-404 | the draws range to 6, 24, 120, 360, 720 and 1440, and the middle ones give the base delays of 15, 60, 300, 900, 1800 and 3600 seconds |
| Retry.NextAttemptInNumbers | src/delivery.rs:319-323 | the next attempt is due after that many seconds, or at the deadline if that is earlier |
| Delivery.DecisionInNumbers | src/delivery.rs:293-323 | for every draw: final at or past the deadline, otherwise a retry after the delay of the table, clamped; status and error are passed on |
| Retry.NextAttemptAt | src/delivery.rs:319-323 | the next time lies after now, within the deadline, and at least the least delay away unless clamped |
| Retry.LeastElapsedClosedForm | src/delivery.rs:379-389 | the least delays sum to 12, 60, 300, 1020, 2460 and then 2880 s each |
| Retry.FittingDelaysBoundAttempts | src/delivery.rs:379-404 | the least delays of n failures fit into a window exactly if attempt n + 2 is within the bound |
| Config.Validate | src/config.rs:99-188 | accepts exactly what the checks, with their cast, accept, and reports a real fault, for destinations the first one |
| Config.AcceptedIsValidExactlyWhen | src/config.rs:164-168 | accepted settings have a lease of more than timeout + 5 seconds exactly if the timeout is at most 2^63 - 6, so that cast and addition do not wrap |
| Config.WrappedTimeout | src/config.rs:164 | at 2^63 - 5 the sum wraps below zero, and any positive lease passes |
| Config.ValidateDestination | src/config.rs:192-248 | accepts exactly valid destinations, and the error names a fault it has |
| Config.ValidateDestinations | src/config.rs:176-185 | the set of names seen so far finds exactly the repeated names |
| Config.ValidateDomains | src/config.rs:251-266 | refuses exactly lists with an entry that strips to nothing |
| Resend.StripsToNothingExactly | src/config.rs:251-266 | the refused entries are exactly those of `@`s and then dots, either may be missing, with spaces around them |
| Config.DestinationUrl | src/config.rs:92-97 | finds a URL exactly for configured names, and one configured for that name |
| Router.RoutingRefinesMeaning | src/router.rs:9-24 | for valid configurations the matched list is, in order, exactly the destinations all of whose configured constraints are met, domains compared after stripping and lowercasing |
| Router.MatchedAreIntended | src/router.rs:9-24 | one by one, a matched destination has the name, URL, event types and catch-all flag of the configured one, and its domains stripped and in lower case |
| Router.IntendedInPlace | src/router.rs:18-24 | each destination that is meant comes after exactly the earlier ones that are |
| Documented.LeadingAtsDiffer | README.md:61 | the text trims a leading `@`, the code all of them: `@@a` is `a` to the code and `@a` to the letter |
| Documented.EntryReadings | README.md:61 | letter and code agree on an entry for every string exactly when it has no outer whitespace, no second leading `@` and no trailing dot; for the domains that addresses give also when the stripped entry is none of them |
| Documented.RoutingIsLiteralExactlyWhen | README.md:61 | routing follows the text to the letter for every webhook exactly when each destination is a catch-all, has a list no address meets, or has for each entry an address can meet a plain one for the same domain |
| Router.MatchingIsMeaning | src/router.rs:27-72 | a normalised destination matches exactly when it is a catch-all or every configured constraint is met |
| Router.NoAccidentalCatchAll | src/router.rs:74-100 | only a destination configured as catch-all matches every event: normalisation makes no constraint disappear |
| Router.NormalizationDropsNothing | src/router.rs:74-86 | for valid lists normalisation keeps every entry, in order |
| Router.MatchedNamesAreDistinct | src/router.rs:18-24 | matching a valid configuration gives distinct valid names |
| Resend.ExtractedDomainsAreNormal | src/resend.rs:93-127 | every extracted domain is non-empty, without `@`, comma, whitespace or trailing dot, and a fixed point of the matcher's normalisation |
| Extraction.ExtractableExactly | src/resend.rs:93-127 | the exact image of extraction: non-empty, in lower case, without `@`, comma or whitespace, no final dot, no leading semicolon, not both angle brackets |
| Extraction.ParsedExactly | src/resend.rs:64-91 | exactly which events webhooks give: any id and type, and any domains in that image |
| Extraction.ServedExactlyWhen | src/router.rs:18-72 | some webhook reaches a valid configuration exactly when a destination is a catch-all or each of its domain lists has an entry in that image |
| Resend.SecondAtTestNeverFires | src/resend.rs:122 | the test for another `@` never decides; extraction fails exactly without text, without `@`, or with nothing after it |
| Resend.EventDomainsAreNormal | src/resend.rs:64-91 | all domains of a parsed event are in the matcher's form |
| Resend.ParsedFields | src/resend.rs:68-84 | the event id is the text of `id`, else of `data.email_id`, else of `data.id`; type and sender are read from `type` and `data.from` |
| Resend.ParsedRecipients | src/resend.rs:85-143 | recipients are one address or a list; a domain is among them exactly if some text in the list yields it |
| Resend.NormalizeIsNotIdempotent | src/router.rs:88-100 | normalising is not idempotent: an input for which it is not |
| Resend.NormalizeIsIdempotentWhen | src/router.rs:88-100 | normalising twice changes nothing exactly when the first result neither starts nor ends with whitespace |
| Resend.NormalizeIsIdempotentOn | src/router.rs:88-100 | and, on the text itself, exactly when no whitespace follows the leading `@`s or precedes the trailing dots |
| Addresses.ExtractAddress | src/resend.rs:93-127 | every address yields its host in lower case: bare, named with anything behind the bracket, or with the bracket unclosed; with spaces, closing marks and dots around the host, and closing quotes or a separator and more behind it |
| Addresses.ExtractBare | src/resend.rs:106-127 | so does the bare form (section 3.4 of RFC 5322) |
| Addresses.ExtractNamed | src/resend.rs:99-127 | so does the named form |
| Addresses.SpellingNormalizes | src/router.rs:88-100 | any case variant with leading `@`s, trailing dots and outer spaces normalises to lower-case D |
| Addresses.AddressRoutes | src/router.rs:46-58 | an event from any such address matches a destination whose only criterion is a spelling of a sender domain exactly when the domains are equal up to case |
| Addresses.RecipientsRoute | src/router.rs:60-69 | the same for a recipient domain and a list of recipient addresses: exactly when one of them is in the domain |
| Headers.InsertHeaderValue | src/db.rs:485-496 | the in-place update appends one value to the list an entry stands for |
| Headers.HeadersToJson | src/db.rs:449-462 | the loop yields exactly the stored form of the multimap |
| Headers.ValueInPlace | src/db.rs:449-462 | each header's text, or the placeholder, comes after exactly the earlier values of its name |
| Headers.ValuesCount | src/db.rs:449-462 | and there are no other values |
| Headers.StoredHeadersAgree | src/db.rs:449-476 | the stored map has exactly the sent names, decodes to their values in order (one a string, more an array), and lookup in any casing finds the first |
| Headers.RawLookupAgrees | src/db.rs:464-483 | raw and stored lookup agree except where the first value is not visible text |
| Signing.SignDelivery | src/signing.rs:7-44 | the bytes appended step by step, which go to the MAC, are the six documented parts in their order with dots between them, the attempt as a decimal numeral |
| Signing.ContentIdentifies | src/signing.rs:26-36 | equal contents have equal timestamp, job and event, and with equal destination equal attempt and body |
| Signing.FramingAloneIsAmbiguous | src/signing.rs:26-36 | two different destinations, attempts and bodies with equal contents |
| Signing.IdentifiedExactlyWhen | src/signing.rs:26-36 | the content alone identifies deliveries to two names exactly when neither name is the other followed by a dot, a number, and nothing or another dot |
| Signing.JoinInjective | README.md:83 | dot-free fields and the remaining bytes are recovered from the joined content |
| Text.UuidTextInjective | src/delivery.rs:235 | different ids have different texts |
| Text.DecimalInjective | src/signing.rs:16 | different numbers have different texts |
| Text.DecimalReads | src/signing.rs:16 | read from left to right, a number's text gives the number, without leading zeros |
| Text.UuidReads | src/delivery.rs:235 | an id's text has 36 characters, dashes at 8, 13, 18 and 23, and 32 hexadecimal digits that read as the id |
| Text.Utf8CharReads | src/signing.rs:26-36 | each character's bytes read back as it by section 3 of RFC 3629 |
| Text.LowerInLetters | src/resend.rs:120 | exactly the 26 capitals become their small letters |
| Text.WhitespaceInNumbers | src/resend.rs:94 | whitespace is the 25 code points of White_Space |
| Config.NameCharsInLetters | src/config.rs:197-204 | names are of ASCII letters, digits, dots, dashes and underscores |

## Left out

- Inbound signature verification (`verify_webhook_signature`, the timestamp window, base64): the webhook handler starts behind it. HMAC and base64 are parameters of `Signing.SignDelivery`.
- Parsing of environment variables, URLs and JSON: `Config.Validate` takes the URL test as a parameter, `Resend.ParseEventForRouting` takes a parsed value.
- sqlx, Postgres, tokio, reqwest and axum beyond the steps and assumptions above; query plans, isolation levels and connection pools.
- Health endpoints, tracing, mapping of errors to HTTP codes, migrations and the waiting of `main` for its workers. Shutdown is the step that stops an idle worker, and the death of a process the step that kills one with its tasks.
- Progress under a fair scheduler: the bounds on overtaking, attempts and the time to become claimable stand in its place.
- The cast of an extreme retry window to `i64`, of the matched destination count to `i32`, and the primary keys and `created_at` of attempt rows.
- WorkerLoop.Cluster.RunWorker: the scripts of the other actors' steps stand for all schedules; where a script ends, tasks still in flight are lost and the process ends; the one-second idle sleep is any number of such steps.
- WorkerLoop.Cluster.ProcessJobs: the tasks of a batch run as interleaved steps of the machine; that each of them is the code of one delivery is the contract of `DeliverAndRecord`.
- Lease.AtMostOneRequestPerJob: the slack between claim and request is an assumption on the run, since no code enforces one; `Overlap` says exactly which slack a configuration bears.
