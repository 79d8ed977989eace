# Verified model of kaiion

kaiion is a proxy in front of an OpenAI-compatible provider. It sends requests live, under quotas, or turns them into
durable batch jobs. This project models its two state machines and the components around them in Dafny and proves what
they promise.

**The live-request scheduler** (`Policy`, `Ledger`, `Pacing`, `Admission`, `History`, `Safety`, `Plain`, `Rate`, `Pruning`,
`Priority`, `Waiters`, `Queue`, `Scheduling`). `History` is a scheduler that never forgets: a list of dispatches,
completions, aborts and dropped permits, from which ledger, pacing slots and requests in flight follow. The lemmas
about caps, spacing, conservation and aborts hold of every legal history. `Scheduling.Scheduler` is the real one: a
class with the ledger, the pending, active, pacing and session maps, the queue's byte count and the coalescing
deadline. Each method that takes `now` is one section under the lock. What tasks hold outside the lock (receivers,
unread outcomes, permits, release and clean-up tasks) is a value, so that a receiver can disappear between any two
steps. `Valid` says that the fields refine a legal history, and every method keeps it.

**The batch-job driver** (`Json`, `Jobs`, `World`, `Provider`, `BatchOutput`, `Driver`). `World` is a trace of atomic
operations on the jobs table and the provider, by any number of workers with stale caches that may stop anywhere; its
lemmas hold of every legal trace. `Driver.JobDriver` is the worker, in imperative form, with `Interfere` (anything
legal by others) between any two of its own steps; replies may be lost whether or not the provider accepted the call,
lists may lag, and the database may fail with or without effect.

**Supporting components**: request identity and hash framing (`Identity`), the two tables and the enqueue transaction
(`JobStores`), the usage tracker for streamed replies (`SseUsage`), the event stream of a batch job against a strict
client (`SseStream`), the live retry loop and the relay that settles its permits (`Proxy`).

Findings about the code, each with a lemma that shows it:

- A completion that reports more tokens than were reserved lets a window hold more than its token cap
  (`Hypotheses.OverReportBreaksTheWindow`). The caps hold in every window after every step if and only if each report
  left room when it was made, which can be checked before it is recorded (`Safety.WindowsHoldExactly`).
- An abort after an over-report can make pruning visible (`Hypotheses.OverReportShowsPruning`). It leaves a slot as the
  never-forgetting scheduler has it if and only if the forgotten events, replayed and followed by all the kept charges
  without a pause, end no later than the clock or the slot rebuilt from the kept events
  (`Pruning.AbortKeepsSlotExactly`); the requests that then differ are exactly those charged to a slot pushed beyond
  their instant (`Pruning.AbortShowsExactly`). Without such an abort pruning is never visible
  (`Pruning.PruningIsInvisible`), and in any case the pruned scheduler only lets more through.
- Thread and turn of a session are joined by a NUL without lengths, so two sessions can share an identity; they do
  exactly when a NUL is hidden in one of them (`Identity.JoinedIsAmbiguous`, `Identity.SessionsCanCollide`).
- A permanent error from `create_batch` never ends a job as failed: the row is already ahead of the worker's cached
  state, storing the failure fails, and the job goes on from the reloaded row (`Driver.JobDriver.Round`,
  `Driver.StaleOutcomeConflicts`).
- The batch search stops if and only if it never asks for the page after the same cursor twice
  (`Provider.StopsUnlessItAsksAgain`); cursors that go round in a circle of two keep it going for ever
  (`Provider.SearchCanCycle`).
- `enqueue` fails without answering the question of the key if and only if the identifier drawn for a new job is
  already in use and the request has no job yet (`JobStores.JobStore.Enqueue`).
- As long as standings stay as they are, aging that is on makes up for a lead if and only if it is at most one million;
  a larger one is never made up, however long a request waits (`Priority.AgingCatchesUp`).

## Assumptions

- `now` does not decrease from one section under the lock to the next. The source reads the clock before it takes the
  lock, so this is an assumption about how closely the two follow each other.
- Pacing durations are whole nanoseconds rounded down, where the source computes them in 64-bit floating point.
- Sums of counts and tokens are unbounded, as are identifiers; saturating operations are modelled as such.
- Disarming a lease in `complete` or `abort` and freeing its slot are one step.
- Worker identifiers are unique across processes and restarts; a worker that stops never acts again.
- The provider gives each batch it accepts an identifier of its own, lists a batch with a job's metadata only if it
  accepted it for that job, never names two output files for one batch, and never changes what is in a file. Otherwise
  its answers are arbitrary.
- SQLite executes each statement and the enqueue transaction atomically; SQL and the JSON parser agree on what is
  JSON.
- SHA-256 is injective: a digest is represented by the bytes it is computed from. Printing a JSON value and parsing it
  gives the value back.

## Model

| member | source | states |
|---|---|---|
| Policy.Validate | src/scheduling_policy.rs:162-276 | a policy is accepted if and only if it satisfies every bound the proofs use |
| Policy.CheckLimits | src/scheduling_policy.rs:218-272 | the rules are accepted if and only if each is a valid limit |
| Policy.WidestWindow | src/scheduling.rs:1209-1214 | no rule's window is longer than the one pruning waits for |
| Ledger.RollingFit | src/scheduling.rs:1000-1073 | the rolling test finds the instant from which, and only from which, the request fits, ties in expiry included |
| Ledger.CapFitsExactly | src/scheduling.rs:1036-1047 | saturating cap tests agree with exact ones, because caps fit a signed 64-bit integer |
| Ledger.LiveIsTally | src/scheduling.rs:1023-1050 | what is still live among the expiries of matching events is what the ledger adds up to inside the window |
| Pacing.ClampIsHarmless | src/scheduling.rs:1198-1206 | the one-year clamp never shortens the pace of a request within its cap under a valid window |
| Pacing.CostAtMostWindow | src/scheduling.rs:1101-1162 | a request within its caps moves no slot by more than the window |
| Pacing.CostMonotone | src/scheduling.rs:1101-1206 | fewer tokens never cost more pacing time |
| Pacing.ThinnerStaysSpaced | src/scheduling.rs:1164-1192 | taking events out of a spaced ledger, or making them cheaper, leaves it spaced with no later slot |
| Pacing.StartForgotten | src/scheduling.rs:1164-1192 | replaying a ledger from a forgotten slot in the past gives a slot that holds back as much |
| Admission.Readiness | src/scheduling.rs:870-982 | the instant returned is exactly the first at which every matching rule admits the request; impossible if and only if the request alone exceeds a matching cap; while a concurrency rule is full no present instant is returned |
| Admission.RollingFor | src/scheduling.rs:901-912 | reading only the events that match now gives the same answer as the whole ledger |
| Admission.AdmitsMonotone | src/scheduling.rs:870-960 | waiting, a smaller ledger or earlier slots never turn a request away |
| Plain.DispatchableMeans | src/scheduling.rs:870-1099 | a request can be dispatched if and only if every rule whose provider and model, where named, are the request's has room for it, said in the fields of rules, events, slots and requests in flight |
| Plain.OthersDoNotCount | src/scheduling.rs:984-991 | other providers' events and requests in flight never matter, other credentials' do not where all applying rules are auth-scoped: without them admission is the same at every instant |
| Plain.NextAfterOne | src/scheduling.rs:1126-1133 | under a rate of max_rps the request after the first is admitted exactly from 1/max_rps later on, at least a nanosecond, and at once if the rule is auth-scoped and the credential another |
| Pacing.BillsMove | src/scheduling.rs:1101-1206 | charging moves a request's slots under the rules that apply to it from themselves or the present by the inverse rate, at least a nanosecond, or the tokens' share of the window, at most a year, and no other slot |
| History.LogShape | src/scheduling.rs:798-818 | the ledger of a legal history is ordered by time with distinct identifiers, and whoever is in flight was dispatched |
| Safety.SlidingWindowSafety | src/scheduling.rs:1000-1099 | over every history, any half-open interval as long as a rule's window holds at most its request cap of dispatches not aborted, and its token caps of tokens unless a completion over-reported |
| Safety.WindowsHoldExactly | src/scheduling.rs:547-556 | over every history, a rule's token caps hold in every window after every step if and only if there was room for each report when it was made |
| Safety.SettleHoldsExactly | src/scheduling.rs:547-556 | for one completion: the windows hold after it if and only if what is there without the event leaves room for what is reported |
| Safety.RequestCapsInNumbers | src/scheduling.rs:1007-1011 | the same bound as max_requests and max_rps times the window |
| Safety.ConcurrencySafety | src/scheduling.rs:961-981 | over every history each rule and scope has at most max_concurrency requests in flight |
| Plain.CapsOfEveryRule | src/scheduling.rs:1000-1099 | over every history each rule's caps hold of all of a provider's requests in a window and in flight, for the rule's model if it names one: of all credentials together, or of each if the rule is auth-scoped |
| Safety.PermitsAreConserved | src/scheduling.rs:532-596 | a permit is issued at most once, ends at most once by completion, abort or drop, and is in flight exactly in between |
| Safety.LogStaysSpaced | src/scheduling.rs:1101-1192 | whatever was aborted or reconciled, the dispatches left in the ledger are spaced by their cost, in every slot that no report made dearer than was reserved |
| Safety.ReservationsStaySpaced | src/scheduling.rs:1101-1162 | without aborts, dispatches are spaced by what they reserved even when more is reported |
| Safety.SpacedGap | src/scheduling.rs:1101-1162 | two dispatches charged to one slot are at least the first one's cost apart |
| Safety.PaceIsReplay | src/scheduling.rs:1164-1192 | while nothing was reconciled the slots are a replay of the ledger |
| Safety.WithoutInFlight | src/scheduling.rs:582-596 | leaving a permit in flight out of a history gives a legal history whose state lacks just that permit |
| Safety.AbortUndoesDispatch | src/scheduling.rs:582-596 | an abort leaves the state of the history in which that dispatch never happened and every other one did: same ledger, slots, requests in flight and admissions |
| Rate.ReservedRate | src/scheduling.rs:1101-1206 | without aborts, the tokens one scope reserved over any stretch, whatever was reported later, times the window are at most the cap times the stretch plus the last reservation's own cost and one nanosecond per dispatch |
| Rate.TokenRate | src/scheduling.rs:1101-1206 | with aborts, the same of the tokens the ledger holds in the end, unless a completion over-reported |
| Rate.RequestGap | src/scheduling.rs:1101-1196 | dispatches under a max_rps rule are at least 1/max_rps apart, aborts or not |
| Rate.TokenGap | src/scheduling.rs:1101-1206 | without aborts, dispatches under a token cap are at least floor(tokens times window over cap) apart |
| Rate.LogWithinCaps | src/scheduling.rs:889-900 | no event in the ledger exceeds a cap of a rule that matches it |
| Pruning.PruningIsExact | src/scheduling.rs:1209-1220 | pruning a time-ordered ledger drops exactly the events outside every window |
| Pruning.PruningIsInvisible | src/scheduling.rs:1208-1229 | from its clock on the pruned state admits all that one that never forgets admits, and exactly the same of every request none of whose slots was rebuilt by an abort after a report had made it dearer |
| Pruning.PruningIsInvisibleToAll | src/scheduling.rs:1208-1229 | as long as no abort came after an over-report, the pruned state admits exactly what one that never forgets admits |
| Pruning.AbortKeepsSlotExactly | src/scheduling.rs:582-592 | an abort rebuilds a slot of the pruned state that agrees with the full one from the clock on if and only if the forgotten events would not have pushed it beyond the clock and the rebuilt slot |
| Pruning.AbortShowsExactly | src/scheduling.rs:582-592 | after an abort the full history admits a request if and only if the pruned state does and none of the request's slots is pushed beyond the instant |
| Pruning.AbortIsInvisible | src/scheduling.rs:582-596 | a pruned scheduler that aborted a permit and one in which that dispatch never happened dispatch the same requests from then on |
| Pruning.TrimmedReplay | src/scheduling.rs:1164-1192 | rebuilding slots from the pruned ledger holds requests back as much as rebuilding them from all of it |
| Pruning.RefinesPruned | src/scheduling.rs:1208-1229 | pruning keeps the refinement of the never-forgetting scheduler |
| Pruning.RefinesDispatch | src/scheduling.rs:798-853 | what the pruned state admits is a legal dispatch of the never-forgetting one, and charging it keeps the refinement and leaves two slots agreeing exactly if they did before |
| Pruning.RefinesSettle | src/scheduling.rs:544-556 | reconciling the first event with an identifier in the pruned ledger matches doing so in the full one |
| Pruning.RefinesUndo | src/scheduling.rs:582-596 | removing an event and rebuilding the slots keeps the refinement |
| Hypotheses.OverReportBreaksTheWindow | src/scheduling.rs:547-556 | a concrete history in which an over-report exceeds a token cap |
| Hypotheses.OverReportShowsPruning | src/scheduling.rs:582-596 | a concrete history in which pruning shows after an over-report and an abort |
| Priority.BeatsIsTotal | src/scheduling.rs:745-757 | the order among ready waiters is strict, transitive and total over identifiers, so the choice does not depend on the map's order |
| Priority.AgingNeverHurts | src/scheduling.rs:1284-1291 | waiting longer never lowers the aging boost |
| Priority.PreferredAmongEquals | src/scheduling.rs:736-757 | of two waiters that arrived together a cache hit, no tool output and no async alias each decide the choice, exactly when its setting is positive |
| Priority.LeadOfComplexity | src/scheduling.rs:1239-1243 | two complexity bands differ by exactly the difference of their priorities |
| Priority.LeadOfPrompt | src/scheduling.rs:1257-1265 | a user's prompt in a recently active session is worth the boost, and half of it more after a tool's output, over one of unknown kind |
| Priority.LeadOfKnownHit | src/scheduling.rs:1245-1256 | a session's cache hit is worth the boost exactly for the same model and while it is recent |
| Priority.CostOfIdling | src/scheduling.rs:1272-1283 | a session idle for n decay periods beyond the first costs n penalties, at most a million |
| Priority.LeadOfWaiting | src/scheduling.rs:1284-1291 | having waited n whole intervals is worth n boosts, at most a million |
| Priority.RecommendsExactly | src/scheduling.rs:657-697 | batch is recommended, and for which reason, exactly when allowed, below the threshold, and after a cache miss or for an alias |
| Priority.SessionKeyIdentifies | src/scheduling.rs:1294-1296 | two keys are the same exactly if provider, credential and session are, without a NUL in the first two |
| Priority.AgingCatchesUp | src/scheduling.rs:1284-1291 | a waiter catches up with a newly arrived one that stands better, by waiting long enough, if and only if aging is on and the lead is at most one million |
| Priority.ScoresAreSmall | src/scheduling.rs:1231-1292 | under a validated policy scores stay within eight million, so 64-bit sums are exact |
| Priority.EarlierBeatsLater | src/scheduling.rs:745-757 | of two waiters the score cannot tell apart the earlier always beats the later |
| Priority.FallbackIsForLowPriority | src/scheduling.rs:657-697 | batch is recommended only where allowed and below the threshold, and longer waiting only withdraws the recommendation |
| Waiters.LoseKeeps | src/scheduling.rs:176-220 | receivers may disappear at any moment: unread permits are dropped into release tasks and every queued entry keeps a listener or a clean-up task |
| Waiters.SendKeeps | src/scheduling.rs:836-844 | sending an outcome keeps every permit in one place and every waiter either queued or answered |
| Waiters.WithdrawKeeps | src/scheduling.rs:507-513 | so does a waiter that takes its own entry away |
| Waiters.LeaveKeeps | src/scheduling.rs:507-513 | so does one whose entry is gone already, when its unread permit is dropped |
| Waiters.ReleaseKeeps | src/scheduling.rs:185-190 | so does a release task |
| Waiters.CleanUpKeeps | src/scheduling.rs:208-218 | so does a clean-up task |
| Scheduling.Scheduler.constructor | src/scheduling.rs:300-312 | a scheduler with a validated policy starts empty and valid |
| Scheduling.Scheduler.Screen | src/scheduling.rs:332-388 | which requests are answered without queueing: malformed, disabled, batch preview, retry limits; and what is then true of those that may wait |
| Scheduling.Scheduler.Enqueue | src/scheduling.rs:396-435 | a request enters if and only if there is room in entries and bytes, under a new identifier, and starts the coalescing interval if it is first; otherwise nothing but pruning happens |
| Scheduling.Scheduler.RemovePending | src/scheduling.rs:262-266 | the byte count stays the exact sum of the entries, so its subtraction never saturates, and the identifier leaves the queue once |
| Scheduling.Scheduler.Prune | src/scheduling.rs:1208-1229 | pruning keeps validity and drops exactly the idle sessions |
| Scheduling.Scheduler.UpdatePacing | src/scheduling.rs:1101-1162 | every slot of the request moves by exactly what its rate or its tokens take, in numbers, and no other slot moves |
| Scheduling.Scheduler.RebuildPacing | src/scheduling.rs:1164-1192 | every slot is the replay of the ledger |
| Scheduling.Scheduler.ReadinessOf | src/scheduling.rs:711-729 | a waiter is found impossible, ready now, or not ready before an instant, each exactly |
| Scheduling.Scheduler.ScanPending | src/scheduling.rs:699-758 | in whatever order entries are visited, the best ready listener, the ones to refuse and an instant before which nobody can be served |
| Scheduling.Scheduler.RefuseAll | src/scheduling.rs:760-786 | exactly the refused entries leave; those that listen get the refusal computed for them, others are cancelled |
| Scheduling.Scheduler.Deliver | src/scheduling.rs:798-852 | a delivered permit is charged to ledger, slots and slots in flight; an undeliverable one leaves all three as they were |
| Scheduling.Scheduler.DispatchBest | src/scheduling.rs:788-857 | the chosen entry leaves the queue, and is charged if and only if its receiver is still there |
| Scheduling.Scheduler.FirstComeFirstServed | src/scheduling.rs:736-757 | a waiter is never foremost while an earlier one of its class with the same tokens still listens |
| Scheduling.Scheduler.DispatchReady | src/scheduling.rs:699-868 | one pass dispatches only the foremost ready waiter of an open queue, which finds a permit for exactly what was charged in its mail; entries leave only for a reason and in turn; it asks to be called again at once only if the queue shrank, and otherwise nobody can be served before the instant it returns |
| Scheduling.Scheduler.DispatchAvailable | src/scheduling.rs:993-998 | terminates with the queue's size as measure, only adds dispatches, serves nobody while an earlier waiter of the same class still waits and listens, and leaves nobody who could be served before the next due instant, nobody who asks for the impossible, and a coalescing deadline only while it lies ahead |
| Queue.IssuedInTurn | src/scheduling.rs:993-998 | over any number of passes, whoever was dispatched was queued before, and nobody of its class that arrived earlier still waits and listens |
| Scheduling.Scheduler.Poll | src/scheduling.rs:442-480 | an oversized request is answered and withdrawn; any other waiter gives the queue one pass, in turn |
| Scheduling.Scheduler.Receive | src/scheduling.rs:482-485 | a waiter gets its own outcome, and a permit in it is in flight and now held |
| Scheduling.Scheduler.Expire | src/scheduling.rs:486-513 | at the deadline the entry is withdrawn if it is still queued; if it was served meanwhile, the unread permit goes to a release task with its slot still taken and its charge kept; the retry hint is exact |
| Scheduling.Scheduler.RunCancel | src/scheduling.rs:200-220 | the clean-up of a cancelled waiter removes its entry and serves others in turn; every entry that leaves does so once and for a reason |
| Scheduling.Scheduler.DropPermit | src/scheduling.rs:176-192 | a dropped permit goes to exactly one release task |
| Scheduling.Scheduler.RunRelease | src/scheduling.rs:185-190 | the release task frees the slot, keeps the charge, and serves others in turn; for a slot already free it does nothing |
| Scheduling.Scheduler.SettlePermit | src/scheduling.rs:539-556 | the first ledger event with the permit's identifier takes the reported tokens and its slot is free |
| Scheduling.Scheduler.UndoPermit | src/scheduling.rs:589-592 | every ledger event with the permit's identifier is gone and its slot is free |
| Scheduling.Scheduler.Complete | src/scheduling.rs:532-578 | completion ends the permit, reconciles its tokens, records the session and serves others in turn; every entry that leaves does so once and for a reason |
| Queue.SessionIsSeen | src/scheduling.rs:557-575 | what a completion reports is what the session's next request for the model sees |
| Queue.OtherSessionsStay | src/scheduling.rs:557-575 | a completion leaves every other session as it was, and pruning forgets exactly those idle for more than eight decay periods |
| Scheduling.Scheduler.Abort | src/scheduling.rs:582-596 | abort ends the permit, takes its charge back and serves others in turn; a permit that reserved nothing changes nothing |
| Scheduling.Scheduler.NobodyIsForgotten | src/scheduling.rs:176-220 | a listening waiter is queued or answered, an abandoned entry has a clean-up task, and every slot in flight is freed by exactly one of unread permit, holder and release task |
| Scheduling.Scheduler.EveryStateIsSafe | src/scheduling.rs:223-266 | in every reachable state concurrency and window caps hold, the queue's accounts are exact and within bounds, and nobody is both queued and in flight |
| Scheduling.Scheduler.EveryStateKeepsCaps | src/scheduling.rs:984-1099 | in every reachable state each rule's request and concurrency caps hold of all credentials of a provider together, or of each if the rule is auth-scoped |
| Scheduling.Scheduler.HigherScoreFirst | src/scheduling.rs:736-757 | nobody is served while another ready waiter that listens has a higher score |
| Scheduling.Scheduler.ServedIsRemembered | src/scheduling.rs:557-575 | a permit says how long its request waited, and when it completes the session's next request sees its kind, its instant and what was reported |
| Jobs.Decode | src/db.rs:53-152 | a row reads back as a job if and only if it satisfies the schema's CHECK |
| Jobs.RowsAreJobs | src/db.rs:53-152 | jobs and rows that satisfy the CHECK are in one-to-one correspondence, with matching status |
| World.UpdatedRow | src/db.rs:226-346 | every update on a row that satisfies the CHECK gives one that does, reads back as the typed next state, and ranks higher |
| World.RowsStayOk | migrations/0003_typed_job_state.sql:27-33 | every row of every reachable table satisfies the CHECK |
| World.NeverBack | src/db.rs:226-346 | a job's state never returns to an earlier one |
| World.StatusDecides | src/db.rs:226-361 | comparing the status alone is as strong as comparing the whole row, for every state that was ever in the table |
| World.TerminalForever | src/db.rs:226-346 | terminal rows never change |
| World.AtMostOneCreate | src/driver.rs:180-203 | create_batch is called at most once for a job over every trace; at most one worker ever has the licence to call it |
| World.SubmittedBatchIsUnique | src/driver.rs:186-219 | the batch of a submitted row is the only one that carries the job's metadata |
| World.OutcomeIsOfTheBatch | src/driver.rs:220-316 | over every trace, a terminal row that is not a failure of the proxy's own making comes from the only batch ever accepted for its job: a completed or incomplete one is the body of the job's first record in that batch's output file, without error and with a 2xx status, an expired or cancelled one names how that batch ended, and a failed one was a failure there |
| Driver.CompareAndSet | src/db.rs:332-346 | an update from a stale state either finds exactly that state and takes it to the next, or finds the job further along and changes nothing |
| Driver.StaleOutcomeConflicts | src/driver.rs:110-132 | once a job is ahead of a cached state, storing an outcome from that state conflicts for ever |
| Driver.Database.Transition | src/db.rs:332-346 | success means the row was in the cached state and is in the next one; conflict means it is further along and untouched |
| Driver.Database.Get | src/db.rs:196-200 | a job is read in its present state |
| Driver.Database.EveryStateIsSound | src/driver.rs:180-227 | in every reachable state at most one batch was asked for, a submitted row names it, and a terminal row comes from it, unless it is a failure of the proxy's own making |
| Driver.JobDriver.Advance | src/driver.rs:154-230 | each state leads only to the ones the protocol allows; the result is a state the job reached; a conflict means the job moved on; the provider is asked to create only under this worker's licence |
| Driver.JobDriver.Submit | src/driver.rs:180-203 | the job is submitted with the batch the reply names, uncertain after a retryable error, and permanently failed exactly after any other, which leaves the row ahead of the cached state |
| Driver.JobDriver.Reconcile | src/driver.rs:209-219 | an uncertain submission becomes submitted exactly with the batch that is found, stays as it is when none is, and fails for good exactly with the provider's permanent error |
| Driver.JobDriver.Poll | src/driver.rs:220-316 | the outcome stored is what the provider's answer about the row's batch, and the file that takes, make of the job; the job stays as it is exactly if the answer names no end; an error is permanent only if the provider's was or the batch ended in a way that makes nothing of the job |
| Driver.JobDriver.AskOutcome | src/driver.rs:232-316 | the outcome is what was heard of the batch and read in its file: completed or incomplete only as the genuine body of the job's first record, failed only for a failed batch, an error file alone, or a first record that failed; there is none exactly if the batch has not ended, and an error is permanent exactly if nothing can come of it |
| Driver.JobDriver.CreateBatch | src/openai.rs:138-157 | one call is one create, whether or not the batch is accepted and whether or not the reply arrives |
| Driver.JobDriver.Round | src/driver.rs:78-141 | one turn of the loop, reload after conflict and store after permanent error included, publishes only durable states further along; after a conflict the job goes on from the state read back, if it can be read; after a permanent error from creating the batch that store always fails |
| Driver.JobDriver.Run | src/driver.rs:71-142 | whatever others do, published states only move forward and were durable, and the worker stops by itself only when the row is terminal and published |
| Driver.WorkerRegistry.Subscribe | src/driver.rs:38-63 | at most one worker per job is started; a stale caller shares it; a terminal job starts none |
| Driver.WorkerRegistry.Stopped | src/driver.rs:57-61 | a stopped worker leaves the registry and no other does |
| Provider.WhenToRetry | src/openai.rs:31-38 | an error is retryable if and only if the reply was lost, said to slow down or that the server failed, or a file is not there yet |
| Provider.FindBatch | src/openai.rs:175-209 | over any list, the loop answers within a number of requests exactly if the search stops within it, with the search's result, and a batch it returns is listed and carries the job's metadata |
| Provider.StopsUnlessItAsksAgain | src/openai.rs:203-207 | with cursors from a finite set, the search stops if and only if it never asks for the page after the same cursor twice |
| Provider.SearchIsExact | src/openai.rs:175-209 | over a finite well-paged list the search stops and finds the first batch for the job if and only if there is one |
| Provider.SearchCanCycle | src/openai.rs:203-207 | a list whose cursors alternate keeps the search going for ever |
| BatchOutput.ParseBatchOutput | src/driver.rs:342-383 | the first line that is malformed or belongs to the job decides; without one the output is refused |
| BatchOutput.NormalizeBatchError | src/driver.rs:385-410 | the value is the error, or else the body, of the first record of the job that has either, however many records come before it; without one it quotes the file |
| BatchOutput.BatchOutcome | src/driver.rs:238-316 | a completed batch's outcome is what the job's first output record says, or the diagnosis of its error file; another end gives the outcome of its name with the diagnosis or the status as its value; other statuses give none; a file that cannot be fetched gives its error; and any other error means that the end makes nothing of the job |
| BatchOutput.CompletedIsGenuine | src/driver.rs:349-375 | a completed or incomplete outcome is the body of the job's first record, without error and with a 2xx status |
| Identity.FramingIsInjective | src/request.rs:462-467 | labelled length-prefixed components are hashed from the same bytes only if they are the same list |
| Identity.FingerprintIdentifies | src/request.rs:35-49 | credentials share a fingerprint if and only if they agree in every component |
| Identity.JoinedIsAmbiguous | src/request.rs:366-387 | thread and turn can be told apart if and only if neither hides a NUL after something not blank |
| Identity.SessionsCanCollide | src/request.rs:382-386 | two different sessions with the same text |
| Identity.SessionIdentifies | src/request.rs:262-272 | sessions from different sources, or different ones from one source, never read the same when they hold no NUL |
| Identity.HashesIdentify | src/request.rs:277-297 | a request hash stands for one provider, session, key and body; an idempotency hash for one provider, session and key; equal request hashes have equal idempotency hashes |
| JobStores.EnteredKeeps | src/job_store.rs:31-66 | entering a request keeps every constraint of both tables |
| JobStores.OwnerIsFound | src/job_store.rs:47-63 | the owner lookup never misses, and finds another job exactly when the key is taken |
| JobStores.WorkersDrive | src/db.rs:226-346 | a worker's update of a row leaves identities, owners and requests alone |
| JobStores.KeyIsBoundForever | src/job_store.rs:31-66 | over any sequence of enqueues and updates a key stays bound to its first job; a different request under it conflicts |
| JobStores.JobStore.EnterJob | src/job_store.rs:37-47 | a request gets the job it already has or a new queued one |
| JobStores.JobStore.Enqueue | src/job_store.rs:31-66 | it conflicts if and only if the key is taken, except that a new identifier already in use fails a request without a job first, exactly then; a failure changes neither table |
| JobStores.JobStore.CheckIdempotency | src/job_store.rs:91-106 | fails if and only if the key is taken, which is when enqueue would conflict |
| JobStores.JobStore.OwnedRequest | src/job_store.rs:78-89 | a request is readable if and only if owner and provider match |
| SseUsage.SseUsageTracker.Push | src/proxy.rs:580-590 | bytes are tracked one by one within the bounds on line and data |
| SseUsage.SseUsageTracker.Finish | src/proxy.rs:591-597 | the unterminated last line and event count |
| SseUsage.SseUsageTracker.ProcessLine | src/proxy.rs:599-619 | a line ends an event, adds a value, or outgrows the event |
| SseUsage.SseUsageTracker.ProcessEvent | src/proxy.rs:621-633 | an event's usage replaces the last one if it reports any |
| SseUsage.ChunksDoNotMatter | src/proxy.rs:580-590 | how a stream is cut into chunks makes no difference |
| SseUsage.UsageIsOfLastEvent | src/proxy.rs:569-634 | the usage at the end is that of the last event that reports one, read off the whole stream, for every stream |
| SseUsage.LineEndsDoNotMatter | src/proxy.rs:599-604 | a stream with lines ended by carriage return and line feed, all or some, has the usage of the one with line feeds only |
| SseUsage.TwoLinesReadBack | src/proxy.rs:606-619 | two data lines, with a space after the colon or without, are one event whose data have a line feed in between |
| SseUsage.WithinLimit | src/proxy.rs:577-578 | within the limit nothing is cut and an event's data are its joined values without leading line feeds |
| SseUsage.UsageReadsBack | src/request.rs:181-197 | usage is read back as written, from a response event as from a bare response |
| SseUsage.EventReadsBack | src/sse.rs:224-229 | an event the proxy writes reads back as one event with exactly its data |
| SseStream.ReadMeans | src/proxy.rs:666-727 | a stream the strict client accepts is numbered without gaps and has a terminal event exactly at its end, if at all |
| SseStream.CompletionEvents | src/sse.rs:28-146 | reading the completion events rebuilds every output item, and under each place the string in that part's text member or nothing; the last event is the response but for its id; there are no events exactly when the response has no output list |
| SseStream.ItemEvents | src/sse.rs:47-134 | one item's events bracket it and its text parts |
| SseStream.PartEvents | src/sse.rs:65-122 | one part's events bracket its text |
| SseStream.TerminalErrorKeeps | src/sse.rs:173-211 | a failed or incomplete response is announced as such with all its fields; anything else as a failure that quotes it |
| SseStream.BatchStream | src/proxy.rs:666-727 | for any interleaving of heartbeats and state changes the client accepts every event, the terminal one is last, and a completed job's output is replayed in full |
| Proxy.ScheduledDirect | src/proxy.rs:343-477 | at most max_retries + 1 sends, each under its own permit that ends once and rightly, by dropping it when the caller goes away; only what can be sent again is; only the last reply is passed on; and each verdict has its reason, batch exactly where it is allowed and recommended |
| Proxy.Relay | src/proxy.rs:514-541 | a streamed reply settles its permit once, with the usage of the stream's last reporting event |

## Left out

- Sequential lock sections: `acquire` is modelled as its sections (screen, enqueue, poll, receive, expire) in any
  order the scheduler's state allows, without the timers that bring them about.
- Wall-clock accuracy and provider liveness; nothing is claimed about leaving `SubmissionUncertain`.
- Driver.JobDriver.Run: the source loops without bound; the model takes the number of rounds as a parameter and claims
  the same for every number.
- Driver.JobDriver.Reconcile: the source stays in a search that never ends; the model gives the search a number of
  requests and leaves the job as it is when they do not suffice.
- Proxy.ScheduledDirect: permits are given by a parameter; that two of them differ is Safety.PermitsAreConserved. What
  becomes of a caller that leaves while it waits in `acquire` is Waiters.LeaveKeeps; here it ends the loop.
- A reply that is not streamed (the other branch of `scheduled_upstream_response`): its permit is completed once, with
  the usage of its JSON body or with none.
- JobStores.JobStore.Enqueue: the source reads the job again after the commit, so that the state it returns may be a
  later one; the model returns the one at the commit.
- Session retention: pruned sessions change later scores; the score takes sessions as they are and nothing is claimed
  about the benefit of caching.
- The complexity classifier is an uninterpreted function.
- JSON text, URL canonicalisation, UUID generation, SHA-256 and the bytes of server-sent events on the way out are
  abstract.
- SseUsage: a field line `data` without a colon adds an empty value in the standard and is ignored by the code, and by
  the model; bare carriage returns end no line in either the code or the model.
- The upload of a batch line and the body it carries; the driver only learns the file's identifier.
- `get_or_create` in src/db.rs, which does what `JobStores.JobStore.InsertJob` does without a transaction, and
  `list_owned`.
- Request screening in src/request.rs (`batch_supported`, `model_alias`, token estimates) and header copying: branches
  over JSON without state.
- Cost routing, configuration, command line, process lifecycle and HTTP endpoints.
