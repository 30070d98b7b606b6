# ultracore in Dafny

A model of the parts of the ultracore agent runtime whose correctness rests on
small database transactions racing under an at-least-once queue, and proofs of
what those parts promise. `dafny verify dfyconfig.toml` checks everything.

| files | what they model |
|---|---|
| RunTables, RunMachine | the tables of the durable step loop, one function per transaction, and the loop as a machine: workers and deadline sweepers that may hold any live job (also the same one twice), crash between any two transactions, and interleave with API and admin handlers |
| RunEvolution, RunOrphans, RunTally, RunWaits, RunHistory, RunDeadlines | the invariants of that machine, one concern per file |
| RunEffects, RunLifecycle, RunOutcomes | what each step does, exactly, said from the state before it: rows, log, queue, waits, outcomes, sweeps |
| RunTheorems, RunReports, RunOverwrites | what holds of every run, what a wait's outcome says of its members, and exactly when a history loses something |
| RunWakeUps, RunStranding, RunExamples | exactly when a wake-up is lost and when a claimed wait is stranded, and concrete runs for what the code does not promise |
| RunStore | the same transactions in the program's own form, statement by statement with loops and rollbacks, each proved equal to its transaction function |
| FanIn | one fan-in wait at statement level: uncommitted writes, row locks, Read Committed reads (PostgreSQL manual, sections 13.2.1 and 13.3.2) |
| Policy, SpawnTree, SpawnAnswers | run policies as sets over all strings, concurrent spawning at statement level, and what a spawn tells its step |
| Resources | the resource lifecycle: reads, provider answers and commits of Provision, Restart, Reconcile and Terminate workers interleaving |
| EventLog, Delivery, Paging, Decimals | the session log, its subscribers and its paged reads |
| Sql, Like, Keyset, Query, QueryCompile, AdminList, AdminPages | the admin query compiler, its keyset cursors, and a client that follows them |
| RateLimiter | the admin engine's token bucket |

Runs are finite action sequences from an empty database; an action whose guard
fails changes nothing, so a statement about `Exec(c, acts)` for all `acts` is a
statement about every reachable state.

## Where the code and its comments differ

The model follows the code.

- loop/waittimeout.go:71-73 says a failed resolution is finished by the next
  sweep. Sweeps select open rows only (postgres/multiplayer.go:187) and a claimed
  row is not open any more, so at the granularity of transactions a sweeper that
  fails or dies strands what it has in hand: `RunStranding.StrandedExactlyWhen`,
  `RunExamples.Stranding`. Inside transactions only a member that had listed the
  wait before the claim can still save it: `FanIn.ClaimedResumableExactlyWhen`.
- loop/waits.go:263-265 says every terminal path re-evaluates the waits a run is a
  member of. The API and admin cancellations of an awaiting run do not; at the
  granularity of transactions that is the only way a wake-up is lost:
  `RunWakeUps.WakeUpLostExactlyWhen`. The other way lies inside transactions and
  is two items below.
- loop/waits.go:71-72 says a wait never exists without something scheduled to time
  it out. A sweep that finds the row locked, say by a finishing child, skips it
  and may be the last one: `RunDeadlines.DeadlineLostExactlyWhen`,
  `RunExamples.SkippedDeadline`.
- loop/waits.go:40-42 says creating and evaluating a wait in one transaction closes
  the race with finishing children. It does for children that lock their run row
  first; the cancellation after an aborted stream does not lock it:
  `FanIn.SafeExactlyWhenStrong`.
- postgres/multiplayer.go:122-125 says a second open wait of one parent surfaces as
  "already exists". The insert ignores every conflict, so it is reported as not
  found; both abort the transaction.
- loop/spawn.go:263-266 says a redelivered step adopts the child of its earlier
  delivery. The children are counted before the key is looked up again, so a
  delivery whose child appeared after its first lookup is denied if the quota is
  full by then: `SpawnAnswers.AnswerDiffersExactlyWhen`,
  `SpawnAnswers.RedeliveryDenied`.
- admin/query/compile.go:158 says that sorting nulls last keeps keyset comparisons
  predictable. A cursor drops every row that is null in the first sort column in
  which it differs from the cursor: `Keyset.NullLost`. A null is put into a cursor
  as an empty string. For a timestamp that is refused, so a page ending on a null
  `archived_at` or `finalized_at` (admin/query/descriptors.go:126 and 359) has no
  successor: `AdminPages.CursorTakenExactlyWhen`. For a string it is accepted, so
  after a page ending on a null `spawn_key` or `idempotency_key` (lines 175 and
  382) in ascending order the rows with a key come again, and the other null rows
  are lost:
  `AdminPages.NullEndRestarts`. Following cursors still ends, and
  `AdminPages.ListAll` says exactly when it yields the whole listing.
- http/agent_handler.go:208-209 says pending runs are cancelled at once. Only
  awaiting ones are; a pending run is cancelled by its worker.

## Model

| member | source | states |
|---|---|---|
| `RunTheorems.NoOrphanedRun` | loop/step.go:260-305 | in every reachable state a run's committed steps are 0..n-1; a pending or running run has a live job for step n; an awaiting or completed one has live jobs below n only |
| `RunTheorems.TerminalSafety` | loop/step.go:351-444 | over any run, cancelled stays cancelled and failed ends as failed or cancelled |
| `RunTheorems.OpenWaitsAreHeld` | loop/waits.go:287-312 | no terminal run holds an open wait and no run holds two |
| `RunTheorems.ClosedOnce` | postgres/multiplayer.go:214-222 | a wait that has left open keeps its closed state for the rest of any run |
| `RunTheorems.ResumedOnce` | loop/waits.go:177-238 | over any run each wait injects at most one tool result and one job, always both, and in the same order |
| `RunTheorems.ResumedParentWasLive` | loop/waits.go:187-195 | a step that injects a wait's outcome does so into a parent not terminal before that step |
| `RunTheorems.NoLostWakeUp` | loop/waits.go:263-278 | every open wait has a member that is not terminal or that a handler cancelled past its worker |
| `RunTheorems.ResolvedRowIsComplete` | loop/waits.go:115-175 | a row closed as resolved reports every member once, in order, in a terminal state, with no pending and counters that add up |
| `RunLifecycle.CancelledExactlyWhen` | loop/step.go:273-275 | a step makes a run cancelled if and only if a claim of an active run or a commit of a running one meets the cancel flag, an aborted stream of a flagged run ends, or a handler cancels or expires an awaiting run |
| `RunLifecycle.FailedExactlyWhen` | loop/step.go:422-444 | a step makes a run failed if and only if a worker executing one of its jobs fails it before it is terminal, and the row's failure is the reason given |
| `RunLifecycle.CompletedExactlyWhen` | loop/step.go:538-557 | a step makes a run completed if and only if it commits a finishing step of it, and the row's result is that step's text, also the second time |
| `RunLifecycle.AwaitingExactlyWhen` | loop/step.go:508-531 | a step makes a run awaiting if and only if it commits a question, or a wait of which some member has not ended |
| `RunLifecycle.RunningExactlyWhen` | http/agent_handler.go:134-180 | a step makes a run running if and only if a worker begins it, a user answers it while it is awaiting or completed, or an outcome is delivered to it; none makes it pending again |
| `RunLifecycle.CreatedExactlyWhen` | http/agent_handler.go:88-111 | a run comes into being exactly by a start or a spawn under a new id, pending and with its prompt only |
| `RunLifecycle.RowExactly` | loop/step.go:422-444 | the committed steps, result, failure and cancel flag of a run after any step |
| `RunLifecycle.HistoryExactly` | loop/step.go:448-485 | the history of a run after any step: the committing worker's copy and its turn, or the answer, then what is delivered, and nothing else |
| `RunLifecycle.ToldExactly` | loop/step.go:486-557 | an event other than an outcome is appended if and only if its occasion is this step |
| `RunLifecycle.ToldOnce` | loop/step.go:486-557 | and at most once by it |
| `RunLifecycle.EnqueuedExactly` | loop/step.go:532-537 | what a step enqueues beside the jobs of outcomes: at most one job, of a new run, of the next step or of an answer, exactly on those occasions |
| `RunLifecycle.ClaimedExactlyWhen` | loop/step.go:260-305 | a worker that takes a job executes it if and only if the run is active, unflagged and without that step, on the row's history of that moment |
| `RunLifecycle.LiveExactly` | loop/step.go:251-257 | a job is live from its enqueueing until a worker that is through with it acknowledges it |
| `RunEffects.StepEffect` | loop/waits.go:197-238 | beyond its direct effect on one run a step only delivers outcomes: each appended to its parent's history and log, the parent running, and one job enqueued for its next step |
| `RunOutcomes.OutcomeExactly` | loop/waits.go:115-211 | every outcome a step delivers is an error exactly if it timed out under the policy that fails the call, timed out exactly if a member is pending, and names, counts and quotes the ended members as their rows are |
| `RunOutcomes.DeliveredExactlyWhen` | loop/waits.go:101-195 | a step delivers a wait's outcome if and only if its last member ends, its sweeper comes to it unresumed with the parent alive, or it is made over members that have all ended |
| `RunOutcomes.WaitExactly` | postgres/multiplayer.go:184-222 | a wait's state and slot after any step: timed out, abandoned, resolved or left alone, each exactly on its occasion; members, deadline and policy never change |
| `RunOutcomes.OpenedExactlyWhen` | loop/waits.go:47-60 | a wait comes into being exactly by a parking commit, with the members, policy and timeout asked for |
| `RunOutcomes.ClaimsExactly` | postgres/multiplayer.go:184-195 | a sweep claims open unlocked waits past their deadline, a batch at most, and leaves one only for a full batch of earlier ones |
| `RunOutcomes.ScheduledExactly` | loop/waittimeout.go:83-97 | sweeps are scheduled 250 ms after a new wait's deadline and a retry from now after a failure or a full batch, and by no other step |
| `RunReports.ResultIsTheMembers` | loop/waits.go:115-139 | what a step writes as a wait's result says of each reported member the state, result and failure its row has after that step, at the member's own place |
| `RunReports.InjectedIsTheResult` | loop/waits.go:197-219 | every outcome a step injects is the result on its wait's row and reports the members as their rows are |
| `RunReports.FailedLeftExactlyWhen` | loop/step.go:351-361 | a step takes a failed run out of failed if and only if a worker executing one of its jobs cancels it on the cancel flag; it is then cancelled |
| `RunTheorems.TimedOutRowAddsUp` | loop/waits.go:139-173 | a timed-out row has a result exactly if it was resumed, and its counters plus pending are its member count |
| `RunTheorems.DeadlineArmed` | loop/waittimeout.go:59-97 | every open wait no sweep ever skipped has a live sweep scheduled at or after its deadline, through truncated batches, failures, crashes and other waits' sweeps |
| `RunDeadlines.DeadlineLostExactlyWhen` | loop/waittimeout.go:59-97 | a step leaves an open wait without a sweep at or after its deadline if and only if it acknowledges the last such sweep, and then the wait had been skipped while locked |
| `RunDeadlines.OpenWaitsAreCovered` | loop/waits.go:71-76 | in runs without such a step every open wait has a sweep, skipped or not |
| `RunTheorems.HistoryIsReplay` | loop/step.go:448-485 | the history of a run never answered past an unresumed wait is the replay of its log: each step, answer and outcome once, in order |
| `RunTheorems.CommitOverwrites` | loop/step.go:453-477 | what a row has gained since a committing worker's copy is wait outcomes only, and the commit keeps the row's history as a prefix if and only if it has gained nothing |
| `RunOverwrites.HistoryLostExactlyWhen` | loop/step.go:448-485 | over every step of the machine, a run's history is not extended if and only if a commit of that run goes through whose worker's copy differs from the row |
| `RunOverwrites.HistoryOnlyExtends` | loop/step.go:448-485 | from any point on, in runs without such a step, a run's history only grows at its end |
| `RunStranding.StrandedExactlyWhen` | loop/waittimeout.go:65-78 | a step strands a claimed wait if and only if the sweeper that has it in hand fails or dies before its turn |
| `RunStranding.ResumedExactlyWhen` | loop/waittimeout.go:65-69 | at the granularity of transactions a step resumes a timed-out wait if and only if the sweeper that has it in hand comes to it |
| `RunStranding.ClaimedIsHandled` | loop/waittimeout.go:59-88 | in runs without an interruption every timed-out wait is resumed or in some sweeper's hands |
| `RunStranding.StrandedForever` | loop/waittimeout.go:65-82 | at the granularity of transactions a wait claimed for its deadline whose sweeper is gone is never resumed by any later step |
| `RunWakeUps.WakeUpLostExactlyWhen` | http/agent_handler.go:202-228 | a step leaves an open wait without a live member if and only if it is a handler cancelling or expiring the last one |
| `RunWakeUps.OpenWaitsAreAwaited` | loop/waits.go:47-78 | in runs without such a call every open wait has a member that is not terminal, also when children finished before the wait existed |
| `RunExamples.LostWakeUp` | http/agent_handler.go:211-228 | a reachable state with an open wait all of whose members are terminal |
| `RunExamples.Stranding` | loop/waittimeout.go:59-88 | a reachable state with a stranded wait and its parent still awaiting |
| `RunExamples.SkippedDeadline` | postgres/multiplayer.go:184-195 | a reachable state in which a sweep has passed over a wait locked by a finishing member, and whose next steps leave the wait open, overdue and without a live sweep |
| `RunExamples.LostOutcome` | http/agent_handler.go:134-180 | a reachable state whose log has an injected outcome that the parent's history has lost |
| `RunExamples.FailedThenCancelled` | loop/step.go:351-361 | a reachable step from failed to cancelled |
| `RunTally.TallyWell` | loop/waits.go:115-139 | the outcome over the first k members names each terminal one once, in order, with its state; the counters agree with it and with the pending ones add up to k |
| `RunStore.Store.FirstFreeStep` | loop/waits.go:221-230 | the loop yields one past the largest committed step index |
| `RunStore.Store.ReadMembers` | loop/waits.go:115-139 | the member loop yields the outcome of the tally whose counts and order RunTally proves right |
| `RunStore.Store.Close` | postgres/multiplayer.go:216-222 | closes exactly an open row and says whether it did |
| `RunStore.Store.MarkResumed` | postgres/multiplayer.go:241-247 | reports the first caller only, the slot is consumed either way |
| `RunStore.Store.InsertStep` | postgres/run.go:213-227 | inserts exactly a step index not committed yet |
| `RunStore.Store.Resume` | loop/waits.go:179-238 | resumes the parent exactly if the slot was free and the parent not terminal, and changes history, state, log and queue as the transaction function says |
| `RunStore.Store.TryCloseWait` | loop/waits.go:101-175 | closes as the transaction function says and reports the resumption it performed |
| `RunStore.Store.ResolveChildWaits` | loop/waits.go:266-278 | attempts every open wait of the child once, in some order |
| `RunStore.Store.AbandonParentWaits` | loop/waits.go:290-312 | every open wait of the parent ends abandoned with its slot consumed, no other row changes |
| `RunStore.Store.SettleTerminalRun` | loop/step.go:401-410 | abandons and resolves for a listing of exactly the waits to settle |
| `RunStore.Store.MarkCancelled` | loop/step.go:375-395 | is the cancelling transaction for some listing |
| `RunStore.Store.FailRun` | loop/step.go:422-444 | is the failing transaction, doing nothing to a missing or terminal run |
| `RunStore.Store.Claim` | loop/step.go:260-305 | is the claiming transaction: a copy of the history exactly when the job is claimed |
| `RunStore.Store.CreateWait` | postgres/multiplayer.go:112-144 | inserts, finds the identical row, or changes nothing and fails |
| `RunStore.Store.EvaluateWait` | loop/waits.go:62-78 | resumes on the spot or arms the deadline and parks |
| `RunStore.Store.ParkRun` | loop/waits.go:47-78 | is the parking transaction |
| `RunStore.Store.Classify` | loop/step.go:508-564 | is the classification of a recorded step |
| `RunStore.Store.CommitOutcome` | loop/step.go:448-570 | is the commit transaction; a stale or failed commit leaves every table as it was |
| `RunStore.Store.StartRun` | http/agent_handler.go:88-111 | run row, event and first job together, or nothing |
| `RunStore.Store.AnswerRun` | http/agent_handler.go:134-180 | is the answering transaction, or nothing when the run is neither awaiting nor completed |
| `RunStore.Store.CancelRun` | http/agent_handler.go:196-230 | is the cancel request, settling an awaiting run's own waits at once |
| `RunStore.Store.ExpireAwait` | admin/command/engine.go:644-667 | is the operator's expiry of an awaiting run |
| `RunStore.Store.ClaimDue` | postgres/multiplayer.go:184-195 | claims a batch of due, unlocked rows, earliest deadlines first |
| `RunStore.Store.Sweep` | loop/waittimeout.go:59-97 | resolves the claimed waits in order up to the first failure and schedules another sweep exactly if it failed or the batch was full |
| `FanIn.CommittedWaitCloses` | loop/waits.go:94-175 | a wait committed before its members finish is not open once all of them have committed, under every interleaving of statements |
| `FanIn.StrongMembersClose` | loop/waits.go:34-78 | the same with the wait's creation in the race, if every member locks its run row first |
| `FanIn.WeakMemberLoses` | loop/step.go:353-361 | one member that does not lock its row suffices for a run that loses the wake-up |
| `FanIn.SafeExactlyWhenStrong` | loop/step.go:375-395 | the fan-in is safe from its creation on if and only if every member locks its row first |
| `FanIn.ResumedAtMostOnce` | loop/waits.go:94-100 | under every interleaving of statements the members, the sweep's claim and resolution, the wait's creation and the parent's end resume the parent at most once between them |
| `FanIn.ResumedByTheLast` | loop/waits.go:139-144 | nobody but a sweep resumes the parent before every member has committed its end, under every interleaving of statements |
| `FanIn.ClaimedResumableExactlyWhen` | loop/waits.go:153-174 | a claimed wait can be resumed without its sweeper if and only if some member had listed it while it was open and has yet to lock it |
| `FanIn.LateMember` | loop/waits.go:166-174 | a reachable claimed wait that a member alone still resumes |
| `Policy.StringSet` | policy.go:36-42 | the set has exactly the listed strings |
| `Policy.EffectiveAllow` | policy.go:73-93 | without "*" the set is exactly the tools the policy allows |
| `Policy.ToolsSubset` | policy.go:112-142 | true if and only if every tool of all strings the child allows the parent allows |
| `Policy.KindsSubset` | policy.go:150-168 | true if and only if every kind of all strings the child allows the parent allows |
| `Policy.IsSubset` | policy.go:102-148 | decides the order on meanings in both directions |
| `Policy.StarEscapes` | policy.go:113-115 | "*" allows some tool that any policy without it does not |
| `Policy.ChildPolicy` | loop/spawn.go:45-63 | a granted child policy is within the parent's, and an inheriting parent's is passed on verbatim |
| `Policy.ResolvePolicy` | loop/spawn.go:45-63 | the parent's own policy if it makes children inherit or nothing is asked for; a requested policy if and only if it is within the parent's; for a tool list exactly the listed tools the parent does not deny, everything else the parent's, if and only if the parent allows them |
| `Policy.GrantedExactly` | loop/spawn.go:45-63 | the same of the policy the concurrent model gives a child |
| `SpawnTree.KeyDetermines` | loop/spawn.go:29-34 | for parents without a colon the spawn key determines parent, step and tool call |
| `SpawnTree.KeyCollides` | loop/spawn.go:32-34 | with a colon in a parent id, which UUIDs do not have, two different calls would share a key |
| `SpawnTree.Runs.SpawnChild` | loop/spawn.go:267-344 | undisturbed, it creates, adopts, denies or conflicts, each exactly under its stated condition; a new child has the call's parent, step and id and the granted policy, an adopted one the call's key |
| `SpawnAnswers.AnswerDiffersExactlyWhen` | loop/spawn.go:301-344 | under every interleaving, the answer a spawn gets differs from the one an indivisible spawn would get at that moment if and only if it is denied at the count while a child with its key exists |
| `SpawnAnswers.RedeliveryAdoptsExactlyWhen` | loop/spawn.go:263-287 | a spawn whose child exists when it is answered adopts that child, except exactly at the count, where it is denied for a full quota |
| `SpawnAnswers.InsertMeetsNoKey` | loop/spawn.go:313-323 | under the parent's lock a key found free stays free until the insert, for ids without a colon |
| `SpawnAnswers.EndsAnswered` | loop/spawn.go:338-344 | a spawn ends exactly at the steps that answer it, unless it is dropped |
| `SpawnAnswers.RedeliveryDenied` | loop/spawn.go:306-321 | a reachable second delivery of a call that is told there is no room while its child exists |
| `SpawnTree.CommitIsSpawn` | loop/spawn.go:301-336 | a spawn interleaved statement by statement does at its commit what an indivisible one would do there |
| `SpawnTree.OneChildPerCall` | loop/spawn.go:279-321 | at most one child per parent, step and tool call under redelivery and concurrency |
| `SpawnTree.AdoptsItsOwn` | loop/spawn.go:282-287 | a child found by key belongs to that very call, for parents without a colon |
| `SpawnTree.ChildrenBounded` | loop/spawn.go:306-312 | no run ever has more children than its policy's bound |
| `SpawnTree.DescendantsWithin` | policy.go:102-111 | no descendant is allowed anything its root is not |
| `SpawnTree.LevelBounded` | policy.go:16-18 | at most M^d runs d generations below a root with bound M |
| `Resources.EntersExactly` | resourcework/resourcework.go:412-679 | for each state exactly which steps enter it, from the worker's phase, the provider's answer and the state before |
| `Resources.EnqueuesExactly` | resourcework/resourcework.go:194-314 | the jobs each step enqueues, and that a job is live until its worker is done with it |
| `Resources.SetsOutExactly` | resourcework/resourcework.go:598-645 | what a worker sets out to do, from its job and the state it reads |
| `Resources.GoesOnExactly` | resourcework/resourcework.go:412-474 | where a worker goes on after each step |
| `Resources.NeverUnobserved` | resourcework/resourcework.go:412-679 | after every orderly run a resource neither terminated nor failed has a live job that acts on its state |
| `Resources.ObservationLostExactlyWhen` | resourcework/resourcework.go:412-679 | in any run, duplicate deliveries and operator suspensions included, a step leaves the resource unobserved if and only if it acknowledges or drops the last acting holder of its only observing job, or enters a state nobody else acts on with an acknowledged job, or suspends it with every live job taken past acting on that |
| `Resources.ObservedUnlessLost` | resourcework/resourcework.go:412-679 | in runs without such a step the resource is observed throughout |
| `Resources.EntryLoses` | resourcework/resourcework.go:452-473 | of the states a worker enters without enqueueing a job, exactly which are left without an observer, phase by phase |
| `Resources.RevivedExactlyWhen` | resourcework/resourcework.go:411-425 | a terminated resource comes back if and only if a provisioning worker that read it earlier goes on, and is called anything else if and only if that or a worker that read it earlier learns that the provider failed |
| `Resources.TerminatedStays` | resourcework/resourcework.go:411-425 | in runs without such a step terminated is final |
| `Resources.RevivedRun` | resourcework/resourcework.go:412-425 | a reachable terminated resource that the next step makes provisioning |
| `Resources.SuspendLoses` | admin/command/engine.go:759-765 | an operator's suspension keeps a ready resource observed if and only if some live job is untaken or in a phase that acts on suspended resources |
| `Resources.SuspendedUnobserved` | admin/command/engine.go:759-765 | a reachable suspended resource with no live job |
| `Resources.DuplicateUnobserved` | resourcework/resourcework.go:412-425 | with one job at two workers, a reachable provisioning resource with no live job |
| `Resources.Service.Request` | resourcework/resourcework.go:194-211 | a new resource carries its provisioning job and a watchdog |
| `Resources.Service.RequestTerminate` | resourcework/resourcework.go:216-235 | marks terminating and enqueues, unless terminated |
| `Resources.Service.RequestRestart` | resourcework/resourcework.go:292-314 | marks provisioning and enqueues, unless final or terminating |
| `Resources.Service.Provision` | resourcework/resourcework.go:412-474 | is the worker's phases run without interruption: ready with a watchdog, failed, or left alone when ready or final |
| `Resources.Service.Restart` | resourcework/resourcework.go:317-375 | is the worker's phases run without interruption: ready with a watchdog, failed, or left alone when final |
| `Resources.Service.Terminate` | resourcework/resourcework.go:567-595 | is the worker's phases run without interruption: terminated |
| `Resources.Service.RecoverProvisioning` | resourcework/resourcework.go:648-679 | waits, gives up, or drives provisioning again with a new watchdog; the state and jobs after each answer |
| `Resources.Service.ReconcileSuspended` | resourcework/resourcework.go:506-544 | stays suspended, fails, or is ready again, with a new watchdog unless it failed |
| `Resources.Service.Reconcile` | resourcework/resourcework.go:598-645 | is the worker's phases run without interruption, one per state read |
| `EventLog.Gapless` | postgres/session.go:168-209 | committed sequence numbers are 1..last_seq in every reachable state, with aborts and several appends per transaction |
| `EventLog.LogOnlyExtends` | postgres/session.go:171-209 | the visible log at any time is a prefix of every later one |
| `EventLog.LogIsCommitted` | postgres/session.go:168-209 | the visible log is exactly what the committed transactions appended, transaction by transaction in the order of their commits |
| `EventLog.RangeIsExact` | postgres/session.go:211-235 | a range read returns an event if and only if its number is past the start and within the limit, in order |
| `EventLog.SessionLog.AppendEvent` | postgres/session.go:171-209 | appends one event and returns the new length as its number |
| `EventLog.SessionLog.Range` | postgres/session.go:211-235 | the scan loop returns that range |
| `Delivery.DeliveredInOrder` | sdk/events.go:83-136 | what a client hands out is a contiguous run starting after fromSeq, across lost streams, batches and reconnects, while the log grows |
| `Delivery.DeliveredAll` | postgres/eventbus.go:77-104 | and it is everything once a read finds nothing new and nothing is in flight |
| `Delivery.Drain` | postgres/eventbus.go:81-96 | sends everything visible after the given number, in order, and ends |
| `Delivery.Serve` | postgres/eventbus.go:69-106 | over any growing sequence of visible logs sends exactly the events after fromSeq |
| `Delivery.Subscription.Receive` | sdk/events.go:106-111 | skips keepalives and hands out the next event of the log, or nothing exactly if the stream has none |
| `Delivery.Subscription.Next` | sdk/events.go:85-136 | hands out exactly the event after the last one, whatever connections fail or break; nothing, keeping its place, exactly if neither the stream nor any connection it may use brings one |
| `Decimals.ReadInt64` | http/session_handler.go:321-331 | the digit loop yields the value wrapped to 64 bits, or an error at the first character that is no digit |
| `Decimals.DecimalRoundTrips` | http/session_handler.go:348-348 | decimal rendering is digits only, not empty, and reads back |
| `Decimals.ReadsBack` | http/session_handler.go:321-331 | a rendered non-negative 64-bit number survives the wrapping read |
| `Paging.WantedIsExact` | http/session_handler.go:341-346 | an event is in a range if and only if its number is past from and, if to is set, not past to |
| `Paging.FillPage` | http/session_handler.go:343-356 | keeps the events within to up to the limit, and a token exactly if one more lies within |
| `Paging.Get` | http/session_handler.go:314-358 | a page is the first events of what is left, with a token exactly if the range goes on, or an error for a malformed token |
| `Paging.TokenResumes` | http/session_handler.go:347-350 | the token leads on to exactly what the page left out |
| `Paging.GetEvents` | sdk/events.go:153-173 | the client's loop returns exactly the events of the range, in order, for every page size, and ends |
| `Like.EscapeIsOnePass` | admin/query/compile.go:438-443 | the three replacements equal a one-pass escape |
| `Like.PrefixIsExact` | admin/query/compile.go:346-348 | the prefix pattern matches exactly the texts starting with the value, up to case folding |
| `Like.ContainsIsExact` | admin/query/compile.go:343-345 | the contains pattern matches exactly the texts containing the value, up to case folding |
| `Keyset.BuildPart` | admin/query/compile.go:372-394 | one disjunct with a placeholder of its own per column |
| `Keyset.KeysetPredicate` | admin/query/compile.go:366-397 | the nested loops build the disjunction, or fail exactly if a cursor value cannot be coerced |
| `Keyset.KeysetMeans` | admin/query/compile.go:366-397 | on every row the OR-of-ANDs is true exactly if the row is strictly after the cursor, nulls last, and is not null where it first differs from it |
| `Keyset.CutIsAfter` | admin/query/compile.go:386-388 | the rows dropped for a null are after the cursor in the query's own order |
| `Keyset.NullLost` | admin/query/compile.go:386-388 | for any sort column and cursor a row that is after the cursor and that the predicate drops |
| `Keyset.KeptShrinks` | admin/query/compile.go:366-397 | a later cursor keeps no row that an earlier one has lost |
| `Keyset.FilledAdvances` | admin/query/compile.go:366-397 | the cursor made of a row a cursor kept comes strictly after that cursor, whatever its nulls read as |
| `Keyset.BeforeTotal` | admin/query/compile.go:152-161 | two different key lists are ordered one way or the other |
| `Keyset.BeforeTransitive` | admin/query/compile.go:152-161 | the order is transitive |
| `Keyset.TimelineMeans` | admin/store/store.go:962-964 | in three-valued logic the timeline's hand-written predicate keeps what the built one would |
| `Query.FieldsByName` | admin/query/compile.go:46-49 | the map finds the last field of each name |
| `Query.EffectiveSortsOf` | admin/query/compile.go:51-61 | the loop yields the effective sorts, which EffectiveSortsExactly describes |
| `Query.EffectiveSortsExactly` | admin/query/compile.go:51-61 | the effective sorts are the requested ones, or the default ones if none is requested, and then ascending ones on exactly the sortable primary-key fields not sorted by yet, each once, in field order |
| `Query.PkSorted` | admin/query/compile.go:399-407 | every sortable primary-key field takes part in the order |
| `Query.CheckValue` | admin/query/compile.go:239-265 | accepts exactly the well-formed filter values and calls the others bad values |
| `Query.Validate` | admin/query/compile.go:189-228 | accepts exactly the requests within the limits whose filters and sorts the descriptor allows; a refused one gets the error of the first limit, filter or sort that is wrong |
| `QueryCompile.AddMeans` | admin/query/compile.go:128-129 | appending a clause with its arguments adds its meaning and disturbs no earlier clause |
| `QueryCompile.CompileFilter` | admin/query/compile.go:320-362 | emits the filter's condition and arguments, or fails exactly if a value cannot be coerced |
| `QueryCompile.FilterMeans` | admin/query/compile.go:320-362 | in three-valued logic the condition is true exactly on the rows the filter holds for |
| `QueryCompile.CompileSearch` | admin/query/compile.go:98-113 | one pattern argument per searchable field |
| `QueryCompile.SearchMeans` | admin/query/compile.go:98-113 | the search clause is true exactly if some searchable field's text contains the query |
| `QueryCompile.FiltersMean` | admin/query/compile.go:121-130 | all filter clauses together mean all filters |
| `QueryCompile.CompileClauses` | admin/query/compile.go:95-140 | search, filters and cursor compile exactly under the stated conditions, or report the first of them that fails |
| `QueryCompile.Compile` | admin/query/compile.go:37-175 | accepts exactly the acceptable requests and refuses each other one with its first error: validation, missing order, cursor, search, filters, cursor values |
| `QueryCompile.CompiledMeans` | admin/query/compile.go:95-164 | under the final argument list the clauses are true of exactly the rows the request asks for, but for those after a cursor that are null where they first differ from it |
| `QueryCompile.LimitExactly` | admin/query/compile.go:41-44 | the limit asked for, 50 by default and 250 at most, and one row more in the query |
| `QueryCompile.CursorFitsExactlyWhen` | admin/query/compile.go:86-91 | a cursor given out for one request fits another if and only if collection, trimmed query, filters and effective sorts are the same |
| `AdminList.ListedInOrder` | admin/query/compile.go:151-161 | of two listed rows that agree in the first requested or default sorts and differ in the next, the one first in that sort's direction comes first, and rows without a value last |
| `AdminList.KeysTellApart` | admin/query/compile.go:55-61 | the primary-key tie-breakers make the order total on rows |
| `AdminList.ListingUnique` | admin/query/compile.go:151-161 | a set of rows has one sorted listing only |
| `AdminList.AnswerExists` | admin/query/compile.go:151-164 | every query in that order has an answer |
| `AdminList.ReadPage` | admin/store/store.go:87-122 | keeps the page, says whether there is more, and signs a cursor over the last kept row exactly if there is |
| `AdminList.List` | admin/store/store.go:66-124 | one page, exactly for acceptable requests |
| `AdminPages.CursorTakenExactlyWhen` | admin/query/compile.go:366-397 | a page's cursor is accepted back if and only if every sort value in it can be read again |
| `AdminPages.CursorFills` | admin/query/compile.go:445-452 | it then stands for the row's sort values with something in place of each null |
| `AdminPages.ListsRest` | admin/query/compile.go:132-140 | a continued query lists exactly the rows of the whole listing that its cursor keeps, in order |
| `AdminPages.RestListedExactlyWhen` | admin/query/compile.go:132-140 | a query continued after any row whose cursor is accepted lists exactly the later rows if and only if the values that cursor reads back as keep every later row and no earlier one |
| `AdminPages.NonNullIsSeamless` | admin/store/store.go:115-122 | which is so after every row if no sort value is null |
| `AdminPages.NullEndRestarts` | admin/query/compile.go:446-449 | after a page ending on a null in the first sort column an accepted cursor keeps earlier rows past what the null reads as, and loses every other row that is null there |
| `AdminPages.KeepsFewer` | admin/store/store.go:115-122 | the cursor of a row keeps a part of what the request that listed the row kept, and not the row |
| `AdminPages.NextPage` | admin/store/store.go:66-124 | a page of what its request keeps, with a cursor over its last row exactly if there is more, or a refusal exactly if the cursor is not accepted |
| `AdminPages.ListAll` | admin/store/store.go:115-122 | following cursors ends on every table, nulls included, and yields the whole sorted listing, without skip, repeat or refusal, if and only if every page ends on a row whose cursor is accepted and keeps every later row and no earlier one |
| `RateLimiter.LimitsOf` | admin/command/engine.go:76-81 | unset limits become 20 and 8, others are kept |
| `RateLimiter.Limiter.Acquire` | admin/command/engine.go:244-263 | refills by elapsed time, capped, then grants or refuses |
| `RateLimiter.Limiter.Release` | admin/command/engine.go:265-271 | gives one slot back, never below zero |
| `RateLimiter.AlwaysSound` | admin/command/engine.go:244-263 | with time not running backwards tokens stay within 0..R and in-flight within the bound |
| `RateLimiter.InflowIsProduct` | admin/command/engine.go:248-249 | the inflow over a span is the span times the rate |
| `RateLimiter.WindowBound` | admin/command/engine.go:244-263 | any stretch of a run within a window of length T grants at most R + R*T |
| `RateLimiter.GrantedExactlyWhen` | admin/command/engine.go:244-263 | from the grants and times before it: a command is granted if and only if a slot is free and one more grant stays within R + R*T in every stretch from the beginning or an earlier attempt to now, and refused for its rate if and only if it does not |
| `RateLimiter.InflightCounts` | admin/command/engine.go:155-158 | in-flight is grants minus releases if and only if at no point there were more releases than grants |

## Left out

- Model streaming, tool execution, MCP, provider adapters and their health polling: foreign calls, their answers are arbitrary inputs.
- History compaction (loop/step.go:148-154): an unguarded write outside any transaction.
- Events with no bearing on the properties (step started, deltas, costs), attempts, and the failure message beside the failure reason.
- Tenants: one tenant is modelled; every query is scoped to one.
- The queue's internals: jobs are live until acknowledged and may be delivered any number of times; attempt exhaustion is not modelled.
- Row locks and Read Committed inside the step loop's transactions: in RunMachine each transaction is atomic; FanIn and SpawnTree go to statements for the two places that race inside transactions, the wait row and the parent's row.
- Wait and child identifiers derived by hashing: taken as injective, so a wait is named by parent, step and tool call.
- The blank-prompt check and cohort handling of spawns, and the second key lookup inside the spawn transaction when nothing runs beside it.
- Token rotation, handles and endpoints of resources; only states and jobs decide observation.
- LISTEN/NOTIFY: a wake-up is any moment at which the server reads again.
- SQL text, and the text of queries: the compiler emits a tree of conditions. Collections with their own search expression are not modelled; no descriptor has one.
- Value syntax, coercion, trimming and cursor formatting: arbitrary functions, with coercion never yielding null and a sort value that is not null reading back as itself.
- Cursor signatures, expiry and the digest of a query's shape: a cursor verifies or not, and the digest is injective.
- RunStranding.ResumedExactlyWhen: is about whole transactions; a member inside its own is the subject of `FanIn.ClaimedResumableExactlyWhen`.
- RunStranding.StrandedForever: is about whole transactions, in the same way.
- Errors of the database itself, such as an empty string from a cursor compared with a UUID column.
- Resources.NeverUnobserved: is about runs that deliver no job twice at once and suspend nothing; `Resources.ObservationLostExactlyWhen` is about all runs.
- Floating point: tokens and times are reals.
- The tunnel connection pool, admin idempotency keys, preview hashes, roles, configuration, the command line and the web console.
