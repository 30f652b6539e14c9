# Verified model of the task engine

Aktionfy keeps scheduled LLM tasks as rows of one PostgreSQL table. Workers claim due rows, dispatch them, retry them
and complete them; up to ten connections of a user race to execute each dispatched message; a reaper and a shutdown
routine free abandoned rows; routers, users, webhooks and completed parents move rows as well. This project models
that engine in Dafny, together with the transformations that feed it, and proves what holds in every run.

Times are integers on one clock: nanoseconds in the engine, milliseconds in the rate limiter. A string is the sequence
of its bytes. Counters that Go computes are 32 bits wide and wrap; a counter that PostgreSQL increments makes the
statement fail where it would pass 32 bits. Durations are 64-bit nanoseconds and wrap.

| file | contents |
|---|---|
| Rows.dfy | the task row, and the single-row effect of every UPDATE |
| Database.dfy | the table as an object that statements change in place |
| Retry.dfy | retry, backoff and dead letters of a failing task |
| RetryRuns.dfy | the retry budget in runs of the machine |
| Lifecycle.dfy | the protocol as a state machine of 22 kinds of steps, any number of workers and connections |
| LifecycleSafety.dfy | what holds in every run of the machine |
| LifecycleLimits.dfy | runs that show why the premises of those theorems are needed |
| Overlap.dfy | exactly when a write from outside breaks them, and when an execution is sampled again |
| ClaimRace.dfy, ClaimSkew.dfy | concurrent claims and other transactions, with row locks, SKIP LOCKED and snapshots |
| Scheduler.dfy | the procedures, statement by statement, proved to be steps of the machine |
| Reaper.dfy | repeated reaping of one claimed row |
| Routing.dfy | routers and manual routing |
| Voting.dfy | the consensus of a swarm of agents |
| Cascade.dfy | what one completion sets off |
| Transfer.dfy, Blueprint.dfy | export, import, deployment of blueprints |
| Versions.dfy | edits, links, restores and the version history |
| RateLimit.dfy | the token bucket and the expiry of its key |
| Prompt.dfy | placeholders in prompts |
| Uuids.dfy | the text form of identifiers |

How the parts fit: `Lifecycle.Apply` is a total function of a state and a step, and a run is any sequence of enabled
steps. Tallies in the state (claims, publications, samplings, approvals, completions, triggers) never influence a step.
`Scheduler` contains the imperative procedures; their contracts equate the table they leave with the one the machine's
step leaves, so what is proved of runs of the machine is proved of these procedures run one after another.

Where the code does not do what it seems meant to do, the model follows the code, and a lemma shows the consequence:

- a connection that acts on a message after the execution lock has expired samples a second time
  (`LifecycleLimits.LateAttemptSamplesTwice`; `Overlap.SamplesAgainIff` says exactly when);
- a router asks the LLM before any lock is taken, so every connection that gets its message asks again at once, and one
  message can activate two dependents (`LifecycleLimits.OneMessageTwoBranches`; `Overlap.AttemptBreaksBoundIff` says
  exactly when the bound by messages breaks);
- completion and failure writes do not check the lock, so a reap during an execution lets a second one overlap and
  one approval pay for both (`LifecycleLimits.ReapBreaksExclusionAndGate`; `Overlap.HitsOpenOverlap` and
  `Overlap.HitsReopenGate` say exactly which outside writes do that);
- the claim reads the parent's status from its snapshot, so concurrent claims need not be serialisable
  (`ClaimSkew.NoSequentialOrder`; `ClaimRace.ParentConditionHolds` says exactly when the parent condition is fresh);
- a claim skips a row that any transaction has locked, even one that ends without writing it, such as a restore of an
  unknown version, whose snapshot locks the task's row through the foreign key (`ClaimSkew.LockedRowLeftBehind`);
- the reaper compares the due time with the clock, so a late claim is reaped at once (`Reaper.LateClaimReapedAtOnce`);
- a selected dependent that was paused before its turn is started all the same (`LifecycleSafety.StaleTriggerMovesTask`);
- a router ends completed with nothing activated when the dependent it chose was deleted while the LLM was asked
  (`LifecycleLimits.RouterCompletesForNothing`; `Routing.MatchActivatedIff` says exactly when);
- a denied call credits the time since the last admission again, so the textbook bound can fail
  (`RateLimit.TextbookBoundFails`; `RateLimit.TextbookBoundHoldsIff` says exactly when it holds);
- two council members of one name overwrite each other's vote, so exactly the councils with distinct names decide alike
  in every order of answers (`Voting.DecidesAlikeIffDistinctNames`);
- long backoffs overflow 64-bit nanoseconds (`Retry.TotalBackoffExact`);
- manual routing compares the id in the path as text, so only its canonical spelling is accepted
  (`Routing.OtherSpellingsRefused`);
- `mustParseUUID` reports a malformed id to the client but returns no error, so a malformed parent id clears the
  dependency (`Versions.LinkClearsOrSets`);
- links, updates and restores can close a cycle, whose cascades never end: exactly those that give a task a triggering
  parent below itself (`Versions.EditClosesCycleIff`, `Cascade.BoundedIffOnNoCycle`);
- an import that fails keeps the rows it had created and the links it had made (`Transfer.RefusedImportKeepsRows`,
  `Transfer.FailedLinkKeepsRows`);
- a value that contains a placeholder makes the order of the passes matter (`Prompt.OrderMattersWithBraces`;
  `Prompt.OrderMattersIff` says exactly which values do);
- `UpdateTaskStatus` without a user id matches no row, and the status `needs_routing` is refused by the CHECK
  constraint: both writes are modelled as the no-ops they are.

The documentation in the schema file and migration 007 disagree about `retry_count` on completion; the model follows
`schema.sql`, which resets it. `ClaimTaskByID` also writes a column that no schema file declares; it is not modelled.

## Model

| member | source | states |
|---|---|---|
| LifecycleSafety.SamplingsNeverExceedClaims | cmd/server/session.go:316-321 | in every run a task's published messages never exceed its claims; its requests to the LLM never exceed its messages, unless a connection acted on one after the lock's five minutes or while the task was a router |
| LifecycleSafety.CompletionsNeverExceedClaims | cmd/server/scheduler.go:1164-1180 | in every run a task's completions and executions under way never exceed its claims, unless a connection acted late on one of its messages |
| LifecycleSafety.OneExecutionAtATime | cmd/server/scheduler.go:213-253 | a task nobody wrote from outside during an execution never has two under way, and is processing while it has one |
| LifecycleSafety.ApprovalPaysForExecution | cmd/server/scheduler.go:281-310 | for such a task that requires approval, completions plus executions past the gate never exceed approvals |
| LifecycleSafety.WritesAtRestKeepTheGate | cmd/server/api_handlers.go:424-502 | in every run in which outside writes (approvals and denials among them) reach the task only while it is not processing, no connection is late with its messages, it is never a router, and its gate and type are not edited: at most one execution at a time, and completions plus executions past the gate never exceed approvals |
| LifecycleSafety.StatusAndLockAgree | db/queries.sql:84-125 | in every reachable state processing implies locked, locked implies processing or active, halted implies needs_routing |
| LifecycleSafety.TasksAtRestStay | db/queries.sql:55-125 | claims, reaps, shutdown reverts and triggers of active rows move no paused, completed, failed or halted task |
| LifecycleSafety.TriggersNeverExceedCompletions | cmd/server/scheduler.go:1164-1221 | for any graph, cycles included, a child is triggered at most once per completion of its parent |
| LifecycleSafety.StaleTriggerMovesTask | cmd/server/scheduler.go:1205-1218 | a selected child is moved by its trigger iff it is no longer active |
| LifecycleLimits.LateAttemptSamplesTwice | cmd/server/session.go:316-321 | a reachable state with one claim, one message and two samplings, after the lock expired |
| LifecycleLimits.ReapBreaksExclusionAndGate | db/queries.sql:122-125 | a reachable state with one approval and two executions past the gate, after a reap with the default threshold of a late claim |
| LifecycleLimits.RouterCompletesForNothing | cmd/server/scheduler.go:1066-1103 | a reachable state in which a router is completed, its chosen dependent having been deleted before the choice |
| LifecycleLimits.OneMessageTwoBranches | cmd/server/session.go:254-277 | a reachable state with one claim and one message of a decision router, nobody late, eight requests, and two different dependents made due |
| Overlap.OverlapIff | cmd/server/webhook_inbound_handlers.go:14-30 | in any state, next to an execution under way a second one can be started iff the row is active or paused if the task has a webhook, active and due if not |
| Overlap.HitRowsAreClaimable | db/queries.sql:84-125 | every reap, revert, pause, resume, approval, denial, trigger or route to a row leaves it active or paused, and its executions under way |
| Overlap.HitsOpenOverlap | db/queries.sql:122-125 | in every reachable state of an undisturbed task such a write makes an overlap possible iff an execution is under way and the row can then be claimed, which with a webhook it always can |
| Overlap.ReclaimBreaksCoverIff | cmd/server/scheduler.go:281-310 | while approvals cover a claimable task, its next claim breaks the approval bound iff the row is approved and no approval is to spare |
| Overlap.HitsReopenGate | cmd/server/scheduler.go:281-310 | such a write, other than an approval or denial, past the gate lets the next claim run on the same approval, and breaks the bound iff none is to spare |
| Overlap.SamplesAgainIff | cmd/server/session.go:316-321 | in every reachable state an attempt on a sampled execution samples again iff it comes at or after the expiry of its lock, which is never within five minutes of the dispatch |
| Overlap.AttemptAsks | cmd/server/session.go:250-321 | what one attempt asks: a router all it has to, whatever clock and lock; any other task once, if nobody holds the execution's lock |
| Overlap.AttemptBreaksBoundIff | cmd/server/session.go:250-321 | while requests are within messages, an attempt breaks that iff it asks more than the messages left |
| Overlap.DecisionRouterExceeds | cmd/server/scheduler.go:944-1003 | a decision router's attempt exceeds its messages iff fewer than four are left, and can be repeated at once |
| Overlap.LateSamplingBreaksBoundIff | cmd/server/session.go:316-321 | such an attempt breaks the bound of samplings by messages iff it is that late and all messages were sampled |
| ClaimRace.ClaimsRunInCommitOrder | schema.sql:121-153 | any interleaving of claims and other transactions has the effect of the log in commit order; each claim takes distinct rows, at most a batch, eligible in its snapshot and still eligible at its turn with the parent as the snapshot shows it; what it leaves behind was locked by another transaction, changed, or comes no earlier than a full batch |
| ClaimRace.UntakenRowWasLocked | schema.sql:137 | an eligible row neither taken, nor changed, nor left to a full batch was locked by another transaction in a state of the run between the claim's snapshot and its commit |
| ClaimRace.NoRowClaimedTwice | schema.sql:137 | no row goes to two claims unless another statement wrote it in between |
| ClaimRace.ParentConditionHolds | schema.sql:130-134 | the parent condition holds at the claim's turn iff nothing touched the parent since the snapshot, or the last to do so was a write that left it active or completed |
| ClaimRace.ClaimIsAtomicIff | schema.sql:121-153 | a whole claim is an atomic claim at its turn iff the parent of each row it takes was left so by whoever touched it last since the snapshot |
| ClaimSkew.NoSequentialOrder | schema.sql:130-137 | two claims over two chains commit, and after either a row of the other is not eligible |
| ClaimSkew.LockedRowLeftBehind | schema.sql:137 | a transaction that locks a due row and ends without writing it makes a claim end with an empty batch |
| Retry.EveryRetryReschedules | cmd/server/scheduler.go:465-483 | each of the first M failures leaves the task active, unlocked, with no dead letter, due after its backoff |
| Retry.Reschedules | cmd/server/scheduler.go:454-484 | from retry_count 0 the k-th failure leaves retry_count k, so M minus retry_count falls by one each time |
| Retry.RetryBudget | cmd/server/scheduler.go:663-720 | M failures later the next one puts the task in error with exactly one dead letter, M = max_retries or 3 |
| Retry.CompletionRestoresBudget | schema.sql:164-171 | a completion at any point gives back the whole budget |
| RetryRuns.FailureUsesCurrentRow | cmd/server/scheduler.go:443-484 | in every reachable state of an undisturbed task a failed dispatch, working on the row its token carries, has the effect of the retry model on the row as it is |
| RetryRuns.BudgetInRuns | cmd/server/scheduler.go:663-720 | in every run from retry_count 0 without a completion, retry_count is the number n of failed dispatches of an undisturbed task and exactly n - M of them, if any, are dead letters |
| Retry.UncountableBudgets | cmd/server/scheduler.go:443-448 | a negative budget is exhausted at once; the largest 32-bit budget never is |
| Retry.BackoffExact | cmd/server/scheduler.go:466-470 | one delay is never longer than meant, and is as meant iff it fits into 64-bit nanoseconds |
| Retry.TotalBackoffExact | cmd/server/scheduler.go:692-697 | M delays add up to M(M+1) minutes, or 2^(M+1)-2 when exponential, iff M <= 76861433, or 27 |
| Scheduler.SelectDue | schema.sql:126-138 | the batch is the earliest claimable rows in due order: at most n, distinct, and nothing earlier left behind |
| Scheduler.ClaimDueTasks | schema.sql:116-156 | claims exactly that batch in the table and gives one notice per claimed row |
| Scheduler.BatchIsARun | schema.sql:120-152 | a batch claim is a run of the machine's single claims: same table, same notices |
| Scheduler.HandleTaskClaimNotification | cmd/server/scheduler.go:237-250 | dispatches the row iff it still is processing for this worker and user |
| Scheduler.HandleDispatchTask | cmd/server/scheduler.go:255-767 | gate, missed, native, delivery, retry and dead letter have the effect of the machine's dispatch step on rows, dead letters, completion and publication |
| Scheduler.RecordFailure | cmd/server/scheduler.go:443-484 | the two-statement retry, or error and one dead letter, is the failed row of the retry model |
| Scheduler.FinishSampling | cmd/server/session.go:396-584 | failure counting, loop, date, pause and completion after a sampling have the effect of the machine's step |
| Scheduler.TriggerDependents | cmd/server/scheduler.go:1205-1220 | exactly the triggerable dependents whose branch condition the output meets are made due |
| Scheduler.TriggeredRows | cmd/server/scheduler.go:1211-1215 | whatever the order, each chosen row becomes active, free and due, and no other row changes |
| Scheduler.RouteChoice | cmd/server/scheduler.go:1538-1573 | the match loop has the effect of the routing function, and reports whether it found a match |
| Scheduler.ApiManualRoute | cmd/server/task_rest_handlers.go:533-613 | the handler's checks, their order and its two writes |
| Scheduler.UserCommand | cmd/server/api_handlers.go:424-502 | approve, deny, pause and resume edit the named row of the user as the machine's steps do, and nothing otherwise; the client is told of a missing task except when pausing or resuming over REST |
| Scheduler.ReapStuckTasks | db/queries.sql:122-125 | frees exactly the stuck rows and counts them |
| Scheduler.RevertProcessingTasks | cmd/server/main.go:567-573 | frees exactly the rows the worker holds, whatever their status |
| Reaper.ReapFreesTheStuck | cmd/server/scheduler.go:1282-1289 | a reap leaves no processing row due before now minus the threshold, and changes nothing else |
| Reaper.AbandonedUntilThreshold | cmd/server/scheduler.go:1282-1289 | an abandoned row is unchanged iff all reaps came by its due time plus the threshold, and active and free after any later one |
| Reaper.ClaimKeepsLock | db/queries.sql:122-125 | a row claimed d after it was due keeps its lock through all reaps of the next threshold - d |
| Reaper.LateClaimReapedAtOnce | db/queries.sql:122-125 | a reap at the moment of the claim frees the row iff it was due more than the threshold ago |
| Routing.RouterActivatesFirstMatch | cmd/server/scheduler.go:1066-1103 | on any table, exactly the first dependent with a matching key is activated if it still exists, no other row changes, router completed; without a match only the router changes and is halted |
| Routing.MatchActivatedIff | cmd/server/scheduler.go:1078-1086 | the matched dependent is activated iff its row still exists and is not the router's own; a deleted one leaves only the router changed |
| Routing.RouterCompletesIffMatched | cmd/server/scheduler.go:1538-1573 | the router ends completed iff some key matches a nonempty choice, otherwise halted |
| Routing.ManualRoutingAccepted | cmd/server/task_rest_handlers.go:563-598 | accepted iff the source waits for routing, the target is its dependent of the same user, and the path id is canonical |
| Routing.OtherSpellingsRefused | cmd/server/task_rest_handlers.go:576-578 | the same request with another spelling of the id is refused, with the canonical one accepted |
| Routing.HaltedCanBeRouted | cmd/server/task_rest_handlers.go:563-598 | in every reachable state a halted task can be routed by hand to any dependent of its user; only these two rows change |
| Voting.Tally | cmd/server/scheduler.go:1467-1475 | in any iteration order the counts are the numbers of votes and the leader has the most |
| Voting.VotesAreVoters | cmd/server/scheduler.go:1469-1475 | every order of walking the record counts each choice's voters |
| Voting.CountTop | cmd/server/scheduler.go:1488-1493 | the tie count is the number of choices with the most votes |
| Voting.Resolve | cmd/server/scheduler.go:1466-1497 | in any iteration order the outcome is the unique plurality choice, or empty without one |
| Voting.ConsensusIsUnique | cmd/server/scheduler.go:1466-1497 | there is one such outcome for each record of votes |
| Voting.Record | cmd/server/scheduler.go:1394-1459 | only nonempty choices are recorded, the last one under each name |
| Voting.RecordIgnoresOrder | cmd/server/scheduler.go:1441-1447 | the record is the same for all orders of completion iff answers under one name agree |
| Voting.DistinctNamesDecideAlike | cmd/server/scheduler.go:1394-1497 | with distinct names all orders of completion and of iteration give one outcome |
| Voting.SharedNameDecidesByOrder | cmd/server/scheduler.go:1441-1447 | two differing votes under one name: the last decides |
| Voting.DecidesAlikeIffDistinctNames | cmd/server/scheduler.go:1394-1497 | for every council: whatever is answered, all orders of completion and iteration give one outcome, iff the names are distinct |
| Cascade.CascadeStops | cmd/server/scheduler.go:1164-1221 | from a task on no cycle, whatever is triggered in whatever order, each task of its subtree is queued at most once, no other is, and the cascade ends |
| Cascade.AheadShrinks | cmd/server/scheduler.go:1205-1220 | every completion takes a task out of the remaining subtrees for good |
| Cascade.BoundedIffOnNoCycle | cmd/server/scheduler.go:1164-1221 | cascades from a task are bounded iff it is on no cycle of triggering dependencies |
| Cascade.NoneCompletesMoreOften | cmd/server/scheduler.go:1164-1221 | in every run of the machine in which the tasks below a root are claimed only on a trigger no earlier claim has used, and nobody is late, none of them completes or is under way more often than the root completes |
| Cascade.EdgeClosesCycleIff | db/queries.sql:79-82 | a new edge of a task closes a cycle iff the new parent was that task or below it |
| Cascade.DefinitionKeepsAcyclicIff | db/queries.sql:79-82 | replacing a definition keeps an acyclic graph acyclic iff the parent it gives is neither the task nor below it |
| Cascade.StepsKeepGraph | db/queries.sql:84-125 | no step but creating, deleting and editing tasks changes who may trigger whom |
| Cascade.SelectionsFollowGraph | db/queries.sql:152-158 | the dependents selected for a completed task are a possible choice of the cascade |
| Transfer.ExportUserTasks | cmd/server/task_transfer.go:34-63 | one bundle entry for each row of the user, field by field |
| Transfer.ImportUserTasks | cmd/server/task_transfer.go:65-152 | both loops, their error returns and the table they leave are those of the import function |
| Transfer.ImportSucceedsIff | cmd/server/task_transfer.go:73-149 | an import succeeds iff every entry is accepted and every named parent is in the bundle |
| Transfer.RefusedImportKeepsRows | cmd/server/task_transfer.go:73-125 | the first refused entry ends the import; exactly the rows before it stay, unlinked |
| Transfer.FailedLinkKeepsRows | cmd/server/task_transfer.go:127-149 | with distinct legacy ids, the first missing parent ends the import; all rows stay, exactly those before it linked |
| Transfer.ExportThenImport | cmd/server/task_transfer.go:34-152 | a dependency-closed export imports into any table as an isomorphic graph under the returned map, carried fields preserved, other rows untouched |
| Transfer.ExportAcceptedIffClosed | cmd/server/task_transfer.go:127-138 | an export is accepted iff every parent was exported too |
| Transfer.ReexportIsRenaming | cmd/server/task_transfer.go:34-63 | exporting what was imported gives the first bundle up to the renaming of ids |
| Blueprint.DeployBlueprint | cmd/server/template_handlers.go:94-166 | deploys all tasks with parents by the last earlier id, or nothing at all |
| Blueprint.ParentsComeFirst | cmd/server/template_handlers.go:105-112 | whatever the ids, a deployed task's parent was created before it |
| Blueprint.DeployedIsAcyclic | cmd/server/template_handlers.go:99-154 | no blueprint deploys a cycle of dependencies, triggering or not, so no deployed task triggers itself for ever |
| Blueprint.SameGraphIffTopological | cmd/server/template_handlers.go:99-154 | with distinct ids the deployed graph is the blueprint's iff the blueprint is in topological order |
| Versions.HistoryIsATrace | db/queries.sql:360-372 | over any operations the history is append-only and its n-th new entry is the fourteen columns just before the n-th recording operation |
| Versions.RecordedVersion | cmd/server/task_rest_handlers.go:260-298 | which operations record: committed updates and restores of an own task; the others change nothing |
| Versions.RecordingIsComplete | cmd/server/task_rest_handlers.go:260-298 | a position is listed as recording iff its operation added a version |
| Versions.RestoreGoesBack | cmd/server/task_rest_handlers.go:338-399 | whatever happened since, restoring a snapshot brings back the definition from just before its operation |
| Versions.RestoreUndone | cmd/server/task_rest_handlers.go:364-385 | restoring the automatic snapshot undoes a restore |
| Versions.EditsKeepExecution | db/queries.sql:201-212 | no sequence of updates, links and restores changes status, lock, next run, counters or approval of any row |
| Versions.DefinitionStaysUntilEdited | db/queries.sql:84-125 | a definition is what the last accepted operation on its task made it, whatever the scheduler and other edits did since |
| Versions.LinkClearsOrSets | cmd/server/task_rest_handlers.go:423-436 | a link sets an existing parent, keeps the old one when the new is missing, and clears it for malformed text |
| Versions.EditClosesCycleIff | cmd/server/task_rest_handlers.go:235-453 | an accepted link, update or restore puts its task on a cycle iff the triggering parent it gives is that task or below it, and exactly then makes an acyclic graph cyclic |
| Versions.LinkClosesCycleIff | cmd/server/task_rest_handlers.go:406-453 | for a link, in terms of the request: it triggers, and the named parent is the user's own and below the task |
| Versions.LinksCanCloseACycle | db/queries.sql:79-82 | two links put two tasks on a cycle |
| Versions.VersionedTable.ApiUpdateTask | cmd/server/task_rest_handlers.go:235-309 | snapshot and edit commit together or not at all |
| Versions.VersionedTable.ApiRestoreTaskVersion | cmd/server/task_rest_handlers.go:338-399 | the snapshot stays without a matching version, and goes when the version's parent is gone |
| Versions.VersionedTable.ApiLinkTask | cmd/server/task_rest_handlers.go:406-453 | two columns of one own row, or nothing |
| RateLimit.ExpiryIsInvisible | cmd/server/ratelimit.go:25-47 | under a monotone clock the expiring key answers every history as one that never expires, tokens within 0 and capacity |
| RateLimit.TokensConserved | cmd/server/ratelimit.go:34-47 | admissions + stored + spilled tokens = capacity + rate * credited time, over any history |
| RateLimit.CreditedTimes | cmd/server/ratelimit.go:34-47 | the credited time is that from the first call to the last admission, plus for every denied call the time since the admission before it |
| RateLimit.TextbookBoundHoldsIff | cmd/server/ratelimit.go:38-46 | admissions of a history are within capacity + rate * T iff the refill of the time credited beyond T is still stored or was spilled |
| RateLimit.StretchBound | cmd/server/ratelimit.go:34-47 | any stretch of calls, with denials: its admissions + stored tokens <= capacity + rate * the time credited within it |
| RateLimit.BurstBound | cmd/server/ratelimit.go:34-42 | n consecutive admissions over time T, anywhere in a history: n <= capacity + rate * T |
| RateLimit.DenialsAccumulate | cmd/server/ratelimit.go:43-46 | after denials at t1..tk since an admission at t0 that left x, x + rate * sum(ti - t0) is stored |
| RateLimit.DenialsNeverHurt | cmd/server/ratelimit.go:43-46 | between admissions the script never denies what the textbook bucket admits; their levels are equal iff the bucket is full or all denials came at t0 |
| RateLimit.TextbookBoundFails | cmd/server/ratelimit.go:43-46 | a history of the server's own constants without the condition: eleven admissions in 150 ms exceed 10 + 5 * 0.15 |
| RateLimit.Limiter.Allow | cmd/server/ratelimit.go:18-47 | each call answers as the history demands and keeps the tokens within bounds |
| Prompt.PassIsSubstitution | cmd/server/prompt_resolver.go:13-16 | one pass over a rendered prompt replaces exactly the placeholders of its kind that have a value |
| Prompt.AnyOrderIsSimultaneous | cmd/server/prompt_resolver.go:18-127 | without braces in literals and values the passes in any order are one simultaneous substitution |
| Prompt.UnknownPlaceholdersSurvive | cmd/server/prompt_resolver.go:23-127 | after all passes in any order a placeholder anywhere in a prompt stands there verbatim iff no kind has a value for it; a secret's never does |
| Prompt.OrderMattersIff | cmd/server/prompt_resolver.go:23-127 | for any two kinds, a known value makes the order of their passes matter iff the other pass would change it |
| Prompt.OrderMattersWithBraces | cmd/server/prompt_resolver.go:23-90 | a secret that reads like a placeholder is expanded in one order and not in the other |
| Prompt.FetchSecret | cmd/server/prompt_resolver.go:36-68 | the callback's text, cache and count |
| Prompt.ResolveSecrets | cmd/server/prompt_resolver.go:23-69 | on any prompt: the secrets pass, and the count of distinct decryptable names mentioned |
| Prompt.CountSecrets | cmd/server/prompt_resolver.go:23-69 | the count is the number of distinct decryptable names among the placeholders, however often each occurs |
| Prompt.MentionedAreSecretNames | cmd/server/prompt_resolver.go:24-36 | the scanner finds exactly the names of the secret placeholders |
| Prompt.ResolvePrompt | cmd/server/prompt_resolver.go:18-144 | the four passes in turn, then a nonempty parent output in front |
| Uuids.ParseFormat | cmd/server/globals.go:67-93 | parsing a formatted id gives it back |
| Uuids.FormatInjective | cmd/server/globals.go:67-79 | different ids have different texts |
| Uuids.CanonicalTexts | cmd/server/globals.go:67-93 | a text is canonical (RFC 9562, section 4, lower case) iff it is accepted and formats back to itself |
| Uuids.Normalised | cmd/server/globals.go:67-93 | format after parse is canonical, parses to the same id, and is idempotent |
| Uuids.SameUuid | cmd/server/globals.go:81-93 | two accepted texts parse equal iff they agree without dashes and case |
| Uuids.FormatUuid | cmd/server/globals.go:67-79 | filling the 36 characters piece by piece gives that text |
| Uuids.ParseUuid | cmd/server/globals.go:81-93 | writes the sixteen bytes iff the text is accepted, and reports a bad length or the first bad character |

## Left out

- LifecycleSafety.OneExecutionAtATime: excludes tasks written from outside during an execution (reap, revert, pause, resume, approve, deny, manual route, router or parent trigger, or an edit of approval gate or type), because for those it is false; `Overlap.HitsOpenOverlap` says exactly when, and `LifecycleSafety.WritesAtRestKeepTheGate` what callers have to keep to.
- LifecycleSafety.ApprovalPaysForExecution: same exclusion, for the same reason (`Overlap.HitsReopenGate`).
- Cascade.NoneCompletesMoreOften: counts completions instead of exhibiting a cascade for each run of the machine.
- Overlap.OverlapIff: whether a task has a webhook is a premise; creating and deleting webhook tokens is not modelled.
- Transfer.FailedLinkKeepsRows: leaves out bundles that use one legacy id twice, whose links go to the last row of that id.
- RetryRuns.BudgetInRuns: leaves out disturbed tasks, whose tokens may carry counters older than the row.
- Scheduler.RecordFailure: does not model the panic of Go's shift by a negative retry counter (which only a wrapped 32-bit counter can reach); it shifts by 0 there.
- Scheduler.HandleDispatchTask: a dispatch is one step, though its statements are separate; the two UPDATEs of a retry in particular are not interleaved with others.
- Cascade.CascadeStops: loop conditions and scheduled runs of the same tasks are not part of a cascade.
- RateLimit.Limiter.Allow: exact reals instead of Lua's doubles, and the limiter's clock is also the one that expires the key.
- Blueprint.DeployBlueprint: variables in prompts are substituted beforehand (in map order, which the source leaves open), and one clock reading serves all rows.
- Versions.RestoreGoesBack: deleting tasks, which deletes their versions, is not among the operations.
- Failures of the database, Redis and the network, timeouts and panics in the middle of a procedure; lost notifications are steps of the machine.
- The connection counter and the limit of ten connections a user: the machine allows any number of connections.
- The answers of LLM calls, native code, cron parsing, loop-condition evaluation and decryption: arbitrary inputs.
- The merge of state updates into the workflow state, and the second placeholder syntax resolved at dispatch.
- The supervisor mode of the swarm router: its choice is an arbitrary input of the match loop.
- JSON decoding: parsed values are the start, with malformed branch conditions as one explicit case.
- Task logs, traces, audit logs, events, failure emails, metrics and workspaces.
- HTTP, authentication, quotas, billing, outbound webhooks, redaction, analytics and the user interface.
