# A durable agent workbench, modelled in Dafny

The workbench runs agent tasks that propose, get approved, dispatch and reconcile actions on a remote authority, under
budgets, admission leases and circuit breakers. Its safety rests on a few transactional state machines kept in SQL rows.
This project models those machines and proves what they keep over runs of any length, with any number of workers, stale
reads, expired tokens, lost responses and crashes between two transactions.

How the model is built:

- A transaction is one atomic step. Each has a specification function on values (`ClaimTx`, `ReserveTx`, `AcquireTx`, ...)
  and, where the program updates rows in place, a class whose method is proved equal to that function.
- A run is a sequence of steps in any order. A step that the program would not take in that state changes nothing, so every
  theorem over runs holds for every interleaving. Workers that act on rows they read earlier are given any earlier state.
- What a specification function does is stated once more without it: the `...Exactly` lemmas give, in terms of the rows alone,
  when a transaction acts and what it leaves, and the results over runs are about rows and clocks, not about those functions.
- An invariant (`Sound`, `TenantSound`, `Protocol`, `Linked`) is proved for the start and for every step; the results that a
  user of the workbench would ask about are lemmas over runs.

The files, by component:

| file | component |
|---|---|
| `domain.dfy`, `basics.dfy` | vocabulary: statuses, tools, requests, events; optional values, finite sets |
| `history.dfy`, `audit.dfy` | readings of an event history; the recording checker against its reference definition |
| `ledger.dfy`, `task_store.dfy`, `ledger_runs.dfy`, `ledger_control.dfy`, `ledger_guards.dfy` | the action ledger: transactions, the rows they update, runs, what single operations promise over runs, and who may change what |
| `audit_export.dfy`, `tenant_audit.dfy`, `replay.dfy` | exported recordings are accepted and truthful; offline replay |
| `authority.dfy`, `authority_effects.dfy` | the remote authority, and what its effects do to a resource |
| `tenant.dfy`, `service.dfy`, `service_outcomes.dfy` | all tasks of a tenant with the authority, calls that span both, and what such a call comes to |
| `scheduling.dfy`, `scheduling_runs.dfy`, `scheduling_asks.dfy`, `fencing.dfy` | tenant admission: tickets, leases, fencing, who may lose a place in the queue, what asking again is worth; leases together with the ledger |
| `resilience.dfy`, `resilience_runs.dfy`, `resilience_feedback.dfy` | circuit breaker and bulkhead; how long Retry-After and a probe keep readers off |
| `budget.dfy`, `budget_runs.dfy`, `budget_charges.dfy` | the two budget ledgers, their balance over runs, and what each transaction charges |
| `inference.dfy`, `gateway.dfy`, `inference_charges.dfy` | paid model calls by many workers, one call as the gateway makes it, and who pays for an answer |
| `event_stream.dfy`, `event_stream_laws.dfy` | the incremental event-stream parser |
| `event_feed.dfy`, `timeline.dfy` | server pages and frames; the client cursor; both over breaking connections |
| `repair.dfy`, `repair_runs.dfy`, `repair_ticks.dfy` | the bounded repair loop, its runs, and what ticking it comes to |
| `investigation.dfy`, `investigation_links.dfy`, `investigation_worker.dfy`, `investigation_view.dfy` | the bounded investigation: its tables and their replay, the worker, the view that reports on it and runs of many workers |
| `retrieval.dfy`, `reconciler.dfy` | chunking of documents; the rotating reconciliation cursor |

## What the model found

- **A split line ending can lose an event that is accepted whole.** The parser counts a pending carriage return against its
  limit. If a piece of the stream ends between the two halves of a CRLF and the open event holds exactly the limit, the
  pending character makes one too many and the parser throws, although the same text in one piece is accepted.
  `LosingCut` gives the exact condition for a cut, `LosingCutExists` a text for every limit, and `ChunkingInvariance` shows
  that text within the limit is safe however it is cut.
- **The parser clears the event id after every blank line.** Sections 9.2.5 and 9.2.6 of the WHATWG HTML Living Standard
  keep the last id; the model follows the code.
- **First-come admission needs a clock that moves.** Tickets with equal stamps are ordered by a random id, so an eligible
  ticket can be overtaken. `EligibilityLostExactly` says when, `TieExample` shows it, and `StepKeepsEligible` proves the
  promise whenever admissions have strictly increasing stamps.
- **The harness writes a failure it did not observe.** When a dispatch was refused for lack of an approval and the approval it
  then reads is rejected or expired, it calls `_record` with FAILED in a transaction of its own. `FailingExactly` shows that
  this write is safe, whatever the authority did, if and only if the operation row is not in doubt at that moment;
  `FailingByApproval` that only an approval that was given, used and has expired since can be harmful; `FailingLosesAnEffect`
  what is lost then, and `LostEffectExample` is a run. It takes a worker that stalls from before another worker's claim until
  the approval expires, a day after the proposal: a deadline is at most 86400 seconds, so a refusal for lack of an approval
  always comes before that expiry. In the runs the check and the write are one step.
- **`_finish` may overwrite the status of an ended task** before it asks whether the task ended; it is harmless because an
  ended task never has an operation in doubt again (`TaskControl`).
- **With a round limit of zero the two stop logics disagree**: the worker stops at once, the view never says so
  (`NoRoundsDisagree`). For every other limit they agree (`ViewAgrees`). The program's limit is the constant 3, so no
  deployment has this one.
- **Half a recovery can be undone by a stale worker.** A worker that takes an interrupted verification up again writes twice.
  Between the two writes, or after a crash there, a worker that looked for the report before it was stored may interrupt the
  attempt once more. With recovery as one step a campaign of n attempts changes its rows at most 12 n + 1 times
  (`CampaignEndsAtOnce`); otherwise at most 18 n + 1 times plus twice the number of such late ticks (`CampaignEnds`), and
  without that term there is no bound (`LateTicksPump`).
- **A repair run that ended can still change its state**, but only to a changed input or withdrawn evidence, because those two
  updates are not guarded by the active state. It never becomes active again (`EndedStays`).

## Model

| member | source | states |
|---|---|---|
| Audit.CheckRecording | src/agent_py/audit.py:66-189 | the checker accepts a recording if and only if it meets the reference definition (limits, gapless sequence, release binding, accepted history, rows that agree with it, termination), and its report is what the history says |
| Audit.FoldEvents | src/agent_py/audit.py:107-141 | the event loop succeeds exactly on the histories in which every event is allowed by the events before it, and its variables then hold the proposals, dispatches, last statuses and last decisions of that history |
| Audit.CheckAgreement | src/agent_py/audit.py:142-163 | the cross checks succeed exactly when rows and history agree |
| Audit.CheckTermination | src/agent_py/audit.py:164-176 | the termination checks succeed exactly when status, result, events, operations and artifacts agree about the end |
| Audit.IndexDetectsRepeats | src/agent_py/audit.py:79-82 | comparing the size of the dictionary with the length of the list detects exactly a repeated identity |
| History.AcceptedOrdersDistinct | src/agent_py/audit.py:107-133 | an accepted history proposes and dispatches no operation twice, dispatches only what it proposed, and proposes only recorded operations |
| History.GuardedDispatchApproved | src/agent_py/audit.py:117-133 | before every dispatch of a protected operation the last decision about it is an approval |
| History.AcceptedMonotone | src/agent_py/audit.py:107-141 | knowing further operations does not invalidate a history |
| TaskStores.TaskStore.Emit | src/agent_py/db.py:396-418 | an event gets the next sequence number and is appended; nothing else changes |
| TaskStores.TaskStore.Stop | src/agent_py/service.py:179-213 | cancellation and takeover have exactly the effect of their transaction, including every refusal |
| TaskStores.TaskStore.Resume | src/agent_py/service.py:221-258 | resuming ends a takeover only at the expected version, and otherwise changes nothing |
| TaskStores.TaskStore.Propose | src/agent_py/service.py:266-320 | a proposal is bound to its step once, with the refusals in the source's order; `LedgerGuards.ProposeExactly` says exactly when it adds one |
| TaskStores.TaskStore.Decide | src/agent_py/service.py:334-376 | a decision is taken once, on the unchanged action, before it expires, and by somebody else where duties are separated |
| TaskStores.TaskStore.Claim | src/agent_py/service.py:392-443 | the compare-and-set before a dispatch, with the refusals in the source's order; `LedgerGuards.DispatchExactly` says exactly when it dispatches |
| TaskStores.TaskStore.Record | src/agent_py/service.py:463-504 | an unverifiable success counts as unknown, and a final outcome is never weakened |
| TaskStores.TaskStore.Escalate | src/agent_py/service.py:542-566 | an operation in doubt for longer than the limit is escalated once |
| TaskStores.TaskStore.Finish | src/agent_py/service.py:706-745 | finishing has exactly the verdict, waits and refusals of its transaction, read off all operations and artifacts |
| TaskStores.TaskStore.Block | src/agent_py/runtime.py:100-120 | a worker's error is reported once, never on a stopped or ended task, and never by a worker that lost its lease |
| LedgerRuns.CreatedSound | src/agent_py/service.py:91-165 | a new ledger keeps the invariant |
| LedgerRuns.ProposeSound | src/agent_py/service.py:266-320 | proposing keeps it: the new row is all its history says about it |
| LedgerRuns.DecideSound | src/agent_py/service.py:334-376 | deciding keeps it: the approval row is the last decision of the history |
| LedgerRuns.ClaimSound | src/agent_py/service.py:392-443 | claiming keeps it: a protected operation is dispatched only behind its approval, and never twice |
| LedgerRuns.RecordSound | src/agent_py/service.py:463-504 | recording keeps it: the status stays the last status of the history |
| LedgerRuns.FinishSound | src/agent_py/service.py:706-745 | finishing keeps it: exactly one termination event, with the stored result, and nothing left in doubt |
| LedgerRuns.StepSound | src/agent_py/service.py:179-566 | every transaction keeps the ledger's invariant |
| LedgerRuns.RunSound | src/agent_py/service.py:179-566 | so does every run |
| LedgerRuns.RunEvolves | src/agent_py/service.py:463-504 | over any run the history is only appended to, statuses only rise, decided approvals and artifacts stay |
| LedgerRuns.TaskControl | src/agent_py/service.py:179-258 | an ended task keeps its result and never has an operation in doubt again; cancellation is final and excludes takeover; takeover means waiting for a human; no operation is dispatched twice |
| LedgerControl.ClaimedOnce | src/agent_py/service.py:392-443 | once an operation is no longer unsubmitted, every later claim of it, after any run, changes nothing |
| LedgerControl.OneOperationPerStep | src/agent_py/service.py:266-320 | over any run a step key names at most one operation |
| LedgerControl.ProposedOnce | src/agent_py/service.py:266-320 | after any run, proposing under a used step key adds nothing; it is recognised only for the same action and a conflict only for another |
| LedgerControl.DutiesStaySeparated | src/agent_py/service.py:334-376 | over any run every decision has an author, who in production is never the principal of the task |
| LedgerControl.StaleResume | src/agent_py/service.py:221-258 | after a stop or a resume, and any run after it, a resume with the older version is refused and changes nothing |
| LedgerGuards.DispatchExactly | src/agent_py/service.py:378-443 | a claim dispatches if and only if the operation is unsubmitted, its worker is admitted, the task neither stopped nor ended, before its deadline, with its grant, served release and enabled tool and no emergency stop, and a protected one has an unexpired approval of this very action by somebody still granted; otherwise nothing changes |
| LedgerGuards.ProposeExactly | src/agent_py/service.py:266-320 | a proposal adds an operation if and only if the same task guards hold, its parameters, step key of at most 160 characters and resource are right, the step is unused and fewer than 100 operations exist; a protected one waits a day for its approval |
| LedgerGuards.RepeatExactly | src/agent_py/service.py:266-320 | a repeated proposal is recognised if and only if the step holds the same action, and is a conflict otherwise |
| LedgerGuards.DecideExactly | src/agent_py/service.py:334-376 | a decision is taken if and only if it is open, unexpired, on the unchanged action, on a task nobody stopped, and in production by somebody else than the principal |
| LedgerGuards.StopExactly | src/agent_py/service.py:179-213 | who may stop or take over a task, and the row and event it leaves |
| LedgerGuards.ResumeExactly | src/agent_py/service.py:221-258 | a takeover is given back if and only if the version is the current one, the task still has time and grant, and there is no emergency stop |
| LedgerGuards.RecordExactly | src/agent_py/service.py:463-504 | an outcome is recorded if and only if it tells more than the row does, an unconfirmed success counting as unknown, and what the row, the task and the history say then |
| LedgerGuards.EscalateExactly | src/agent_py/service.py:542-566 | an operation is escalated if and only if it has been in doubt for 900 seconds and was not escalated before |
| LedgerGuards.FinishExactly | src/agent_py/service.py:706-745 | a task ends if and only if nobody took it over, nothing is in doubt, nothing is left to do unless it was cancelled, and a success has its verification; it is cancelled exactly if it was cancelled, and failed exactly if it was not and some operation failed |
| LedgerGuards.BlockExactly | src/agent_py/runtime.py:100-120 | a worker's report is written if and only if its lease holds, the task is going on, and the reason is new |
| LedgerGuards.OnlyClaimDispatches | src/agent_py/service.py:378-443 | a step that raises the attempts of an operation is a claim of it, made while every guard of a dispatch held |
| LedgerGuards.OnlyProposeAdds | src/agent_py/service.py:266-320 | a step that adds an operation is a proposal that was allowed |
| LedgerGuards.OnlyDecideDecides | src/agent_py/service.py:334-376 | a step that changes an approval is a decision that was allowed |
| LedgerGuards.OnlyFinishEnds | src/agent_py/service.py:706-745 | a step that ends a task is a finish that was due |
| LedgerGuards.OnlyResumeGivesBack | src/agent_py/service.py:221-258 | a step that ends a takeover is a resume that was allowed or a cancellation |
| LedgerGuards.DispatchHasItsClaim | src/agent_py/service.py:378-443 | over any run, behind every dispatched operation stands a claim at whose time every guard of a dispatch held |
| LedgerGuards.OperationHasItsProposal | src/agent_py/service.py:266-320 | and behind every operation the proposal, allowed at its time, of the action it still has |
| LedgerGuards.ApprovalHasItsDecision | src/agent_py/service.py:334-376 | and behind every decided approval the decision, allowed at its time, on the unchanged action |
| LedgerGuards.ResultsTellTheTruth | src/agent_py/service.py:720-740 | over any run an ended task is cancelled exactly if it was, has nothing unsubmitted unless it was, is failed if an operation failed and only if one did fail |
| AuditExport.ExportAcceptable | src/agent_py/audit.py:192-274 | a sound ledger within the size limits exports an acceptable recording, in any row order |
| AuditExport.AuditComplete | src/agent_py/audit.py:78-176 | from creation, after any run of transactions with crashes anywhere, the exported recording meets everything the checker demands |
| AuditExport.ExportAudit | src/agent_py/audit.py:192-274 | exporting a sound ledger fails only for size, and what it returns is acceptable |
| TenantAudit.RecordingsTellTheTruth | src/agent_py/audit.py:192-274 | after any play of workers, faults and crashes every task exports an accepted recording in which a success has its receipt, a failure has none, and every receipt belongs to a dispatched operation with that request |
| TenantAudit.ResultsExact | src/agent_py/service.py:720-740 | after any play, a task that ended without being cancelled is failed if and only if one of its operations is failed |
| Replay.ReplayExecutor.Load | src/agent_py/replay.py:47-68 | a recording is opened if and only if the checker accepts it, and then the replay stands at its beginning |
| Replay.ReplayExecutor.Execute | src/agent_py/replay.py:70-93 | a call is accepted exactly if it is the next recorded dispatch with the recorded request, confirmed; it returns the recorded result, and any other call changes nothing |
| Replay.ReplayExecutor.AssertConsumed | src/agent_py/replay.py:95-101 | consumption is confirmed exactly when every recorded dispatch was accepted |
| Replay.AcceptedIsPrefix | src/agent_py/replay.py:70-93 | whatever calls are made, the accepted ones are a prefix of the dispatch order with the recorded requests |
| Replay.ReplayedOnce | src/agent_py/replay.py:70-93 | no operation is ever replayed twice |
| Replay.ConsumableIffConfirmed | src/agent_py/replay.py:70-101 | a recording can be consumed if and only if every dispatch it records was confirmed |
| Authority.SimulatedSystem.Inject | src/agent_py/adapters/simulation.py:43-50 | a fault is planted for one operation |
| Authority.SimulatedSystem.Query | src/agent_py/adapters/simulation.py:71-85 | a query shows the receipt unless a hiding fault is left, and uses that fault up |
| Authority.SimulatedSystem.Execute | src/agent_py/adapters/simulation.py:87-142 | receipt, effect and fault counter change as one transaction, with the answer the caller sees; `AuthorityEffects.ExecuteExactly` and `EffectShows` say which |
| Authority.ExecuteSound | src/agent_py/adapters/simulation.py:87-142 | a call adds at most one receipt; the effect count of every resource stays the number of its receipts, and no two receipts share a revision |
| Authority.ExecuteIdempotent | src/agent_py/adapters/simulation.py:91-98 | repeating a committed call, even after its response was lost, returns the same receipt and changes nothing |
| Authority.OneWinnerPerRevision | src/agent_py/adapters/simulation.py:104-122 | of the versioned calls that name one revision of a resource at most one ever took effect |
| AuthorityEffects.ExecuteExactly | src/agent_py/adapters/simulation.py:87-142 | a known identity is answered from its receipt, or refused if the request is another; a new one takes effect if and only if it is not rejected, names the current revision if it is versioned, and for a merge both current commits; its own resource moves by one revision and one effect, and no other changes |
| AuthorityEffects.QueryExactly | src/agent_py/adapters/simulation.py:71-85 | a query shows exactly the receipt unless a hiding fault is left, and changes nothing but that fault |
| AuthorityEffects.HiddenExactly | src/agent_py/adapters/simulation.py:43-85 | a hiding fault planted for n queries hides exactly the next n |
| AuthorityEffects.EffectShows | src/agent_py/adapters/simulation.py:115-123 | a call sets the part of the resource it is for, deployments, rollbacks and runbooks make it healthy, and everything else stays |
| AuthorityEffects.EffectsOverPlays | src/agent_py/adapters/simulation.py:52-142 | over any play of workers, deliveries, faults and crashes the state of a resource is what its receipts tell: the image of the newest deployment or rollback, the replicas of the newest runbook, the candidate of the newest pull request, or the initial ones; it is healthy if and only if one of the first three took effect, and every merge joined the candidate and base of its moment |
| Tenants.MoveSound | src/agent_py/service.py:392-524 | every transaction, delivery, redelivery, query and fault keeps ledger and authority in agreement, for all tasks of a tenant at once |
| Tenants.PlaySound | src/agent_py/service.py:392-524 | so does every sequence of them |
| Tenants.EffectsAccounted | src/agent_py/evaluation.py:100-102 | confirmed operations on a resource never exceed its effects, and its effects never exceed confirmed operations plus those in doubt |
| Tenants.QuiescentConservation | src/agent_py/evaluation.py:100-102 | once nothing is in doubt, the confirmed operations on a resource are exactly its effects |
| Tenants.ReceiptsPersist | src/agent_py/adapters/simulation.py:87-142 | a receipt is never removed or changed |
| Tenants.FailingSafe | src/agent_py/harness.py:117-137 | the harness's branch keeps ledger and authority in agreement if and only if, where the approval is dead and the operation in doubt, the authority rejected it |
| Tenants.FailingExactly | src/agent_py/harness.py:117-137 | in terms of the rows alone: with a dead approval the write is safe for whatever the authority did if and only if the operation is not in doubt |
| Tenants.FailingByApproval | src/agent_py/harness.py:130-137 | the write is safe unless the approval that is read was given and has expired since |
| Tenants.OnlyApprovedInDoubt | src/agent_py/service.py:392-443 | a protected operation whose approval is not an approval is never in doubt |
| Tenants.FailingLosesAnEffect | src/agent_py/harness.py:130-137 | with a dead approval and a request in flight that the authority accepts, an effect happens behind an operation recorded as failed |
| Tenants.LostEffectExample | src/agent_py/harness.py:117-137 | a run in which it does: a worker is refused for lack of an approval and stalls, the action is approved and claimed, and the worker finds the approval expired; there is an effect, nothing in doubt and nothing confirmed |
| Services.Service.Execute | src/agent_py/service.py:392-461 | only the successful claim calls the authority, once, and records exactly its answer |
| Services.Service.Reconcile | src/agent_py/service.py:506-524 | only an operation in doubt is queried; what is found is recorded as success, anything else as unknown |
| Services.ExecuteIsAPlay | src/agent_py/service.py:392-461 | an uninterrupted call is one of the interleavings the runs consist of |
| Services.ReconcileResolves | src/agent_py/service.py:506-524 | reconciliation settles every operation whose effect the authority shows, with its receipt |
| ServiceOutcomes.ExecuteComesTo | src/agent_py/service.py:392-461 | a claimed call that nobody interrupts ends as a success with the receipt of its effect, as a failure without an effect, or as unknown with the receipt waiting when the answer is lost, each exactly when the authority's checks and faults say so |
| ServiceOutcomes.LostIsFound | src/agent_py/service.py:506-524 | a lost answer is found: once no hiding fault is left, reconciling records the success with its receipt |
| Scheduling.Scheduler.Acquire | src/agent_py/scheduling.py:31-97 | admission purges, tickets or renews, counts and grants as one transaction; `SchedulingAsks.AnswerExactly` and `RowsExactly` say what comes of it |
| Scheduling.Scheduler.Release | src/agent_py/scheduling.py:100-108 | only the row with this token goes |
| Scheduling.Scheduler.CheckExecutionLease | src/agent_py/scheduling.py:111-128 | a token passes exactly if it owns the unexpired lease of the task |
| Scheduling.AheadIsPosition | src/agent_py/scheduling.py:83-90 | in any queue listing the number of tickets ahead of a ticket is its position |
| SchedulingRuns.ReachableSound | src/agent_py/scheduling.py:31-128 | over any run: one row per task, and no two rows share a row id or an owner's token |
| SchedulingRuns.GrantWithinLimit | src/agent_py/scheduling.py:69-97 | each grant leaves at most as many live owners as the limit in force |
| SchedulingRuns.OnlyGrantsAddOwners | src/agent_py/scheduling.py:31-128 | nothing else ever adds a live owner |
| SchedulingRuns.LostForever | formal/README.md:24-35 | a token that does not hold the lease never holds it again, in any continuation |
| SchedulingRuns.Superseded | formal/README.md:24-35 | a grant fences off every other token of the task for good |
| SchedulingRuns.ReleaseOwnOnly | src/agent_py/scheduling.py:100-108 | release takes the lease from its own owner and from nobody else |
| SchedulingRuns.EligibleIsServed | src/agent_py/scheduling.py:79-97 | a ticket with a free place in front of the queue is granted as soon as it asks |
| SchedulingRuns.StepKeepsEligible | src/agent_py/scheduling.py:37-97 | with increasing stamps an eligible ticket stays eligible through every step of everybody until it is granted, expires, is stopped, or the limit is lowered |
| SchedulingRuns.RunKeepsEligible | src/agent_py/scheduling.py:37-97 | the same over whole runs |
| SchedulingRuns.EligibilityLostExactly | src/agent_py/scheduling.py:37-97 | with any clock another task's admission takes eligibility away if and only if it overtakes on a tied stamp and the ticket had no place to spare |
| SchedulingRuns.TieExample | src/agent_py/scheduling.py:83-90 | a run from the start that reaches one such overtaking |
| SchedulingAsks.AnswerExactly | src/agent_py/scheduling.py:31-97 | which of the four refusals an ask gets, or a grant, in terms of the rows: a grant if and only if the task is not halted, is not being worked on, and the workers and the tickets in front of it are together fewer than the limit |
| SchedulingAsks.RowsExactly | src/agent_py/scheduling.py:36-97 | a deferred ask leaves a ticket that expires exactly 90 seconds later, with its first id and stamp if it still stood; exactly expired rows and tickets of halted tasks go |
| SchedulingAsks.GrantLasts | src/agent_py/scheduling.py:91-97 | a granted token passes the lease check at a time if and only if that is before the grant plus the configured seconds |
| SchedulingAsks.AskingKeepsTicket | src/agent_py/scheduling.py:52-67 | over any run, a waiting task that asks again before each expiry keeps its id and stamp until it is granted or halted |
| SchedulingAsks.AskingKeepsPlace | src/agent_py/scheduling.py:52-90 | and, with increasing stamps, the tickets ahead of it only become fewer |
| SchedulingAsks.GrantLastsOverRuns | src/agent_py/scheduling.py:91-128 | over any run in which it is not released, a granted lease holds if and only if its seconds are not over, whatever else happens |
| Fencing.NoStaleWrite | formal/README.md:24-35 | over any run of admissions and ledger transactions, a worker whose lease expired or was superseded proposes nothing, dispatches nothing and reports no error |
| Fencing.SupersededIsFenced | formal/README.md:24-35 | in particular after another grant for its task |
| Resilience.SharedBreaker.Acquire | src/agent_py/resilience.py:77-119 | a permit is given, or refused for cooling or capacity, with exactly the row changes of the transaction |
| Resilience.SharedBreaker.Complete | src/agent_py/resilience.py:122-154 | a completion gives its lease back and moves the breaker only if it is still heard; `ResilienceFeedback.CompleteExactly` says how |
| Resilience.SharedBreaker.ValidatePermit | src/agent_py/resilience.py:157-185 | a permit validates exactly if its lease lives and its generation and probe are current |
| Resilience.SharedBreaker.Reset | src/agent_py/resilience.py:188-200 | a reset starts a new closed generation |
| Resilience.SharedBreaker.SetReadLimit | src/agent_py/resilience.py:203-215 | a read limit from 1 to 128 replaces the old one; nothing else changes |
| Resilience.ReadWithPolicy | src/agent_py/resilience.py:250-303 | a read without permission or permit leaves the breaker as its transaction says; otherwise the permit is completed with the outcome of the attempts, whatever it is |
| Resilience.RetryLoop | src/agent_py/resilience.py:268-301 | at most three attempts, one for a probe, each under a valid permit and within thirty seconds; exactly a transient answer without Retry-After is retried while attempts and time are left; every way to end without data, and the outcome it reports, is told apart |
| ResilienceRuns.EpochsRise | src/agent_py/resilience.py:77-200 | no step lowers the generation, and every change of state or of probe raises it |
| ResilienceRuns.EpochsMonotone | src/agent_py/resilience.py:77-200 | so over every run |
| ResilienceRuns.AtMostOneProbe | src/agent_py/resilience.py:106-119 | no permit is current while the circuit is open, and at most one validates while it is half open |
| ResilienceRuns.StaleForever | src/agent_py/resilience.py:122-185 | a permit of an earlier generation is neither heard nor valid ever after |
| ResilienceRuns.CompletedForever | src/agent_py/resilience.py:122-154 | nor is a permit that was completed, whose lease is gone |
| ResilienceRuns.ExpiredForever | src/agent_py/resilience.py:122-185 | nor is a permit whose lease ran out of time |
| ResilienceRuns.UnheardChangesNothing | src/agent_py/resilience.py:122-154 | such a completion changes neither state nor generation, count or cooldown |
| ResilienceRuns.RunSound | src/agent_py/resilience.py:77-215 | over any run the failure count is the number of failures heard since the last success or reset, and below three while closed |
| ResilienceRuns.OpensForAReason | src/agent_py/resilience.py:138-154 | a circuit opens only on the third failure in a row, a probe that did not succeed, or Retry-After, and then cools down for at least thirty seconds |
| ResilienceRuns.Bulkhead | src/agent_py/resilience.py:80-119 | no grant brings the live reads above the limit, a granted permit validates, and a refusal leaves no trace |
| ResilienceFeedback.AcquireExactly | src/agent_py/resilience.py:77-119 | a reader is refused as open exactly while the circuit cools down, as full exactly while all places are in use, and gets a permit of 90 seconds otherwise, a probe of a new generation if the circuit is not closed |
| ResilienceFeedback.CompleteExactly | src/agent_py/resilience.py:122-154 | what each outcome of a permit that is still listened to does to state, generation, failure count and cooldown; it opens exactly on a third failure, Retry-After or an unsuccessful probe, for the longer of 30 seconds and Retry-After |
| ResilienceFeedback.ValidatesExactly | src/agent_py/resilience.py:157-185 | a permit validates exactly while it would be listened to and the circuit is not open |
| ResilienceFeedback.ResetExactly | src/agent_py/resilience.py:188-200 | a reset makes every permit stale and admits the next reader if there is a place |
| ResilienceFeedback.LimitExactly | src/agent_py/resilience.py:203-215 | a limit from 1 to 128 counts from the next acquisition on; any other changes nothing |
| ResilienceFeedback.RetryAfterRespected | src/agent_py/resilience.py:77-154 | after a failure with Retry-After, or any other completion that opens the circuit, every reader is refused for 30 seconds and for as long as the dependency asked, over every run without a reset |
| ResilienceFeedback.ThenProbes | src/agent_py/resilience.py:77-154 | and from then on the first reader who finds a place gets a probe |
| ResilienceFeedback.ProbeAlone | src/agent_py/resilience.py:106-119 | while a probe is out and unanswered, everybody else is refused for its 90 seconds |
| Budget.BudgetLedger.Reserve | src/agent_py/service.py:568-627 | both ledgers take the amount or neither does; a repeated call finds its reservation |
| Budget.BudgetLedger.Settle | src/agent_py/service.py:629-661 | the held maximum is replaced by the actual cost in both ledgers, once |
| Budget.BudgetLedger.Bind | src/agent_py/service.py:663-678 | a request digest is bound once and never replaced |
| Budget.BudgetLedger.ClaimInference | src/agent_py/service.py:680-698 | a dispatch is claimed at most once |
| BudgetRuns.RunSound | src/agent_py/service.py:568-698 | over any run every task's and every day's reserved is the sum of the maxima of its open reservations, its spent the sum of the settled costs, and their sum at most the budget plus the overruns |
| BudgetRuns.LedgersAgree | src/agent_py/service.py:568-661 | all tasks together and all days together have spent and reserved the same |
| BudgetRuns.BudgetsRespected | src/agent_py/service.py:568-661 | while no call cost more than it reserved, no task and no day exceeds its budget |
| BudgetCharges.ReserveAnswers | src/agent_py/service.py:568-627 | which refusal a reservation gets, or which row: a known call answers by its maximum, a new one is granted if and only if it fits the day and the task |
| BudgetCharges.ReserveHolds | src/agent_py/service.py:568-627 | a new reservation holds its maximum for its task and its day, and for nobody else |
| BudgetCharges.SettleAnswers | src/agent_py/service.py:629-661 | a settlement is taken once and repeated only with the same amount |
| BudgetCharges.SettleCharges | src/agent_py/service.py:629-661 | it gives the held maximum back and charges the amount, to its task and its day alone |
| BudgetCharges.BindAnswers | src/agent_py/service.py:663-678 | a request is bound if and only if it is the bound one or none is bound and the call was not dispatched |
| BudgetCharges.ClaimAnswers | src/agent_py/service.py:680-698 | a call is claimed if and only if it was neither dispatched nor settled |
| Inference.RunKeeps | src/agent_py/model.py:172-285 | the call protocol's invariant and both budget ledgers hold over any interleaving and crashes of any number of workers; every worker stands on a row of its own task and call key |
| Inference.AtMostOnePost | src/agent_py/model.py:172-285 | among all requests ever sent, no two were sent by workers of the same task and call key |
| Inference.PostsAreBound | src/agent_py/model.py:172-285 | a sent request was paid from the reservation of its sender's call and is the bound one; a saved decision was dispatched and settled |
| Inference.OneDecision | src/agent_py/model.py:172-285 | all workers that return a decision for a task and call key return the same one, the one saved for that call |
| Gateway.PaidGateway.Generate | src/agent_py/model.py:172-285 | one call reserves, binds, reuses a saved decision or claims, posts and settles; `InferenceCharges.CallCharges` says who pays what |
| Gateway.GenerateIsARun | src/agent_py/model.py:172-285 | an uninterrupted call is one of the runs of the call protocol: same ledger, same returned decision, at most one post, of the bound request |
| InferenceCharges.PostedExactly | src/agent_py/model.py:172-213 | a request is sent if and only if its reservation fits, or waits undispatched with this maximum and this request, and both permissions are given |
| InferenceCharges.CallCharges | src/agent_py/model.py:212-285 | a sent request is settled before the call returns: without usage the task and the day pay the whole maximum and no decision is saved, with usage they pay its cost; what was held is given back and nothing else changes |
| InferenceCharges.UnpostedSpendsNothing | src/agent_py/model.py:172-212 | a call that sent nothing spends nothing, and returns a decision exactly if one was saved for this request and still validates |
| InferenceCharges.ChargedByTheAnswer | src/agent_py/model.py:212-285 | over any interleaving and crashes every settled reservation has a request, and was charged as the answer to it says, an unanswered one in full and without a decision |
| EventStream.EventParser.constructor | web/src/eventStream.ts:3-8 | a new parser is empty |
| EventStream.EventParser.Push | web/src/eventStream.ts:9-36 | the loop over finished lines computes the specified events, state and refusal |
| EventStream.LineEndIsFirst | web/src/eventStream.ts:13-15 | a line ends at the first carriage return or newline |
| EventStreamLaws.WholePush | web/src/eventStream.ts:9-36 | pushing a text whole gives the events and state of a definition by lines and blocks that knows no buffer, and is refused exactly when a block or the open rest is too long |
| EventStreamLaws.PiecesAgree | web/src/eventStream.ts:9-36 | pieces are accepted if and only if every prefix at a cut fits, and then give the events and state of the whole |
| EventStreamLaws.ChunkingInvariance | web/src/eventStream.ts:9-36 | text within the limit may be cut anywhere, also inside a CRLF |
| EventStreamLaws.LosingCut | web/src/eventStream.ts:14-34 | a cut refuses a text that is accepted whole if and only if it falls after a carriage return that is one character over the limit |
| EventStreamLaws.LosingCutExists | web/src/eventStream.ts:14-34 | for every limit there is such a text |
| EventFeed.PageContinues | src/agent_py/event_feed.py:15-41 | whatever rows are missing, a served page is the history right after the cursor, at most 200 events, and terminal exactly if it reaches the end of an ended task |
| EventFeed.PageExact | src/agent_py/event_feed.py:15-41 | a page is served if and only if the cursor is within the history, the next row is there, and no missing row within the page's span has a present one after it |
| EventFeed.PageComplete | src/agent_py/event_feed.py:15-41 | without missing rows the page is as long as it can be |
| EventFeed.EventStreamer.Iterate | src/agent_py/api.py:387-414 | one iteration prints the frames of its page or refusal and moves the cursor to the last printed event |
| EventFeed.PrintParses | src/agent_py/api.py:398-412 | parsing what the server printed gives back exactly the printed events and leaves nothing over |
| Timeline.DecimalReads | web/src/eventStream.ts:41-43 | a printed sequence number is read back as itself |
| Timeline.ReceiveEntry | web/src/eventStream.ts:40-49 | the next event is accepted, or refused only because its number is no longer exact |
| Timeline.StepSound | web/src/EventPanel.tsx:10-46 | every emission, loss of a row, connection, iteration, delivery of any number of characters and disconnect keeps server and client consistent |
| Timeline.EndToEnd | web/src/EventPanel.tsx:10-46 | over any number of connections broken anywhere, and even when rows go missing, the accepted events are exactly the first `cursor` entries of the history, in order |
| Timeline.StopsForAReason | web/src/EventPanel.tsx:27-40 | the client stops only for lost access, missing rows, numbers beyond exactness, or after it accepted the event that ended the task |
| Timeline.DeliveredIsAccepted | web/src/EventPanel.tsx:27-40 | when all text of a connection was delivered the client stands at the server's cursor |
| Timeline.RoundProgress | web/src/EventPanel.tsx:15-46 | while nothing is missing, every reconnect takes the client a whole page further or to the end, and a client at the end of an ended task is told so |
| Repair.Newest | src/agent_py/repair.py:321-330 | the attempt a tick looks at is the one with the highest ordinal |
| Repair.RepairTables.Insert | src/agent_py/repair.py:38-43 | an ordinal is inserted once |
| Repair.RepairTables.CompareAndSet | src/agent_py/repair.py:530-541 | an attempt moves only from the expected state and token |
| Repair.RepairTables.Save | src/agent_py/repair.py:432-453 | a proposal is saved only while generating |
| Repair.RepairTables.StartVerification | src/agent_py/repair.py:465-484 | a verification starts only from a generated attempt with fewer than three behind it, under a new token |
| Repair.RepairTables.End | src/agent_py/repair.py:592-604 | only an active run is ended |
| Repair.RepairTables.Change | src/agent_py/repair.py:293-318 | a changed input overwrites any state |
| Repair.RepairTables.RetryVerification | src/agent_py/repair.py:606-644 | a retry is accepted exactly for an interrupted verification of an active run with fewer than three behind it |
| Repair.RepairTables.Tick | src/agent_py/repair.py:319-508 | a whole tick on rows read earlier writes what the plan for those rows says, with the transactions that follow a verification or a recovered report |
| Repair.RepairTables.Conclude | src/agent_py/repair.py:543-590 | only the transaction that recorded an outcome goes on to end the run, ready for review, inconclusive, or not at all |
| RepairRuns.StepSound | src/agent_py/repair.py:215-644 | every step, on rows of any age, keeps the campaign's invariant |
| RepairRuns.CampaignShape | src/agent_py/repair.py:341-360 | ordinals are exactly 1 to n with n at most the limit, all but the last attempt are verified failures, and no attempt starts more than three verifications |
| RepairRuns.ReadyIsReported | src/agent_py/repair.py:543-590 | a candidate is offered for review only if the last attempt was verified by a stored report that says it is fixed and carries the token of this attempt and no other |
| RepairRuns.EndedStays | src/agent_py/repair.py:592-604 | an ended campaign never becomes active again, and verified attempts never change |
| RepairRuns.StepWeight | src/agent_py/repair.py:302-508 | every step that changes the rows lowers the measure (active, attempts left, unverified, verifications left, position in the attempt), except that interrupting a reopened attempt raises it by one |
| RepairRuns.RecoveryLowers | src/agent_py/repair.py:361-377 | recovering a stored report, as one step or as two, lowers the measure and leaves the attempt verified with the report's outcome |
| RepairRuns.RelapseIsLate | src/agent_py/repair.py:454-464 | a reopened attempt is interrupted only by the worker that started its verification or by a tick that looked for the report before it was stored |
| RepairRuns.CampaignEnds | src/agent_py/repair.py:215-508 | a campaign of n attempts changes its rows at most 12 n + 1 times plus two for every relapse, and at most 18 n + 1 times plus two for every late tick |
| RepairRuns.CampaignEndsAtOnce | src/agent_py/repair.py:215-508 | with recovery as one step there is no relapse, and at most 12 n + 1 changes |
| RepairRuns.LateTicksPump | src/agent_py/repair.py:361-377 | without a bound on late ticks a campaign of one attempt changes its rows any number of times |
| RepairRuns.InterruptsBounded | src/agent_py/repair.py:500-508 | a verification is given up on by its own worker at most once |
| RepairRuns.WholeTickRuns | src/agent_py/repair.py:319-508 | an uninterrupted tick is one of the runs |
| RepairRuns.VerificationsBounded | src/agent_py/repair.py:465-484 | at most three verifications are started per attempt, counted over the whole run |
| RepairTicks.TickExactly | src/agent_py/repair.py:319-508 | what an uninterrupted tick does with the last attempt in each phase: the next attempt or exhaustion, a patch, a verdict with the end it brings, an interruption, or waiting, and that nothing else changes |
| RepairTicks.RetryExactly | src/agent_py/repair.py:606-644 | an interrupted verification of an active run may be repeated, up to three in all |
| RepairTicks.EndsWithItsCandidate | src/agent_py/repair.py:319-590 | a campaign that keeps being ticked ends three ticks after its last failed candidate with the first one that did not fail: ready for review if the regression is fixed, inconclusive otherwise |
| RepairTicks.EndsExhausted | src/agent_py/repair.py:341-350 | if all n candidates fail it is exhausted after 3 n + 1 ticks |
| RepairTicks.GeneratedCanStart | src/agent_py/repair.py:465-484 | over any run an attempt that has its patch can still start a verification |
| InvestigationWorker.Worker.InsertOnce | src/agent_py/repair.py:38-43 | the unique ordinal decides between workers |
| InvestigationWorker.Worker.Investigate | src/agent_py/model.py:189-227 | a saved decision is reused, and a call that was made is never made again |
| InvestigationWorker.Worker.Complete | src/agent_py/investigation_loop.py:181-196 | the report is handed to a human, and announced unless it already was |
| InvestigationWorker.Worker.Tick | src/agent_py/investigation_loop.py:26-196 | a tick freezes rounds with the evidence compiled for them, pays for at most one decision and saves exactly the answer, and changes nothing that was frozen or saved; it stops, drifts or asks for evidence exactly as a replay of the tables it leaves would, goes on only where the replay goes on, and raises only for want of an authorization or for a call that was made without a decision; its report lists the decided rounds and is announced once; linked tables stay linked and never drift |
| InvestigationView.Details | src/agent_py/investigation_status.py:49-78 | the view's loop computes the specified items and stop reason |
| InvestigationView.FreezeLinked | src/agent_py/investigation_loop.py:65-110 | whatever stale tables a worker replayed, the round it freezes is the next one, with the query of the last decision |
| InvestigationView.NeverDrifts | src/agent_py/investigation_loop.py:111-112 | the drift error cannot be reached by the loop's own writes |
| InvestigationView.MixedReadsMeet | src/agent_py/investigation_loop.py:54-112 | nor by a replay whose reads are taken at different times |
| InvestigationView.ViewAgrees | src/agent_py/investigation_status.py:49-78 | for every limit above zero the view names a stop reason if and only if a worker replaying the tables stops without a new model call, and the same reason |
| InvestigationView.NoRoundsDisagree | src/agent_py/investigation_status.py:49-78 | with limit zero they disagree |
| InvestigationView.LastItem | src/agent_py/investigation_status.py:57-78 | the last item shows what the worker's next tick meets: a call to make, one in flight, or one that was settled without a decision |
| Retrieval.ChunkDocument | src/agent_py/retrieval.py:30-59 | the chunks are a chunking: they partition the lines in order, stay within sections and the byte cap unless they are a single line, carry their section's symbol, and end only where a section ends or the next line would not fit |
| Retrieval.ChunkSection | src/agent_py/retrieval.py:49-59 | the inner loop extends a chunking to the end of a section |
| Retrieval.Lossless | src/agent_py/retrieval.py:60-73 | the bodies of the chunks, one after the other, are the document |
| Retrieval.OnlyChunking | src/agent_py/retrieval.py:46-59 | there is only one chunking |
| Reconciler.ReconcileCursor.Query | src/agent_py/runtime.py:187-190 | the page holds the lowest unresolved identifiers in order |
| Reconciler.ReconcileCursor.ReconcileOnce | src/agent_py/runtime.py:182-191 | a call takes the next hundred operations after the cursor, or wraps around when there are none |
| Reconciler.Closer | src/agent_py/runtime.py:182-191 | a call that does not query an unresolved operation brings it a call closer, even if others were resolved meanwhile |
| Reconciler.Fairness | src/agent_py/runtime.py:182-202 | from any cursor, while the backlog of n does not grow, an operation that stays unresolved is queried within ceil(n / 100) + 1 calls |

## Left out

- HTTP, Temporal, Docker, SQLAlchemy and the file system: only atomic transactions, uniqueness constraints and
  nondeterministic answers are kept. A raised error is a reply that leaves the rows as they were.
- Authorization, grants, release binding, enabled tools and worker-lease checks inside a transaction are booleans or sets in
  its environment argument; every value of them is covered.
- Each transaction reads the clock once; the source may read it several times within one.
- New identities and tokens are fresh by the guard of the step that uses them; digests are injective, so a digested value
  stands for its digest.
- Signing, JWT, keys, base64: outside libraries.
- Telemetry, trace context and error texts: they never affect the rows that are modelled.
- The size of a serialized recording is a number next to it, and field patterns of recordings are types.
- Replay.ReplayExecutor.Load: recordings of the older version 1, which have no ordered check, and signed envelopes.
- Tenants.FailingSafe: the harness's check and write are two transactions in the source; the runs take them as one step, and
  `FailingExactly` says when the separate write is harmless.
- Budget.BudgetLedger.Reserve: the day is the date of the transaction's clock reading, an argument here.
- Inference.AtMostOnePost: counts every request that may have reached the network, also when the connection failed.
- Scheduling.Scheduler.Acquire: the queue's LIMIT query is the number of tickets ahead; `AheadIsPosition` relates the two.
- Resilience.SharedBreaker.Complete: the cap that keeps a Retry-After value within the calendar is not modelled.
- Resilience.ReadWithPolicy: is one read that no other reader interleaves with; the runs interleave its transactions. The jittered
  delay only appears in the seconds spent.
- EventStream.EventParser.Push: a `char` stands for one UTF-16 code unit, and decoding of bytes is not modelled.
- Timeline.EndToEnd: payloads are their JSON text, with the set of texts that parse as an object as a parameter; event names
  are dotted words other than the three control names, as every name the server emits is. The panel's delay between
  connections is not modelled.
- Repair.RepairTables.Tick: the contents of snapshots, patches and reports; a report is its token and its outcome.
- InvestigationWorker.Worker.Tick: evidence is its digest and its number of documents, and collecting it is an argument; query
  folding is a parameter.
- InvestigationView.Details: rows are listed in the order they were inserted, which is that of their ordinals in every
  reachable table.
- Retrieval.ChunkDocument: the section boundaries that parsing Python yields are an argument; ranking, scoring and
  tokenization are left out.
- Reconciler.ReconcileCursor.ReconcileOnce: the calls it makes for each row are those of `Services.Service.Reconcile` and
  `TaskStores.TaskStore.Escalate`; a failing one does not stop the others.
- Enterprise readers, collection projections, patch paths, sandbox commands, panels, configuration and experiment runners:
  string filtering, schema checks and input or output.
