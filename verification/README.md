# Orchestrator protocols

A model of the concurrent and event-sourced protocols inside the orchestrator, and proofs about every run of them.
`dafny verify dfyconfig.toml` checks the whole project.

| file | part of the system |
|---|---|
| `Policy.dfy` | the gate matrix and the decision of the action policy engine |
| `OwnerEvents.dfy` | the owner event processor: grants, gate transitions, file scope, audit log |
| `Gateway.dfy`, `GatewayOutcomes.dfy` | the governed tool gateway, as steps interleaved without restriction with other calls and the owner; what its replies and the grants say afterwards |
| `WorkItems.dfy`, `WorkStore.dfy`, `WorkHistory.dfy` | lifecycle tables and the work store, as transactions with stale reads; its history as the record of its rows |
| `WorkflowEngine.dfy` | the minimal workflow engine running over the work store |
| `RunCoordinator.dfy`, `RunOutcomes.dfy` | the repair loop, its run ledger, the two replay folds and the two resumes; what becomes of a run, in terms of what the outside does |
| `AsyncMutex.dfy`, `DurableQueue.dfy`, `FlushOutcomes.dfy` | the FIFO mutex and the queue that flushes logs and incidents to the database; its errors, retries and progress |
| `HashChain.dfy`, `ChainService.dfy` | hash-chained records: the verifier, the append |
| `StoredChains.dfy` | what a flush leaves of the chains in the table, and when that still verifies |
| `Incidents.dfy`, `Logs.dfy` | the incident services and the loggers over those chains |
| `Restart.dfy` | restart of the incident service, generation after generation, from the table the durable queue has filled |
| `TextOrder.dfy`, `Scope.dfy`, `Approvals.dfy`, `ApprovalOutcomes.dfy` | canonical approval scopes and the approval transactions; what their answers say about the rows |
| `Lists.dfy`, `Common.dfy` | filtering and stable sorting; wrappers |
| `Completion.dfy`, `CompletionOutcomes.dfy` | reconciliation and the completion decision over the same records, and both in terms of the records alone |

Protocols are step machines: a `Step` (or call) datatype, a function that performs one step, and a fold over any list of
steps. A list of steps is an interleaving, so a theorem about all lists is a theorem about all interleavings. A step that is
not enabled changes nothing. Where the source updates objects in place there is a class beside the machine. Its methods are
proved to do the machine's steps; a method of the work store is proved against one transaction, which is what the machine does
from the transaction's reads to its commit, with any steps of others in between. What a method awaits, or has read earlier, is
a parameter.

The outside is a parameter or a step: adapter outcomes, agent statuses, review verdicts, audit and database failures, clocks,
random ids, redaction, the hash function and the conversion of a JSON value to text. Guard verdicts and the mutation classes of
an action are inputs of the policy decision.

Where the code does not do what one would like, the model follows the code, a lemma shows it, and another says exactly when
the wish holds:

- a revocation is undone, without a new owner event, if and only if an action is in flight under the grant
  (`Gateway.RevocationUndoneIffInFlight`, with the run `Gateway.RevokedGrantComesBack`);
- an owner event applied again keeps single use if and only if no action is in flight or settled under its grant
  (`Gateway.ReapplicationSafeIffIdle`, and over whole runs `Gateway.SingleUseSurvivesIffIdle`); otherwise it lets a second
  action through (`Gateway.ReappliedEventBreaksSingleUse`, with the run `Gateway.ReappliedCommitRunsTwice`). Gateway runs may
  contain any number of the safe kind;
- counted repairs stay within the maximum over a run's whole life, but neither replay fold counts evidence rounds: they are
  bounded by the maximum times the number of sessions (`RunCoordinator.LifeWorkIsBounded`), and that many do occur
  (`RunCoordinator.EvidenceBoundIsReached`);
- the policy decides before the proposal is recorded, and the call follows later: it would still allow a commit, push or
  deployment at the moment of the call if and only if the gate has not moved and the targets are still approved
  (`Gateway.CallStillAllowedIff`, with the run `Gateway.CommitIsCalledAtPush`);
- `currentAttemptId` is exact all along a run if and only if every start that commits in it is in an active state
  (`WorkStore.PointersExactIffStartsActive`, with the run `WorkStore.InactiveStartStays`);
- with auto-flush a queue is never left without an error and without a flush, all along a run, if and only if every manual
  clear of the error in the run finds the queue empty, a flush scheduled or the mutex locked
  (`DurableQueue.WakeupsKeptIffClearsMinded`, with the run `DurableQueue.ClearedQueueCanStall`);
- skip-duplicates keeps a list only if its ids are new and distinct (`DurableQueue.StoredUnchangedIffDistinct`), else the first
  record of each id (`DurableQueue.StoredIffFirst`);
- the chain verifier depends on the order of its input exactly for chains with two records of sequence -1
  (`HashChain.EveryOrderVerifiesIff`, `HashChain.OrderCanMatter`);
- an incident's states are legal exactly when its id was opened at most once (`Incidents.LegalLifeIffOpenedOnce`);
- after a flush, a restart is invisible exactly when the newest record under each of the project's keys is the project's own
  and the first with its record id (`Restart.FlushedRestartIsInvisibleIff`), and stored and new records stay acceptable exactly
  when what is stored of the project's is a prefix of each chain (`Restart.RestartedRunsVerifyIff`). Colliding project ids with
  colons break this (`Restart.CollidingProjectsBreakRestart`), and so do the default record ids of two incidents opened in one
  millisecond (`Restart.SharedDefaultIdBreaksRestart`);
- likewise the log rows that a flush has stored verify exactly when they are a prefix of each chain
  (`Logs.FlushedLogsVerifyIff`), which two runs that log in one millisecond do not keep (`Logs.SharedDefaultIdBreaksLog`);
- the database logger, once initialised, completes the stored rows to an acceptable chain exactly when there was a row to
  continue from (`Logs.InitializedLogVerifiesIff`), because it seeds an empty string where the verifier expects null.

## Model

| member | source | states |
|---|---|---|
| Policy.CheckAuthority | packages/policy/src/engine/action-classifying-policy-engine.ts:265-316 | the authority loop finds the first class without a matching ACTIVE grant, or the grant the last consuming class uses up |
| Policy.CheckClasses | packages/policy/src/engine/action-classifying-policy-engine.ts:245-263 | denied classes are reported before classes outside the allowed set, each the first of its kind |
| Policy.CheckFiles | packages/policy/src/engine/action-classifying-policy-engine.ts:333-356 | file scope is enforced only at gates that do so: an unresolved mutation target or any unapproved file is refused |
| Policy.Evaluate | packages/policy/src/engine/action-classifying-policy-engine.ts:206-367 | the early-return loops compute the decision specified declaratively |
| Policy.AllowExactly | packages/policy/src/engine/action-classifying-policy-engine.ts:206-367 | ALLOW if and only if guards are clean, every class is known, allowed and not denied at the gate, every required token has a matching ACTIVE grant, no blanket add, and files are in scope |
| Policy.AllowedIsNeverDenied | packages/policy/src/engine/action-classifying-policy-engine.ts:27-166 | the matrix is consistent: no class is both allowed and denied at a gate |
| Policy.MatrixIsTransposed | packages/policy/src/engine/action-classifying-policy-engine.ts:27-166 | the matrix read the other way round: for every class exactly the gates that allow it |
| Policy.AllowedNeedsGrant | packages/policy/src/engine/action-classifying-policy-engine.ts:265-316 | sources are edited only under an ACTIVE implementation grant for the task; nothing is staged, committed, pushed or deployed but under an ACTIVE grant bound to exactly that gate and action; every other class ever allowed only reads or stays local |
| Policy.AllowedStaysInScope | packages/policy/src/engine/action-classifying-policy-engine.ts:333-356 | at the two gates that enforce scope, edits and staging have known targets and every target is an approved file |
| Policy.NothingIsStagedWholesale | packages/policy/src/engine/action-classifying-policy-engine.ts:318-331 | an allowed staging names what it stages: no argument and no part of the command adds everything |
| Policy.DenialIsTrue | packages/policy/src/engine/action-classifying-policy-engine.ts:206-367 | every denial states a rule that the request does break |
| Policy.ApprovalAskedIff | packages/policy/src/engine/action-classifying-policy-engine.ts:206-243 | approval is asked for exactly when no guard objects and some class is unknown |
| Policy.AllowNamesBoundGrant | packages/policy/src/engine/action-classifying-policy-engine.ts:268-316 | an allowed commit, push or deployment names an ACTIVE grant of the one token, gate and action that can authorise it |
| Policy.NamedGrantIsBound | packages/policy/src/engine/action-classifying-policy-engine.ts:304-314 | whatever other classes an action has, the grant named for a consuming class is bound to that class |
| Policy.NamedGrantHasClass | packages/policy/src/engine/action-classifying-policy-engine.ts:304-314 | conversely a grant is named only for a consuming class of the request |
| OwnerEvents.OwnerEventProcessor.constructor | packages/policy/src/context/owner-event-processor.ts:108-113 | the processor starts with no grant and one audit entry for its gate |
| OwnerEvents.OwnerEventProcessor.ApplyOwnerAuthorityEvent | packages/policy/src/context/owner-event-processor.ts:179-195 | an event for this task sets its grant to ACTIVE with its bindings; any other is refused without effect |
| OwnerEvents.OwnerEventProcessor.TransitionGateFromEvent | packages/policy/src/context/owner-event-processor.ts:202-231 | the gate moves if and only if the event is for this task, out of the current gate, along an open way or a guarded one whose token is held ACTIVE; the token is not used up |
| OwnerEvents.OwnerEventProcessor.SetApprovedScopeFromPlan | packages/policy/src/context/owner-event-processor.ts:237-247 | the approved files are replaced |
| OwnerEvents.OwnerEventProcessor.RevokeGrant | packages/policy/src/context/owner-event-processor.ts:253-261 | the first revocable grant of the token, in insertion order, becomes CONSUMED |
| OwnerEvents.OwnerEventProcessor.Reserve | packages/policy/src/context/owner-event-processor.ts:275-287 | ACTIVE to RESERVED for the action; multi-use grants only leave an audit entry |
| OwnerEvents.OwnerEventProcessor.Consume | packages/policy/src/context/owner-event-processor.ts:290-300 | RESERVED for this very action to CONSUMED, otherwise an error |
| OwnerEvents.OwnerEventProcessor.ReleaseForRetry | packages/policy/src/context/owner-event-processor.ts:303-311 | back to ACTIVE whatever the status was |
| OwnerEvents.OwnerEventProcessor.RequireReconciliation | packages/policy/src/context/owner-event-processor.ts:314-321 | to RECONCILIATION_REQUIRED whatever the status was |
| OwnerEvents.AuditDeterminesState | packages/policy/src/context/owner-event-processor.ts:179-321 | over every sequence of calls the audit log alone yields the gate and every grant's status |
| OwnerEvents.GateMovesIff | packages/policy/src/context/owner-event-processor.ts:202-231 | at every moment of every run the gate moves with a call if and only if that is a transition event for the task, out of the current gate, along an open way, or a guarded one (IMPLEMENTATION, COMMIT, PUSH, DEPLOY) whose own token is held ACTIVE |
| OwnerEvents.GateNeverReturns | packages/policy/src/context/owner-authority-event.ts:22-37 | in every run a gate once left is never the current gate again |
| OwnerEvents.GuardsWerePassed | packages/policy/src/context/owner-authority-event.ts:22-37 | whoever starts before a guarded gate and stands behind it has passed its guard in this run, with the token ACTIVE at that moment and issued by an earlier owner event for this task |
| OwnerEvents.GrantsComeFromEvents | packages/policy/src/context/owner-event-processor.ts:179-195 | in every run each grant stems from an owner event for this task with its id, token and bindings |
| OwnerEvents.GrantMovesIff | packages/policy/src/context/owner-event-processor.ts:179-321 | at every moment of every run: exactly which call takes a grant to ACTIVE, RESERVED, CONSUMED or RECONCILIATION_REQUIRED |
| OwnerEvents.ReservedSince | packages/policy/src/context/owner-event-processor.ts:275-287 | a reserved grant was reserved by the action it is reserved for, which found it ACTIVE, and has stayed reserved for it since |
| OwnerEvents.UsedByItsReserver | packages/policy/src/context/owner-event-processor.ts:290-300 | a grant is used up only by the action that reserved it, and was that action's alone between the two calls |
| OwnerEvents.ScopeIsTheLastPlan | packages/policy/src/context/owner-event-processor.ts:237-247 | in every run the approved files are exactly those of the last plan approved for this task |
| OwnerEvents.NothingGoesUnlogged | packages/policy/src/context/owner-event-processor.ts:179-321 | in every run the log is only extended, each entry tells what the call did, and nothing changes without one |
| OwnerEvents.ThrowsIff | packages/policy/src/context/owner-event-processor.ts:179-321 | each error is thrown if and only if its condition holds |
| OwnerEvents.OrderListsGrants | packages/policy/src/context/owner-event-processor.ts:179-321 | over every sequence of calls the insertion order lists exactly the granted ids, none twice, and every grant is for the processor's task |
| OwnerEvents.OrderHidesNoGrant | packages/policy/src/engine/action-classifying-policy-engine.ts:268-316 | so the engine's search along that order finds a matching grant whenever the map holds one |
| Gateway.AtMostOnce | packages/tools/src/governed-tool-gateway.ts:156-215 | in every interleaving, after a non-CANCELLED adapter outcome under a single-use grant there is no further call or outcome under it |
| Gateway.OneUnsettledAction | packages/tools/src/governed-tool-gateway.ts:156-195 | at most one action is unsettled under a single-use grant, and meanwhile the grant cannot be reserved |
| Gateway.AdapterOnlyWhenAllowed | packages/tools/src/governed-tool-gateway.ts:134-173 | the adapter is called only for an action that was allowed when it was evaluated, and never twice for the same one |
| Gateway.CallStillAllowedIff | packages/tools/src/governed-tool-gateway.ts:76-166 | whatever others do while the proposal is recorded, at the call under a single-use grant the policy would allow the action again if and only if the gate is the one it was decided at and its targets are still approved |
| Gateway.CommitIsCalledAtPush | packages/tools/src/governed-tool-gateway.ts:76-166 | a concrete run in which a commit decided at the commit gate is called at the push gate, where the policy refuses it |
| Gateway.AuthorityConserved | packages/tools/src/governed-tool-gateway.ts:76-215 | in every run the non-CANCELLED outcomes of commits, pushes and deployments never outnumber the distinct owner grants issued for exactly that class, token and gate, however often an event is applied |
| GatewayOutcomes.OutcomeSettlesGrant | packages/tools/src/governed-tool-gateway.ts:165-195 | in every run, whenever the adapter comes back under a single-use grant: success leaves it CONSUMED, proven non-execution ACTIVE, each ambiguous outcome RECONCILIATION_REQUIRED, a malformed result leaves it as it was |
| GatewayOutcomes.LostAuditNeedsReconciliation | packages/tools/src/governed-tool-gateway.ts:198-217 | in every run a lost execution audit leaves the grant RECONCILIATION_REQUIRED, whatever the outcome was |
| GatewayOutcomes.SettledForGood | packages/tools/src/governed-tool-gateway.ts:156-217 | in every run that follows, a spent grant that needs reconciliation goes on needing it, and a consumed one stays so unless the audit of an action under it is lost |
| GatewayOutcomes.RecordedBeforeCalled | packages/tools/src/governed-tool-gateway.ts:85-166 | in every run no adapter is called before its action was recorded as proposed and its tool found |
| GatewayOutcomes.RepliesAreTrue | packages/tools/src/governed-tool-gateway.ts:85-217 | in every run a call that was refused or not recorded never reached an adapter, and one that reports an outcome got that very outcome and has it recorded |
| Gateway.RunKeepsInv | packages/tools/src/governed-tool-gateway.ts:61-218 | the invariant behind these: decisions name bound single-use grants, the trace never breaks, an ACTIVE grant is idle, in flight in the trace means running under that grant |
| Gateway.RevocationUndoneIffInFlight | packages/policy/src/context/owner-event-processor.ts:303-311 | without its event being applied again, an inactive single-use grant can become ACTIVE if and only if an action is in flight under it |
| Gateway.RevokedGrantComesBack | packages/policy/src/context/owner-event-processor.ts:253-311 | a concrete run in which it does: granted, called, revoked, CANCELLED, reservable again |
| Gateway.RetiredForGood | packages/policy/src/context/owner-event-processor.ts:253-311 | a grant neither reservable nor in flight stays out of use in every run that does not apply its event again |
| Gateway.SpentForGood | packages/tools/src/governed-tool-gateway.ts:156-215 | once spent, a single-use grant stays spent in every run, idle re-applications of owner events included |
| Gateway.ReapplicationSafeIffIdle | packages/policy/src/context/owner-event-processor.ts:179-195 | applying the event of an issued single-use grant again keeps the invariant of all runs if and only if no action is in flight or settled under the grant |
| Gateway.SingleUseSurvivesIffIdle | packages/policy/src/context/owner-event-processor.ts:179-195 | over all continuations: if a request would be allowed under the re-applied grant, no run breaks single use if and only if the grant was idle |
| Gateway.ReappliedEventBreaksSingleUse | packages/policy/src/context/owner-event-processor.ts:186-193 | otherwise an action allowed under the re-applied grant gets a second adapter call, whether the first is settled or still in flight |
| Gateway.ReappliedCommitRunsTwice | packages/policy/src/context/owner-event-processor.ts:186-193 | a concrete run in which it does: one commit grant, a successful commit, the event once more, a second commit |
| Gateway.GovernedToolGateway.Evaluated | packages/tools/src/governed-tool-gateway.ts:76-92 | evaluation fixes the decision of the action |
| Gateway.GovernedToolGateway.ProposalRecorded | packages/tools/src/governed-tool-gateway.ts:85-166 | denies, fails, or reserves the named grant and calls the adapter, in one stretch |
| Gateway.GovernedToolGateway.AdapterReturned | packages/tools/src/governed-tool-gateway.ts:165-195 | the grant call made for each way the adapter can end |
| Gateway.GovernedToolGateway.ExecutionRecorded | packages/tools/src/governed-tool-gateway.ts:198-217 | a lost execution audit forces reconciliation |
| Gateway.GovernedToolGateway.Execute | packages/tools/src/governed-tool-gateway.ts:61-218 | the whole call, with anything of others between its awaits, is a run of the step machine, and ends with a reply |
| WorkItems.TerminalAttemptsAreFinal | packages/domain/src/work-item.ts:89-127 | an ended attempt can never be moved, and only active attempts move |
| WorkItems.LifecyclesAreTransposed | packages/domain/src/work-item.ts:89-127 | the lifecycle table read backwards: for every lifecycle exactly those it may be entered from |
| WorkItems.AttemptStatesAreTransposed | packages/domain/src/work-item.ts:89-127 | the attempt table read backwards |
| WorkStore.OneActiveAttempt | packages/persistence/src/work/work-store.ts:78-118 | however stale the reads, an item has at most one active attempt, and the item points at it |
| WorkStore.StartsOnlyWithoutActive | packages/persistence/src/work/work-store.ts:78-90 | in every run, when the conditional update of a start goes through, the item has no active attempt at that moment, although the check for one was an earlier read |
| WorkStore.CurrentAttemptIsExact | packages/persistence/src/work/work-store.ts:86-167 | when the starts that commit in a run are in active states, the pointer is null exactly when no attempt is active, and otherwise names an active one |
| WorkStore.PointersExactIffStartsActive | packages/persistence/src/work/work-store.ts:86-167 | over every run: the pointers are exact at every moment if and only if every start that commits in it is in an active state |
| WorkStore.InactiveStartStays | packages/persistence/src/work/work-store.ts:86-116 | a concrete run in which an attempt started as SUCCEEDED stays the current attempt |
| WorkStore.CommittedChangesAreLegal | packages/persistence/src/work/work-store.ts:63-171 | every committed change is an edge of its table although it was validated on a stale read |
| WorkStore.RevisionsCountChanges | packages/persistence/src/work/work-store.ts:63-90 | revision is the initial one plus committed changes, and of several writers with the same expected revision at most one succeeds |
| WorkStore.AttemptNumbersIncrease | packages/persistence/src/work/work-store.ts:92-104 | each new attempt number is above all earlier ones of the item |
| WorkStore.MaxNumberIsMax | packages/persistence/src/work/work-store.ts:94-98 | the aggregate is the largest number of the item's attempts, 0 for none |
| WorkHistory.HistoryGivesBackRows | packages/persistence/src/work/work-store.ts:45-171 | in every interleaving the committed changes alone give back every item and attempt, so no transaction writes anything its change does not say |
| WorkHistory.HistoryIsAPath | packages/persistence/src/work/work-store.ts:63-171 | in every interleaving each change starts from the lifecycle or state that the changes before it led to, although it was checked on a possibly stale read: no update is lost or applied twice |
| WorkHistory.MoveItemFailsIff | packages/persistence/src/work/work-store.ts:63-76 | which error a transition of an item ends with, if and only if which condition on the row read and the row found holds |
| WorkHistory.StartFailsIff | packages/persistence/src/work/work-store.ts:78-118 | the same for a start |
| WorkHistory.MoveAttemptFailsIff | packages/persistence/src/work/work-store.ts:138-171 | the same for an attempt's transition |
| WorkStore.MoveItemIsTheMachine | packages/persistence/src/work/work-store.ts:63-76 | the read and the commit of a transition, with any steps of others between, end as the one call of TransitionWorkItem with that read |
| WorkStore.StartIsTheMachine | packages/persistence/src/work/work-store.ts:78-118 | the two reads and the commit of a start, with any steps of others between, end as the one call of StartAttempt with those reads |
| WorkStore.MoveAttemptIsTheMachine | packages/persistence/src/work/work-store.ts:138-171 | the same for an attempt's transition and TransitionAttempt |
| WorkStore.WorkStore.CreateWorkItem | packages/persistence/src/work/work-store.ts:45-61 | inserts a row, or fails on a used id |
| WorkStore.WorkStore.TransitionWorkItem | packages/persistence/src/work/work-store.ts:63-76 | validates the read, then moves the current row only at the expected revision |
| WorkStore.WorkStore.NextAttemptNumber | packages/persistence/src/work/work-store.ts:94-98 | one above the largest number |
| WorkStore.WorkStore.StartAttempt | packages/persistence/src/work/work-store.ts:78-118 | validates, claims the item by revision, numbers and inserts the attempt, or fails with nothing changed |
| WorkStore.WorkStore.BindAgentRun | packages/persistence/src/work/work-store.ts:130-136 | records the agent run of an existing attempt |
| WorkStore.WorkStore.TransitionAttempt | packages/persistence/src/work/work-store.ts:138-171 | moves the attempt only from the state read, and clears the item's pointer if it still names an ended attempt |
| WorkflowEngine.EndingsAreLegal | packages/workflow/src/minimal-workflow-engine.ts:122-281 | for every adapter behaviour the ending is legal in both tables, leaves the attempt open only as UNKNOWN with the item in RECOVERY_REQUIRED, and never completes the item |
| WorkflowEngine.EndingTells | packages/workflow/src/minimal-workflow-engine.ts:122-281 | exactly which adapter behaviour ends attempt and item in which state: SUCCEEDED if and only if the launch got through and the collected status is COMPLETED, and so on for every state |
| WorkflowEngine.MinimalWorkflowEngine.Launch | packages/workflow/src/minimal-workflow-engine.ts:102-113 | claims the item and walks attempt and item to RUNNING, two revisions on |
| WorkflowEngine.MinimalWorkflowEngine.Conclude | packages/workflow/src/minimal-workflow-engine.ts:131-232 | attempt and item leave RUNNING together |
| WorkflowEngine.MinimalWorkflowEngine.Execute | packages/workflow/src/minimal-workflow-engine.ts:81-240 | as the only writer no transition is ever rejected, attempt and item end in the states that the adapter's behaviour decides, stated status by status, and the item exactly three revisions above its start; each error if and only if its condition holds |
| RunCoordinator.RoundsKeep | packages/workflow/src/run-coordinator.ts:168-301 | whatever the bridge and reviewer do, one execute extends the ledger within the grammar and ends with replay and locals in agreement |
| RunCoordinator.LedgerIsLegal | packages/workflow/src/run-coordinator.ts:149-302 | over a run's whole life the k-th event has revision k and the ledger is a word of the grammar |
| RunCoordinator.ReplayAgreesAtReturn | packages/workflow/src/run-coordinator.ts:323-354 | at a normal return after a resume, replay yields the loop's state, work package, attempt, pending triple, and repair count up to uncounted evidence rounds |
| RunCoordinator.ReplayAgreesAtFirstReturn | packages/workflow/src/run-coordinator.ts:131-302 | the same for the first execute |
| RunCoordinator.FoldsAgree | packages/workflow/src/run-coordinator.ts:447-470 | the two hand-written folds agree on their common fields, on every event list |
| RunCoordinator.LifeRepairBudget | packages/workflow/src/run-coordinator.ts:243-260 | over a run's whole life, suspensions and resumes included, counted repairs and the replayed counter stay within the maximum |
| RunCoordinator.LifeRepairCounters | packages/workflow/src/run-coordinator.ts:249-260 | over a whole life the counters in repair events strictly increase and never exceed the maximum |
| RunCoordinator.DispatchBudget | packages/workflow/src/run-coordinator.ts:168-301 | within one execute, dispatches are at most one plus PASS verdicts plus the remaining repair budget, and evidence rounds at most that budget |
| RunCoordinator.ResumedDispatchBudget | packages/workflow/src/run-coordinator.ts:310-416 | the budget left to a resumed execute is the maximum minus the replayed counter, and never negative |
| RunCoordinator.LifeWorkIsBounded | packages/workflow/src/run-coordinator.ts:168-301 | over a whole life evidence rounds are at most the maximum times the sessions (one plus the accepted resumes), and dispatches at most the PASS verdicts plus one more than the maximum per session |
| RunCoordinator.EvidenceBoundIsReached | packages/workflow/src/run-coordinator.ts:262-275 | for every maximum and every number of resumes a life with exactly that many evidence rounds |
| RunCoordinator.LifeDispatchesAreFresh | packages/workflow/src/run-coordinator.ts:169-191 | over a whole life each dispatch directly follows its own start and carries an attempt id no other dispatch has |
| RunCoordinator.LifeAmbiguityNeedsSafeOutcome | packages/workflow/src/run-coordinator.ts:276-279 | over a whole life no dispatch follows an ambiguous verdict without a safe reconciliation outcome in between |
| RunCoordinator.LifeOwnerWaitNeedsMatchingResume | packages/workflow/src/run-coordinator.ts:365-399 | over a whole life no dispatch follows an owner wait without a resume under the awaited authority, the pending triple being complete |
| RunCoordinator.LifeEndsAtTheEnd | packages/workflow/src/run-coordinator.ts:293-299 | over a whole life nothing follows RUN_CLOSED or RUN_BLOCKED |
| RunOutcomes.SettledIsFirst | packages/workflow/src/run-coordinator.ts:193-199 | polling ends on the first settled status, and on the last poll only when none is settled |
| RunOutcomes.AmbiguousIffLost | packages/workflow/src/run-coordinator.ts:204-238 | a round ends ambiguous, with the run waiting to be reconciled, if and only if no poll settled, the settled status is UNKNOWN, the result or the review is missing, the result is CANCELLED or INTERRUPTED, or the reviewer said so |
| RunOutcomes.RepairsIffAsked | packages/workflow/src/run-coordinator.ts:214-275 | a round repairs if and only if the result is FAILED or the reviewer asks for it, and seeks evidence if and only if the reviewer asks, while the budget lasts; beyond it the run is blocked |
| RunOutcomes.ReviewStands | packages/workflow/src/run-coordinator.ts:276-299 | otherwise the reviewer's verdict stands: owner decision, pass, completion or block, each if and only if the reviewer gave it |
| RunOutcomes.GoesOnIff | packages/workflow/src/run-coordinator.ts:243-299 | the loop goes round again if and only if a repair or evidence is asked for within the budget or a PASS names a next action, which becomes the objective; it throws exactly for a PASS without one |
| RunOutcomes.FindingsReachTheAgent | packages/workflow/src/run-coordinator.ts:252-274 | each finding, the repair constraints and the task so far are in the next objective word for word |
| RunOutcomes.LostRoundNeedsSafeOutcome | packages/workflow/src/run-coordinator.ts:204-302 | over a whole life: after a round of the first session that nobody can tell the outcome of, nothing is dispatched before a reconciliation outcome declares the retry safe |
| RunOutcomes.LostRoundOfResumeNeedsSafeOutcome | packages/workflow/src/run-coordinator.ts:429-530 | the same for a round of any resumed session |
| RunOutcomes.UnsafeOutcomeBlocks | packages/workflow/src/run-coordinator.ts:500-515 | an outcome that declares the retry unsafe blocks the run for good, with its reason; every later resume is refused |
| RunOutcomes.RefusalIsTrue | packages/workflow/src/run-coordinator.ts:304-478 | in every life a refused resume appends nothing and its error is true of the ledger and the request |
| RunOutcomes.LifeKeepsTheTask | packages/workflow/src/run-coordinator.ts:252-274 | over a whole life, resumes included: until a PASS gives a next task, every work package started contains the objectives of the earlier ones word for word |
| RunCoordinator.AuthorityAcceptedIff | packages/workflow/src/run-coordinator.ts:304-377 | a resume is accepted exactly on a ledger waiting for the owner, by an event for this task naming the pending action, gate and authority |
| RunCoordinator.OutcomeAcceptedIff | packages/workflow/src/run-coordinator.ts:429-478 | a reconciliation resume is accepted exactly on a ledger ending in an ambiguous verdict or an earlier outcome |
| RunCoordinator.RunCoordinator.AwaitStatus | packages/workflow/src/run-coordinator.ts:193-199 | polling stops at the first settled status or at the time limit |
| RunCoordinator.RunCoordinator.Review | packages/workflow/src/run-coordinator.ts:201-238 | timeouts and lost transport are ambiguous, natural failures repairable, otherwise the reviewer decides |
| RunCoordinator.RunCoordinator.ApplyVerdict | packages/workflow/src/run-coordinator.ts:243-299 | each branch appends its event and moves the locals as specified |
| RunCoordinator.RunCoordinator.RunRound | packages/workflow/src/run-coordinator.ts:169-299 | one turn of the loop |
| RunCoordinator.RunCoordinator.Execute | packages/workflow/src/run-coordinator.ts:131-302 | the loop appends exactly what the rounds specify, with consecutive revisions |
| RunCoordinator.RunCoordinator.ReplayLedger | packages/workflow/src/run-coordinator.ts:315-354 | the first fold computes the replay of the ledger |
| RunCoordinator.RunCoordinator.ReplayForReconciliation | packages/workflow/src/run-coordinator.ts:442-470 | the second fold computes the short replay |
| RunCoordinator.RunCoordinator.ResumeWithAuthority | packages/workflow/src/run-coordinator.ts:304-416 | refuses with nothing changed, or notes the resume and continues the run |
| RunCoordinator.RunCoordinator.ResumeFromReconciliation | packages/workflow/src/run-coordinator.ts:429-530 | refuses, blocks on an unsafe outcome, or retries with the original objective |
| AsyncMutex.AtMostOneHolder | packages/persistence/src/observability/async-mutex.ts:9-40 | over every sequence of acquires and releases, repeated ones included, at most one grant is unreleased |
| AsyncMutex.GrantedInArrivalOrder | packages/persistence/src/observability/async-mutex.ts:25-38 | grants are made in arrival order, nobody is dropped, and waiters imply locked |
| AsyncMutex.ReleaseIsOneShot | packages/persistence/src/observability/async-mutex.ts:12-22 | a closure called again changes nothing, whatever happened since |
| AsyncMutex.EveryWaiterIsServed | packages/persistence/src/observability/async-mutex.ts:28-37 | if every holder releases, all present waiters get the mutex and it ends open |
| AsyncMutex.AsyncMutex.AcquireOnce | packages/persistence/src/observability/async-mutex.ts:9-39 | takes a free mutex at once, else queues |
| AsyncMutex.AsyncMutex.CallRelease | packages/persistence/src/observability/async-mutex.ts:13-22 | hands over to the first waiter or unlocks, once per closure |
| DurableQueue.ExactlyOnceInOrder | packages/persistence/src/observability/prisma-logger.ts:131-182 | in every interleaving, over any table found at the start, accepted is removed followed by queue, and the table is exactly the skip-duplicates insertion of a prefix of accepted that covers removed and is at most one batch ahead, no id twice |
| DurableQueue.StoredIffFirst | packages/persistence/src/observability/prisma-logger.ts:142-158 | a record is in the table after an insertion if and only if it occurs, among the old rows and then the inserted list, as the first with its id |
| DurableQueue.NormalReturnDrains | packages/persistence/src/observability/prisma-logger.ts:134-178 | a flush that returns normally leaves an empty queue with everything accepted written |
| DurableQueue.NoLostWakeup | packages/persistence/src/observability/prisma-logger.ts:106-129 | with auto-flush and no manual clearing, a waiting queue without error always has a flush scheduled, waiting or holding |
| DurableQueue.WakeupsKeptIffClearsMinded | packages/persistence/src/observability/prisma-logger.ts:38-129 | with auto-flush, over any run with any clears: a waiting queue without error has a flush at every moment if and only if each clear is taken with an empty queue, a raised flag or a locked mutex |
| DurableQueue.ClearStrandsQueue | packages/persistence/src/observability/prisma-logger.ts:38-40 | in every reachable state where it is not, the clear leaves the queue waiting without error and without a flush |
| DurableQueue.ClearedQueueCanStall | packages/persistence/src/observability/prisma-logger.ts:38-40 | a concrete run in which a cleared error leaves an entry with nobody to write it |
| DurableQueue.StoredUnchangedIffDistinct | packages/persistence/src/observability/prisma-logger.ts:142-158 | skip-duplicates stores a list unchanged exactly when its ids are new and distinct |
| DurableQueue.NoIdTwice | packages/persistence/src/observability/prisma-logger.ts:157-157 | no id is stored twice, whatever is written |
| DurableQueue.OverlapIsSkipped | packages/persistence/src/observability/prisma-logger.ts:142-171 | rewriting a batch that an unacknowledged write already stored stores exactly the rest |
| FlushOutcomes.ErrorStandsIff | packages/persistence/src/observability/prisma-logger.ts:38-178 | at every moment of every run the error stands if and only if a flush has thrown and since then no write was acknowledged and nobody cleared it |
| FlushOutcomes.ThrowsIsSeen | packages/persistence/src/observability/prisma-logger.ts:164-177 | a flush has thrown from exactly the step on that refuses a write it may not retry |
| FlushOutcomes.LoggedIsAttendedIff | packages/persistence/src/observability/prisma-logger.ts:106-129 | with auto-flush, at every moment of every run, an entry logged now has a flush to write it if and only if no error stands or a flush is about already |
| FlushOutcomes.AcknowledgedQueueRecovers | packages/persistence/src/observability/prisma-logger.ts:106-178 | so one acknowledged write ends a failure: from then until a flush throws again, whatever is logged has a flush to write it |
| FlushOutcomes.GivesUpIff | packages/persistence/src/observability/prisma-logger.ts:140-177 | at every moment of every run a flush throws if and only if a write is refused that was refused for this batch as often as the flush may retry |
| FlushOutcomes.QuietFlushReturnsIff | packages/persistence/src/observability/prisma-logger.ts:131-178 | progress: a flush that finds the mutex free and its writes acknowledged has returned, with an empty queue, after exactly as many writes as the queue has batches |
| FlushOutcomes.NothingFlushesByItself | packages/persistence/src/observability/prisma-logger.ts:106-129 | without auto-flush nothing is ever scheduled but by hand |
| DurableQueue.QueuedWriter.Push | packages/persistence/src/observability/prisma-logger.ts:106-109 | enqueues and schedules, as the machine's step |
| DurableQueue.QueuedWriter.ScheduleFlush | packages/persistence/src/observability/prisma-incident-store.ts:104-121 | schedules at most one flush, and none on an empty queue or after an error |
| DurableQueue.QueuedWriter.WriteBatch | packages/persistence/src/observability/prisma-logger.ts:140-177 | the retry loop runs the machine along the given turns: to the acknowledged one, to the throw after the last retry, or through all of them |
| DurableQueue.QueuedWriter.FlushQueue | packages/persistence/src/observability/prisma-logger.ts:131-182 | a whole flush, with everyone else between its awaits, runs the machine along its script; it returns normally exactly when its flush does, with an empty queue, and else has thrown, used up the script, or never got the mutex |
| HashChain.VerifyChain | packages/observability/src/incidents.ts:47-62 | the walk accepts exactly chains whose hashes match, whose links join and whose sequences increase |
| HashChain.Verify | packages/observability/src/incidents.ts:33-65 | grouping, sorting and walking accept exactly lists all of whose sorted chains are acceptable |
| HashChain.SortKeepsUnchecked | packages/observability/src/incidents.ts:46-46 | sorting is stable where the sequence check is off |
| HashChain.SortedIsUnique | packages/observability/src/incidents.ts:46-46 | an increasing arrangement is the only sorted one of its records |
| HashChain.VerdictIgnoresOrder | packages/observability/src/incidents.ts:33-65 | the verdict does not depend on input order or interleaving when no chain has two records of sequence -1 |
| HashChain.EveryOrderVerifiesIff | packages/observability/src/incidents.ts:48-51 | an accepted list is accepted in every order if and only if that condition holds |
| HashChain.OrderCanMatter | packages/observability/src/incidents.ts:48-51 | a list accepted as it is and rejected in reverse |
| HashChain.SameEndSameChain | packages/observability/src/incidents.ts:52-61 | with an injective hash two accepted chains ending in the same hash are identical record for record |
| HashChain.TamperEvidence | packages/observability/src/logs.ts:25-56 | two accepted lists whose chains for a key end in the same hash hold the same records under it |
| ChainService.AppendKeepsSound | packages/observability/src/incidents.ts:92-113 | an append under any key keeps every chain acceptable and the remembered ends exact |
| ChainService.SoundVerifies | packages/observability/src/incidents.ts:33-114 | whatever a sound service holds is accepted in every order |
| Incidents.EveryRunVerifies | packages/observability/src/incidents.ts:68-151 | the verifier accepts every event list any sequence of service calls can produce, in every order |
| Incidents.LegalLifeIffOpenedOnce | packages/observability/src/incidents.ts:116-146 | over every run an incident's states are OPEN, optional MITIGATED, optional RESOLVED if and only if its id was opened at most once |
| Incidents.StepStates | packages/observability/src/incidents.ts:129-146 | a call adds at most one state to one incident, and only along the allowed transitions unless it opens |
| Incidents.RefusedIff | packages/observability/src/incidents.ts:129-146 | a call is refused if and only if its incident has no record, or its last state does not allow the next one; an opening never is |
| Incidents.IncidentStaysTheSame | packages/observability/src/incidents.ts:129-146 | over every run each record but an opening is of the same run, attempt, work item and severity as the incident's record before it, with that one's text |
| Incidents.NothingUnredacted | packages/observability/src/incidents.ts:92-110 | over every run every stored description and claim is an image of the redactor |
| Restart.RestartIsInvisibleIff | packages/persistence/src/observability/prisma-incident-store.ts:39-102 | a fresh service initialised from rows fetched for the project answers every continuation as the old one would, if and only if the newest record under each of the project's keys is among the rows |
| Restart.FlushedRestartIsInvisibleIff | packages/persistence/src/observability/prisma-incident-store.ts:104-178 | composed with the flush, for any service and any table found at the start: after a normal return the table holds its old rows and the first new record of each new id, and a restart from it is invisible if and only if each newest record is the project's own and the first with its id |
| Restart.NextGeneration | packages/persistence/src/observability/prisma-incident-store.ts:39-102 | the restarted service, after any calls, meets the hypotheses of these theorems again over the table it was restarted from, so they hold of every generation |
| Restart.RestartKnowsEndIff | packages/persistence/src/observability/prisma-incident-store.ts:45-57 | per incident: sequence, last hash and last event agree exactly when the newest record is among the rows |
| StoredChains.DrainedTable | packages/persistence/src/observability/prisma-incident-store.ts:134-153 | after a normal return of a flush the table holds exactly the records that occur first with their ids, no id twice |
| StoredChains.FlushedRowsVerifyIff | packages/observability/src/incidents.ts:33-65 | after a normal return the stored records of a sound service verify in every order if and only if they are a prefix of the chain under every key |
| Restart.RestartedRunsVerifyIff | packages/persistence/src/observability/prisma-incident-store.ts:39-102 | after a restart stored and new records stay acceptable, for every continuation and in every order, if and only if the project's stored records are a prefix of the chain under every key |
| Restart.ColonFreeIdsDoNotCollide | packages/persistence/src/observability/prisma-incident-store.ts:46-46 | project ids without colons never share a key |
| Restart.OrdinaryRestartIsFine | packages/persistence/src/observability/prisma-incident-store.ts:39-58 | with distinct record ids and no shared keys a flush and a restart lose nothing and both conditions hold |
| Restart.CollidingProjectsBreakRestart | packages/persistence/src/observability/prisma-incident-store.ts:46-48 | two colliding project ids for which the condition fails |
| Restart.SharedDefaultIdBreaksRestart | packages/persistence/src/observability/prisma-incident-store.ts:60-102 | two incidents opened in one millisecond share the default record id, and the condition fails for the second |
| Incidents.InMemoryIncidentService.AppendEvent | packages/observability/src/incidents.ts:80-114 | appends the linked record, globally numbered |
| Incidents.InMemoryIncidentService.OpenIncident | packages/observability/src/incidents.ts:116-119 | appends an OPEN event |
| Incidents.InMemoryIncidentService.TransitionIncident | packages/observability/src/incidents.ts:129-146 | refuses unknown incidents and illegal transitions, else appends a copy of the last event with the new state |
| Incidents.InMemoryIncidentService.ListIncidentEvents | packages/observability/src/incidents.ts:148-150 | the project's events, sorted, none missing or added |
| Incidents.PrismaIncidentService.Initialize | packages/persistence/src/observability/prisma-incident-store.ts:39-58 | replays the rows into sequences, last hashes and the projection |
| Incidents.PrismaIncidentService.AppendEvent | packages/persistence/src/observability/prisma-incident-store.ts:60-102 | appends the linked record, numbered per incident, to projection and queue |
| Incidents.PrismaIncidentService.OpenIncident | packages/persistence/src/observability/prisma-incident-store.ts:180-183 | appends an OPEN event |
| Incidents.PrismaIncidentService.TransitionIncident | packages/persistence/src/observability/prisma-incident-store.ts:193-210 | as in memory, and queues what it appends |
| Logs.EveryLogVerifies | packages/observability/src/logs.ts:59-109 | the verifier accepts whatever a logger that starts empty has written, in every order |
| Logs.LogIsWhatWasSaid | packages/observability/src/logs.ts:70-109 | over any number of calls the log holds exactly one record for each, in order, with message and metadata cleaned and everything else as given |
| Logs.InitializedLogVerifiesIff | packages/persistence/src/observability/prisma-logger.ts:42-110 | after initialisation, stored and new rows form an acceptable chain if and only if there was a stored row |
| Logs.FlushedLogsVerifyIff | packages/persistence/src/observability/prisma-logger.ts:52-182 | after a normal return of a flush the stored rows of a logger that started empty verify in every order if and only if they are a prefix of the chain under every key |
| Logs.SharedDefaultIdBreaksLog | packages/persistence/src/observability/prisma-logger.ts:63-82 | a concrete case: two runs log in one millisecond, the second loses its first line, and its stored rows do not verify |
| Logs.InMemoryLogger.Log | packages/observability/src/logs.ts:70-109 | appends the linked record, globally numbered |
| Logs.InMemoryLogger.GetLogs | packages/observability/src/logs.ts:111-118 | exactly the records of the project that agree with the filter in every field it fills, sorted |
| Logs.PrismaExecutionLogger.Initialize | packages/persistence/src/observability/prisma-logger.ts:42-50 | seeds sequence and last hash from the latest row, 0 and the empty string without one |
| Logs.PrismaExecutionLogger.Log | packages/persistence/src/observability/prisma-logger.ts:52-110 | appends the linked record, numbered per run, to the queue |
| TextOrder.SortIsSameIff | apps/api/src/index.ts:511-517 | sorting by text makes two lists equal exactly when they have the same entries in the same order for each text |
| Lists.SortIsStable | apps/api/src/index.ts:511-517 | sorting keeps the order of elements that may stand before each other |
| Scope.EqualIffEquivalent | apps/api/src/index.ts:505-528 | two scopes compare equal exactly when they agree up to key order, undefined fields, and order and repetition of paths in COMMIT objects, at any depth |
| Scope.CanonicalizeIsIdempotent | apps/api/src/index.ts:505-524 | canonicalising twice is canonicalising once, on trees of any depth |
| Scope.CanonicalIsEquivalent | apps/api/src/index.ts:505-524 | the canonical form is equivalent to the scope |
| Scope.StringPathsAreSets | apps/api/src/index.ts:515-517 | on string paths the equivalence is equality of sets |
| Scope.SameKeysIff | apps/api/src/index.ts:511-514 | the canonical keys depend on nothing but which keys are defined |
| Scope.ValidScopesAreTyped | apps/api/src/index.ts:487-503 | exactly the typed COMMIT and PUSH scopes pass validation; other gates take any object |
| Approvals.AuditReplaysToStatus | apps/api/src/index.ts:532-849 | in every interleaving an approval's status events are one of the six legal words and replay to the stored status |
| Approvals.ReplaysIffLegal | apps/api/src/index.ts:656-832 | a word replays to a status exactly when it is one of the six |
| Approvals.UsedMeansApprovedInTime | apps/api/src/index.ts:801-834 | USED implies requested, approved, used in this order, an equal scope for the same gate, and consumption strictly before expiry |
| Approvals.SingleUse | apps/api/src/index.ts:807-816 | of all consume transactions over an approval at most one succeeds |
| Approvals.StatusCheckIsExact | apps/api/src/index.ts:536-545 | a row whose status is still the one read is the row that was read, so comparing the status alone is safe |
| Approvals.VerificationFollowsUse | apps/api/src/index.ts:852-874 | a verification event is written only about an approval used before |
| ApprovalOutcomes.OutcomesAreTrue | apps/api/src/index.ts:679-879 | in every interleaving whoever was told DECIDED, USED or verified asked for it from the row's own project, and the row shows the decision, the time and the equal scope of that very request |
| ApprovalOutcomes.RecordsOwnProject | apps/api/src/index.ts:852-874 | in every interleaving a verification event is only ever about to be written for a used approval of the caller's own project |
| ApprovalOutcomes.ElsewhereChangesNothing | apps/api/src/index.ts:687-865 | in every interleaving a request from another project is answered NOT_FOUND (or refused for its decision) and leaves every row and event as they were |
| ApprovalOutcomes.RowsAreTrue | apps/api/src/index.ts:626-879 | in every interleaving each row was decided before it expired, is verified only if used, and its scope fits its gate |
| ApprovalOutcomes.RowsAreGrounded | apps/api/src/index.ts:532-676 | in every interleaving each row was created by a caller of its own project with the terms it has now, and EXPIRED only if a request came after its time or asked for the expiry |
| ApprovalOutcomes.DecidesIff | apps/api/src/index.ts:687-735 | undisturbed, a decision goes through if and only if it is one of the two and the approval is pending, unexpired and of the project |
| ApprovalOutcomes.UsesIff | apps/api/src/index.ts:756-835 | undisturbed, an approval is used if and only if it is approved, unexpired, of the project, for the same gate and an equal scope |
| ApprovalOutcomes.VerifiesIff | apps/api/src/index.ts:852-865 | undisturbed, a verification is attached if and only if the approval is used and of the project |
| ApprovalOutcomes.AnswersAreTrue | apps/api/src/index.ts:687-859 | every answer given at the read is true of the row that was read |
| ApprovalOutcomes.WriteRefusalsAreTrue | apps/api/src/index.ts:708-816 | in every interleaving a refusal given at the write is true of the row as it then is |
| ApprovalOutcomes.LateRequestsExpire | apps/api/src/index.ts:697-799 | in every interleaving a decision or use that comes after the expiry expires the approval, finds it expired, or reports that the status has moved on |
| Approvals.ApprovalApi.CreateApproval | apps/api/src/index.ts:626-676 | a valid request becomes a PENDING row with its REQUESTED event, any other is refused without effect |
| Approvals.ApprovalApi.TryExpireApproval | apps/api/src/index.ts:532-557 | expires an open approval if its status is still the one read |
| Approvals.ApprovalApi.DecideApproval | apps/api/src/index.ts:679-735 | decides a pending, unexpired approval of the caller's project if it is still pending |
| Approvals.ApprovalApi.ConsumeApproval | apps/api/src/index.ts:750-835 | consumes an approved, unexpired approval of the caller's project for the same gate and an equal scope if it is still approved |
| Approvals.ApprovalApi.AttachVerification | apps/api/src/index.ts:852-865 | attaches a verification to a used approval of the caller's project |
| Approvals.ApprovalApi.RecordVerification | apps/api/src/index.ts:866-874 | the verification event, as a write of its own |
| Approvals.TransactIsTheMachine | apps/api/src/index.ts:687-865 | the read and the write of a handler, with any steps of others between, end as the one call with that read; after a verification the audit write is still to come |
| Approvals.RecordIsTheMachine | apps/api/src/index.ts:866-874 | and that audit write, after any steps of others, is the call of RecordVerification |
| Completion.Reconcile | packages/reconciliation/src/engine.ts:15-81 | each conflict code is reported if and only if its condition holds, once, with the state that follows from them |
| Completion.IndexById | packages/reconciliation/src/engine.ts:38-38 | of several records with one id the last counts |
| Completion.CheckAllReferences | packages/reconciliation/src/engine.ts:43-53 | exactly the codes the references of passing verifications give rise to |
| Completion.Settle | packages/reconciliation/src/engine.ts:58-71 | state and blocking code from the record conflicts |
| Completion.OpenObligations | packages/completion/src/engine.ts:38-47 | exactly the unresolved obligations and the required ones without a current claim |
| Completion.Evaluate | packages/completion/src/engine.ts:25-154 | refuses a foreign work item; else state, ids, rationale and every residual item if and only if its condition holds |
| Completion.PassIffNoConflicts | packages/reconciliation/src/engine.ts:58-71 | PASS is the same as an empty conflict list |
| Completion.PassIffClean | packages/reconciliation/src/engine.ts:19-71 | PASS in terms of the records alone: all in scope, current and supported, everything passing, the item completed |
| Completion.PassIsNeverInsufficient | packages/completion/src/engine.ts:86-124 | after PASS completion is never EVIDENCE_INSUFFICIENT and counts every verification and all evidence |
| Completion.CompleteIff | packages/completion/src/engine.ts:53-153 | COMPLETE exactly when the snapshot of the same records is PASS, project name and objective are known, and each required obligation has a current claim |
| Completion.DecisionFollowsSnapshot | packages/completion/src/engine.ts:64-78 | without PASS the decision is BLOCKED with every conflict code as residual, or RECONCILIATION_FAILED |
| Completion.NoObligationIff | packages/completion/src/cmo.ts:22-73 | nothing is left open exactly when name and objective are known and the four required obligations are claimed |
| CompletionOutcomes.CodesAreTrue | packages/reconciliation/src/engine.ts:24-56 | each conflict code about the records is reported if and only if some record shows it: foreign, stale, failed, inconclusive, without evidence, or referring to missing or outdated evidence, the latest record of an id counting |
| CompletionOutcomes.CodesDecideState | packages/reconciliation/src/engine.ts:58-71 | the state can be read off the reported codes, for each state in both directions |
| CompletionOutcomes.StaleSnapshotFails | packages/completion/src/engine.ts:53-62 | judged by a snapshot of any other revision nothing is complete and no record is counted |
| CompletionOutcomes.ReasonsAreTrue | packages/completion/src/engine.ts:53-154 | every decision gives reasons, and each is true of the records and the snapshot |
| CompletionOutcomes.CompleteByAnySnapshotIff | packages/completion/src/engine.ts:53-154 | whatever snapshot is given: COMPLETE if and only if it is a PASS of these revisions, the item is COMPLETED, some verification is sound and none failed, name and objective are known and every required obligation is claimed |

## Left out

- HTTP routing, sessions, cookies, CSRF protection, HMAC tokens and the web front end: plumbing and user interface.
- Prisma and PostgreSQL: rows are maps with stale reads and atomic conditional updates; row locks, deadlocks, foreign keys and partial indexes are not visible, and a rejected insert is an error without effect.
- SHA-256 and `JSON.stringify`: the hash is any function of the record's fields, injective where a theorem says so; scopes are compared as canonical trees.
- The regular expressions and string work of the action classifier, the guards, the redactors and provider output parsing: class sets, guard verdicts and redaction are inputs.
- Agent adapters, the Python bridge, the IPC server, child processes, timers and polling intervals: an adapter call is a nondeterministic outcome, a poll a given status.
- The structured git adapter, the multi-agent router, the blueprint runner, the static tool policy, traceability queries and reconstructors: request, routing and query code beside these protocols, with no state of theirs.
- Brand symbols and private constructors: only trusted issuers create owner events and reconciliation outcomes.
- The gateway's legacy policy evaluator and a gateway without a grant consumer: no grants are involved. A policy evaluation that throws ends the call before anything happens.
- Gateway.AtMostOnce: an owner event is applied again only while no action is in flight or settled under its grant; Gateway.ReapplicationSafeIffIdle shows that this is exactly what is needed.
- Gateway.AuthorityConserved: `OWNER_IMPLEMENTATION_APPROVED` is multi-use and exempt.
- WorkStore.OneActiveAttempt: a work item is created without a current attempt; `startedAt`, `endedAt` and the agent fields other than the run id are not kept.
- RunCoordinator.LedgerIsLegal: an append succeeds or throws without effect, and a throw ends the session; each run id has one fresh execute followed by sequential resumes.
- DurableQueue.ExactlyOnceInOrder: a positive batch size and a non-negative retry count.
- DurableQueue.NoLostWakeup: a failing scheduled flush's release and its `finally` block are one step, since no other callback runs between them.
- Restart.FlushedRestartIsInvisibleIff: no other process writes to the table meanwhile; redaction, ids and timestamps of the continuation are the same on both sides.
- Restart.RestartedRunsVerifyIff, StoredChains.FlushedRowsVerifyIff, Logs.FlushedLogsVerifyIff: need an injective hash.
- HashChain.EveryOrderVerifiesIff: needs an injective hash, as tamper evidence does; without it only the direction of HashChain.VerdictIgnoresOrder remains.
- Scope.EqualIffEquivalent: numbers are compared as numbers (no NaN, infinity or negative zero), undefined occurs only as a field value, entries of `paths` are not canonicalised, so an entry that is an object with an undefined field counts as different from one without it.
- Scope.CanonicalizeIsIdempotent: a field named `__proto__` is dropped, as assigning it creates no field; the prototype it sets is not kept, so a `kind` inherited from it is not seen.
- Approvals.AuditReplaysToStatus: the approval row and its audit event are written together, since they share a transaction; only the verification event is a separate write. Default values for absent actors are given by the caller.
- Completion.Evaluate: ids, descriptions, the clock and saving the decision are left out; residual items carry what the descriptions name.
