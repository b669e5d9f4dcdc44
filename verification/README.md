# Verified model of the shared persistence and audit protocol

This project models, in Dafny, the part of the repository where several workers share
transactional state, and proves what holds over every run and every interleaving.

- **The hash-chained audit log** (`AuditChain`, `AuditTrails`, `AuditVerifiers`): events, their
  links, the singleton head row, append, caller-owned append, rollback, clear, import, export, and
  the four checks of a chain. SHA-256 is an arbitrary function to 64 hexadecimal characters and
  canonical JSON an arbitrary partial function to bytes; neither is assumed injective, so binding is
  proved in the form "equal, or here are two inputs with one digest".
- **Claim, fence and finalise** (`ClaimProtocol`, `LegacyClaims`, `FailureBridge`, `CrashRecovery`):
  the `audit_idempotency` table, its leases and fencing tokens, the bridge that claims and records
  the events of one trace, and the transition systems of the shared and of the legacy mode.
- **Two optimistic-concurrency stores** (`Orders`, `ActionPlans`, `PlanStore`, `PlanLifecycle`;
  `Documents`, `GitOps`, `GitOpsRegistry`, `GitOpsShared`, with `Histories` for both): action plans with
  compare-and-swap on status and tenant, GitOps change sets with compare-and-swap on the payload text,
  each committing its audit event in the same transaction. The payload text comes from a JSON writer and
  reader of which only this is assumed: what is written reads back, key order included, and what is read
  repeats no key (`Documents.Lossless`).
- **Import and reconciliation** (`PersistenceImport`), **the execute/verify bridge**
  (`ExecutionVerification`), **the request limiter** (`RateLimit`) and **the request size limit**
  (`RequestLimits`).

Code that changes state in place is a class whose methods are proved equal to functions of the old
state; the theorems are about those functions. A transition system has one step per committed
transaction. What a clock, a random token, a worker or a failure may do is a parameter of the step,
so "every sequence of steps" covers every interleaving, crash, abort and clock reading; a step that
is not enabled does nothing. The run theorems start from any good database, one that the importer has
filled included, and those of the legacy mode from any tables at all; they say what a run adds to it.
`GrownFrom` means that every row a log gained carries all event fields under a link that recomputes, so
the whole chain verifies exactly when the rows it started from do.

## Where the code differs from what one might expect

The model follows the code in these places, and says so with a lemma:

- `PolicyEngine.evaluate` returns any plan, a rejected or succeeded one included, to pending
  approval (`PlanLifecycle.OnlyEvaluationReopens`).
- `GitOpsEngine.apply` fails a change set with duplicated targets from every status, can re-apply
  one that needs no approval, and on a real (not dry) run reports a failure that it does not store
  (`GitOps.ApplyIsNotGuardedByStatus`).
- The stored-chain diagnostics rebuild each event through the `AuditEvent` constructor, while the
  reconciler's check hashes the stored JSON; they part ways on rows with unknown or missing keys
  (`AuditVerifiers.UnknownOrMissingKeysDivide`, `AuditVerifiers.MissingOptionalKeysDivide`). So a source
  log whose rows leave out optional fields can be imported and then not reconcile;
  `PersistenceImport.IncompleteSourceNeedNotLink` is one, and `PersistenceImport.ImportReconciles` and
  `PersistenceImport.CompleteSourcesReconcile` give the exact condition. Such an import still leaves the head row consistent and appends possible
  (`AuditChain.HeadHoldsInEveryRun`).
- The reconciler compares whole source rows, so it also reports every source table that has a
  column beyond the required ones.
- `encode(decode(payload)) == payload` holds for a stored payload text that decodes exactly when its
  document is canonical and the text is what the writer makes of it (`GitOps.TextRoundTripsIffCanonical`,
  `GitOps.EncodeInvertsDecodeIffCanonical`). It fails for missing or further keys, for keys in another
  order, for the status "proposed" on a change set that needs approval, and for other spacing or escapes
  (`GitOps.ShorterPayloadIsCompleted`, `GitOps.ReorderedPayloadIsRewritten`,
  `GitOps.ProposedPayloadIsRewritten`, `GitOps.SpacedPayloadIsRewritten`). The shared registry compares
  stored text with re-encoded text, so a row with such a payload, which the importer accepts and keeps
  verbatim, loads but is never updated: whatever the engine does to it is refused as modified by another worker
  (`GitOpsShared.UpdatesNeedCanonicalText`, `GitOpsShared.SpacedRowIsFrozen`). The legacy registry
  compares nothing and updates it (`GitOpsRegistry.GitOpsChangeSetRegistry.Load` admits every text that
  decodes).
- `execute_and_verify` can leave a plan executing in exactly four ways: an executor that leaves it so
  and returns no result, one that leaves it so and answers for another plan, an injected verifier that
  leaves it so and returns no plan, and one that returns with the plan still executing, in which case the
  call goes on normally (`ExecutionVerification.NeverStuck`, `ExecutionVerification.StuckWays`). The last
  read of the audit trail is under no handler: when it fails the call raises although the plan has
  succeeded and both events are recorded. Verifying a plan that has already succeeded, as a caller may
  then try, moves it into recovery (`ExecutionVerification.FailedReadCostsSuccess`,
  `ExecutionVerification.VerifyingAgainUndoesSuccess`).
- The two events of one trace always name the same action, but the recovery event loses an action type or
  resource that only the top level of the trace's evidence gives
  (`FailureBridge.BothEventsNameTheAction`).
- The size limit parses the declared length but never compares it with the number of bytes that
  arrive; the contract of `RequestLimits.Handle` shows that it only acts as an early refusal.

## Model

| member | source | states |
|---|---|---|
| AuditChain.AppendKeepsHead | backend/autonomy/persistent_audit_trail.py:135-176 | on a good log an append succeeds exactly when the event is recordable, never reports an inconsistent head, adds exactly that event under a link that recomputes, and leaves a good log |
| AuditChain.EventReadsBack | backend/autonomy/audit.py:62-115 | reading a stored event key by key gives back the recorded event: every text, the timestamp, the details and the actor |
| AuditChain.AppendReadsBack | backend/autonomy/persistent_audit_trail.py:135-202 | whatever the log held, a successful append adds one row at the end, and whenever that row is read it says exactly the event |
| AuditChain.BlankEventsAreRefused | backend/autonomy/audit.py:62-95 | an event is refused as invalid exactly when one of its seven texts, or the actor it names, is blank |
| AuditChain.RebuiltEventIsRead | backend/autonomy/persistent_audit_trail.py:199-202 | what the diagnostics rebuild from a row is the dictionary of the event that reading the row constructs, defaults included |
| AuditChain.LogTellsItsEvents | backend/autonomy/persistent_audit_trail.py:85-320 | in every run the log says, row by row and in order, exactly the events whose recording succeeded since the last clear or import, a caller's transaction with all of its events or none |
| AuditChain.AppendAllKeepsHead | backend/autonomy/persistent_audit_trail.py:85-94 | any number of appends inside one caller-owned transaction keep the head invariant and add rows that recompute, or abort as a whole |
| AuditChain.StepKeepsHead | backend/autonomy/persistent_audit_trail.py:85-320 | every single step, an import included, keeps the head invariant and the link of the rows to their origin |
| AuditChain.GrownLinks | backend/autonomy/audit.py:54-60 | a grown log links, and is complete, exactly when its origin is |
| AuditChain.HeadHoldsInEveryRun | backend/autonomy/persistent_audit_trail.py:135-176 | after every sequence of appends, caller transactions, rollbacks, clears and imports of anything the importer accepts, sequences are 1..n, the head row is the tail, the next append cannot meet the inconsistency guard, every row recorded since the log's origin recomputes, and the whole chain does exactly when its origin (imported or initial rows) does |
| AuditChain.SplitIsUnique | backend/autonomy/audit.py:54-60 | hex prefix, NUL and canonical bytes can be split apart in only one way |
| AuditChain.LinkBinds | backend/autonomy/audit.py:54-60 | equal hash inputs mean equal previous hashes and equal canonical events |
| AuditChain.FindCollision | backend/autonomy/audit.py:54-60 | the walk back from two equal final hashes returns, if anything, two distinct inputs with one digest |
| AuditChain.FinalHashBindsTheChain | backend/verify_audit_chain.py:26-71 | two verified chains with one final hash have the same number of events, and the same canonical event and hash at every position, unless the walk exhibits a collision |
| AuditChain.CompleteEventIsItself | backend/autonomy/persistent_audit_trail.py:200-202 | rebuilding an event that carries every field gives back the stored JSON, whatever the clock |
| AuditTrails.PersistentAuditTrail.constructor | backend/migrations/versions/0002_audit_chain_head_lock.py:28-41 | head rows seeded from the existing rows put a contiguous log of digests into the head invariant |
| AuditTrails.PersistentAuditTrail.AppendWithLockedHead | backend/autonomy/persistent_audit_trail.py:135-176 | the locked append computes exactly the specified append, adds one row that says exactly the event, and changes nothing when it raises |
| AuditTrails.PersistentAuditTrail.Record | backend/autonomy/persistent_audit_trail.py:96-133 | record is one append step of the log, error cases included; when it succeeds the last row says exactly the event |
| AuditTrails.PersistentAuditTrail.RecordInCallerTransaction | backend/autonomy/persistent_audit_trail.py:85-94 | appends in a caller's transaction take effect together when it commits and not at all otherwise |
| AuditTrails.PersistentAuditTrail.ClearAll | backend/autonomy/persistent_audit_trail.py:281-320 | clearing empties the rows and resets the head |
| AuditTrails.AuditTrail.Record | backend/autonomy/audit.py:62-115 | the in-memory trail stays intact; an event is added exactly when it is recordable |
| AuditTrails.AuditTrail.VerifyIntegrity | backend/autonomy/audit.py:126-152 | valid exactly when the two lists have one length and every link recomputes; otherwise the least broken link is reported |
| AuditVerifiers.Diagnose | backend/autonomy/persistent_audit_trail.py:204-229 | valid exactly when every rebuilt event hashes to its stored hash; first_invalid_index is the least failing row |
| AuditVerifiers.AuditChainValid | backend/verify_persistence_import.py:113-145 | accepts exactly the contiguous chains whose stored JSON recomputes every link |
| AuditVerifiers.RowLinks | backend/verify_persistence_import.py:113-145 | the per-row check accepts exactly a row whose stored JSON object hashes, over the previous hash, to the stored hash |
| AuditVerifiers.VerifiersAgree | backend/autonomy/persistent_audit_trail.py:204-229 | on rows that carry every field, diagnostics accept exactly the linked chains at any time, and with contiguity that is what the importer demands |
| AuditVerifiers.UnknownOrMissingKeysDivide | backend/autonomy/persistent_audit_trail.py:200-229 | a linked row with an unknown or a missing required key is rejected by the diagnostics |
| AuditVerifiers.MissingOptionalKeysDivide | backend/verify_persistence_import.py:113-145 | a row without an optional key passes both checks only if it and the event rebuilt from it share a canonical form, or their hash inputs collide |
| AuditVerifiers.GrownKeepsDiagnostics | backend/autonomy/persistent_audit_trail.py:204-229 | at any time the diagnostics accept a grown log exactly when they accept its origin |
| AuditVerifiers.DiagnosticsIgnoreTheClock | backend/autonomy/persistent_audit_trail.py:200-229 | on rows with timestamps the diagnostics do not depend on when they run |
| AuditVerifiers.Export | backend/autonomy/persistent_audit_trail.py:231-272 | the export succeeds exactly when the diagnostics pass and lists every row with its previous hash |
| AuditVerifiers.VerifyExport | backend/verify_audit_chain.py:14-71 | for any JSON at all, verified exactly when header, every row and the final hash are consistent; a rejected row is the first bad one |
| AuditVerifiers.VerifyRow | backend/verify_audit_chain.py:33-66 | one exported row passes exactly when it continues a chain with the given tail |
| AuditVerifiers.ExportOfLogVerifies | backend/autonomy/persistent_audit_trail.py:231-272 | the export of a contiguous log that passes the diagnostics passes the offline verifier |
| AuditVerifiers.AcceptedExportIsAChain | backend/verify_audit_chain.py:14-71 | whatever the offline verifier accepts is a contiguous linked chain ending in the stated final hash |
| AuditVerifiers.ReachableLogExportVerifies | backend/autonomy/persistent_audit_trail.py:231-272 | the diagnostics accept a reachable log at a given time exactly when they accept its origin, always so for empty or timestamped imported origins, and the export then passes the offline verifier |
| ClaimProtocol.PersistentAuditIdempotencyStore.constructor | backend/autonomy/persistent_audit_idempotency.py:34-58 | the lease is at least one second |
| ClaimProtocol.PersistentAuditIdempotencyStore.ClaimReadThenInsert | backend/autonomy/persistent_audit_idempotency.py:306-359 | the SQLite claim yields the one specified row and answer from every state: a conflict exactly for a row with other evidence, a refusal exactly for an emitted or leased one |
| ClaimProtocol.PersistentAuditIdempotencyStore.ClaimInsertThenRead | backend/autonomy/persistent_audit_idempotency.py:236-304 | the shared-SQL claim yields the same row, answer, conflict and refusal as the SQLite one |
| ClaimProtocol.PersistentAuditIdempotencyStore.ClaimEvent | backend/autonomy/persistent_audit_idempotency.py:213-234 | blank identifiers are refused without touching the table; otherwise the stripped key is claimed, in either mode alike, with a conflict or a refusal exactly where the stored row calls for it |
| ClaimProtocol.PersistentAuditIdempotencyStore.MarkEmitted | backend/autonomy/persistent_audit_idempotency.py:361-402 | blank arguments are refused in order without touching the table; otherwise exactly the stripped key's pending row held under the stripped token is marked |
| ClaimProtocol.PersistentAuditIdempotencyStore.MarkEmittedWithAudit | backend/autonomy/persistent_audit_idempotency.py:131-211 | blank arguments, stores off shared SQL and different databases are refused in that order untouched; otherwise the answer is true exactly for a row held under the token, append and status change commit together, and the last log row says the event |
| ClaimProtocol.ClaimContract | backend/autonomy/persistent_audit_idempotency.py:236-304 | a claim touches its own key only, never changes evidence or an emitted row, and is granted exactly when the row is absent, or pending with equal evidence and either its own token or an expired lease |
| ClaimProtocol.ClaimAnswers | backend/autonomy/persistent_audit_idempotency.py:236-359 | the three answers, each with its exact condition: a conflict for a row with other evidence, a refusal for an emitted row or one leased under another token, otherwise a grant that writes the row afresh unless the token holds it |
| ClaimProtocol.FinalisationAnswers | backend/autonomy/persistent_audit_idempotency.py:177-211 | false exactly for a row not held under the token, an error exactly when the append fails, and otherwise true with the appended log and that one row emitted |
| ClaimProtocol.ExactlyOncePerEmission | backend/autonomy/persistent_audit_idempotency.py:131-304 | from any table and log, over every interleaving of claims, crashes, re-claims and late finalisations with arbitrary clocks, a key gains one event exactly when its row turns emitted, with the stored evidence and a link that recomputes |
| ClaimProtocol.ExactlyOnce | backend/autonomy/persistent_audit_idempotency.py:131-304 | in a database used by the protocol alone the log holds one event for a key exactly when its row is emitted, every event carries the stored evidence, and the chain verifies if it did at first |
| ClaimProtocol.NothingIsUndone | backend/autonomy/persistent_audit_idempotency.py:131-304 | emitted rows are final, evidence never changes, and the log only grows |
| ClaimProtocol.EmissionNeedsTheToken | backend/autonomy/persistent_audit_idempotency.py:177-211 | a step that makes a row emitted is a finalisation under the row's current token, which no other worker holds |
| ClaimProtocol.StaleTokenChangesNothing | backend/autonomy/persistent_audit_idempotency.py:177-211 | finalising with an outdated token changes neither log nor table |
| ClaimProtocol.OnlyTheCurrentHolderFinalises | backend/autonomy/persistent_audit_idempotency.py:177-211 | both facts in every reachable state |
| LegacyClaims.SpacedSpan | backend/autonomy/persistent_audit_idempotency.py:338-357 | n claim times spaced by a lease span at least n - 1 leases |
| LegacyClaims.GrantKeepsClaims | backend/autonomy/persistent_audit_idempotency.py:306-359 | a grant keeps every key's claim times a lease apart, whatever the clock says, the last of them being the stored claimed_at |
| LegacyClaims.FreshGrant | backend/autonomy/persistent_audit_idempotency.py:306-359 | a grant under a fresh token writes the claim at the time of the call, over a pending row only and only a lease after its claimed_at |
| LegacyClaims.LegacyMarkIsFenced | backend/autonomy/persistent_audit_idempotency.py:361-402 | marking touches its own row only, and only while that is pending under the holder's token |
| LegacyClaims.RecordedIsPaid | backend/autonomy/idempotent_failure_audit.py:88-111 | every recorded event uses up one grant of its key |
| LegacyClaims.AtLeastOnceWithinTheLeases | backend/autonomy/idempotent_failure_audit.py:88-111 | from whatever rows and events the legacy tables hold: a row emitted since has an event recorded since, the events recorded for a key never outnumber the grants made for it, and (grants - 1) leases fit between the first and the last claimed_at, the stored one included |
| FailureBridge.BothEventsNameTheAction | backend/autonomy/idempotent_failure_audit.py:135-234 | the two events of a trace always agree on the action and its former status; on type and resource exactly where the recovery evidence names them or the trace adds nothing to the defaults; on the new status exactly where the recovery evidence names it or the recovery ended as the run did |
| FailureBridge.EventFieldsAreChosen | backend/autonomy/idempotent_failure_audit.py:135-183 | which source each field of an event takes: the first that gives it, else the default |
| FailureBridge.TraceEmissions | backend/autonomy/idempotent_failure_audit.py:184-219 | a trace raises exactly for an unhashable recovery outcome; otherwise it emits autonomous_run_failed exactly for a failed run and autonomous_run_recovery_completed for any other, and recovery_failed or recovery_completed after it exactly for a known recovery outcome, each with evidence of this run and that outcome |
| FailureBridge.JobsAreDrawn | backend/autonomy/idempotent_failure_audit.py:49-87 | each iteration takes its token, its clock reading and its event's timestamp from its own draw |
| FailureBridge.BareTraceIsRecordable | backend/autonomy/idempotent_failure_audit.py:135-219 | a trace that says nothing of an action still yields only events the audit trail accepts |
| FailureBridge.TraceJobsAreWellFormed | backend/autonomy/idempotent_failure_audit.py:184-219 | every trace yields one or two events under distinct keys of its own run id, each reporting the evidence claimed for it |
| FailureBridge.IdempotentFailureAuditBridge.RecordJob | backend/autonomy/idempotent_failure_audit.py:49-87 | one iteration claims and, if granted, finalises with the audit append |
| FailureBridge.IdempotentFailureAuditBridge.RecordJobs | backend/autonomy/idempotent_failure_audit.py:49-120 | the loop performs the iterations in order, stops at the first that raises, and collects emitted and skipped events |
| FailureBridge.IdempotentFailureAuditBridge.Record | backend/autonomy/idempotent_failure_audit.py:29-120 | record on any trace; a blank run id or an unhashable recovery outcome changes nothing; when it returns, emitted and skipped together hold each event of the trace once, named after the run's and the recovery's outcome, the emitted ones' rows emitted and the skipped ones' rows as before, all storing evidence of this run with that outcome |
| FailureBridge.OneFate | backend/autonomy/idempotent_failure_audit.py:49-87 | one iteration raises for a row with other evidence, skips exactly an emitted or leased row, and emits exactly otherwise when its event can be appended |
| FailureBridge.RecordedMeans | backend/autonomy/idempotent_failure_audit.py:29-120 | record that returns met no row with other evidence; it reports as skipped exactly the emitted or leased kinds, whose rows store this very evidence unchanged, and as emitted the others, whose rows are now emitted under it; it never touches another key |
| FailureBridge.RecordsExactlyWhenAllPass | backend/autonomy/idempotent_failure_audit.py:29-120 | on a good log record returns exactly when no job meets other evidence and each is skipped or has a recordable event |
| CrashRecovery.CompletesExactlyWhenReady | backend/autonomy/idempotent_failure_audit.py:29-120 | record returns with every key emitted under the given evidence if and only if each job was ready; emitted and skipped then split the trace by what was already emitted, and no other key is touched |
| CrashRecovery.ReplayChangesNothing | backend/autonomy/idempotent_failure_audit.py:29-120 | replaying a completed trace changes nothing and skips everything |
| CrashRecovery.RecordIsARun | backend/autonomy/idempotent_failure_audit.py:29-120 | whatever record does is a run of the transition system, so the safety theorems cover it |
| CrashRecovery.RecoveryCompletes | backend/autonomy/idempotent_failure_audit.py:29-120 | from every reachable state one uninterrupted record, a lease past the last claims and with agreeing evidence, completes; a further replay changes nothing |
| Orders.InOrderIsUnique | backend/autonomy/action_plan_store.py:294-323 | a read ordered by distinct creation orders has only one possible result |
| Orders.ScopedLoadIsFilter | backend/autonomy/action_plan_store.py:294-323 | a load restricted to some rows is the order-preserving filter of the full load |
| ActionPlans.EvaluatePolicy | backend/autonomy/policy_engine.py:7-26 | every risk level leads to pending approval, from any status |
| ActionPlans.ApprovePlan | backend/autonomy/approval.py:7-16 | approves exactly pending plans; the approver is stored and any reason cleared |
| ActionPlans.RejectPlan | backend/autonomy/approval.py:18-29 | rejects exactly pending plans with a non-blank decider and reason; the decider is the stripped first, the reason the stripped second argument |
| ActionPlans.CancelPlan | backend/autonomy/approval.py:31-42 | cancels exactly pending plans; the decider is the stripped argument, or none for an empty or missing one |
| ActionPlans.DecisionsAreRecorded | backend/autonomy/approval.py:7-42 | for every operation the exact condition of admission and, field by field, the one plan it leaves: status, who decided, why |
| ActionPlans.DecisionsAreAttributed | backend/autonomy/approval.py:7-42 | decisions keep the proposal, and a rejection always names a trimmed, non-empty decider and reason |
| ActionPlans.ExecutePlan | backend/autonomy/executor.py:42-77 | executes exactly approved, allowlisted dry runs, and otherwise leaves the plan alone |
| ActionPlans.VerifyPlan | backend/autonomy/verifier.py:8-33 | settles exactly an executing plan with a matching executing result, as succeeded or rollback required |
| PlanStore.ActionPlanStore.SaveMany | backend/autonomy/action_plan_store.py:193-273 | a batch with its audit events commits as a whole or leaves table, allocator and log untouched |
| PlanStore.SaveAnswers | backend/autonomy/action_plan_store.py:193-273 | one save is refused as modified, or as owned by another, exactly when the stored row is; otherwise it stores plan and tenant, a new row under the next order and an old one under its own, and no other row changes |
| PlanStore.BatchStoresItsPlans | backend/autonomy/action_plan_store.py:193-273 | a saved batch stores the last plan of each of its ids under the tenant, and leaves every other row as it was |
| PlanStore.SaveOneKeepsOrders | backend/autonomy/action_plan_store.py:193-273 | one save keeps orders distinct and within 1..last, and never reorders a row |
| PlanStore.OrdersHoldInEveryRun | backend/autonomy/action_plan_store.py:193-273 | over all runs of batches, repeated ids, updates and aborts included, orders stay distinct, in 1..last_created_order, and fixed |
| PlanStore.LoadsAgree | backend/autonomy/action_plan_store.py:294-323 | loads are deterministic, later loads keep the order of earlier ones, and a tenant-scoped load is the filter of the full one |
| PlanLifecycle.PlanEndpoints.Act | backend/autonomy/api.py:463-626 | an endpoint commits plan and event together, the plan decided as the operation demands, or restores the plan it changed in place |
| PlanLifecycle.SwapContract | backend/autonomy/action_plan_store.py:193-273 | a successful compare-and-swap met the expected status and owner and changed that row only |
| PlanLifecycle.RunKeepsInv | backend/autonomy/api.py:133-199 | in every state reached from a good database the histories match the table, rows keep order and owner, and the log gains rows that recompute |
| PlanLifecycle.HistoriesArePaths | backend/autonomy/api.py:133-241 | from any good database, under every interleaving of stale workers, the events each plan gains form one legal path from its former status ("none" for a new plan) to the stored status, and every success directly follows an approval |
| PlanLifecycle.UncontendedActCommits | backend/autonomy/api.py:463-626 | in every reachable state a read and action with nobody in between commits exactly when the plan admits it, its event is recordable and the request writes the stored owner; the row then holds the decided plan, field by field, and the last log row says its event; otherwise nothing changes |
| PlanLifecycle.DecisionIsLegal | backend/autonomy/api.py:226-241 | each decision's audit event names a legal transition of that plan from its old to its new status |
| PlanLifecycle.TransitionEventSays | backend/autonomy/api.py:226-241 | the event of a transition names plan, resource, both statuses, principal, time and tenant, and is called after the status the plan moved to |
| PlanLifecycle.CreationEventSays | backend/autonomy/api.py:176-193 | the same for the event of a new plan |
| PlanLifecycle.CreationIsTold | backend/autonomy/api.py:176-199 | creating fresh plans commits exactly when their events can all be recorded; they are then stored in the planner's order under the request's tenant, and the log says that each was created |
| PlanLifecycle.OnlyEvaluationReopens | backend/autonomy/policy_engine.py:7-26 | of all operations only evaluation applies to a decided plan, and it leads back to pending approval |
| Histories.AppendExtendsHistory | backend/autonomy/persistent_audit_trail.py:135-176 | an append extends exactly the histories its event belongs to |
| GitOps.GitOpsChangeSet.ApproveSet | backend/autonomy/gitops.py:73-83 | approves exactly pending change sets with a non-blank approver, who is stored |
| GitOps.GitOpsChangeSet.RejectSet | backend/autonomy/gitops.py:85-99 | rejects exactly pending change sets with a non-blank decider and reason, each stored under its own metadata key |
| GitOps.GitOpsChangeSet.Validate | backend/autonomy/gitops.py:164-187 | reports exactly the changes that repeat an earlier target; no error means non-empty and pairwise distinct targets |
| GitOps.GitOpsChangeSet.ApplySet | backend/autonomy/gitops.py:206-269 | result and stored status of every apply: success exactly for a dry run of an unrejected, approved where needed, non-empty change set with distinct targets |
| GitOps.GitOpsChangeSet.VerifySet | backend/autonomy/gitops.py:271-302 | verifies exactly an applied change set; true and verified exactly when no observation was given or every change's desired value was observed under type/id/field, else false and failed |
| GitOps.CreatedIsSound | backend/autonomy/gitops.py:127-162 | creation fails only for a blank source or no changes; what it returns is constructed and sound, awaits approval exactly if it needs one, names no approver, keeps source, changes, metadata and message, and has an id that depends on source and changes only |
| GitOps.PerformKeeps | backend/autonomy/gitops.py:73-302 | every operation keeps identity, construction and soundness (needed approvals, distinct targets), and leaves pending approval for good when it decides |
| GitOps.OperationsDoTheirWork | backend/autonomy/gitops.py:73-302 | for every operation the exact condition of admission and what it leaves of each field: the approver of an approval, who rejected and why, the status after apply by targets, approval and mode, and the status after verify by what was observed |
| GitOps.ApplyDoes | backend/autonomy/gitops.py:206-269 | success, status and number of applied changes of an apply, from the change set alone |
| GitOps.RejectionIsRecorded | backend/autonomy/gitops.py:85-99 | a rejection adds its two metadata entries and changes no other |
| GitOps.ApplyIsNotGuardedByStatus | backend/autonomy/gitops.py:206-269 | apply fails duplicated targets from any status, re-applies what needs no approval unless rejected, and its non-dry failure is not stored |
| GitOps.DecodeInvertsEncode | backend/autonomy/gitops_registry.py:109-134 | decoding an encoded change set gives it back, metadata order included |
| GitOps.EncodeIsInjective | backend/autonomy/gitops_registry.py:109-116 | equal payload documents mean equal change sets |
| GitOps.DecodedIsConstructed | backend/autonomy/gitops_registry.py:117-134 | whatever decodes satisfies the constructors |
| GitOps.EncodeInvertsDecodeIffCanonical | backend/autonomy/gitops_registry.py:109-134 | re-encoding a decoded document gives it back, order included, if and only if it has the encoder's keys in its order and not a status the constructor rewrites |
| GitOps.TextCodecIsFaithful | backend/autonomy/gitops_registry.py:109-134 | over any lossless JSON writer and reader, encoded texts decode to their change set and decoded ones satisfy the constructors |
| GitOps.PayloadIsInjective | backend/autonomy/gitops_registry.py:109-116 | equal payload texts mean equal change sets |
| GitOps.TextRoundTripsIffCanonical | backend/autonomy/gitops_registry.py:109-134 | re-encoding what a payload text decodes to gives the text back if and only if its document is canonical and the text is what the writer makes of that document |
| GitOps.ReorderedPayloadIsRewritten | backend/autonomy/gitops.py:101-111 | the encoder's entries in any other order decode to the same change set and do not encode back |
| GitOps.ProposedPayloadIsRewritten | backend/autonomy/gitops.py:57-67 | a pending change set stored as proposed decodes and does not encode back to its payload |
| GitOps.ShorterPayloadIsCompleted | backend/autonomy/gitops_registry.py:109-134 | a payload without its optional message decodes and does not encode back to itself |
| GitOps.SpacedPayloadIsRewritten | backend/autonomy/gitops_registry.py:109-134 | a text with white space in front has a canonical document and decodes, and does not encode back to itself (section 2 of RFC 8259) |
| GitOps.SomePayloadsAreNotCanonical | backend/autonomy/gitops_registry.py:109-134 | two concrete documents that decode and do not encode back: one stored as proposed, one with "changes" before "status" |
| GitOpsRegistry.GitOpsChangeSetRegistry.NextOrder | backend/autonomy/gitops_registry.py:339-351 | one more than the largest order in the table, or one |
| GitOpsRegistry.GitOpsChangeSetRegistry.Persist | backend/autonomy/gitops_registry.py:339-351 | an upsert keeps an existing row's order and gives a new one the next; a failing write changes nothing |
| GitOpsRegistry.GitOpsChangeSetRegistry.Register | backend/autonomy/gitops_registry.py:353-388 | registers exactly new ids whose write succeeds, with the encoded text as payload, names the cause of each failure, and keeps registry and table in step |
| GitOpsRegistry.GitOpsChangeSetRegistry.Perform | backend/autonomy/gitops_registry.py:477-645 | approve, reject, apply and verify take effect in registry and table, or in neither, and each failure has its exact cause |
| GitOpsRegistry.GitOpsChangeSetRegistry.WriteBack | backend/autonomy/gitops_registry.py:315-337 | a failing write puts the previous live change set back |
| GitOpsRegistry.Mutated | backend/autonomy/gitops.py:189-302 | the in-place engine does exactly what the engine functions say: it raises exactly where the operation is not admitted and otherwise leaves each field as the operation demands |
| GitOpsRegistry.GitOpsChangeSetRegistry.Load | backend/autonomy/gitops_registry.py:60-75 | starting on a table whose texts decode under their own ids leaves the table as it is and the registry in step with it |
| GitOpsRegistry.RebuildIsRegistry | backend/autonomy/gitops_registry.py:60-75 | reading a table in step decodes, entry by entry, to the live registry |
| GitOpsRegistry.RestartRebuildsRegistry | backend/autonomy/gitops_registry.py:60-75 | after every operation a restart rebuilds the same change sets in the same order |
| GitOpsShared.SharedGitOpsRegistry.InsertLocked | backend/autonomy/gitops_registry.py:211-251 | row, order and event commit together, or nothing changes; the row stores the encoded text under the metadata's owner, and the last log row says the event |
| GitOpsShared.SharedGitOpsRegistry.UpdateLocked | backend/autonomy/gitops_registry.py:281-313 | an update commits with its event exactly when the stored text and owner are those of the change set read before; a missing and a modified row each have their own answer |
| GitOpsShared.RunFacts | backend/autonomy/gitops.py:73-302 | every version of a run is constructed, of one identity, and sound if the first is |
| GitOpsShared.VersionsAreDone | backend/autonomy/gitops.py:73-302 | every committed version is what its operation does to the version before; one made by verify is verified exactly if the observation shows every desired value |
| GitOpsShared.NeverPendingAgain | backend/autonomy/gitops.py:73-302 | once out of pending approval, never back |
| GitOpsShared.ReportsArePaths | backend/autonomy/gitops_registry.py:477-645 | the audit history of a run is a linked path with at most one approval or rejection |
| GitOpsShared.SwapMeetsCurrent | backend/autonomy/gitops_registry.py:281-313 | a swap that passes the text check was made against the current version |
| GitOpsShared.SwapNeedsOpening | backend/autonomy/gitops_registry.py:281-313 | a swap succeeds only against a row whose text decodes to a change set encoding back to that very text |
| GitOpsShared.TenantIsOwner | backend/autonomy/gitops_registry.py:137-140 | the tenant column of a change set is the text in its metadata, and none for anything else |
| GitOpsShared.ChangeEventsSay | backend/autonomy/gitops_registry.py:477-645 | the events of registration and operations name change set, statuses, principal, time and details |
| GitOpsShared.EventNamesTellTheOutcome | backend/autonomy/gitops_registry.py:477-645 | every event is named after its operation and how that ended |
| GitOpsShared.CommittedHistoriesAreRuns | backend/autonomy/gitops_registry.py:281-313 | from any good database, under every interleaving, the committed versions of a change id are a run of the engine from its former version or its registration, each what its operation does to the one before, the entries its history gained report them one by one as a path with at most one decision, the stored text decodes to the last, sound if the first was, and the tenant column names its owner; a row that stands for no change set never changes |
| GitOpsShared.UncontendedUpdateCommits | backend/autonomy/gitops_registry.py:281-313 | in every reachable state, a load and action with nobody in between on a change set registered meanwhile or found under its own encoded text commits exactly when the engine performs it and its event is recordable, and the last log row then says that event |
| GitOpsShared.UpdatesNeedOpening | backend/autonomy/gitops_registry.py:281-313 | a row of the starting database has committed versions if and only if its text is what the change set it decodes to encodes to; otherwise row and history never change |
| GitOpsShared.UpdatesNeedCanonicalText | backend/autonomy/gitops_registry.py:281-313 | with the JSON codec a decodable row of the starting database is updatable if and only if its document is canonical, its text the writer's, its tenant column the owner's and its id the payload's; otherwise no run changes it |
| GitOpsShared.SpacedRowIsFrozen | backend/autonomy/gitops_registry.py:281-313 | a row whose text has white space in front loads, has a canonical document, and is never changed by any run |
| PersistenceImport.ValidateCreationOrders | backend/import_legacy_persistence.py:154-163 | accepts exactly distinct positive integers |
| PersistenceImport.ValidateSources | backend/import_legacy_persistence.py:64-151 | accepts exactly the sources that meet every stated check |
| PersistenceImport.CheckClaim | backend/import_legacy_persistence.py:98-122 | the importer's checks of one claim, in its order, accept exactly a valid one |
| PersistenceImport.CheckPlan | backend/import_legacy_persistence.py:116-130 | the same for one plan |
| PersistenceImport.CheckChange | backend/import_legacy_persistence.py:133-150 | the same for one change set |
| PersistenceImport.ValidRowsFitTheSchema | backend/import_legacy_persistence.py:98-163 | what is accepted fits the columns of the shared tables, every payload names its row, and a pending claim has a token |
| PersistenceImport.ReadOwner | backend/import_legacy_persistence.py:286-287 | the owner is the tenant_id of the payload's metadata, read exactly when that is an object or falsy |
| PersistenceImport.TargetsAreOwned | backend/import_legacy_persistence.py:283-300 | the importer writes each change set under the owner its payload names, and under none otherwise |
| PersistenceImport.ImportedOwnerIsTheRegistrys | backend/import_legacy_persistence.py:283-300 | for a payload that the shared registry decodes, the imported tenant column is the one the registry itself would write |
| PersistenceImport.MaxOrderBounds | backend/import_legacy_persistence.py:166-196 | the recorded maximum bounds all orders and is one of them |
| PersistenceImport.ImportTarget.DryRunOrImport | backend/import_legacy_persistence.py:231-336 | each outcome's exact condition; only a committed import changes the target, a dry run or a failure at any statement changes nothing, and a committed import is remembered, so that running it again answers already imported |
| PersistenceImport.Reconcile | backend/verify_persistence_import.py:148-243 | refuses an invalid source chain or an unreadable target owner; otherwise the result holds each mismatch exactly when target and sources differ in that respect |
| PersistenceImport.NoMismatchIsAgreement | backend/verify_persistence_import.py:148-243 | an empty result means agreement of rows, tenants, heads and ledger, and the other way round |
| PersistenceImport.ReadIsUnique | backend/verify_persistence_import.py:103-110 | an ordered read of a table returns its strictly ascending list and nothing else |
| PersistenceImport.ImportReconciles | backend/verify_persistence_import.py:148-243 | importing valid sources is an import step of the log and establishes the head and allocator invariants; reconciliation then finds nothing if and only if the stored events link and no table has extra columns |
| PersistenceImport.CompleteSourcesReconcile | backend/verify_persistence_import.py:148-243 | unless some row cannot be told apart from the event rebuilt from it, exactly the complete sources without extra columns reconcile |
| PersistenceImport.IncompleteSourceNeedNotLink | backend/import_legacy_persistence.py:64-151 | a concrete valid source, with just the required columns, whose stored events do not link |
| ExecutionVerification.ExecutionVerificationBridge.RecordVerificationFailure | backend/autonomy/execution_verification.py:306-358 | moves exactly an executing, succeeded or failed plan, to rollback required if it has a rollback and else to failed, adds at most the one event that says so, and swallows its own audit failure |
| ExecutionVerification.ExecutionVerificationBridge.ExecuteAndVerify | backend/autonomy/execution_verification.py:53-207 | status, events and ending for every combination of injected executor, hook and verifier, each returning, returning nothing or raising with the plan in any status, of refused audit writes and of a failing last read |
| ExecutionVerification.ExecutionVerificationBridge.Verify | backend/autonomy/execution_verification.py:209-304 | the same for an execution completed elsewhere, any verifier and a failing last read |
| ExecutionVerification.NeverStuck | backend/autonomy/execution_verification.py:53-207 | an attempted plan is left executing exactly when the executor left it so and returned no result or one for another plan, or an injected verifier left it so and returned no plan, or one with which both events were recorded |
| ExecutionVerification.FailuresSettle | backend/autonomy/execution_verification.py:53-207 | after an accepted result: where the verifier returns no plan or both events are recorded the plan keeps the status the verifier left, and in the latter case the call raises exactly if the last read fails; every other call raises and settles a plan it last saw executing or settled, never as succeeded, and as failed only without a rollback |
| ExecutionVerification.LifecycleEventSays | backend/autonomy/execution_verification.py:83-101 | every event of the bridge names plan, resource, both statuses, stage, principal and time |
| ExecutionVerification.FailuresAreTold | backend/autonomy/execution_verification.py:306-358 | each handled failure belongs to one of four stages; the events are the execution's if it was recorded and, for a plan found executing or settled, one named after the stage that leads to the recovery status |
| ExecutionVerification.InjectedStatusesStand | backend/autonomy/execution_verification.py:113-141 | an unsettled status that a hook or verifier leaves on the plan stays |
| ExecutionVerification.StuckWays | backend/autonomy/execution_verification.py:53-207 | each of the four ways to stay executing occurs |
| ExecutionVerification.SuccessIsAudited | backend/autonomy/execution_verification.py:53-207 | the call returns exactly when both events were recorded and the trail could be read, and added just these; succeeded is only left with both recorded or by a verifier that returned no plan; for a verifier that reports the plan it leaves, exactly with both recorded and success reported, and the call then returns verified exactly if the last read works |
| ExecutionVerification.UndisturbedRunSucceeds | backend/autonomy/execution_verification.py:53-207 | with nothing injected an approved plan succeeds exactly when it is an allowlisted dry run whose two events are recordable, and the call then returns exactly if the trail can be read |
| ExecutionVerification.VerifyingAgainUndoesSuccess | backend/autonomy/execution_verification.py:209-304 | verifying a succeeded plan again raises and moves it into recovery |
| ExecutionVerification.FailedReadCostsSuccess | backend/autonomy/execution_verification.py:184-304 | a failing last read makes the call raise with the plan succeeded and both events recorded, and verifying again then moves it into recovery |
| RateLimit.RequestRateLimiter.Allow | backend/rate_limit.py:54-80 | answer and new buckets of one call, with move_to_end never missing its key, and a Retry-After within the window that does reach the next one |
| RateLimit.RequestRateLimiter.MoveToEnd | backend/rate_limit.py:68-79 | moves one key to the end and keeps the others in order |
| RateLimit.RequestRateLimiter.Evict | backend/rate_limit.py:59-62 | deletes exactly the buckets of earlier windows while walking a copy |
| RateLimit.ReadClock | backend/rate_limit.py:55-57 | the window of a clock reading, and a wait of 1 to window_seconds that ends in a later one |
| RateLimit.AdmitKeepsInv | backend/rate_limit.py:54-80 | one call answers as the ideal counter and keeps the tracking invariant |
| RateLimit.RefinesUnboundedCounter | backend/rate_limit.py:54-80 | after any history with non-decreasing windows the first 10000 distinct keys of a window are answered as by an unbounded counter, later keys share one allowance, and the map has at most 10001 entries |
| RateLimit.AdmittedPerWindow | backend/rate_limit.py:54-80 | exactly min(limit, calls) calls of an early key, and of all late keys together, are admitted in a window |
| RateLimit.NeverMoreThanTheLimit | backend/rate_limit.py:54-80 | no key is admitted more than limit times in a window |
| RateLimit.PrincipalKeysAreInjective | backend/rate_limit.py:93-95 | distinct tenant and subject pairs have distinct bucket keys |
| RateLimit.BucketKeysNeverCollide | backend/rate_limit.py:72-98 | principal keys, address keys and the overflow key never coincide |
| RequestLimits.NumeralsCompare | backend/request_limits.py:68-77 | comparing lengths first and bytes second compares the numbers, for numerals of any length |
| RequestLimits.ValuesInOrder | backend/request_limits.py:45-47 | header values are collected in order, and names compared without regard to ASCII case |
| RequestLimits.CheckHeaders | backend/request_limits.py:45-78 | refuses exactly ambiguous framing, and as too large exactly a declared decimal above the limit (section 8.6 of RFC 9110) |
| RequestLimits.BodyInOrder | backend/request_limits.py:80-96 | the body is every chunk's bytes in the order of arrival |
| RequestLimits.SentSettles | backend/request_limits.py:80-96 | a body sent in chunks, however it is cut up, is delivered whole, or refused as too large if it exceeds the limit |
| RequestLimits.BufferBody | backend/request_limits.py:80-96 | the buffering loop ends as the stream of messages settles |
| RequestLimits.SettlesOnce | backend/request_limits.py:80-96 | a stream settles in only one way, so exactly the concatenated chunks are delivered if and only if the stream completes within the limit |
| RequestLimits.Handle | backend/request_limits.py:40-117 | 400, 413 or forwarding of exactly the received body, each with its exact condition; a body sent in chunks is forwarded as their concatenation or answered 413 |

## Left out

- SHA-256 and JSON internals: the digest and the canonical form are abstract functions; floats are not modelled. The order of object keys and the text itself are modelled for GitOps payloads in the registries; every other text column, and the payloads as the importer and the reconciler read them, is identified with what decoding it yields (an undecodable one is `Malformed`).
- The action-plan payload codec: the payload column is the plan it encodes.
- Equality of claimed evidence is that of JSON values; the code compares decoded Python values, where `1` equals `true`, so it grants a re-claim with one over the other, and events carry the stored evidence up to that equality.
- GitOps.EncodeInvertsDecodeIffCanonical: speaks of payloads whose fields have the types the dataclasses declare; the code also decodes others, such as a null message or a number as approval flag, into objects outside those types.
- SQL dialects, isolation levels, locking clauses and connection handling: a committed transaction is one atomic step, an aborted one no step.
- Values outside their declared types, such as `verification_details` that are no mapping.
- Clocks, tokens, ids and timestamps: parameters. Token freshness is a condition of a claim step, fresh plan ids a condition of creation.
- Floating-point rounding of the limiter's clock: times are real numbers, and the limiter's calls are taken in lock order with non-decreasing windows, since the clock is read outside the lock.
- Alembic migrations: only that they seed the head row from the existing rows. Missing singleton rows and schema checks are not part of this model.
- File and SQLite opening, AWS services, routing, pydantic models, authentication and the console.
- `GitOpsChangeSetRegistry.clear` in shared mode, `_load_shared_all` caching and the plan registry's in-process cache beyond the owner it remembers.
- Messages and details: diagnostic texts, exception texts and the details of GitOps events are parameters or dropped; the log's histories are about names, ids and statuses.
- The bridge without a durable store (its in-memory `_emitted` map), and `failure_audit.py`, which writes events of the same names without claims.
- Other callers that write audit events named `plan_...`, `gitops_...` or like a bridge event: the theorems take the log to be written by the modelled steps and by unrelated events.
- Clearing the audit log while claims, plans or change sets remain: `clear` is a step of the log's own runs, not of the systems built on it.
- Aliasing: the shared registry's workers hold values, not live objects; in-place update is modelled within each operation.
- `PersistentAuditHealthChecker`: the importer's claim checks are those of `ClaimOk`.
- The limits of `int()` on very long numerals, and `ResponseSizeLimitMiddleware`.
- `DecisionIntelligenceEngine`, blast radius, simulation, cost and predictive modules, governance and resource policy, `GovernanceManager`, `IdempotencyManager`, `ApprovalExecutionBridge`, metrics and headers: scores computed in a straight line, records written once per id, and constant response headers.
- Tenant bucket paging in `backend/main.py`: at its iteration bound it fetches a page it never scans, so that no bucket is skipped is not a property of the code.
