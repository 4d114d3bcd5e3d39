# Verified models of CheeseWAF's approval, audit, rate-limit and context cores

This project models the parts of CheeseWAF whose correctness rests on invariants over many calls, and
proves what they promise for every run.

- **Approval gate** (`Approval*.dfy`, `Gate*.dfy`). Requests move between pending, approved, revoked and
  expired through Submit, two-click Confirm, Revoke and ConsumeAuthorization, with replay sets and a global
  audit log. Every call writes to a ledger of hash-chained events that may refuse, and a refused call is
  rolled back. `ApprovalGate` gives each mutex-held call as a step on values, `GateObject.LiveGate` is the
  mutable gate proved to take those steps, `GateInvariant` is the invariant and `GateTheorems`,
  `GateRestart` and `GateEquivalence` the results over whole runs.
- **AI approval store** (`ToolStore*.dfy`). Tool requests from pending to executed in a map and one file,
  with writes that fail before or after the file changed, crashes, reloads and bounded eviction.
- **Gate adapter** (`ToolAdapter*.dfy`). The bridge between the two, as a transition system over its
  critical sections: the adapter's lock is free while credentials are verified, a call in between is a
  flight, and while the lock is held other users of the store and the clock still move.
  `ToolAdapterObject.LiveAdapter` is the mutable adapter over a live gate and a live store, each section
  proved to be the step of the transition system.
- **Audit runtime** (`Audit*.dfy`). A hash-chained journal, a spool for when it is unavailable, replay, and
  the queue with its worker, Flush and Close as interleaved steps.
- **Rate limiter** (`RateLimit*.dfy`, `ExpiryHeap.dfy`, `RateLimiterObject.dfy`). Bucket objects in a map and an index-tracking heap,
  against a counter that never evicts.
- **Context budget** (`Utf8*.dfy`, `Context*.dfy`, `Selection.dfy`) and **line drawing** (`DrawLine.dfy`).

Conventions: times are nanoseconds and 0 is Go's zero time. Digests are symbolic, so a hash is the
constructor application that holds its pre-image and hashing is injective. What the outside decides (a
ledger refusal, a write fault, a verifier's verdict, a new ID, the clock) is an argument. Methods of classes
state the new state as a function of the old one; the lemmas are about those functions.

Safety results have partners that show the calls also succeed when they should (`GateProgress`,
`ToolAdapterProgress`, `AuditProgress`, `AuditQueueProgress`), and every main operation has one that says when it
succeeds, what it leaves and what a refusal means, in terms of the state and its arguments and not of the checks as
written: `GateChecks`, `GateAnswers` and `LedgerExact` for the gate and its ledger, `ToolStoreLifecycle` for the store,
`ToolAdapterAnswers` for the adapter, `AuditExact` and `AuditOutbox` for the audit core, `RateLimitExact` for the
limiter, `ContextOrder` and `Utf8Trim` for the context.

Where a promise is false of the code, the code is modelled as it is and the exact condition is proved:

- The limiter's map key joins rule ID and caller with `|`, so two rules can share a window.
  `RateLimitCollisions.CollideIffRelated` says which: those whose IDs are equal or of which one goes on with
  `|` where the other ends. `RateLimitCollisions.RefinesIffCompatible` says exactly when the limiter still is
  the fixed-window counter in every run: if and only if rules related in that way have equal windows.
  `RateLimitCollisions.SeparatorBreaks` is a pair of rules that breaks it, `RateLimitCollisions.PlainIDsRefine`
  the reading that separator-free IDs which each name one window are safe.
- Confirmation IDs are single-use among confirmations, but a pre-approved Submit takes `preapproved:` and the
  request's ID without looking whether that was used. `GateSingleUse.UsedIDRepeatsIff` says exactly which used
  IDs can authorize again, `GateSingleUse.AuthorizationsAreSingleUse` that none does in a run whose confirmation
  IDs do not begin that way.
- The audit runtime tries again after a sequence conflict, with the journal's last record as its new head. With the
  in-memory journal that helps exactly when the journal has not gone past the head: a number it has given to another
  writer's record is answered as a replay conflict, which is not tried again: `AuditExact.PassedHeadIsRefused` is such a
  case, `AuditExact.ResyncIff` the exact condition.
- The floor of 64 for ordinary messages is one below an empty assistant or developer frame:
  `ContextBudget.AssistantFrameOverflows` gives the case, `ContextBudget.PreparedFits` the exact condition.

## Model

| member | source | states |
|---|---|---|
| ApprovalRules.NormalizeIsIdempotent | internal/approval/gate.go:820-837 | a canonical confirmation language normalizes to itself, so a stored request validates again |
| ApprovalLedger.MemoryPersistence.ApplyLocked | internal/approval/persistence.go:97-143 | the mutable ledger takes exactly the step Apply: validated, idempotent, bound to the earlier record, next in sequence, chained |
| ApprovalLedger.MemoryPersistence.ApplyBatchLocked | internal/approval/persistence.go:262-286 | a batch is applied whole or the maps are put back as they were |
| ApprovalLedger.MemoryPersistence.LoadWithEventsAtEpoch | internal/approval/persistence.go:175-208 | the record and its chain, only when the chain verifies and the epoch agrees |
| ApprovalLedger.ValidatePersistedEvents | internal/approval/persistence.go:214-224 | the loop accepts exactly the gap-free chains bound to the record |
| ApprovalLedger.SealIsPersistedChain | internal/approval/persistence.go:214-224 | events bound to a request, renumbered from 1 and sealed, pass the load check |
| ApprovalLedger.LastHashDeterminesChain | internal/approval/persistence.go:248-255 | two verified chains with the same last hash are the same chain |
| GateObject.Batch | internal/approval/gate.go:408-458 | the loop of persistSince builds one mutation per event of the request, numbered on from the durable counter |
| GateObject.LiveGate.PersistSince | internal/approval/gate.go:408-458 | writes the events logged since a point, or changes neither gate nor ledger |
| GateObject.LiveGate.Submit | internal/approval/gate.go:463-503 | the gate object and its ledger take the Submit step, rolled back when the write fails; GateAnswers.SubmitIsExact says what that step answers and leaves |
| GateObject.LiveGate.Confirm | internal/approval/gate.go:505-660 | the gate object and its ledger take the Confirm step, rolled back when the write fails; GateAnswers.ConfirmIsExact says what that step answers and leaves |
| GateObject.LiveGate.DecideAndLog | internal/approval/gate.go:526-660 | rejection, expiry, checkpoint or authorization, with the one event each of them logs |
| GateObject.LiveGate.Revoke | internal/approval/gate.go:662-697 | the gate object and its ledger take the Revoke step, rolled back when the write fails; GateAnswers.RevokeIsExact says exactly which revocations pass and what they leave |
| GateObject.LiveGate.ConsumeAuthorization | internal/approval/gate.go:725-760 | the gate object and its ledger take the Consume step, rolled back when the write fails; GateAnswers.ConsumeIsExact says exactly which consumptions pass, scope and intent included |
| GateObject.LiveGate.RestoreRecord | internal/approval/gate.go:266-338 | one durable request comes back with its events renumbered and its IDs learned, or nothing changes |
| GateObject.LiveGate.Restore | internal/approval/gate.go:342-372 | all given requests come back, or the gate is as before; given none it fails, since the in-memory ledger cannot list them |
| GateWrites.KeyInjective | internal/approval/gate.go:408-458 | an idempotency key names one event of one request, whatever characters the ID holds |
| GateWrites.WriteEvents | internal/approval/persistence.go:97-143 | a batch of gate events extends the sealed chain by all of them, or fails, exactly by whether the actors are well formed |
| GateWrites.PersistExtension | internal/approval/gate.go:408-458 | a write succeeds exactly when the store is willing and the actors are valid, and then the ledger mirrors the gate |
| GateSafety.WrittenMove | internal/approval/gate.go:374-458 | a logged change of one record keeps the whole invariant, or the write fails and nothing changes |
| GateTheorems.RunKeepsInv | internal/approval/gate.go:463-760 | every run of calls keeps the invariant of records, log, replay sets and ledger |
| GateTheorems.ReachableRecordsAreValid | internal/approval/gate.go:997-1048 | every record of every reachable gate passes ValidateRecordForAdapter, is approved exactly when it has a commit, and an interactive approval was late enough, by somebody else if high-risk, at step 3 if sensitive, and is shown in the log |
| GateTheorems.LedgerMirrorsGate | internal/approval/gate.go:374-458 | after every run the ledger holds each request's record and its events renumbered from 1 and sealed |
| GateFailures.FailedWriteChangesNothing | internal/approval/gate.go:374-458 | in every reachable world a call is answered with a ledger error if and only if it gets as far as writing and the store refuses or the actor to be logged is ill formed, and then gate and ledger are exactly as they were |
| GateFailures.AdmittedActorsAreValid | internal/approval/gate.go:463-697 | an admitted request and a passed revocation name a well-formed actor, so their writes fail exactly when the store refuses |
| GateTheorems.RefusedCallChangesNothing | internal/approval/gate.go:374-458 | the same of a refusing store in any world, the two-event pre-approved batch included; what puts the state back is proved in the methods of LiveGate |
| GateTheorems.StepIsMonotone | internal/approval/gate.go:463-760 | used IDs, reservations, requests and revocations are never lost |
| GateTheorems.ConfirmationsAreSingleUse | internal/approval/gate.go:559-564 | in every run two successful confirmations never share an ID |
| GateSingleUse.OnlyPreApprovalRepeats | internal/approval/gate.go:463-660 | in every run, of two authorizations with one ID the first is a confirmation and the second a pre-approval that made that very ID |
| GateSingleUse.AuthorizationsAreSingleUse | internal/approval/gate.go:463-660 | in every run whose confirmation IDs do not begin with the pre-approval prefix no two authorizations of any kind share an ID |
| GateSingleUse.UsedIDRepeatsIff | internal/approval/gate.go:486-503 | a used ID can authorize again if and only if it is the prefix and the ID of a request the gate does not know |
| GateSingleUse.ReservedIDsStayReserved | internal/approval/gate.go:463-660 | an ID checkpointed by one request authorizes another only as that one's own pre-approval |
| GateTheorems.ReservedIDsBelongToOneRequest | internal/approval/gate.go:627-660 | an ID checkpointed by one request is completed by that request or by none |
| GateTheorems.AuthorizationIsConsumedOnce | internal/approval/gate.go:725-760 | in every run an authorization is consumed at most once |
| GateProgress.TwoClicksAuthorize | internal/approval/gate.go:505-660 | with a willing ledger a proper first click asks for the third confirmation, the repeated one is authorized for exactly this request, and the authorization can be consumed until it expires |
| GateChecks.RejectionsAreTrue | internal/approval/gate.go:526-626 | the error of a rejected confirmation names something that is the matter with it |
| GateChecks.LanguagesAre | internal/approval/gate.go:820-863 | exactly ten tags are known, in any case, with three canonical tags and phrases |
| GateAnswers.SubmitIsExact | internal/approval/gate.go:463-503 | in every reachable world with a willing ledger a submission succeeds exactly when admissible; what is kept, approved at once, used up and logged |
| GateAnswers.ConfirmIsExact | internal/approval/gate.go:505-660 | in every reachable world with a willing ledger, for requests of every risk, exactly which confirmations authorize and which ask for the third click, and what each outcome leaves and logs |
| GateAnswers.RevokeIsExact | internal/approval/gate.go:662-697 | with a willing ledger a revocation passes if and only if the request is known and not revoked, the actor well formed and the reason neither blank nor invalid; then the record is revoked without a commit and the log names the actor |
| GateAnswers.ConsumeIsExact | internal/approval/gate.go:725-760 | with a willing ledger a consumption passes if and only if the request is known and approved, scope, intent and epoch agree and its time is not up; then it is spent |
| GateAnswers.RequestWasSubmitted | internal/approval/gate.go:463-503 | in every run each known request was submitted successfully, and is kept as it was then |
| GateAnswers.ConsumedAsSubmitted | internal/approval/gate.go:725-760 | in every run a consumption that passes names the scope its request was submitted with, and the intent given or derived then |
| GateAnswers.DangerNeedsThirdClick | internal/approval/gate.go:574-660 | however a run goes, an approved untrusted, test, token, key, cluster or high-risk request had its third click ten seconds after the warning, after a logged checkpoint; of a high risk or sensitive scope, by another subject in another session |
| LedgerExact.ApplyIff | internal/approval/persistence.go:97-143 | a mutation is accepted exactly when it is proper and either its key was spent on this very mutation or it follows on the request's chain; a key spent on another is a conflict |
| LedgerExact.AppliedIs | internal/approval/persistence.go:97-143 | what an accepted mutation leaves: the record, the event bound to the request and hashed onto the chain, the key spent |
| LedgerExact.ApplyIsIdempotent | internal/approval/persistence.go:97-143 | applying an accepted mutation again changes nothing |
| LedgerExact.BatchIff | internal/approval/persistence.go:262-286 | a batch is accepted exactly when the store is willing, it is not empty and each mutation is accepted after those before it |
| LedgerExact.RestoreIff | internal/approval/gate.go:266-338 | a gate takes a request back if and only if it does not know it and the ledger's entry loads, passes the adapter's check and has events; that the events are bound to the request follows |
| GateRestart.RestartSucceeds | internal/approval/gate.go:266-338 | restoring every request of a reachable ledger, in any order, succeeds with the same records, used IDs, reservations and counters, and the invariant holds again |
| GateEquivalence.RestartIsInvisible | internal/approval/gate.go:266-338 | after a restart at any point of any run, every later run gets the answers the original gate would have given |
| ToolStoreObject.LiveStore.MakeRoom | internal/ai/approval.go:817-853 | expired undecided requests go first, then completed ones oldest first and only as many as capacity needs; the removed part put back restores the map |
| ToolStoreObject.LiveStore.CreateFor | internal/ai/approval.go:175-234 | the store object takes the Create step: evict, check capacity, insert, write, and put everything back on failure |
| ToolStoreObject.LiveStore.Put | internal/ai/approval.go:270-281 | one request is replaced and written, or is back as it was |
| ToolStoreObject.LiveStore.ApproveFor | internal/ai/approval.go:248-282 | the store object takes the Approve step, with its five refusals, which ToolStoreLifecycle.ApprovalIsExact pins |
| ToolStoreObject.LiveStore.RejectFor | internal/ai/approval.go:288-316 | the store object takes the Reject step, which ToolStoreLifecycle.RejectionIsExact pins |
| ToolStoreObject.LiveStore.BeginExecution | internal/ai/approval.go:334-374 | the store object takes the Begin step, with its eight refusals in order; ToolStoreLifecycle.BeginIsExact says exactly when it is accepted, approval included |
| ToolStoreObject.LiveStore.FinishExecution | internal/ai/approval.go:391-422 | the store object takes the Finish step, which ToolStoreLifecycle.CompletionIsExact pins |
| ToolStoreObject.LiveStore.ReadFile | internal/ai/approval.go:667-714 | the reload loop drops expired undecided requests, fails interrupted ones and reports exactly whether anything differs |
| ToolStoreObject.LiveStore.Reopen | internal/ai/approval.go:640-728 | a new process reads the file, makes room and writes back what changed |
| ToolStoreObject.SortByAge | internal/ai/approval.go:836-844 | sorted by creation time then ID, holding the same requests |
| ToolStoreSafety.ActiveWorkSurvives | internal/ai/approval.go:813-853 | what the loops of MakeRoom establish, read for active work: an executing request or an unexpired undecided one is never evicted |
| ToolStoreSafety.OldestGoFirst | internal/ai/approval.go:836-851 | what the loops of MakeRoom establish, read for completed requests: one that was evicted is older than every one that stayed |
| ToolStoreSafety.CreateIsAtomic | internal/ai/approval.go:220-234 | a successful create is within capacity; one refused for capacity or a lost write leaves the map exactly as it was, which on the object is CreateFor's put-back |
| ToolStoreSafety.RunKeepsInv | internal/ai/approval.go:175-422 | over any run of calls, lost writes, crashes and reloads, memory and file hold requests as created and no begun one is actionable |
| ToolStoreSafety.ExecutionBeginsOnce | internal/ai/approval.go:330-374 | over any such run, two successful begins are of two different requests |
| ToolStoreSafety.ExecutionIsAsCreated | internal/ai/approval.go:330-374 | a begin succeeds only with the tool, arguments, preview and requester recorded at creation |
| ToolStoreLifecycle.ApprovalIsExact | internal/ai/approval.go:248-282 | exactly which approvals are accepted, and that they name approver and time, once |
| ToolStoreLifecycle.RejectionIsExact | internal/ai/approval.go:288-316 | a rejection is accepted exactly of an undecided unexpired request and leaves it refused by that actor |
| ToolStoreLifecycle.BeginIsExact | internal/ai/approval.go:334-374 | a begin is accepted exactly of an approved unexpired request, by its requester, with its tool, arguments and preview, a destructive one only from the gate |
| ToolStoreLifecycle.CompletionIsExact | internal/ai/approval.go:391-422 | a completion is accepted exactly of an executing request from whoever may run it, and leaves it executed or failed as it says |
| ToolStoreLifecycle.CreationBinds | internal/ai/approval.go:175-234 | the digests of a new request match exactly the arguments it was created with, and exactly the preview if one was given |
| ToolStoreLifecycle.EvictionIsMinimal | internal/ai/approval.go:817-853 | every expired undecided request goes, and a completed one only while room is short |
| ToolStoreLifecycle.ReloadIsExact | internal/ai/approval.go:667-714 | which entries of the file a new process keeps, and as what |
| ToolStoreLifecycle.LostWriteIsExact | internal/ai/approval.go:730-797 | a lost write leaves the memory as it was and the file as it was or as the write wanted it, and every call that had something to write says so |
| ToolStoreLifecycle.RefusalsAreTrue | internal/ai/approval.go:175-422 | the error of a refused call names something that is the matter with it |
| ToolStoreLifecycle.OrdinaryRequestCompletes | internal/ai/approval.go:248-422 | a request that needs no gate is approved, begun by its requester and completed while it has not expired |
| ToolStoreLifecycle.EveryStatusIsJustified | internal/ai/approval.go:175-422 | over any run of calls, lost writes, crashes and reloads, every request in memory or file has the approval, rejection, begin and end behind it that its status claims, by the actors it names |
| ToolStoreLifecycle.BeginWasApproved | internal/ai/approval.go:334-374 | over any such run a begin that succeeds comes after an approval of the same request that took effect, by the approver it names |
| ToolStoreLifecycle.SettledForGood | internal/ai/approval.go:288-422 | over any such run an answered rejection or completion is final in memory and file |
| ToolStoreLifecycle.RejectedNeverBegins | internal/ai/approval.go:288-374 | over any such run no begin succeeds after an answered rejection |
| ToolAdapterObject.LiveAdapter.PruneBudgets | internal/ai/approval_gate_adapter.go:232-238 | the loop removes exactly the budgets that are expired and not being verified |
| ToolAdapterObject.LiveAdapter.BindLocked | internal/ai/approval_gate_adapter.go:265-274 | the object takes the step that binds a created request |
| ToolAdapterObject.LiveAdapter.OpenUnlocked | internal/ai/approval_gate_adapter.go:285-311 | the checks BeginConfirmation makes on the request it read, in order, and the flight they leave |
| ToolAdapterObject.LiveAdapter.OpenTimed | internal/ai/approval_gate_adapter.go:312-319 | the expiry checks against a time read later, before the lock, whatever the store has become |
| ToolAdapterObject.LiveAdapter.OpenLocked | internal/ai/approval_gate_adapter.go:321-377 | the object takes the locked step of BeginConfirmation: binding, existing challenge, submission, new challenge |
| ToolAdapterObject.LiveAdapter.ConfirmLocked | internal/ai/approval_gate_adapter.go:402-503 | the object takes the step before verification: pruning, the checks in order, and the flight it leaves |
| ToolAdapterObject.LiveAdapter.VerifyLocked | internal/ai/approval_gate_adapter.go:470-503 | cached proof, capacity, lock-out, busy, no verifier, or challenge and budget marked busy |
| ToolAdapterObject.LiveAdapter.VerdictLocked | internal/ai/approval_gate_adapter.go:506-534 | the object takes the step after verification, on the challenge and budget as they are then |
| ToolAdapterObject.LiveAdapter.ConfirmWithProof | internal/ai/approval_gate_adapter.go:538-629 | the object takes the last step of a confirmation |
| ToolAdapterObject.LiveAdapter.ForwardToGate | internal/ai/approval_gate_adapter.go:585-629 | the gate is asked with the challenge's own fields, and the challenge moves to step 2 or 3 by its answer |
| ToolAdapterObject.LiveAdapter.ExecuteLocked | internal/ai/approval_gate_adapter.go:635-660 | execution is let on to the store only past a fitting, unexpired commit |
| ToolAdapterObject.LiveAdapter.CheckCommit | internal/ai/approval_gate_adapter.go:684-694 | the challenge, record and commit checks shared by execution and completion |
| ToolAdapterObject.LiveAdapter.FinishLocked | internal/ai/approval_gate_adapter.go:678-699 | completion is let on to the store past a fitting commit, expired or not |
| ToolAdapterObject.LiveAdapter.RejectLocked | internal/ai/approval_gate_adapter.go:704-721 | the gate is revoked before challenge and binding are forgotten, and a gate refusal stops it |
| ToolAdapterObject.LiveAdapter.CallStore | internal/ai/approval_gate_adapter.go:656-659 | the store call made under the lock, and what is still to do under it |
| ToolAdapterSafety.StepKeepsInv | internal/ai/approval_gate_adapter.go:281-721 | every section in any interleaving keeps gate, store, links, challenges, flights, budgets and lock consistent |
| ToolAdapterTheorems.DestructiveExecutionIsAuthorized | internal/ai/approval_gate_adapter.go:635-660 | in every interleaving of a process, whatever its store was loaded with, a destructive request enters execution only with an unexpired commit for its very intent, from an approver with another subject and session, at least ten seconds after the server's warning, after a checkpoint of the same confirmation in the log |
| ToolAdapterTheorems.RestartIsStart | internal/ai/approval.go:640-728 | what a process leaves in its store at any moment, however the file is read and written back, is a start the adapter's theorems cover |
| ToolAdapterTheorems.OnlyBeginEnters | internal/ai/approval.go:334-374 | no call but a begin makes a request execute, and a destructive one only with gate authority |
| ToolAdapterTheorems.CredentialChecksAreBounded | internal/ai/approval_gate_adapter.go:395-536 | in every interleaving at most 1024 budgets and five failures each, a budget under verification is present and busy, and no two verifications share a budget or a challenge |
| ToolAdapterFailures.FailedChecksAreBounded | internal/ai/approval_gate_adapter.go:486-534 | over a whole interleaving at most five credential checks fail for one request, even if it is rejected with a check in flight |
| ToolAdapterBudgets.FailuresAreSpaced | internal/ai/approval_gate_adapter.go:470-534 | over a whole interleaving, of the checks that fail under one actor and session any six begin at least five minutes apart from first to last |
| ToolAdapterAnswers.FirstOpeningIsExact | internal/ai/approval_gate_adapter.go:321-377 | with a willing ledger a first opening succeeds exactly when the gate can admit the request, and what challenge it starts |
| ToolAdapterAnswers.ConfirmStartIsExact | internal/ai/approval_gate_adapter.go:402-503 | a confirmation goes on to its credentials exactly when approver, gate, time and phrase allow |
| ToolAdapterAnswers.VerifyIsExact | internal/ai/approval_gate_adapter.go:470-503 | when a cached proof is used, when the verifier is asked, and what is marked busy and counted |
| ToolAdapterAnswers.VerdictIsExact | internal/ai/approval_gate_adapter.go:506-534 | a valid proof goes on; anything else is one failure of challenge and budget and locks the budget from when the check began |
| ToolAdapterAnswers.AskGateIs | internal/ai/approval_gate_adapter.go:585-629 | what the adapter makes of each answer of the gate |
| ToolAdapterAnswers.OthersCannotComplete | internal/ai/approval_gate_adapter.go:538-584 | nobody but the challenge's approver, in the approver's session, gets anywhere with a proof |
| ToolAdapterTheorems.RejectedNeverExecutes | internal/ai/approval_gate_adapter.go:701-721 | once a challenged request's rejection got past the gate it never newly enters execution in that process, whatever the store write and flights did |
| ToolAdapterAnswers.RejectIsExact | internal/ai/approval_gate_adapter.go:704-721 | in every reachable state with a willing ledger, exactly which rejections the gate does not refuse; then the record is revoked, challenge and binding are gone and the store is asked |
| ToolAdapterAnswers.RejectionRefuses | internal/ai/approval_gate_adapter.go:704-721 | a rejection of an undecided request with a well-formed actor and reason ends with the request refused in the store |
| ToolAdapterProgress.ProperRequestExecutes | internal/ai/approval_gate_adapter.go:281-660 | a waiting destructive request with a proper approver can always be opened, confirmed twice after the warning and executed |
| ToolAdapterProgress.SomeRunExecutes | internal/ai/approval_gate_adapter.go:248-660 | from a fresh system there is a run that creates, approves and executes such a request, so the safety results are not empty |
| ToolAdapterGate.ApprovedIsVouched | internal/approval/gate.go:574-660 | an approved high-risk record's commit is from somebody else, late enough, and logged after its checkpoint |
| ToolAdapterGate.HighRiskRecord | internal/approval/gate.go:463-503 | a high-risk submission is stored pending, with the requester, scope, intent and lifetime it was asked for |
| AuditObject.VerifyCommits | internal/audit/journal.go:226-235 | the loop accepts exactly the streams numbered from 1, each linked to its predecessor and well formed |
| AuditObject.MemoryJournal.Append | internal/audit/journal.go:42-90 | the journal object takes the Append step: idempotent by commit, next in sequence and linked, deliveries queued; AuditExact.AppendIff and AuditOutbox.AppendQueues pin it |
| AuditObject.MemorySpool.Put | internal/audit/spool.go:65-97 | the spool object takes the Put step: idempotent by entry, in order, never in conflict |
| AuditObject.LiveRuntime.Persist | internal/audit/runtime.go:196-263 | the runtime object takes the persist step through journal or spool, under any faults |
| AuditObject.LiveRuntime.Replay | internal/audit/runtime.go:333-369 | the runtime object takes the Replay step, under any faults |
| AuditChain.LastHashFixesRecords | internal/audit/event.go:182-212 | two non-empty verified streams with the same last hash hold the same records in the same order |
| AuditChain.AppendKeepsStream | internal/audit/journal.go:42-90 | whatever is offered, the old stream stays a prefix, verified, with distinct event IDs |
| AuditSafety.PersistKeepsInv | internal/audit/runtime.go:196-263 | persisting keeps the chain invariant, drops nothing, and on success the chain holds the event |
| AuditSafety.ReplayKeepsInv | internal/audit/runtime.go:333-369 | a replay stopped anywhere keeps the chain as it was |
| AuditSafety.OpenIsGood | internal/audit/runtime.go:54-110 | a runtime opened over a verified journal whose spool owes it nothing starts with the invariant |
| AuditReopen.OpenedIsBehind | internal/audit/runtime.go:54-110 | a runtime opened over what a good one left, owed entries and all, knows the journal of the same chain |
| AuditReopen.ReplayCatchesUp | internal/audit/runtime.go:333-369 | a replay of such a runtime, stopped anywhere, keeps the chain, and one that gets through makes it good |
| AuditReopen.ReopenedIsGood | internal/audit/runtime.go:54-369 | after any failed replays the first that succeeds gives a good runtime with the old chain, all of it in the journal |
| AuditReopen.RestartKeepsChain | internal/audit/runtime.go:54-369 | from there every run keeps the chain, across the restart |
| AuditSafety.RunKeepsChain | internal/audit/runtime.go:196-369 | in every run journal and owed spool tail are one gap-free verified chain ending at the head, and no commit is lost |
| AuditSafety.ReplayCompletes | internal/audit/runtime.go:333-369 | a successful replay makes the journal the whole chain, and a second one changes nothing |
| AuditSafety.CriticalAppendIsDurable | internal/audit/runtime.go:122-178 | from an empty stream, a critical append that succeeds has its signed record in a durable journal or durable spool |
| AuditDeliveries.RunDelivers | internal/audit/runtime.go:225-231 | in every run, whatever fails, queued deliveries are named after records that exist, so the next one's are new |
| AuditDeliveries.AppendDelivers | internal/audit/journal.go:42-90 | the journal never refuses such a commit for its deliveries |
| AuditOutbox.MadeAnnounces | internal/audit/runtime.go:225-231 | a commit the runtime makes has one delivery per configured target, in their order, naming its record and event |
| AuditOutbox.AppendQueues | internal/audit/journal.go:42-90 | an accepted new commit leaves each of its deliveries in the outbox under its ID, every older entry as it was, and nothing else |
| AuditOutbox.EveryRecordIsAnnounced | internal/audit/runtime.go:196-369 | over every run from an empty stream, under any faults, each commit in the journal has a delivery to every target in the outbox |
| AuditDeliveries.ReachableIsGood | internal/audit/runtime.go:196-369 | every state reached from an empty stream has a good chain and deliveries that cannot clash |
| AuditProgress.AppendSucceeds | internal/audit/runtime.go:196-263 | without faults a well-formed new event becomes the next record, in the journal or in the spool while older entries are owed |
| AuditProgress.OutageSpools | internal/audit/runtime.go:232-263 | a journal that is down sends the event to a durable spool and the append still succeeds |
| AuditProgress.ReplaySucceeds | internal/audit/runtime.go:333-369 | a replay without faults succeeds and makes the journal the whole chain |
| AuditExact.AppendIff | internal/audit/journal.go:42-90 | the journal accepts exactly its own commit again, changing nothing, or the next one, linked and of a new event |
| AuditExact.CheckpointIff | internal/audit/runtime.go:265-276 | a commit has a checkpoint exactly when there is a key and the event is critical or its turn has come, signed, of this record and verified |
| AuditExact.PersistIsIdempotent | internal/audit/runtime.go:196-207 | an event already persisted is answered with its record, another event of its ID refused, and nothing changes |
| AuditExact.ResyncIff | internal/audit/runtime.go:245-263 | when head and journal have come apart a new event is appended, at the journal's end, if and only if the journal has not gone past the head; else it is a replay conflict |
| AuditExact.PassedHeadIsRefused | internal/audit/runtime.go:245-263 | a journal one record ahead of the head refuses the next event for good |
| AuditExact.EventGoesSomewhere | internal/audit/runtime.go:232-263 | a persisted new event is one more commit in the journal, or in the spool once spooling, and the other is untouched |
| AuditExact.TakenNumbersArePassed | internal/audit/runtime.go:333-369 | a replay passes over an entry whose number the journal has given, to it or to another |
| AuditQueue.NextKeepsInv | internal/audit/runtime.go:122-194 | every step of appends, worker, flushes and close keeps counters, channels, queue and marks consistent |
| AuditQueue.ChannelsAreSafe | internal/audit/runtime.go:182-194 | in every interleaving no channel is closed twice, nothing is sent on the closed queue, and the idle channel is closed exactly when nothing is pending |
| AuditQueue.FlushMeansPersisted | internal/audit/runtime.go:298-329 | a Flush that returned nil has every event accepted up to its mark in the chain |
| AuditQueue.FlushCoversEarlierAppends | internal/audit/runtime.go:281-329 | every normal event accepted before a Flush call is in the chain when that Flush returns nil |
| AuditQueueProgress.AppendIsExact | internal/audit/runtime.go:122-178 | a normal append is taken exactly when the runtime is open, admits it and has room |
| AuditQueueProgress.WorkerDrains | internal/audit/runtime.go:281-297 | however much is queued, the worker can finish it |
| AuditQueueProgress.FlushCompletes | internal/audit/runtime.go:298-329 | with no other call under way a Flush comes back, for everything accepted, with the first error there was |
| AuditQueueProgress.CloseCompletes | internal/audit/runtime.go:430-443 | with no other call under way a Close comes back after everything accepted is finished and the worker gone |
| RateLimiterObject.RateLimiter.Swap | internal/apisec/ratelimit.go:47-51 | two buckets change places and know their new positions |
| RateLimiterObject.RateLimiter.Push | internal/apisec/ratelimit.go:52-56 | a bucket joins the heap, which stays ordered and indexed |
| RateLimiterObject.RateLimiter.Pop | internal/apisec/ratelimit.go:57-65 | the root leaves and the rest stays ordered and indexed |
| RateLimiterObject.RateLimiter.Expire | internal/apisec/ratelimit.go:171-182 | up to eight due windows leave, earliest first, from map and heap alike |
| RateLimiterObject.RateLimiter.Settle | internal/apisec/ratelimit.go:145-169 | map and heap stay in one-to-one agreement and the tracked windows change as the decision says |
| RateLimiterObject.RateLimiter.Allow | internal/apisec/ratelimit.go:137-169 | the limiter object takes one decision step on its tracked windows |
| RateLimiterObject.RateLimiter.AllowRequests | internal/apisec/ratelimit.go:100-135 | a malformed identity refuses the request uncharged; else each rule some usable identity matches is charged once, in order, and all must admit |
| RateLimit.LimiterRefinesCounter | internal/apisec/ratelimit.go:137-182 | in every run with a non-decreasing clock in which a map key determines its window, a decision that is not a capacity refusal is that of a never-evicting fixed-window counter |
| RateLimit.AdmissionsAreBounded | internal/apisec/ratelimit.go:137-169 | in such a run no key is admitted more than twice the largest quota it is called with in any half-open interval as long as its window |
| RateLimit.UnexpiredSurvive | internal/apisec/ratelimit.go:171-182 | unexpired windows survive every call and the table stays within capacity |
| RateLimit.CapacityRefusalIsJust | internal/apisec/ratelimit.go:145-158 | a capacity refusal met a full table of unexpired windows and changed nothing |
| RateLimit.CapacityRefusalsAreJust | internal/apisec/ratelimit.go:145-158 | the same for every call of every run, whatever the clock and the rules |
| RateLimitExact.QuotaIsExact | internal/apisec/ratelimit.go:137-169 | of the calls in one window exactly the first as many as the quota are admitted |
| RateLimitExact.EvictionIsExact | internal/apisec/ratelimit.go:171-182 | a call drops all due windows if there are at most eight, else eight of them |
| RateLimitExact.ChargedPicks | internal/apisec/ratelimit.go:100-135 | the rules charged are exactly those some usable identity matches, each once, in order |
| RateLimitCollisions.MapKeyInjective | internal/apisec/ratelimit.go:137-146 | with separator-free rule IDs a map key names its rule and caller |
| RateLimitCollisions.CollideIffRelated | internal/apisec/ratelimit.go:137-146 | two rules can have one map key if and only if their IDs are equal or one goes on with the separator where the other ends |
| RateLimitCollisions.RefinesIffCompatible | internal/apisec/ratelimit.go:137-182 | for rules with positive quotas and windows, every run refines the counter if and only if rules with related IDs have equal windows |
| RateLimitCollisions.ClashBreaks | internal/apisec/ratelimit.go:137-182 | for any two callers of one map key with different windows, a run that admits what the counter refuses |
| RateLimitCollisions.PlainIDsRefine | internal/apisec/ratelimit.go:137-182 | separator-free IDs that each name one window always refine the counter |
| RateLimitCollisions.SeparatorBreaks | internal/apisec/ratelimit.go:137-182 | rules a and a, separator, b, with windows 10 and 100 do not |
| Utf8.TruncateUTF8Bytes | internal/ai/context_budget.go:122-133 | the loop cuts where a character may start and trims white space |
| Utf8.EscapedSplits | internal/ai/context_budget.go:118-121 | the JSON length of a text is the sum over its parts when cut where a character may start |
| Utf8.TruncationGrows | internal/ai/context_budget.go:96-106 | a higher limit never costs less, which makes the binary search exact |
| Utf8.TruncationIsWellFormed | internal/ai/context_budget.go:122-133 | cutting well-formed UTF-8 (section 4 of RFC 3629) leaves well-formed UTF-8 |
| Utf8Trim.EncodedIsDecoded | internal/ai/context_budget.go:122-133 | every Unicode character's encoding (section 3 of RFC 3629) is decoded, to that character |
| Utf8Trim.DecodedIsEncoded | internal/ai/context_budget.go:122-133 | what is decoded is the encoding of a character, so nothing else is |
| Utf8Trim.TrimIsExact | internal/ai/context_budget.go:122-133 | trimming takes away white space at both ends, nothing else, and all of it |
| Utf8Trim.BackIsLast | internal/ai/context_budget.go:122-133 | the cut is at the last place up to the limit where a character may start |
| ContextBudget.CleanHistory | internal/ai/context_budget.go:15-23 | the loop builds what Clean does, which by ContextOrder.CleanPicks is the user and assistant messages at their increasing positions |
| ContextBudget.SearchLimit | internal/ai/context_budget.go:96-106 | the binary search finds the largest limit under which the message fits |
| ContextBudget.SelectNewest | internal/ai/context_budget.go:84-111 | the loop selects, newest first, what the recursive selection keeps |
| ContextBudget.PrepareMessages | internal/ai/context_budget.go:28-117 | the whole method, with its four errors, is the Prepare function, whose content and order ContextOrder and PreparedIsNewestRun state |
| ContextBudget.PreparedFits | internal/ai/context_budget.go:81-116 | framed messages plus tools fit in window - reserve - 256 if and only if not (64 is left and the newest ordinary message is an assistant or developer one) |
| ContextBudget.PreparedIsNewestRun | internal/ai/context_budget.go:84-116 | system messages stay, then comes the newest run of the ordinary messages, only its newest member possibly cut, and no older one more would fit; ContextOrder.OrdinaryIsInOrder says that those are history and then messages, in order |
| ContextOrder.CleanPicks | internal/ai/context_budget.go:15-23 | the cleaned history is its user and assistant messages at increasing positions, and none is missed |
| ContextOrder.OrdinaryIsInOrder | internal/ai/context_budget.go:28-75 | the ordinary messages are the user and assistant messages of the history in order, then the messages that are not system messages in order |
| ContextOrder.SystemsEndInSafety | internal/ai/context_budget.go:44-71 | the system part is the given system messages in order, then the enabled prompts for the model in order, with the safety text always closing the last |
| ContextOrder.ReadyIff | internal/ai/context_budget.go:28-83 | preparing succeeds exactly when there is a window, the tools can be written, roles are known and 64 is left |
| ContextOrder.CostIsJsonLength | internal/ai/context_budget.go:118-121 | the cost of a message is the length of its JSON text, escapes and all, and 32 |
| ContextBudget.ShorteningIsExact | internal/ai/context_budget.go:92-108 | what fits is left alone; a cut message keeps its role, is a well-formed piece of the original and no larger limit would fit |
| ContextBudget.AssistantFrameOverflows | internal/ai/context_budget.go:81-108 | a window that leaves 64 and an empty assistant message overshoot by one |
| DrawLine.Draw | internal/captcha/slider.go:464-493 | the loop ends at (x1, y1) after max of the two step counts moves, having painted exactly the path's pixels that lie inside the image |
| DrawLine.WalkSteps | internal/captcha/slider.go:478-491 | one iteration stays within half a pixel of the ideal segment |
| DrawLine.WalkEnds | internal/captcha/slider.go:475-477 | the end is reached exactly when the longer side is used up |
| DrawLine.PathStaysInBox | internal/captcha/slider.go:464-493 | no visited pixel leaves the bounding box of the endpoints |
| DrawLine.PathPointsDiffer | internal/captcha/slider.go:464-493 | no pixel is visited twice |

## Left out

- Cryptography: SHA-256, Ed25519 and AES-GCM are symbolic; spool encryption is the identity.
- Redaction, salts, UUIDs and nonces: abstract values, with new IDs assumed new. JSON text is modelled for context messages only.
- Wrap-around of 64-bit sequence numbers and durations.
- Record statuses outside the four known ones cannot be written down in the model.
- AdvanceEpoch and ledgers with epoch-guarded interfaces other than the in-memory one.
- `internal/audit`: Dispatch, AckOutbox, spool Ack and several streams on one journal.
- AuditSafety.RunKeepsChain: one writer per stream, which after a restart replays before it appends; of several writers, AuditExact.ResyncIff covers one append after another writer's.
- AuditQueue.FlushMeansPersisted: contexts that expire appear only as an abandoned wait.
- RateLimit.LimiterRefinesCounter: assumes that calls with one map key have one window; RateLimitCollisions.RefinesIffCompatible says exactly which configurations guarantee it.
- RateLimiterObject.RateLimiter.AllowRequests: whether a rule matches a request is an arbitrary table; path views and regular expressions are not modelled, nor is the sorting of rules on construction.
- DrawLine.Draw: blending two colours, which uses floating point, is an arbitrary function.
- ToolStoreObject.LiveStore.PersistLocked: file-system mechanics, file size limits and the health flag are reduced to whether the write worked and whether the file changed.
- ToolStoreObject.LiveStore.Reopen: files written by older versions without salts or digests, and duplicate or empty IDs, are not modelled.
- ToolAdapterSafety.StepKeepsInv: only the adapter calls the gate, and each process starts with a new gate; an adapter over a gate restored from its ledger is not modelled.
- ToolAdapterObject.LiveAdapter.BindLocked: the store's creation before it is a step of the transition system, not a method of the adapter object.
- ContextBudget.PrepareMessages: an operator prompt is its finished text and the tools are the size of their JSON.
- The AI client, assistants, CAPTCHA rendering, routing, the CLI and configuration: input, output or easy members.
