# Verification of the harness node

This project models the durable single-writer node of the harness (`runtime/`) together with the
self-contained mechanisms around it, and proves what they promise.

The node is a state machine over dialogs, messages, requests, attempts, control actions, prompts, events
and administrative holds. Every SQLite transaction is one atomic step. A transaction is a value
(`Store.Tx`): the tables under change and the state row it loaded, with the quiescence triggers written
into each row write. A failed commit changes nothing. A crash loses every worker and both locks and is
followed by startup recovery. `System` puts the transactions beside the action lanes: a worker claims an
action, waits at the start gate if it is a dispatch, reads the attempt under the gate, calls the
provider, and writes back what came of it, one commit at a time, each of which may fail. The start gate
excludes hold changes, deletions and dispatch commits while a start is under way. Everything else is
interleaved freely. A run is a sequence of such steps from an empty store; the theorems are about all
runs.

How the parts fit together:

- `Store`, `Commands`, `Execution`, `Observation`, `Administration`: what each transaction does.
- `Transactions`, `Handlers`, `Projections`, `Lanes`, `NodeMethods`: the same operations as the source runs them,
  statement by statement on a mutable transaction, proved equal to the functions: the command handlers, what adapter
  events do, what the action lanes and startup write, and the node's own methods.
- `Invariants`, `RowLemmas`, `Moves` and the `…Keeps` modules: fifteen clauses linking the tables, kept by every
  operation.
- `Evolution`, `Writes`, `Lineage` and the `…Evolves` modules: what a transaction may do to what was there before;
  above all that every change a scope can see moves the scope's version, and that a parked scope is left alone.
- `System`, `SystemKeeps`: the running node and its invariant over workers, the gate and recorded provider calls.
- `Theorems`, `Agreement`, `Parking`, `Idempotence`, `Replay`: the statements over runs.
- `Limits`, `Scenarios`: where a promise has a condition, the exact condition, and runs of the node that violate it.
- `Wrappers`: `Option` and `Result`.
- `Credentials`, `ProviderAuth`: credential replacement, its crash recovery and its owner.
- `Utf8`, `Canonical`: the canonical form of commands, a bounded profile of RFC 8785 over UTF-8 as defined by RFC 3629.
- `SafeText`, `SafeTextQuota`, `OutputBudget`, `History`: text splitting, the two budgets, and the exported history.
- `Seccomp`, `WorkspaceGate`: the system-call filter compiler and the mutual exclusion of tool runs.

Where the code does less than one might read into it, the model follows the code and says exactly when it does what
it should:

- A finished attempt can be taken back by an answer whose outcome is unknown, because the approval handler does not ask
  for the slot; its request goes back with it, from settled to doubt. `Limits.AnswerReopensIff` gives the condition,
  `Scenarios.CompletedAttemptReopens` a run in which it happens. Over any run, requests only move forward and finished
  attempts keep their outcomes if and only if no such write happens: `Agreement.NothingTurnsBackIff`. Under the Cursor
  adapter's contract that an answer is never unknown (`adapters/cursor/tools.go:222-237`) both always hold:
  `Theorems.TerminalIsAbsorbing`, `Agreement.RequestsMoveForward`.
- A steer outcome outside its enumeration marks the attempt unknown through the steered message's request, which takes
  that request out of the queue without counting it. `Limits.UndeclaredSteerCountsIff` gives the condition,
  `Scenarios.UndeclaredSteerMiscounts` a run up to such a write; `Limits.UndeclaredSteerIsRepaired` shows that the write
  that follows it restores the count, so that only a crash or a failed write between the two leaves it wrong.
- A steer whose outcome could not be established is never resolved by anything: `Theorems.UnsettledSteerPinsTheSlot`.
- The printer accepts the number text `-0` and prints it as it is, so that two texts denote zero: `Canonical.NumbersAgree`.
  Commands never reach it with a sign, since their schema admits digits only (`contracts/wire/validate.go:25`), and for
  them equal values have equal texts: `Canonical.CommandNumbersAgree`. The exception is `expectedScopeRevision` of a hold
  install request (`runtime/hold.go:45-60`, `contracts/barrier/types.go:273-275`).
- Object keys are sorted by their UTF-8 bytes, where section 3.2.3 of RFC 8785 sorts by UTF-16 code units. The two orders
  agree on two strings exactly when these do not cross (`Utf8.OrdersAgreeIff`): they first differ in a scalar from U+E000
  to U+FFFF against a supplementary one. Every key that reaches the printer is a declared field name
  (`contracts/wire/validate.go:30-39` refuses any other), so the order is that of section 3.2.3: `Utf8.BasicOrdersAgree`.
- An accepted logout need not last. A rollback marker that neither finalization nor close could remove outlives it, and a
  login that has finished with its commit neither finalized nor undone is still to be closed, outside the manager's action
  lock (`providerauth/manager.go:319-322`). `Credentials.LogoutLastsIff` is the exact condition, over every interleaving of
  the steps of such closes and a crash at any point: no marker, or one of absence, and no close with its write ahead that
  would put a credential back. `ProviderAuth.LogoutUndone` and `ProviderAuth.LogoutOvertaken` are the two ways it fails.
  `Credentials.RecoveredStaysIff` says the same of any credential, so also of the one a later login has made permanent.
- A credential of exactly 16384 bytes cannot be marked for rollback, since its marker is one byte too long:
  `Credentials.MarkerRoundTrip`. Replacing it fails before anything is changed.
- The chunk count announced for an exported text is right exactly when the padding of its pieces stays below one piece:
  `History.CutText`; `History.ShortChunkFails` is a text, cut by the splitter itself, for which it is not.

## Model

| member | source | states |
|---|---|---|
| Theorems.HoldSafety | runtime/actions.go:229-318 | in every run, whenever a native start or resume is issued, no committed unreleased hold covers the attempt's dialog at that moment |
| Theorems.HeldScopeStartsNothing | runtime/hold.go:104-163 | from the commit of a hold to its outcome row, no start is issued inside its scope |
| Theorems.AtMostOnce | runtime/actions.go:161-247 | over a run with any number of crashes, each control action causes at most one adapter call and each attempt at most one start or resume |
| Theorems.CallsGrow | runtime/actions.go:229-318 | what was sent to the provider is never unsent: earlier call records are a prefix of later ones |
| Theorems.OneActiveAttempt | runtime/schema.go:476 | in every reachable state the slot names exactly the one attempt in an occupying state, occupancy follows its state, and a doubtful one has its blocking reason |
| Theorems.IdleSlot | runtime/observe.go:625-660 | the slot is empty exactly when no attempt occupies it and exactly when occupancy is idle |
| Theorems.TerminalIsAbsorbing | runtime/observe.go:731-843 | under the adapter's response contract a finished attempt keeps its terminal state for ever |
| Theorems.SettledActionsStay | runtime/actions.go:390-394 | what a control action came to never changes again, through requeues, other workers and crashes |
| Theorems.UnsettledSteerPinsTheSlot | runtime/reconcile.go:169-181 | a steer left unknown keeps its attempt in the slot for ever: nothing is dispatched, its dialog is not deleted, and no hold over it is proved quiescent |
| Theorems.QueueIsCounted | runtime/command_handlers.go:102-195 | in every reachable state PendingCount is the number of queued requests and lies in 0..100 |
| Theorems.DispatchTakesFirst | runtime/dispatch.go:78-134 | a dispatch commit takes the unheld queued request with the smallest queue sequence and nothing else, however old its candidate |
| Theorems.LogIsGapFree | runtime/events.go:12-35 | after every commit the events are exactly 1..LastEventSeq, each stored under its own number |
| Theorems.LogOnlyGrows | runtime/observe.go:116-139 | an event once logged is never changed or lost, suppressed commits included |
| Agreement.AttemptAndRequestAgree | runtime/actions.go:326-377 | in every reachable state a request has at most one attempt and the two statuses agree (running with active, completed with completed, and so on, with the one exception a failed steer makes) |
| Agreement.RequestStartsOnce | runtime/actions.go:229-318 | over a run with any number of crashes, no request is started or resumed twice, whatever attempts it got |
| Agreement.RequestsMoveForward | runtime/observe.go:731-843 | under the adapter's response contract a request's status only moves forward over a run: settled is final, cancelled only from the queue |
| Agreement.NothingTurnsBackIff | runtime/actions.go:495-515 | over any run, requests only move forward, and finished attempts keep their outcomes, if and only if no step writes down an unknown answer of a finished attempt while the slot is free |
| Agreement.AnswerTurnsBackIff | runtime/control_handlers.go:166-187 | the outcome of an answer turns a settled request back to doubt under exactly the condition under which it takes the attempt back |
| Agreement.FinishSteerAgrees | runtime/actions.go:408-455 | settling a steer moves only the steered message's request, never the running attempt's own |
| Agreement.FinishResponseAgrees | runtime/actions.go:495-515 | settling an answer keeps attempt and request in agreement, even when it takes a finished attempt back |
| Parking.ParkedIsStable | runtime/hold.go:251-375 | once a held scope qualifies for a quiescence proof it keeps qualifying until its hold has an outcome row, through cancels, late events, artifacts, other dialogs' work and restarts |
| Parking.ProofsBracket | runtime/schema.go:557-660 | two proofs with equal stateVersion are equal, and nothing either depends on changed at any moment between them |
| Parking.VersionsOnlyRise | runtime/schema.go:567-660 | a scope's state version never falls, and while it stands still the scope's whole view stands still |
| Parking.HoldRowStays | runtime/hold.go:104-163 | a hold row, once committed, is never changed |
| Parking.OperationsAreAnsweredOnce | runtime/hold.go:117-131 | a hold, release or deletion once carried out answers every later request under its identifier without a change: equal bytes with the receipt, others with a conflict |
| Idempotence.OutcomeIsFinal | runtime/hold.go:501-528 | a commandId has at most one outcome across the accepted and rejected tables, and it never changes |
| Idempotence.RejectionOutlivesHold | runtime/hold.go:577-610 | a command rejected under a hold stays rejected after the hold is released |
| Idempotence.ResubmissionsRefine | runtime/command.go:79-200 | any run with arbitrary resubmissions ends in the state of the run without them |
| Limits.AnswerReopensIff | runtime/control_handlers.go:166-187 | an answer takes a finished attempt back into the slot if and only if its outcome is unknown and the slot is free |
| Scenarios.CompletedAttemptReopens | runtime/actions.go:495-515 | a run from an empty store in which a completed attempt becomes active again and takes the slot |
| Limits.UndeclaredSteerCountsIff | runtime/actions.go:186-204 | marking the attempt unknown for an undeclared steer outcome keeps the queue count if and only if the attempt is unknown already or the steered request is no longer queued |
| Limits.UndeclaredSteerIsRepaired | runtime/actions.go:408-455 | the steer's own outcome, written next, makes the count right again |
| Scenarios.UndeclaredSteerMiscounts | runtime/observe.go:594-620 | a run from an empty store up to a steer under way, after which doubting the attempt leaves the count wrong |
| Replay.ReplayEvents | runtime/replay.go:23-94 | a page is the next events after the cursor, numbered without a hole, within the byte limit and cut only by it, with no event of a deleted dialog; each error is answered only for its cause |
| Replay.NoGapInRuns | runtime/replay.go:44-70 | on a store the node wrote, the gap answer is unreachable from any cursor |
| Replay.PagesJoinToTheLog | runtime/replay.go:152-170 | successive reads with commits between them join to the log from the cursor on: no gap, no repeat |
| SystemKeeps.StepKeeps | runtime/store.go:38-41 | every step keeps the whole invariant: tables, workers, gate and recorded calls |
| SystemKeeps.Reachable | runtime/actions.go:106-145 | the invariant holds in every state of every run |
| ExecutionKeeps.RecoverKeeps | runtime/recovery.go:85-134 | startup accepts every store the node can have left and restores the invariant |
| ExecutionKeeps.DispatchKeeps | runtime/dispatch.go:78-134 | a dispatch keeps slot, queue count and links, and never commits a covered start |
| ExecutionKeeps.FinishSteerKeeps | runtime/actions.go:408-455 | each steer outcome keeps the queue count and the slot |
| ExecutionKeeps.FinishResponseKeeps | runtime/actions.go:457-515 | each answer outcome keeps the slot, also when the attempt has finished |
| ExecutionKeeps.ObserveRefusalKeeps | runtime/observe.go:521-569 | a refused start frees the slot without leaving anything on its way to the attempt |
| AdministrationKeeps.InstallHoldKeeps | runtime/hold.go:88-222 | installing a hold leaves no dispatch with its start ahead covered, and active holds disjoint |
| AdministrationKeeps.DeleteDialogKeeps | runtime/logical_delete.go:21-211 | tombstone, receipt and release in one commit keep every clause |
| ObservationKeeps.SuppressedIsSilent | runtime/observe.go:860-862 | a suppressed event adds at most its own archive row; passing the output limit there schedules nothing, and the state that is not saved has not changed |
| ObservationKeeps.ObserveKeeps | runtime/observe.go:84-178 | every adapter event, projected, archived or suppressed, keeps the invariant |
| ObservationKeeps.ReconcileKeeps | runtime/reconcile.go:71-134 | a reconciled terminal outcome keeps the invariant |
| ObservationKeeps.StoreArtifactKeeps | runtime/artifact.go:157-248 | storing an artifact or its limit marker keeps the invariant |
| AdmissionKeeps.SubmitKeeps | runtime/command.go:45-200 | every command, admitted, rejected or replayed, keeps the invariant |
| AdmissionEvolves.SubmitEvolves | runtime/command.go:79-200 | a command rewrites no receipt, event, hold or foreign action, moves every version it must, and in a parked scope only cancels |
| ObservationEvolves.ObserveEvolves | runtime/observe.go:1177-1242 | the same of adapter events, late ones included |
| ExecutionEvolves.RecoverEvolves | runtime/recovery.go:85-134 | the same of startup; only action statuses move |
| AdministrationEvolves.DeleteDialogEvolves | runtime/logical_delete.go:140-205 | the same of logical deletion |
| Handlers.EnqueueMessage | runtime/command_handlers.go:102-155 | changes the transaction exactly as the enqueue specification says, refusing a full queue |
| Handlers.CancelQueued | runtime/command_handlers.go:157-195 | the same for cancellation of a queued request |
| Handlers.ResumePaused | runtime/command_handlers.go:197-216 | the same for queue resume |
| Handlers.StopActive | runtime/control_handlers.go:12-49 | the same for stopping the attempt in the slot, with the action it queues |
| Handlers.RetryFinished | runtime/control_handlers.go:51-126 | the same for a retry, with every condition on later inputs |
| Handlers.SteerQueuedMessage | runtime/control_handlers.go:128-164 | the same for a steer |
| Handlers.AnswerOpenApproval | runtime/control_handlers.go:166-187 | the same for an approval answer; the slot is not asked for |
| Handlers.AnswerOpenInput | runtime/control_handlers.go:189-220 | the same for an input answer |
| Projections.SetAttemptUnknown | runtime/observe.go:594-623 | marks attempt and named request unknown and takes the slot, or fails on the unique index |
| Projections.ApplyTerminal | runtime/observe.go:816-843 | ends attempt and request and clears the slot and its reasons |
| Projections.ScheduleOutputLimitStop | runtime/observe.go:483-519 | stops a running attempt in the slot once its output is over the limit, and nothing else |
| Projections.ProjectToolEvent | runtime/observe.go:347-416 | projects tool events; duplicates and output over the limit change nothing |
| Projections.ProjectPromptEvent | runtime/observe.go:417-470 | opens approvals and inputs and moves the attempt to waiting |
| Projections.ProjectTerminalEvent | runtime/observe.go:731-815 | an unresolved steer or answer, or an unknown effect, makes a terminal event doubt the attempt and archives it; a malformed one is refused, a repeated one ignored, any other ends the attempt |
| Projections.ArchiveAdapterEvent | runtime/observe.go:1177-1242 | adds the archive row unless it is there or the limit was passed before, logs a late event but not a suppressed one, and schedules the stop when this row passes the limit |
| Lanes.RunDispatch | runtime/dispatch.go:59-167 | the dispatch transaction, statement by statement, commits what the specification says or fails |
| Lanes.RunSteer | runtime/actions.go:408-455 | the transaction that settles a steer, in the order of the source |
| Lanes.RunAnswer | runtime/actions.go:457-515 | the transaction that settles an answer; an undecided one takes its attempt back only into a free slot |
| Lanes.RunRecovery | runtime/recovery.go:85-134 | startup: actions left inflight become unknown and the attempt in the slot is doubted |
| NodeMethods.Node.SubmitCommand | runtime/command.go:45-200 | reply and store are those of the admission specification, and the invariant is kept |
| NodeMethods.Node.PeekDispatch | runtime/dispatch.go:171-194 | a candidate is the head of the unheld queue, and there is none exactly when dispatching is not possible |
| NodeMethods.Node.DispatchNext | runtime/dispatch.go:59-167 | commits the dispatch specification or changes nothing |
| NodeMethods.Node.BlockForPolicy | runtime/dispatch.go:205-227 | blocks the engine once |
| NodeMethods.Node.ClaimAction | runtime/actions.go:106-145 | claims exactly a pending action, and no dispatch under a hold |
| NodeMethods.Node.FinishAction | runtime/actions.go:390-394 | settles exactly an inflight action |
| NodeMethods.Node.MarkAttemptStarted | runtime/actions.go:326-377 | records a start of the dispatching attempt in the slot, or fails without effect |
| NodeMethods.Node.RecordRefusal | runtime/observe.go:521-569 | records a refused start, or only notes it when the slot has moved on |
| NodeMethods.Node.MarkAttemptUnknown | runtime/observe.go:571-592 | doubts the attempt in the slot, and only that one |
| NodeMethods.Node.SettleSteer | runtime/actions.go:408-455 | settles a steer as specified; a failed part rolls all of it back |
| NodeMethods.Node.SettleAnswer | runtime/actions.go:457-515 | settles an answer as specified; a failed part rolls all of it back |
| NodeMethods.Node.RecoverStartup | runtime/recovery.go:85-134 | always succeeds on a store that satisfies the invariant |
| NodeMethods.Node.ObserveAdapterEvent | runtime/observe.go:84-178 | projects, archives or suppresses one event as specified |
| NodeMethods.Node.ReconcileUnknown | runtime/reconcile.go:71-167 | ends the unknown attempt in the slot only with proven effects, recording a new answer first |
| NodeMethods.Node.RecordArtifact | runtime/artifact.go:157-248 | stores an artifact row or the marker of one over the limit |
| NodeMethods.Node.CommitHold | runtime/hold.go:104-222 | commits a hold under its preconditions or changes nothing; a repeated request gets its receipt, other bytes a conflict |
| NodeMethods.Node.CommitRelease | runtime/hold.go:392-499 | writes the outcome row and advances the scope revision or changes nothing; repeats are answered from the file |
| NodeMethods.Node.ProveQuiescence | runtime/hold.go:251-375 | answers with a proof exactly while the hold's scope is parked |
| NodeMethods.Node.DeleteLogicalDialog | runtime/logical_delete.go:21-211 | tombstone, command receipt and release in one commit, or nothing; repeats are answered from the file |
| Transactions.RemoveReasonInPlace | runtime/command_handlers.go:238-240 | drops every occurrence of one reason and keeps the others in order |
| Transactions.Transaction.AppendEvent | runtime/events.go:12-35 | the event gets the next sequence, and the scopes it touches move |
| Credentials.MarkerRoundTrip | adapters/cursor/auth_backend.go:272-305 | a marker gives back exactly the credential it was made from, absence included, and which credentials can be marked |
| Credentials.MarkerIsCanonical | adapters/cursor/auth_backend.go:293-310 | every marker that decodes is the encoding of what it decodes to |
| Credentials.RecoveryIsIdempotent | adapters/cursor/auth_backend.go:293-310 | recovering what recovery left changes nothing |
| Credentials.Disk.Recover | adapters/cursor/auth_backend.go:293-310 | whatever step it fails or crashes at, running it again gives the same credential; it succeeds exactly when its steps do |
| Credentials.Managed.Exchange | adapters/cursor/managed.go:138-151 | puts the candidate in force and returns the predecessor |
| Credentials.Managed.Restore | adapters/cursor/managed.go:153-164 | puts the predecessor back only while the candidate is in force |
| Credentials.Replacement.Commit | adapters/cursor/auth_backend.go:155-192 | at every file step a crash recovers the previous credential; it succeeds exactly when the adapter is fit, no step fails and the context stays open, and then candidate and secret are provisionally in force; a failed commit that was undone left everything as it was |
| Credentials.Replacement.Mark | adapters/cursor/auth_backend.go:155-192 | the marker is in place before anything else, for exactly the credentials that can be marked; the credential file is untouched |
| Credentials.Replacement.RollbackLocked | adapters/cursor/auth_backend.go:200-227 | succeeds exactly when the candidate is still in force and both file steps work, and then the predecessor is in force; what it does to files and adapter whatever they have become |
| Credentials.Replacement.Finalize | adapters/cursor/auth_backend.go:229-248 | removing the marker is the one step that makes the new credential permanent, also when the removal reports a failure |
| Credentials.Replacement.Close | adapters/cursor/auth_backend.go:250-266 | undoes an open commit, and nothing else, by exactly the three steps of a close, also after others have changed the files |
| Credentials.RecoveredStaysIff | adapters/cursor/auth_backend.go:200-227 | what is recovered now stays recovered through every interleaving of closes still to come, crashes included, if and only if each close with its write ahead puts back that credential and each about to remove the marker finds it in the file |
| Credentials.LogoutLastsIff | adapters/cursor/auth_backend.go:312-322 | once the credential file is removed nothing is recovered for good if and only if no marker of a credential is left and no close still has one to write |
| Credentials.Replace | adapters/cursor/auth_backend.go:121-138 | over a whole replacement with any faults, the state in which finalization has just removed the marker recovers the new credential and every other crash point the old one; when that state is reached, and when the replacement succeeds, is stated over the files and faults at the start |
| ProviderAuth.Manager.constructor | providerauth/manager.go:87-141 | opening leaves nothing pending and nothing authenticated |
| ProviderAuth.Manager.ExpirePending | providerauth/manager.go:703-733 | expires exactly the pending operations past their deadline; a failed write leaves the state unknown |
| ProviderAuth.Manager.Ready | providerauth/manager.go:184-199 | ready implies authenticated, no transition and nothing pending |
| ProviderAuth.Manager.Start | providerauth/manager.go:231-301 | admitted exactly when the secret is fit, the command new, nothing busy or pending and the receipt writable; at most one operation is pending and receipts stay within 4096 |
| ProviderAuth.Manager.Cancel | providerauth/manager.go:573-614 | cancels a pending operation, leaves a terminal one as it is |
| ProviderAuth.Manager.Check | providerauth/manager.go:461-522 | an accepted check sets the probed state; a replayed one changes nothing |
| ProviderAuth.Manager.Logout | providerauth/manager.go:616-674 | accepted exactly when known conditions hold and nothing fails; then no adapter is in force, and nothing is recovered now or later if and only if no marker of an earlier credential is left and no finished login still has one to put back; any change of file or adapter leaves the state unauthenticated or unknown |
| ProviderAuth.LogoutUndone | adapters/cursor/auth_backend.go:312-322 | a run of the manager: a login whose marker cannot be removed, an accepted logout, and the credential of before the login comes back from the marker |
| ProviderAuth.LogoutOvertaken | providerauth/manager.go:319-322 | a run of the manager: a failed finalization that took the marker away, an accepted logout with nothing left to recover, and a close that writes the old credential back |
| ProviderAuth.Manager.RunLogin | providerauth/manager.go:303-327 | a login run without interruption succeeds exactly when it is in time, its commit goes through, the success is written and finalization is clean; otherwise the predecessor is in force, or the state is unknown because a write, a rollback or the finalization failed; every crash point recovers the old credential or has the new one in place |
| ProviderAuth.Manager.Finish | providerauth/manager.go:329-443 | the same of a prepared replacement and its close; after a failed finalization the close puts the predecessor's adapter back in force |
| ProviderAuth.Manager.FinishReplacement | providerauth/manager.go:329-443 | under the action lock, the operation succeeds exactly when the login reaches its finalization; a commit it leaves open comes with an unknown state and a failure that explains it |
| ProviderAuth.Manager.CloseReplacement | providerauth/manager.go:319-322 | whatever has happened since, an open commit is undone by the steps of a close, and a failure leaves the state unknown |
| ProviderAuth.ExpiresThePending | providerauth/manager.go:703-733 | with one operation pending, an expiry that changes anything has ended that one |
| Canonical.CanonicalIsInjective | contracts/wire/canonical.go:18-86 | two accepted documents have the same canonical bytes if and only if they are equal |
| Canonical.AppendCanonical | contracts/wire/canonical.go:36-86 | the printer appends exactly the canonical bytes, or refuses a number out of range |
| Canonical.KeysInOrder | contracts/wire/canonical.go:63-68 | an earlier printed key comes strictly before every later one |
| Canonical.AppendJsonString | contracts/wire/canonical.go:88-115 | appends the string escaped by section 3.2.2.2 of RFC 8785 |
| Canonical.PrintPrefixFree | contracts/wire/canonical.go:36-86 | a printed value determines itself and where it ends, whatever follows |
| Canonical.StringPrefixFree | contracts/wire/canonical.go:88-115 | a printed string determines itself and where it ends |
| Canonical.NumbersAgree | runtime/canonical.go:26-31 | accepted numbers have equal values if and only if their texts are equal or are `0` and `-0` |
| Canonical.CommandNumbersAgree | contracts/wire/canonical.go:42-47 | numbers as commands may carry them have equal values if and only if they have equal texts |
| Utf8.ByteOrderIsScalarOrder | contracts/wire/canonical.go:63-68 | sorting keys by bytes is sorting them by Unicode scalars |
| Utf8.OrdersAgreeIff | contracts/wire/canonical.go:63-68 | byte order and the UTF-16 order of section 3.2.3 of RFC 8785 agree on two keys if and only if the keys do not cross |
| Utf8.BasicOrdersAgree | contracts/wire/validate.go:30-39 | keys without supplementary characters, as declared field names are, sort alike in both orders |
| Utf8.EncodingsAreValid | runtime/safe_text.go:192-194 | every encoding of Unicode scalars is accepted as well-formed |
| Utf8.ValidBytesAreEncodings | runtime/safe_text.go:192-194 | and whatever is accepted is such an encoding |
| SafeText.BackOff | runtime/safe_text.go:382-384 | the shrinking loop stops at the last scalar boundary |
| SafeText.Preview | runtime/safe_text.go:162-171 | a preview is a well-formed prefix of at most 64 KiB, at most three bytes short |
| SafeText.Chunked | runtime/safe_text.go:371-397 | on well-formed text the loop never meets the boundary error; the chunks join to the text, each is well-formed, of legal size and nearly full, at most 33 for 512 MiB |
| SafeText.StraddlingChunks | runtime/safe_text.go:371-397 | the splitter cuts the straddling text into one chunk a byte short and the rest |
| SafeText.FloorSplits | runtime/safe_text.go:162-171 | backing off to a scalar boundary costs at most three bytes and leaves both sides well-formed |
| SafeText.Validate | contracts/transcript-view/types.go:93-138 | accepts exactly the manifests whose sizes, indexes, offsets and identifiers obey the tiling rules |
| SafeText.ChunkedIsAcceptable | runtime/safe_text.go:371-406 | what the splitter produces, the reader accepts |
| SafeTextQuota.CaptureKeepsReserve | runtime/safe_text.go:371-420 | with the reserve kept, a source is stored whole or marked and the usage sealed; neither error can occur |
| SafeTextQuota.ReserveIsNeverUsedUp | runtime/safe_text.go:488-528 | every reachable unsealed usage keeps one slot and 512 KiB free, so both errors are unreachable |
| SafeTextQuota.SealingIsPermanent | runtime/safe_text.go:322-324 | once sealed, the usage never changes |
| SafeTextQuota.SixfoldAtWorst | runtime/safe_text.go:408-420 | escaping a preview costs at most six times its bytes |
| SafeTextQuota.Quota.CaptureSource | runtime/safe_text.go:295-369 | capturing a source updates the usage as specified and keeps the reserve |
| SafeTextQuota.DecodeEncoded | runtime/safe_text.go:429-453 | a written usage reads back as it was |
| SafeTextQuota.EncodeDecoded | runtime/safe_text.go:433-453 | only what the encoder writes is accepted |
| OutputBudget.BudgetHolds | runtime/output_budget.go:25-106 | under any interleaving of live, artifact and late charges the admitted bytes stay within 64 MiB and the overflow is reported exactly once if it happens |
| OutputBudget.OverflowIsSticky | runtime/output_budget.go:97-106 | after the overflow nothing is admitted |
| OutputBudget.ApplyKeepsSound | runtime/output_budget.go:25-95 | one charge keeps the ledger equal to the admitted bytes until it overflows |
| OutputBudget.Account.ChargeAttemptOutput | runtime/output_budget.go:25-62 | charges the attempt as specified, with no sum leaving 64 bits |
| OutputBudget.Account.ChargeArchivedOutput | runtime/output_budget.go:76-95 | charges the archive row as specified and leaves the attempt alone |
| History.AppendKeeps | runtime/history_export.go:612-656 | an append keeps the sequences and the hash chain, extends the stream, and is idempotent |
| History.ExportExtends | runtime/history_export.go:145-218 | exporting again only extends the stream |
| History.ReexportIsSilent | runtime/history_export.go:612-625 | an export that finds nothing new changes nothing |
| History.ChainFixesHistory | contracts/history-replica/types.go:290-299 | a chain hash determines its stream and every record before it |
| History.Exporter.AppendRecord | runtime/history_export.go:612-656 | inserts a sealed record under the next sequence, or leaves a known one, or reports a conflict |
| History.Exporter.ExportAll | runtime/history_export.go:145-218 | a whole export happens or none of it |
| History.Coverage | runtime/history_export.go:658-698 | the counts by kind are right and add up to the last sequence, and each coverage hash is the fold of its group |
| History.CountsAddUp | contracts/history-replica/types.go:301-337 | every record is counted under one kind, so the counts of a checkpoint add up to its position |
| History.CoverageFixesRecords | contracts/history-replica/types.go:255-259 | equal coverage hashes mean the same records of the group in the same order |
| History.ValidatePage | contracts/history-replica/types.go:301-337 | accepts exactly the pages within the byte limit whose records are genuine and continue the chain, whose cursor is right, and whose checkpoint counts add up to the position it covers |
| History.EncodePage | runtime/history_export.go:120-143 | a page given out passes validation, makes progress, and is the longest that fits |
| History.PagesReassemble | runtime/history_export.go:120-143 | following the cursors over a growing stream yields exactly a prefix of it, and all of it when no cursor follows |
| History.CutText | runtime/history_export.go:505-556 | the pieces always tile the text; the announced count is right if and only if the padding is below one piece |
| History.WholeChunksPass | runtime/history_export.go:505-556 | source chunks of whole pieces always pass the count |
| History.ShortChunkFails | runtime/history_export.go:505-556 | the splitter cuts a text of 17 pieces so that 18 pieces come out where 17 are announced |
| Seccomp.FilterMeansPolicy | tools/sandbox_linux.go:134-170 | for every deny list and every system call, running the compiled filter is applying the policy |
| Seccomp.Compile | tools/sandbox_linux.go:134-170 | the generated program is well-formed and means the policy |
| Seccomp.WellFormedReturns | tools/sandbox_linux.go:134-170 | a program whose jumps stay in range always returns |
| Seccomp.MoreDenialsAllowLess | tools/sandbox_linux.go:134-170 | a longer deny list only takes permissions away |
| Seccomp.OrderIsIrrelevant | tools/sandbox_linux.go:134-170 | order and repetition in a deny list change nothing |
| WorkspaceGate.OneRunPerWorkspace | tools/helper_runner.go:93-169 | at most one run per workspace, however gates are deleted and made again |
| WorkspaceGate.EightRunsOverall | tools/helper_runner.go:93-134 | at most eight runs at once, and the channel counts them |
| WorkspaceGate.EntryIffReferred | tools/helper_runner.go:136-169 | a map entry exists exactly while callers refer to it, with their exact count, and all callers of a workspace share it |
| WorkspaceGate.ReturnsNeverBlock | tools/helper_runner.go:157-169 | giving a slot back never blocks |
| WorkspaceGate.StepKeeps | tools/helper_runner.go:136-169 | every step of every caller keeps the gate's accounting |

## Left out

The node:

- Node identity, epoch, binding generation and owner checks, wire-schema validation, timestamps and diagnostic logging.
- The contents of the receipts of holds, releases and deletions; a receipt is known by its digest.
- The order in which a lane picks pending actions and the lanes' capacities: any pending action may be claimed by any
  number of workers, except that one dispatch at a time passes the gate. The theorems hold for the larger set of runs.
- Provider readiness, the policy source and the control-reserve file: a worker may be turned back, a policy may be
  missing and a commit may fail at any time.
- Projection records: whether an event is a duplicate, whether a terminal event is malformed and what the output ledger
  answers are parameters of a projection (`Probe`). The ledger itself is modelled in `OutputBudget`. A projection always
  rewrites the attempt row, also when it charges nothing; the event it appends in the same commit moves the same versions
  in any case.
- Assistant message rows, policy snapshots, usage numbers, artifact files and the texts of messages and events.
- Observations other than the refusal of a start that enter through `Observe`; the runtime itself makes no others.
- Refusals of adapter events other than terminal ones: the model takes such an event or leaves it out.
- Steer outcomes outside the declared enumeration are not steps of `System`; `Limits` treats them.
- The sweep over unsettled actions at startup is one function, as it is one SQL statement.
- Query results are parameters constrained to what the query returns (the head of the queue, the keys of an event page).
- Starting from an older store: schema migrations, pristine-policy recovery, read-only views.

The mechanisms around it:

- Credentials: file permissions, ownership and the steps inside an atomic file replacement; the seed file and the probe
  process. A close that gets between the commit and the finalization of the next login is not modelled; one that comes
  after them is (`Credentials.RecoveredStaysIff`).
- ProviderAuth: contexts, timers and goroutines appear as parameters (what time it is, whether a context has ended);
  the periodic refresh; two requests racing inside one method, which the manager's action lock excludes.
  Closing a replacement is outside that lock and is modelled step by step.
- Canonical: schema validation and JSON parsing before printing; a document is given as a value with unique keys.
- SafeText: content hashes and artifact files. The encoded size of a manifest without its preview is taken to be at
  most 4096 bytes, and sizes are those of Go's JSON encoder.
- History: record contents and hashes are free terms, so that equal hashes mean equal inputs; which rows of the store
  become candidates; the sizes of encoded pages and what a checkpoint says of its dialog besides counts and hashes are
  parameters.
- Seccomp: the deny-list tables and the kernel's limit on program length; Landlock.
- WorkspaceGate: the helper process. Callers are a state machine of atomic steps, since the property is about their
  interleaving.
- HTTP, server-sent events, the bridge process, settings and command-line programs.
