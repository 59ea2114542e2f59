/** Command admission: the nine command handlers and the ledger around them
    (runtime/command.go, runtime/command_handlers.go, runtime/control_handlers.go). */
module Commands {
  import opened Wrappers
  import opened Store

  datatype Command =
    | CreateDialog
    | Enqueue(dialog: Id, dialogVersion: nat)
    | CancelRequest(request: Id, requestVersion: nat)
    | ResumeQueue(queueVersion: nat)
    | StopAttempt(attempt: Id, generation: nat)
    | RetryAttempt(attempt: Id, generation: nat, acknowledgeKnown: bool)
    | SteerMessage(dialog: Id, message: Id, messageVersion: nat, attempt: Id, generation: nat)
    | AnswerApproval(prompt: Id, promptVersion: nat, attempt: Id, generation: nat, hashMatches: bool)
    | AnswerInput(prompt: Id, promptVersion: nat, attempt: Id, generation: nat)

  /** What a handler hands back: the changed transaction and the control action to queue, if any. */
  datatype Handled = Handled(tx: Tx, action: Option<Action>)

  /** Identifiers drawn from the id source and what the environment says about the disk. */
  datatype Supply = Supply(first: Id, second: Id, storageLow: bool, spaceAvailable: bool)

  function Advance(tx: Tx): Tx {
    tx.(st := tx.st.(version := tx.st.version + 1))
  }

  function AdvanceQueue(tx: Tx): Tx {
    tx.(st := tx.st.(version := tx.st.version + 1, queueVersion := tx.st.queueVersion + 1))
  }

  function PutNewDialog(tx: Tx, id: Id): Tx {
    tx.(db := tx.db.(dialogs := Table(tx.db.dialogs.rows[id := Dialog(1, false)]),
                     revisions := Table(Bump(tx.db.revisions.rows, None, 0)[DialogScope(id) := Revision(1, 1)])))
  }

  function TouchDialog(tx: Tx, id: Id): Tx
    requires id in tx.db.dialogs.rows
  {
    tx.(db := tx.db.(dialogs := Table(tx.db.dialogs.rows[id := tx.db.dialogs.rows[id].(version := tx.db.dialogs.rows[id].version + 1)])))
  }

  function ApplyCreate(tx: Tx, id: Id): Option<Handled> {
    if id in tx.db.dialogs.rows then None else
      Some(Handled(EmitNode(Advance(PutNewDialog(tx, id))), None))
  }

  /** The rows and counters of an enqueued message, before anything is announced. */
  function EnqueueRows(tx: Tx, dialog: Id, message: Id, request: Id): Tx
    requires dialog in tx.db.dialogs.rows
  {
    var tx1 := PutMessage(tx, message, Message(dialog, tx.st.nextMessageSequence, 1, InQueue, request));
    var tx2 := PutRequest(tx1, request, Request(dialog, message, tx.st.nextQueueSequence, 1, Queued));
    var tx3 := AdvanceQueue(TouchDialog(tx2, dialog));
    tx3.(st := tx3.st.(nextMessageSequence := tx3.st.nextMessageSequence + 1,
                       nextQueueSequence := tx3.st.nextQueueSequence + 1, pendingCount := tx3.st.pendingCount + 1))
  }

  function ApplyEnqueue(tx: Tx, dialog: Id, dialogVersion: nat, message: Id, request: Id): Option<Handled> {
    if !(dialog in tx.db.dialogs.rows && tx.db.dialogs.rows[dialog].version == dialogVersion) then None else
      :- Need(tx.st.pendingCount < QUEUE_CAPACITY);
      :- Need(message !in tx.db.messages.rows && request !in tx.db.requests.rows);
      Some(Handled(EmitNode(EmitQueue(Emit(EnqueueRows(tx, dialog, message, request), MessageAccepted(dialog), None))), None))
  }

  function CancelRows(tx: Tx, request: Id): Tx
    requires request in tx.db.requests.rows && tx.db.requests.rows[request].message in tx.db.messages.rows
  {
    var row := tx.db.requests.rows[request];
    var message := tx.db.messages.rows[row.message];
    var tx1 := PutRequest(tx, request, row.(version := row.version + 1, status := Cancelled));
    var tx2 := AdvanceQueue(PutMessage(tx1, row.message, message.(version := message.version + 1, disposition := Dropped)));
    tx2.(st := tx2.st.(pendingCount := tx2.st.pendingCount - 1))
  }

  function ApplyCancel(tx: Tx, request: Id, requestVersion: nat): Option<Handled> {
    if request !in tx.db.requests.rows then None else
      var row := tx.db.requests.rows[request];
      :- Need(row.version == requestVersion && row.status == Queued && row.message in tx.db.messages.rows);
      Some(Handled(EmitNode(EmitQueue(Emit(CancelRows(tx, request), MessageMoved(row.message), None))), None))
  }

  function ApplyResume(tx: Tx, queueVersion: nat): Option<Handled> {
    if tx.st.queueVersion != queueVersion then None else
      var tx1 := AdvanceQueue(tx);
      var tx2 := tx1.(st := tx1.st.(paused := false, reasons := RemoveReason(tx1.st.reasons, OperatorPause)));
      Some(Handled(EmitNode(EmitQueue(tx2)), None))
  }

  function StopRows(tx: Tx, attempt: Id): Tx
    requires attempt in tx.db.attempts.rows
  {
    var row := tx.db.attempts.rows[attempt];
    var tx1 := AdvanceQueue(PutAttempt(tx, attempt, row.(version := row.version + 1, state := Stopping)));
    tx1.(st := tx1.st.(paused := true, reasons := AddReason(tx1.st.reasons, OperatorPause)))
  }

  function ApplyStop(tx: Tx, attempt: Id, generation: nat): Option<Handled> {
    if attempt !in tx.db.attempts.rows then None else
      var row := tx.db.attempts.rows[attempt];
      :- Need(row.generation == generation && tx.st.active == Some(attempt));
      :- Need(row.state.Dispatching? || row.state.Running? || row.state.WaitingInput? || row.state.Stopping?);
      Some(Handled(EmitNode(EmitQueue(Emit(StopRows(tx, attempt), AttemptMoved, Some(row.dialog)))),
                   Some(Action(AttemptStop, attempt, 0, row.request, 0, 0, Pending))))
  }

  /** `request` is the newest request made for `message`. */
  predicate LatestRequest(db: Db, message: Id, request: Id) {
    && request in db.requests.rows && db.requests.rows[request].message == message
    && forall other | other in db.requests.rows :: db.requests.rows[other].message == message ==>
         db.requests.rows[other].queueSequence <= db.requests.rows[request].queueSequence
  }

  /** No attempt made for `message` has a generation above `generation`. */
  predicate TopGeneration(db: Db, message: Id, generation: nat) {
    forall other | other in db.attempts.rows ::
      db.attempts.rows[other].request in db.requests.rows && db.requests.rows[db.attempts.rows[other].request].message == message ==>
        db.attempts.rows[other].generation <= generation
  }

  /** The last attempt for `message` failed or was interrupted and left no effect. */
  predicate FailedCleanly(db: Db, message: Id) {
    exists a | a in db.attempts.rows ::
      && LatestRequest(db, message, db.attempts.rows[a].request)
      && TopGeneration(db, message, db.attempts.rows[a].generation)
      && db.requests.rows[db.attempts.rows[a].request].status in {Errored, Aborted}
      && db.attempts.rows[a].state in {Failed, Interrupted}
      && db.attempts.rows[a].effect == NoEffect
  }

  /** The retried attempt is the latest for its input, and every later input of the dialog failed cleanly. */
  predicate RetryEligible(db: Db, attempt: Id, message: Id)
    requires attempt in db.attempts.rows && message in db.messages.rows
  {
    && LatestRequest(db, message, db.attempts.rows[attempt].request)
    && TopGeneration(db, message, db.attempts.rows[attempt].generation)
    && forall m | m in db.messages.rows ::
         (&& db.messages.rows[m].dialog == db.attempts.rows[attempt].dialog
          && db.messages.rows[m].sequence > db.messages.rows[message].sequence
          && exists r | r in db.requests.rows :: db.requests.rows[r].message == m) ==> FailedCleanly(db, m)
  }

  predicate Unfinished(status: RequestStatus) {
    status.Queued? || status.Dispatched? || status.Active? || status.InDoubt?
  }

  function RetryRows(tx: Tx, attempt: Id, message: Id, request: Id): Tx
    requires attempt in tx.db.attempts.rows
  {
    var row := Request(tx.db.attempts.rows[attempt].dialog, message, tx.st.nextQueueSequence, 1, Queued);
    var tx1 := AdvanceQueue(PutRequest(tx, request, row));
    tx1.(st := tx1.st.(nextQueueSequence := tx1.st.nextQueueSequence + 1, pendingCount := tx1.st.pendingCount + 1))
  }

  function ApplyRetry(tx: Tx, attempt: Id, generation: nat, acknowledgeKnown: bool, request: Id): Option<Handled> {
    var db := tx.db;
    :- Need(attempt in db.attempts.rows && db.attempts.rows[attempt].request in db.requests.rows);
    var row := db.attempts.rows[attempt];
    var message := db.requests.rows[row.request].message;
    :- Need(row.generation == generation && (row.state.Failed? || row.state.Interrupted?));
    :- Need(row.effect != UnknownEffect && (row.effect == KnownEffect ==> acknowledgeKnown));
    :- Need(message in db.messages.rows && RetryEligible(db, attempt, message));
    :- Need(tx.st.pendingCount < QUEUE_CAPACITY);
    :- Need(forall r | r in db.requests.rows :: db.requests.rows[r].message == message ==> !Unfinished(db.requests.rows[r].status));
    :- Need(request !in db.requests.rows);
    Some(Handled(EmitNode(EmitQueue(RetryRows(tx, attempt, message, request))), None))
  }

  function SteerRows(tx: Tx, message: Id): Tx
    requires message in tx.db.messages.rows
  {
    var text := tx.db.messages.rows[message];
    AdvanceQueue(PutMessage(tx, message, text.(version := text.version + 1, disposition := SteerPending)))
  }

  function ApplySteer(tx: Tx, dialog: Id, message: Id, messageVersion: nat, attempt: Id, generation: nat): Option<Handled> {
    var db := tx.db;
    :- Need(attempt in db.attempts.rows && message in db.messages.rows && db.messages.rows[message].dialog == dialog);
    var row, text := db.attempts.rows[attempt], db.messages.rows[message];
    :- Need(row.generation == generation && text.version == messageVersion && row.dialog == dialog && tx.st.active == Some(attempt));
    :- Need(text.disposition == InQueue && (row.state.Running? || row.state.WaitingInput?));
    Some(Handled(EmitQueue(Emit(SteerRows(tx, message), MessageMoved(message), None)),
                 Some(Action(MessageSteer, attempt, message, text.request, 0, 0, Pending))))
  }

  function ApplyApproval(tx: Tx, prompt: Id, promptVersion: nat, attempt: Id, generation: nat, hashMatches: bool): Option<Handled> {
    if !(prompt in tx.db.approvals.rows && attempt in tx.db.attempts.rows) then None else
      var row, owner := tx.db.approvals.rows[prompt], tx.db.attempts.rows[attempt];
      :- Need(row.attempt == attempt && row.version == promptVersion && row.status == Open && hashMatches && owner.generation == generation);
      Some(Handled(PutApproval(tx, prompt, row.(version := row.version + 1, status := Responding)),
                   Some(Action(ApprovalRespond, attempt, 0, owner.request, prompt, row.version + 1, Pending))))
  }

  function ApplyInput(tx: Tx, prompt: Id, promptVersion: nat, attempt: Id, generation: nat, message: Id): Option<Handled> {
    if !(prompt in tx.db.inputs.rows && attempt in tx.db.attempts.rows) then None else
      var row, owner := tx.db.inputs.rows[prompt], tx.db.attempts.rows[attempt];
      :- Need(row.attempt == attempt && row.version == promptVersion && row.status == Open && owner.generation == generation);
      :- Need(message !in tx.db.messages.rows);
      var tx1 := PutMessage(tx, message, Message(owner.dialog, tx.st.nextMessageSequence, 1, Consumed, owner.request));
      var tx2 := PutInput(tx1, prompt, row.(version := row.version + 1, status := Responding));
      Some(Handled(tx2.(st := tx2.st.(nextMessageSequence := tx2.st.nextMessageSequence + 1)),
                   Some(Action(InputRespond, attempt, message, owner.request, prompt, row.version + 1, Pending))))
  }

  function Apply(tx: Tx, command: Command, ids: Supply): Option<Handled> {
    match command
    case CreateDialog => ApplyCreate(tx, ids.first)
    case Enqueue(dialog, version) => ApplyEnqueue(tx, dialog, version, ids.first, ids.second)
    case CancelRequest(request, version) => ApplyCancel(tx, request, version)
    case ResumeQueue(version) => ApplyResume(tx, version)
    case StopAttempt(attempt, generation) => ApplyStop(tx, attempt, generation)
    case RetryAttempt(attempt, generation, known) => ApplyRetry(tx, attempt, generation, known, ids.first)
    case SteerMessage(dialog, message, version, attempt, generation) => ApplySteer(tx, dialog, message, version, attempt, generation)
    case AnswerApproval(prompt, version, attempt, generation, hash) => ApplyApproval(tx, prompt, version, attempt, generation, hash)
    case AnswerInput(prompt, version, attempt, generation) => ApplyInput(tx, prompt, version, attempt, generation, ids.first)
  }

  // ---- admission ---------------------------------------------------------------

  /** The dialog a command is about, when its target names a row that has one. */
  function TargetDialog(db: Db, command: Command): Option<Id> {
    match command
    case CreateDialog => None
    case ResumeQueue(_) => None
    case Enqueue(dialog, _) => Some(dialog)
    case SteerMessage(dialog, _, _, _, _) => Some(dialog)
    case CancelRequest(request, _) => if request in db.requests.rows then Some(db.requests.rows[request].dialog) else None
    case StopAttempt(attempt, _) => DialogOf(db, attempt)
    case RetryAttempt(attempt, _, _) => DialogOf(db, attempt)
    case AnswerApproval(_, _, attempt, _, _) => DialogOf(db, attempt)
    case AnswerInput(_, _, attempt, _) => DialogOf(db, attempt)
  }

  predicate Authorized(db: Db, command: Command) {
    match command
    case CreateDialog => true
    case ResumeQueue(_) => true
    case AnswerApproval(prompt, _, attempt, _, _) =>
      && prompt in db.approvals.rows && db.approvals.rows[prompt].attempt == attempt
      && TargetDialog(db, command).Some? && Live(db, TargetDialog(db, command).value)
    case AnswerInput(prompt, _, attempt, _) =>
      && prompt in db.inputs.rows && db.inputs.rows[prompt].attempt == attempt
      && TargetDialog(db, command).Some? && Live(db, TargetDialog(db, command).value)
    case _ => TargetDialog(db, command).Some? && Live(db, TargetDialog(db, command).value)
  }

  predicate NodeHeld(db: Db) {
    exists op | op in db.holds.rows :: op !in db.releases.rows && db.holds.rows[op].scope == NodeScope
  }

  /** A committed, unreleased hold stops this command. Only admission and resume can be stopped. */
  predicate Held(db: Db, command: Command) {
    match command
    case CreateDialog => NodeHeld(db)
    case ResumeQueue(_) => NodeHeld(db)
    case Enqueue(dialog, _) => Covered(db, dialog)
    case RetryAttempt(attempt, _, _) => attempt in db.attempts.rows && Covered(db, db.attempts.rows[attempt].dialog)
    case _ => false
  }

  predicate IsAdmission(command: Command) {
    command.CreateDialog? || command.Enqueue? || command.RetryAttempt?
  }

  /** A control command on a full disk first records that storage is short. */
  function NoteStorage(tx: Tx, command: Command, ids: Supply): Tx {
    if !IsAdmission(command) && ids.storageLow
    then tx.(st := tx.st.(readiness := Blocked, reasons := AddReason(tx.st.reasons, StorageUnavailable))) else tx
  }

  datatype Reply = Accepted | HeldBack | Replayed(accepted: bool) | IdConflict | NotFound | Refused | NotDurable

  function Ledger(db: Db, id: Id): Option<Receipt> {
    if id in db.accepted.rows then Some(db.accepted.rows[id]) else if id in db.rejected.rows then Some(db.rejected.rows[id]) else None
  }

  /** What admission adds to a handler's work: the action to queue and the receipt. */
  function Record(tx: Tx, id: Id, receipt: Receipt, action: Option<Action>): Tx {
    var tx1 := if action.Some? then PutAction(tx, id, action.value) else tx;
    tx1.(db := tx1.db.(accepted := Table(tx1.db.accepted.rows[id := receipt])))
  }

  /** The dialog a command's receipt is filed under. */
  function About(db: Db, command: Command, ids: Supply): Option<Id> {
    if command.CreateDialog? then Some(ids.first) else TargetDialog(db, command)
  }

  function Admit(db: Db, id: Id, digest: Id, command: Command, ids: Supply): Option<Db> {
    var applied :- Apply(NoteStorage(Begin(db), command, ids), command, ids);
    :- Need(applied.action.Some? ==> id !in applied.tx.db.actions.rows);
    Some(Save(Record(applied.tx, id, Receipt(digest, About(db, command, ids)), applied.action)).db)
  }

  function RejectHeld(db: Db, id: Id, digest: Id, command: Command): Db {
    db.(rejected := Table(db.rejected.rows[id := Receipt(digest, TargetDialog(db, command))]))
  }

  /** One call of the admission entry point; `commits` is whether the store accepts the commit. */
  function Submit(db: Db, id: Id, digest: Id, command: Command, ids: Supply, commits: bool): (Reply, Db) {
    var known := Ledger(db, id);
    if known.Some? then
      if known.value.digest != digest then (IdConflict, db)
      else if known.value.dialog.Some? && Deleted(db, known.value.dialog.value) then (NotFound, db)
      else (Replayed(id in db.accepted.rows), db)
    else if !Authorized(db, command) then (NotFound, db)
    else if Held(db, command) then
      if commits then (HeldBack, RejectHeld(db, id, digest, command)) else (NotDurable, db)
    else if IsAdmission(command) && !ids.spaceAvailable then (NotDurable, db)
    else
      var admitted := Admit(db, id, digest, command, ids);
      if admitted.None? then (Refused, db)
      else if commits then (Accepted, admitted.value) else (NotDurable, db)
  }
}
