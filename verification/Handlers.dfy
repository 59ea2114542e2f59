/** The command handlers as they run, on a transaction changed row by row
    (runtime/command_handlers.go, runtime/control_handlers.go, runtime/command.go). */
module Handlers {
  import opened Wrappers
  import opened Store
  import opened Commands
  import opened Transactions

  /** What a handler reports: whether it went through, and the control action to queue. A refusal comes before the first
      write. */
  ghost predicate Handles(ok: bool, action: Option<Action>, before: Tx, now: Tx, expected: Option<Handled>) {
    && ok == expected.Some?
    && (if ok then now == expected.value.tx && action == expected.value.action else now == before && action == None)
  }

  method WriteEnqueued(tx: Transaction, dialog: Id, message: Id, request: Id)
    requires dialog in tx.db.dialogs.rows
    modifies tx
    ensures tx.Now() == EnqueueRows(old(tx.Now()), dialog, message, request)
  {
    tx.WriteMessage(message, Message(dialog, tx.st.nextMessageSequence, 1, InQueue, request));
    tx.WriteRequest(request, Request(dialog, message, tx.st.nextQueueSequence, 1, Queued));
    var row := tx.db.dialogs.rows[dialog];
    tx.db := tx.db.(dialogs := Table(tx.db.dialogs.rows[dialog := row.(version := row.version + 1)]));
    tx.st := tx.st.(version := tx.st.version + 1, queueVersion := tx.st.queueVersion + 1);
    tx.st := tx.st.(nextMessageSequence := tx.st.nextMessageSequence + 1, nextQueueSequence := tx.st.nextQueueSequence + 1);
    tx.st := tx.st.(pendingCount := tx.st.pendingCount + 1);
  }

  method EnqueueMessage(tx: Transaction, dialog: Id, dialogVersion: nat, message: Id, request: Id) returns (ok: bool)
    modifies tx
    ensures Handles(ok, None, old(tx.Now()), tx.Now(), ApplyEnqueue(old(tx.Now()), dialog, dialogVersion, message, request))
  {
    if dialog !in tx.db.dialogs.rows || tx.db.dialogs.rows[dialog].version != dialogVersion || tx.st.pendingCount >= QUEUE_CAPACITY {
      return false;
    }
    if message in tx.db.messages.rows || request in tx.db.requests.rows {
      return false;
    }
    WriteEnqueued(tx, dialog, message, request);
    tx.AppendEvent(MessageAccepted(dialog), None);
    tx.AppendEvent(QueueChanged, None);
    tx.AppendEvent(NodeChanged, None);
    return true;
  }

  method CancelQueued(tx: Transaction, request: Id, requestVersion: nat) returns (ok: bool)
    modifies tx
    ensures Handles(ok, None, old(tx.Now()), tx.Now(), ApplyCancel(old(tx.Now()), request, requestVersion))
  {
    if request !in tx.db.requests.rows {
      return false;
    }
    var row := tx.db.requests.rows[request];
    if row.version != requestVersion || row.status != Queued || row.message !in tx.db.messages.rows {
      return false;
    }
    var text := tx.db.messages.rows[row.message];
    tx.WriteRequest(request, row.(version := row.version + 1, status := Cancelled));
    tx.WriteMessage(row.message, text.(version := text.version + 1, disposition := Dropped));
    tx.st := tx.st.(version := tx.st.version + 1, queueVersion := tx.st.queueVersion + 1);
    tx.st := tx.st.(pendingCount := tx.st.pendingCount - 1);
    tx.AppendEvent(MessageMoved(row.message), None);
    tx.AppendEvent(QueueChanged, None);
    tx.AppendEvent(NodeChanged, None);
    return true;
  }

  method ResumePaused(tx: Transaction, queueVersion: nat) returns (ok: bool)
    modifies tx
    ensures Handles(ok, None, old(tx.Now()), tx.Now(), ApplyResume(old(tx.Now()), queueVersion))
  {
    if tx.st.queueVersion != queueVersion {
      return false;
    }
    tx.st := tx.st.(version := tx.st.version + 1, queueVersion := tx.st.queueVersion + 1, paused := false);
    var kept := RemoveReasonInPlace(tx.st.reasons, OperatorPause);
    tx.st := tx.st.(reasons := kept);
    tx.AppendEvent(QueueChanged, None);
    tx.AppendEvent(NodeChanged, None);
    return true;
  }

  method StopActive(tx: Transaction, attempt: Id, generation: nat) returns (ok: bool, action: Option<Action>)
    modifies tx
    ensures Handles(ok, action, old(tx.Now()), tx.Now(), ApplyStop(old(tx.Now()), attempt, generation))
  {
    if attempt !in tx.db.attempts.rows {
      return false, None;
    }
    var row := tx.db.attempts.rows[attempt];
    if row.generation != generation || tx.st.active != Some(attempt) {
      return false, None;
    }
    if row.state !in {Dispatching, Running, WaitingInput, Stopping} {
      return false, None;
    }
    tx.WriteAttempt(attempt, row.(version := row.version + 1, state := Stopping));
    tx.st := tx.st.(version := tx.st.version + 1, queueVersion := tx.st.queueVersion + 1, paused := true);
    tx.st := tx.st.(reasons := AddReason(tx.st.reasons, OperatorPause));
    tx.AppendEvent(AttemptMoved, Some(row.dialog));
    tx.AppendEvent(QueueChanged, None);
    tx.AppendEvent(NodeChanged, None);
    return true, Some(Action(AttemptStop, attempt, 0, row.request, 0, 0, Pending));
  }

  method WriteRetry(tx: Transaction, attempt: Id, message: Id, request: Id)
    requires attempt in tx.db.attempts.rows
    modifies tx
    ensures tx.Now() == RetryRows(old(tx.Now()), attempt, message, request)
  {
    tx.WriteRequest(request, Request(tx.db.attempts.rows[attempt].dialog, message, tx.st.nextQueueSequence, 1, Queued));
    tx.st := tx.st.(version := tx.st.version + 1, queueVersion := tx.st.queueVersion + 1);
    tx.st := tx.st.(nextQueueSequence := tx.st.nextQueueSequence + 1, pendingCount := tx.st.pendingCount + 1);
  }

  method RetryFinished(tx: Transaction, attempt: Id, generation: nat, acknowledgeKnown: bool, request: Id) returns (ok: bool)
    modifies tx
    ensures Handles(ok, None, old(tx.Now()), tx.Now(), ApplyRetry(old(tx.Now()), attempt, generation, acknowledgeKnown, request))
  {
    if attempt !in tx.db.attempts.rows || tx.db.attempts.rows[attempt].request !in tx.db.requests.rows {
      return false;
    }
    var row := tx.db.attempts.rows[attempt];
    var message := tx.db.requests.rows[row.request].message;
    if row.generation != generation || row.state !in {Failed, Interrupted} || row.effect == UnknownEffect {
      return false;
    }
    if (row.effect == KnownEffect && !acknowledgeKnown) || message !in tx.db.messages.rows {
      return false;
    }
    if !RetryEligible(tx.db, attempt, message) || tx.st.pendingCount >= QUEUE_CAPACITY || request in tx.db.requests.rows {
      return false;
    }
    if exists r | r in tx.db.requests.rows :: tx.db.requests.rows[r].message == message && Unfinished(tx.db.requests.rows[r].status) {
      return false;
    }
    WriteRetry(tx, attempt, message, request);
    tx.AppendEvent(QueueChanged, None);
    tx.AppendEvent(NodeChanged, None);
    return true;
  }

  method SteerQueuedMessage(tx: Transaction, dialog: Id, message: Id, messageVersion: nat, attempt: Id, generation: nat)
    returns (ok: bool, action: Option<Action>)
    modifies tx
    ensures Handles(ok, action, old(tx.Now()), tx.Now(), ApplySteer(old(tx.Now()), dialog, message, messageVersion, attempt, generation))
  {
    if attempt !in tx.db.attempts.rows || message !in tx.db.messages.rows || tx.db.messages.rows[message].dialog != dialog {
      return false, None;
    }
    var row, text := tx.db.attempts.rows[attempt], tx.db.messages.rows[message];
    if row.generation != generation || text.version != messageVersion || row.dialog != dialog || tx.st.active != Some(attempt) {
      return false, None;
    }
    if text.disposition != InQueue || row.state !in {Running, WaitingInput} {
      return false, None;
    }
    tx.WriteMessage(message, text.(version := text.version + 1, disposition := SteerPending));
    tx.st := tx.st.(version := tx.st.version + 1, queueVersion := tx.st.queueVersion + 1);
    tx.AppendEvent(MessageMoved(message), None);
    tx.AppendEvent(QueueChanged, None);
    return true, Some(Action(MessageSteer, attempt, message, text.request, 0, 0, Pending));
  }

  method AnswerOpenApproval(tx: Transaction, prompt: Id, promptVersion: nat, attempt: Id, generation: nat, hashMatches: bool)
    returns (ok: bool, action: Option<Action>)
    modifies tx
    ensures Handles(ok, action, old(tx.Now()), tx.Now(), ApplyApproval(old(tx.Now()), prompt, promptVersion, attempt, generation, hashMatches))
  {
    if prompt !in tx.db.approvals.rows || attempt !in tx.db.attempts.rows {
      return false, None;
    }
    var row, owner := tx.db.approvals.rows[prompt], tx.db.attempts.rows[attempt];
    if row.attempt != attempt || row.version != promptVersion || row.status != Open || !hashMatches || owner.generation != generation {
      return false, None;
    }
    tx.WriteApproval(prompt, row.(version := row.version + 1, status := Responding));
    return true, Some(Action(ApprovalRespond, attempt, 0, owner.request, prompt, row.version + 1, Pending));
  }

  method AnswerOpenInput(tx: Transaction, prompt: Id, promptVersion: nat, attempt: Id, generation: nat, message: Id)
    returns (ok: bool, action: Option<Action>)
    modifies tx
    ensures Handles(ok, action, old(tx.Now()), tx.Now(), ApplyInput(old(tx.Now()), prompt, promptVersion, attempt, generation, message))
  {
    if prompt !in tx.db.inputs.rows || attempt !in tx.db.attempts.rows || message in tx.db.messages.rows {
      return false, None;
    }
    var row, owner := tx.db.inputs.rows[prompt], tx.db.attempts.rows[attempt];
    if row.attempt != attempt || row.version != promptVersion || row.status != Open || owner.generation != generation {
      return false, None;
    }
    tx.WriteMessage(message, Message(owner.dialog, tx.st.nextMessageSequence, 1, Consumed, owner.request));
    tx.WriteInput(prompt, row.(version := row.version + 1, status := Responding));
    tx.st := tx.st.(nextMessageSequence := tx.st.nextMessageSequence + 1);
    return true, Some(Action(InputRespond, attempt, message, owner.request, prompt, row.version + 1, Pending));
  }

  method ApplyCommand(tx: Transaction, command: Command, ids: Supply) returns (ok: bool, action: Option<Action>)
    modifies tx
    ensures Handles(ok, action, old(tx.Now()), tx.Now(), Apply(old(tx.Now()), command, ids))
  {
    action := None;
    match command
    case CreateDialog =>
      ok := ids.first !in tx.db.dialogs.rows;
      if ok {
        tx.db := tx.db.(dialogs := Table(tx.db.dialogs.rows[ids.first := Dialog(1, false)]),
                        revisions := Table(Bump(tx.db.revisions.rows, None, 0)[DialogScope(ids.first) := Revision(1, 1)]));
        tx.st := tx.st.(version := tx.st.version + 1);
        tx.AppendEvent(NodeChanged, None);
      }
    case Enqueue(dialog, version) => ok := EnqueueMessage(tx, dialog, version, ids.first, ids.second);
    case CancelRequest(request, version) => ok := CancelQueued(tx, request, version);
    case ResumeQueue(version) => ok := ResumePaused(tx, version);
    case StopAttempt(attempt, generation) => ok, action := StopActive(tx, attempt, generation);
    case RetryAttempt(attempt, generation, known) => ok := RetryFinished(tx, attempt, generation, known, ids.first);
    case SteerMessage(dialog, message, version, attempt, generation) =>
      ok, action := SteerQueuedMessage(tx, dialog, message, version, attempt, generation);
    case AnswerApproval(prompt, version, attempt, generation, hash) =>
      ok, action := AnswerOpenApproval(tx, prompt, version, attempt, generation, hash);
    case AnswerInput(prompt, version, attempt, generation) =>
      ok, action := AnswerOpenInput(tx, prompt, version, attempt, generation, ids.first);
  }

  method RecordAdmission(tx: Transaction, id: Id, receipt: Receipt, action: Option<Action>)
    modifies tx
    ensures tx.Now() == Record(old(tx.Now()), id, receipt, action)
  {
    if action.Some? {
      tx.WriteAction(id, action.value);
    }
    tx.db := tx.db.(accepted := Table(tx.db.accepted.rows[id := receipt]));
  }

  /** The admitting transaction of a command nobody has an outcome for. */
  method AdmitCommand(db: Db, id: Id, digest: Id, command: Command, ids: Supply) returns (after: Option<Db>)
    ensures after == Admit(db, id, digest, command, ids)
  {
    var tx := new Transaction(db);
    if !IsAdmission(command) && ids.storageLow {
      tx.st := tx.st.(readiness := Blocked, reasons := AddReason(tx.st.reasons, StorageUnavailable));
    }
    var ok, action := ApplyCommand(tx, command, ids);
    if !ok || (action.Some? && id in tx.db.actions.rows) {
      return None;
    }
    RecordAdmission(tx, id, Receipt(digest, About(db, command, ids)), action);
    tx.SaveState();
    return Some(tx.db);
  }
}
