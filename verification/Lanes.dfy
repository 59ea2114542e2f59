/** Dispatch, the action lanes and startup as they run
    (runtime/dispatch.go, runtime/actions.go, runtime/recovery.go). */
module Lanes {
  import opened Wrappers
  import opened Store
  import opened Commands
  import opened Execution
  import opened Transactions
  import opened Projections

  /** The rows and the slot of a dispatch. */
  method DispatchRequest(tx: Transaction, request: Id, attempt: Id, generation: nat)
    requires request in tx.db.requests.rows && tx.db.requests.rows[request].message in tx.db.messages.rows && tx.st == tx.db.state
    modifies tx
    ensures tx.Now() == DispatchRows(old(tx.db), request, attempt, generation)
  {
    var row := tx.db.requests.rows[request];
    var text := tx.db.messages.rows[row.message];
    tx.WriteAttempt(attempt, Attempt(row.dialog, request, generation, 1, Dispatching, NoEffect, false));
    tx.WriteRequest(request, row.(version := row.version + 1, status := Dispatched));
    if text.disposition == InQueue {
      tx.WriteMessage(row.message, text.(version := text.version + 1, disposition := Consumed));
    }
    tx.st := tx.st.(version := tx.st.version + 1, queueVersion := tx.st.queueVersion + 1);
    tx.st := tx.st.(pendingCount := tx.st.pendingCount - 1, active := Some(attempt), readiness := Ready, occupancy := Busy);
    var reasons := RemoveReasonInPlace(tx.st.reasons, PolicyUnavailable);
    tx.st := tx.st.(reasons := reasons);
  }

  /** The second critical section of a dispatch: the queue is read again and must still show the candidate at its head. */
  method RunDispatch(db: Db, candidate: Candidate, attempt: Id, generation: nat) returns (after: Option<Db>)
    ensures after == Dispatch(db, candidate, attempt, generation)
  {
    var tx := new Transaction(db);
    if tx.st.version != candidate.stateVersion || tx.st.paused || tx.st.active.Some? || tx.st.pendingCount == 0 {
      return None;
    }
    if !IsNext(tx.db, candidate.request) {
      return None;
    }
    var row := tx.db.requests.rows[candidate.request];
    if row.message !in tx.db.messages.rows || !IsNextGeneration(tx.db, row.message, generation) {
      return None;
    }
    if attempt in tx.db.attempts.rows || attempt in tx.db.actions.rows {
      return None;
    }
    var text := tx.db.messages.rows[row.message];
    DispatchRequest(tx, candidate.request, attempt, generation);
    if text.disposition == InQueue {
      tx.AppendEvent(MessageMoved(row.message), None);
    }
    tx.AppendEvent(AttemptMoved, Some(row.dialog));
    tx.AppendEvent(QueueChanged, None);
    tx.AppendEvent(NodeChanged, None);
    tx.WriteAction(attempt, Action(DispatchStart, attempt, 0, candidate.request, 0, 0, Pending));
    tx.SaveState();
    return Some(tx.db);
  }

  /** No usable policy: the engine is blocked, once. */
  method RunBlock(db: Db) returns (after: Option<Db>)
    ensures after == BlockPolicy(db)
  {
    if db.state.readiness == Blocked && PolicyUnavailable in db.state.reasons {
      return None;
    }
    var tx := new Transaction(db);
    tx.st := tx.st.(readiness := Blocked, reasons := AddReason(tx.st.reasons, PolicyUnavailable));
    tx.st := tx.st.(version := tx.st.version + 1);
    tx.AppendEvent(NodeChanged, None);
    tx.SaveState();
    return Some(tx.db);
  }

  method RunStatus(db: Db, command: Id, from: ActionStatus, to: ActionStatus) returns (after: Db)
    ensures after == SetStatus(db, command, from, to)
  {
    if command !in db.actions.rows || db.actions.rows[command].status != from {
      return db;
    }
    var tx := new Transaction(db);
    tx.WriteAction(command, tx.db.actions.rows[command].(status := to));
    return tx.db;
  }

  method RunStarted(db: Db, attempt: Id) returns (after: Option<Db>)
    ensures after == MarkStarted(db, attempt)
  {
    var tx := new Transaction(db);
    if tx.st.active != Some(attempt) || attempt !in tx.db.attempts.rows || !tx.db.attempts.rows[attempt].state.Dispatching? {
      return None;
    }
    var row := tx.db.attempts.rows[attempt];
    tx.WriteAttempt(attempt, row.(version := row.version + 1, state := Running, started := true));
    tx.st := tx.st.(version := tx.st.version + 1);
    MoveRequestRow(tx, row.request, Active);
    AnnounceAttempt(tx, row.dialog);
    tx.SaveState();
    return Some(tx.db);
  }

  method RefuseAttemptRow(tx: Transaction, attempt: Id)
    requires attempt in tx.db.attempts.rows
    modifies tx
    ensures tx.Now() == RefuseAttempt(old(tx.Now()), attempt)
  {
    var row := tx.db.attempts.rows[attempt];
    tx.WriteAttempt(attempt, row.(version := row.version + 1, state := Failed, effect := NoEffect));
    tx.st := tx.st.(version := tx.st.version + 1, active := None, occupancy := Idle);
    if tx.st.readiness == NotKnown {
      tx.st := tx.st.(readiness := Blocked);
    }
  }

  /** The confirmed failure of a start the provider refused; only noted when the slot has moved on. */
  method RunRefusal(db: Db, attempt: Id) returns (after: Option<Db>)
    ensures after == ObserveRefusal(db, attempt)
  {
    if attempt !in db.attempts.rows || Deleted(db, db.attempts.rows[attempt].dialog) {
      return None;
    }
    var row := db.attempts.rows[attempt];
    var tx := new Transaction(db);
    if tx.st.active != Some(attempt) {
      tx.AppendEvent(Archived, Some(row.dialog));
      tx.WriteLate(Late(attempt, row.generation, LateObservation, tx.st.lastEventSeq, 0));
    } else {
      RefuseAttemptRow(tx, attempt);
      MoveRequestRow(tx, row.request, Errored);
      AnnounceAttempt(tx, row.dialog);
    }
    tx.SaveState();
    return Some(tx.db);
  }

  method RunUnknown(db: Db, attempt: Id, request: Id, effect: Effect) returns (after: Option<Db>)
    ensures after == MarkUnknown(db, attempt, request, effect)
  {
    if db.state.active != Some(attempt) {
      return None;
    }
    var tx := new Transaction(db);
    var ok := SetAttemptUnknown(tx, attempt, request, effect);
    if !ok {
      return None;
    }
    tx.SaveState();
    return Some(tx.db);
  }

  /** The steered message and its request, moved to where the outcome puts them. */
  method MoveSteered(tx: Transaction, message: Id, outcome: SteerOutcome)
    requires message in tx.db.messages.rows && tx.db.messages.rows[message].request in tx.db.requests.rows && tx.st == tx.db.state
    modifies tx
    ensures tx.Now() == SteerMoved(old(tx.db), message, outcome)
  {
    var text := tx.db.messages.rows[message];
    var row := tx.db.requests.rows[text.request];
    var moved := InQueue;
    if outcome.SteerApplied? {
      moved := Consumed;
      tx.st := tx.st.(pendingCount := tx.st.pendingCount - 1);
      tx.WriteRequest(text.request, row.(version := row.version + 1, status := Succeeded));
    } else if outcome.SteerUnknown? {
      moved := Lost;
      tx.st := tx.st.(pendingCount := tx.st.pendingCount - 1);
      tx.WriteRequest(text.request, row.(version := row.version + 1, status := InDoubt));
    }
    tx.WriteMessage(message, text.(version := text.version + 1, disposition := moved));
    tx.st := tx.st.(version := tx.st.version + 1, queueVersion := tx.st.queueVersion + 1);
  }

  /** Settles a steer: the message moves, its request with it, and an unknown outcome takes the attempt along. */
  method RunSteer(db: Db, attempt: Id, message: Id, outcome: SteerOutcome) returns (after: Option<Db>)
    ensures after == FinishSteer(db, attempt, message, outcome)
  {
    if message !in db.messages.rows || db.messages.rows[message].disposition != SteerPending
       || db.messages.rows[message].request !in db.requests.rows {
      return None;
    }
    var tx := new Transaction(db);
    MoveSteered(tx, message, outcome);
    tx.AppendEvent(MessageMoved(message), None);
    if outcome.SteerUnknown? {
      var ok := SetAttemptUnknown(tx, attempt, db.messages.rows[message].request, UnknownEffect);
      if !ok {
        return None;
      }
    }
    tx.AppendEvent(QueueChanged, None);
    tx.SaveState();
    return Some(tx.db);
  }

  /** Settles an answer to an approval or an input request. */
  method RunAnswer(db: Db, action: Action, outcome: ResponseOutcome) returns (after: Option<Db>)
    ensures after == FinishResponse(db, action, outcome)
  {
    var tx := new Transaction(db);
    if action.kind == ApprovalRespond {
      if action.prompt in tx.db.approvals.rows && tx.db.approvals.rows[action.prompt].version == action.promptVersion {
        tx.WriteApproval(action.prompt, tx.db.approvals.rows[action.prompt].(status := PromptAfter(outcome)));
      }
    } else {
      if action.prompt in tx.db.inputs.rows && tx.db.inputs.rows[action.prompt].version == action.promptVersion {
        tx.WriteInput(action.prompt, tx.db.inputs.rows[action.prompt].(status := PromptAfter(outcome)));
      }
    }
    if outcome.ResponseApplied? {
      tx.AppendEvent(PromptMoved, DialogOf(db, action.attempt));
    }
    assert tx.Now() == AnswerNoted(db, action, outcome);
    if outcome.ResponseUnknown? {
      var ok := SetAttemptUnknown(tx, action.attempt, action.request, UnknownEffect);
      if !ok {
        return None;
      }
    }
    tx.SaveState();
    return Some(tx.db);
  }

  /** Startup: strands every unsettled action, then doubts the attempt that was in the slot. */
  method RunRecovery(db: Db) returns (after: Option<Db>)
    ensures after == Recover(db)
  {
    var tx := new Transaction(StrandActions(db));
    if tx.st.active.Some? {
      var attempt := tx.st.active.value;
      if attempt !in tx.db.attempts.rows || !Occupies(tx.db.attempts.rows[attempt].state) {
        return None;
      }
      if !tx.db.attempts.rows[attempt].state.Unknown? {
        var ok := SetAttemptUnknown(tx, attempt, tx.db.attempts.rows[attempt].request, UnknownEffect);
        if !ok {
          return None;
        }
        tx.SaveState();
      }
    }
    return Some(tx.db);
  }
}
