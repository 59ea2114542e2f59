/** Projection, archiving and reconciliation as they run
    (runtime/observe.go, runtime/reconcile.go, runtime/artifact.go). */
module Projections {
  import opened Wrappers
  import opened Store
  import opened Commands
  import opened Execution
  import opened Observation
  import opened Transactions

  method MoveRequestRow(tx: Transaction, request: Id, status: RequestStatus)
    modifies tx
    ensures tx.Now() == MoveRequest(old(tx.Now()), request, status)
  {
    if request in tx.db.requests.rows {
      var row := tx.db.requests.rows[request];
      tx.WriteRequest(request, row.(version := row.version + 1, status := status));
    }
  }

  method AnnounceAttempt(tx: Transaction, dialog: Id)
    modifies tx
    ensures tx.Now() == Announce(old(tx.Now()), dialog)
  {
    tx.AppendEvent(AttemptMoved, Some(dialog));
    tx.AppendEvent(NodeChanged, None);
  }

  method DoubtAttemptRow(tx: Transaction, attempt: Id, effect: Effect)
    requires attempt in tx.db.attempts.rows
    modifies tx
    ensures tx.Now() == DoubtAttempt(old(tx.Now()), attempt, effect)
  {
    var row := tx.db.attempts.rows[attempt];
    tx.WriteAttempt(attempt, row.(version := row.version + 1, state := Unknown, effect := effect));
    tx.st := tx.st.(version := tx.st.version + 1, readiness := NotKnown, occupancy := Doubtful, active := Some(attempt));
    tx.st := tx.st.(reasons := AddReason(tx.st.reasons, ExecutionUnknown));
  }

  /** Marks the attempt and the request its reference names as unknown, in the caller's transaction. */
  method SetAttemptUnknown(tx: Transaction, attempt: Id, request: Id, effect: Effect) returns (ok: bool)
    modifies tx
    ensures ok == SetUnknown(old(tx.Now()), attempt, request, effect).Some?
    ensures ok ==> tx.Now() == SetUnknown(old(tx.Now()), attempt, request, effect).value
  {
    if attempt !in tx.db.attempts.rows {
      return false;
    }
    var row := tx.db.attempts.rows[attempt];
    if row.state.Unknown? {
      return true;
    }
    if ActiveElsewhere(tx.db, attempt) {
      return false;
    }
    DoubtAttemptRow(tx, attempt, effect);
    MoveRequestRow(tx, request, InDoubt);
    AnnounceAttempt(tx, row.dialog);
    return true;
  }

  /** Ends the attempt in the caller's transaction. */
  method ApplyTerminal(tx: Transaction, ref: AttemptRef, outcome: Outcome, effect: Effect) returns (ok: bool)
    requires !outcome.OutcomeUnknown?
    modifies tx
    ensures ok == Terminate(old(tx.Now()), ref, outcome, effect).Some?
    ensures ok ==> tx.Now() == Terminate(old(tx.Now()), ref, outcome, effect).value
  {
    if ref.attempt !in tx.db.attempts.rows {
      return false;
    }
    var row := tx.db.attempts.rows[ref.attempt];
    tx.WriteAttempt(ref.attempt, row.(version := row.version + 1, state := FinalState(outcome), effect := effect));
    var reasons := RemoveReasonInPlace(tx.st.reasons, ExecutionUnknown);
    if outcome.OutcomeFailed? {
      reasons := Blame(reasons, outcome.kind);
    }
    tx.st := tx.st.(version := tx.st.version + 1, active := None, occupancy := Idle, reasons := reasons);
    tx.st := tx.st.(readiness := if reasons == [] then Ready else Blocked);
    assert tx.Now() == EndAttempt(old(tx.Now()), ref.attempt, outcome, effect);
    MoveRequestRow(tx, ref.request, FinalStatus(outcome));
    AnnounceAttempt(tx, ref.dialog);
    return true;
  }

  // ---- projection ------------------------------------------------------------------------

  /** Charging output rewrites the attempt's row. */
  method ChargeOutput(tx: Transaction, attempt: Id)
    modifies tx
    ensures tx.Now() == Touch(old(tx.Now()), attempt)
  {
    if attempt in tx.db.attempts.rows {
      tx.WriteAttempt(attempt, tx.db.attempts.rows[attempt]);
    }
  }

  /** The stop that follows the output limit, if the attempt still runs in the slot. */
  method ScheduleOutputLimitStop(tx: Transaction, attempt: Id, command: Id) returns (ok: bool)
    modifies tx
    ensures ok == ScheduleStop(old(tx.Now()), attempt, command).Some?
    ensures ok ==> tx.Now() == ScheduleStop(old(tx.Now()), attempt, command).value
  {
    if tx.st.active != Some(attempt) || attempt !in tx.db.attempts.rows {
      return true;
    }
    var row := tx.db.attempts.rows[attempt];
    if row.state !in {Running, WaitingInput} {
      return true;
    }
    if command in tx.db.actions.rows {
      return false;
    }
    tx.WriteAttempt(attempt, row.(version := row.version + 1, state := Stopping));
    tx.st := tx.st.(version := tx.st.version + 1);
    tx.AppendEvent(AttemptMoved, Some(row.dialog));
    tx.WriteAction(command, Action(AttemptStop, attempt, 0, row.request, 0, 0, Pending));
    return true;
  }

  method TransitionWaiting(tx: Transaction, attempt: Id) returns (ok: bool)
    modifies tx
    ensures ok == EnterWaiting(old(tx.Now()), attempt).Some?
    ensures ok ==> tx.Now() == EnterWaiting(old(tx.Now()), attempt).value
  {
    if attempt !in tx.db.attempts.rows || tx.db.attempts.rows[attempt].state !in {Running, WaitingInput} {
      return false;
    }
    var row := tx.db.attempts.rows[attempt];
    tx.WriteAttempt(attempt, row.(version := row.version + 1, state := WaitingInput));
    tx.st := tx.st.(version := tx.st.version + 1);
    tx.AppendEvent(AttemptMoved, Some(row.dialog));
    return true;
  }

  method PublishProjection(tx: Transaction, ref: AttemptRef, kind: EventKind, probe: Probe) returns (ok: bool)
    modifies tx
    ensures ok == Publish(old(tx.Now()), ref, kind, probe).Some?
    ensures ok ==> tx.Now() == Publish(old(tx.Now()), ref, kind, probe).value
  {
    tx.st := tx.st.(version := tx.st.version + 1);
    tx.AppendEvent(kind, Some(ref.dialog));
    ok := true;
    if probe.charge.NewlyExceeded? {
      ok := ScheduleOutputLimitStop(tx, ref.attempt, probe.stop);
    }
  }

  method ProjectToolEvent(tx: Transaction, ref: AttemptRef, event: AdapterEvent, probe: Probe) returns (ok: bool)
    requires event.ToolStartedEvent? || event.ToolOutputEvent? || event.ToolCompletedEvent?
    modifies tx
    ensures ok == ProjectTool(old(tx.Now()), ref, event, probe).Some?
    ensures ok ==> tx.Now() == ProjectTool(old(tx.Now()), ref, event, probe).value
  {
    var known := event.call in tx.db.tools.rows && tx.db.tools.rows[event.call].attempt == ref.attempt;
    if !event.ToolStartedEvent? && !known {
      return false;
    }
    if probe.duplicate || probe.charge.AlreadyExceeded? {
      return true;
    }
    if event.ToolStartedEvent? && event.call in tx.db.tools.rows {
      return false;
    }
    ChargeOutput(tx, ref.attempt);
    match event
    case ToolStartedEvent(call) =>
      tx.WriteTool(call, ToolCall(ref.attempt, ToolRunning));
      ok := PublishProjection(tx, ref, ToolMoved, probe);
    case ToolOutputEvent(_) => ok := PublishProjection(tx, ref, ToolMoved, probe);
    case ToolCompletedEvent(call, succeeded, effect) =>
      tx.WriteTool(call, tx.db.tools.rows[call].(status := if succeeded then ToolSucceeded else ToolFailed));
      ok := PublishProjection(tx, ref, EventKind.ToolCompleted(ref.attempt, effect), probe);
  }

  method ProjectPromptEvent(tx: Transaction, ref: AttemptRef, event: AdapterEvent, probe: Probe) returns (ok: bool)
    requires event.ApprovalEvent? || event.InputEvent?
    modifies tx
    ensures ok == ProjectPrompt(old(tx.Now()), ref, event, probe).Some?
    ensures ok ==> tx.Now() == ProjectPrompt(old(tx.Now()), ref, event, probe).value
  {
    if event.ApprovalEvent? && !(event.call in tx.db.tools.rows && tx.db.tools.rows[event.call].attempt == ref.attempt) {
      return false;
    }
    if probe.duplicate || probe.charge.AlreadyExceeded? {
      return true;
    }
    ChargeOutput(tx, ref.attempt);
    match event
    case ApprovalEvent(approval, _) =>
      if probe.charge.NewlyExceeded? {
        tx.st := tx.st.(nextMessageSequence := tx.st.nextMessageSequence + 1);
        ok := PublishProjection(tx, ref, OutputProduced, probe);
        return;
      }
      if approval in tx.db.approvals.rows {
        return false;
      }
      tx.WriteApproval(approval, Prompt(ref.attempt, 1, Open));
      ok := TransitionWaiting(tx, ref.attempt);
      if ok {
        ok := PublishProjection(tx, ref, PromptMoved, probe);
      }
    case InputEvent(input) =>
      if input in tx.db.inputs.rows {
        return false;
      }
      tx.WriteInput(input, Prompt(ref.attempt, 1, Open));
      ok := true;
      if !probe.charge.NewlyExceeded? {
        ok := TransitionWaiting(tx, ref.attempt);
      }
      if ok {
        ok := PublishProjection(tx, ref, PromptMoved, probe);
      }
  }

  /** A terminal event ends the attempt only if nothing sent to it is unresolved and its effects are known. */
  method ProjectTerminalEvent(tx: Transaction, ref: AttemptRef, outcome: Outcome, effect: Effect, probe: Probe) returns (ok: bool)
    modifies tx
    ensures ok == ProjectTerminal(old(tx.Now()), ref, outcome, effect, probe).Some?
    ensures ok ==> tx.Now() == ProjectTerminal(old(tx.Now()), ref, outcome, effect, probe).value
  {
    if Unresolved(tx.db, ref.attempt) || effect == UnknownEffect {
      ok := SetAttemptUnknown(tx, ref.attempt, ref.request, UnknownEffect);
      if ok {
        ok := ArchiveAdapterEvent(tx, ref, TerminalInDoubt, probe);
      }
    } else if outcome.OutcomeUnknown? {
      ok := SetAttemptUnknown(tx, ref.attempt, ref.request, effect);
    } else if probe.refused || probe.duplicate {
      ok := !probe.refused;
    } else {
      ok := ApplyTerminal(tx, ref, outcome, effect);
    }
  }

  method ProjectAdapterEvent(tx: Transaction, ref: AttemptRef, event: AdapterEvent, probe: Probe) returns (ok: bool)
    requires ref.attempt in tx.db.attempts.rows
    modifies tx
    ensures ok == Project(old(tx.Now()), ref, event, probe).Some?
    ensures ok ==> tx.Now() == Project(old(tx.Now()), ref, event, probe).value
  {
    ok := true;
    match event
    case StartedEvent =>
      if !probe.duplicate {
        tx.st := tx.st.(version := tx.st.version + 1);
        tx.AppendEvent(AttemptMoved, Some(ref.dialog));
      }
    case WaitingEvent =>
      var row := tx.db.attempts.rows[ref.attempt];
      if !row.state.WaitingInput? {
        ok := row.state.Running?;
        if ok {
          tx.WriteAttempt(ref.attempt, row.(version := row.version + 1, state := WaitingInput));
          tx.st := tx.st.(version := tx.st.version + 1);
          tx.AppendEvent(AttemptMoved, Some(ref.dialog));
        }
      }
    case DeltaEvent =>
      if !probe.duplicate && !probe.charge.AlreadyExceeded? {
        ChargeOutput(tx, ref.attempt);
        ok := PublishProjection(tx, ref, OutputProduced, probe);
      }
    case AssistantEvent =>
      if !probe.duplicate && !probe.charge.AlreadyExceeded? {
        ChargeOutput(tx, ref.attempt);
        tx.st := tx.st.(nextMessageSequence := tx.st.nextMessageSequence + 1);
        ok := PublishProjection(tx, ref, OutputProduced, probe);
      }
    case ToolStartedEvent(_) => ok := ProjectToolEvent(tx, ref, event, probe);
    case ToolOutputEvent(_) => ok := ProjectToolEvent(tx, ref, event, probe);
    case ToolCompletedEvent(_, _, _) => ok := ProjectToolEvent(tx, ref, event, probe);
    case ApprovalEvent(_, _) => ok := ProjectPromptEvent(tx, ref, event, probe);
    case InputEvent(_) => ok := ProjectPromptEvent(tx, ref, event, probe);
    case TerminalEvent(outcome, effect) => ok := ProjectTerminalEvent(tx, ref, outcome, effect, probe);
    case UnknownEvent(effect) => ok := SetAttemptUnknown(tx, ref.attempt, ref.request, effect);
  }

  method ArchiveAdapterEvent(tx: Transaction, ref: AttemptRef, kind: LateKind, probe: Probe) returns (ok: bool)
    modifies tx
    ensures ok == Archive(old(tx.Now()), ref, kind, probe).Some?
    ensures ok ==> tx.Now() == Archive(old(tx.Now()), ref, kind, probe).value
  {
    ok := true;
    if probe.duplicate || probe.charge.AlreadyExceeded? {
      return;
    }
    if kind.LateEvent? {
      tx.AppendEvent(Archived, Some(ref.dialog));
    }
    tx.WriteLate(Late(ref.attempt, ref.generation, kind, tx.st.lastEventSeq, probe.bytes));
    if probe.charge.NewlyExceeded? {
      ok := ScheduleOutputLimitStop(tx, ref.attempt, probe.stop);
    }
  }

  /** A new message row of the attempt, charged and announced. */
  method RecordOutput(tx: Transaction, ref: AttemptRef)
    modifies tx
    ensures tx.Now() == PutOutput(old(tx.Now()), ref)
  {
    ChargeOutput(tx, ref.attempt);
    tx.st := tx.st.(nextMessageSequence := tx.st.nextMessageSequence + 1, version := tx.st.version + 1);
    tx.AppendEvent(OutputProduced, Some(ref.dialog));
  }

  // ---- whole transactions ------------------------------------------------------------------

  /** One adapter event. The suppressed branch commits without saving the state row. */
  method RunObservation(db: Db, ref: AttemptRef, event: AdapterEvent, probe: Probe) returns (after: Option<Db>)
    ensures after == Observe(db, ref, event, probe)
  {
    if !Matches(db, ref) {
      return None;
    }
    var row := db.attempts.rows[ref.attempt];
    var tx := new Transaction(db);
    var ok;
    if (row.state.Stopping? || row.state.Unknown?) && Interactive(event) {
      ok := ArchiveAdapterEvent(tx, ref, Suppressed, probe);
      return if ok then Some(tx.db) else None;
    }
    if db.state.active != Some(ref.attempt) || !Occupies(row.state) {
      ok := ArchiveAdapterEvent(tx, ref, LateEvent, probe);
    } else {
      ok := ProjectAdapterEvent(tx, ref, event, probe);
    }
    if !ok {
      return None;
    }
    tx.SaveState();
    return Some(tx.db);
  }

  /** The end of the unknown attempt in the slot, once its outcome and effects have been established. */
  method RunReconciliation(db: Db, ref: AttemptRef, outcome: Outcome, effect: Effect, newOutput: bool, probe: Probe)
    returns (after: Option<Db>)
    ensures after == Reconcile(db, ref, outcome, effect, newOutput, probe)
  {
    if db.state.active != Some(ref.attempt) || !Matches(db, ref) || !db.attempts.rows[ref.attempt].state.Unknown? {
      return None;
    }
    if effect == UnknownEffect || outcome.OutcomeUnknown? || EffectsOpen(db, ref.attempt) {
      return None;
    }
    var tx := new Transaction(db);
    if newOutput && outcome.OutcomeCompleted? {
      RecordOutput(tx, ref);
    }
    var ok := ProjectTerminalEvent(tx, ref, outcome, effect, probe);
    if !ok {
      return None;
    }
    tx.SaveState();
    return Some(tx.db);
  }

  /** An artifact's row, or the marker of one that went over the limit. */
  method RunArtifact(db: Db, ref: AttemptRef, probe: Probe) returns (after: Option<Db>)
    ensures after == StoreArtifact(db, ref, probe)
  {
    if !Matches(db, ref) || probe.charge.AlreadyExceeded? {
      return None;
    }
    var tx := new Transaction(db);
    if probe.charge.Fits? {
      ChargeOutput(tx, ref.attempt);
      tx.AppendEvent(ArtifactAvailable, Some(ref.dialog));
    } else {
      RecordOutput(tx, ref);
      var ok := ScheduleOutputLimitStop(tx, ref.attempt, probe.stop);
      if !ok {
        return None;
      }
    }
    tx.SaveState();
    return Some(tx.db);
  }
}
