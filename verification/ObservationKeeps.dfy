/** Projection, archiving and reconciliation keep the invariant. */
module ObservationKeeps {
  import opened Wrappers
  import opened Store
  import opened Commands
  import opened Execution
  import opened Observation
  import opened Invariants
  import opened RowLemmas
  import opened Moves

  lemma TouchKeeps(t: Tx, a: Id)
    requires TxInv(t)
    ensures TxInv(Touch(t, a))
  {
    forall clause ensures Holds(clause, Touch(t, a)) {
      Have(clause, t);
      if a in t.db.attempts.rows {
        assert t.db.attempts.rows[a := t.db.attempts.rows[a]] == t.db.attempts.rows;
      }
    }
  }

  lemma AdvanceKeeps(t: Tx)
    requires TxInv(t)
    ensures TxInv(Advance(t))
  {
    StateKeeps(t, Advance(t).st);
  }

  lemma ScheduleStopKeeps(t: Tx, a: Id, c: Id)
    requires TxInv(t)
    ensures Kept(ScheduleStop(t, a, c))
  {
    var stop := ScheduleStop(t, a, c);
    if stop.Some? && stop.value != t {
      var row := t.db.attempts.rows[a];
      var row' := row.(version := row.version + 1, state := Stopping);
      Have(Slot, t);
      var t1 := Advance(PutAttempt(t, a, row'));
      MoveKeeps(t, a, row', t1.st);
      EmitKeeps(t1, AttemptMoved, Some(row.dialog));
      NewActionKeeps(Emit(t1, AttemptMoved, Some(row.dialog)), c, Action(AttemptStop, a, 0, row.request, 0, 0, Pending));
    }
  }

  /** An attempt that has run moves between running and waiting. */
  lemma WaitKeeps(t: Tx, a: Id)
    requires TxInv(t) && a in t.db.attempts.rows
    requires t.db.attempts.rows[a].state.Running? || t.db.attempts.rows[a].state.WaitingInput?
    ensures var row := t.db.attempts.rows[a];
      TxInv(Advance(PutAttempt(t, a, row.(version := row.version + 1, state := WaitingInput))))
  {
    var row := t.db.attempts.rows[a];
    var row' := row.(version := row.version + 1, state := WaitingInput);
    Have(Slot, t); Have(Life, t);
    MoveKeeps(t, a, row', Advance(t).st);
  }

  lemma EnterWaitingKeeps(t: Tx, a: Id)
    requires TxInv(t)
    ensures Kept(EnterWaiting(t, a))
  {
    if EnterWaiting(t, a).Some? {
      var row := t.db.attempts.rows[a];
      WaitKeeps(t, a);
      EmitKeeps(Advance(PutAttempt(t, a, row.(version := row.version + 1, state := WaitingInput))), AttemptMoved, Some(row.dialog));
    }
  }

  lemma PublishKeeps(t: Tx, ref: AttemptRef, kind: EventKind, probe: Probe)
    requires TxInv(t)
    ensures Kept(Publish(t, ref, kind, probe))
  {
    AdvanceKeeps(t);
    EmitKeeps(Advance(t), kind, Some(ref.dialog));
    ScheduleStopKeeps(Emit(Advance(t), kind, Some(ref.dialog)), ref.attempt, probe.stop);
  }

  lemma TerminateKeeps(t: Tx, ref: AttemptRef, outcome: Outcome, effect: Effect)
    requires TxInv(t) && !outcome.OutcomeUnknown? && t.st.active == Some(ref.attempt) && !Unresolved(t.db, ref.attempt)
    requires ref.attempt in t.db.attempts.rows ==> ref.request == t.db.attempts.rows[ref.attempt].request
    ensures Kept(Terminate(t, ref, outcome, effect))
  {
    if Terminate(t, ref, outcome, effect).Some? {
      var row := t.db.attempts.rows[ref.attempt];
      var row' := row.(version := row.version + 1, state := FinalState(outcome), effect := effect);
      var t1 := EndAttempt(t, ref.attempt, outcome, effect);
      Have(Links, t);
      MoveKeeps(t, ref.attempt, row', t1.st);
      MoveRequestKeeps(t1, ref.request, FinalStatus(outcome));
      AnnounceKeeps(MoveRequest(t1, ref.request, FinalStatus(outcome)), ref.dialog);
    }
  }

  lemma ProjectTerminalKeeps(t: Tx, ref: AttemptRef, outcome: Outcome, effect: Effect, probe: Probe)
    requires TxInv(t) && t.st.active == Some(ref.attempt)
    requires ref.attempt in t.db.attempts.rows && ref.request == t.db.attempts.rows[ref.attempt].request
    ensures Kept(ProjectTerminal(t, ref, outcome, effect, probe))
  {
    Have(Links, t);
    if Unresolved(t.db, ref.attempt) || effect == UnknownEffect {
      SetUnknownKeeps(t, ref.attempt, ref.request, UnknownEffect);
      if SetUnknown(t, ref.attempt, ref.request, UnknownEffect).Some? {
        ArchiveKeeps(SetUnknown(t, ref.attempt, ref.request, UnknownEffect).value, ref, TerminalInDoubt, probe);
      }
    } else if outcome.OutcomeUnknown? {
      SetUnknownKeeps(t, ref.attempt, ref.request, effect);
    } else {
      TerminateKeeps(t, ref, outcome, effect);
    }
  }

  lemma ToolKeeps(t: Tx, call: Id, row: ToolCall)
    requires TxInv(t) && row.attempt in t.db.attempts.rows
    ensures TxInv(PutTool(t, call, row))
  {
    forall clause ensures Holds(clause, PutTool(t, call, row)) {
      Have(clause, t);
    }
  }

  lemma ProjectToolKeeps(t: Tx, ref: AttemptRef, event: AdapterEvent, probe: Probe)
    requires TxInv(t) && ref.attempt in t.db.attempts.rows
    requires event.ToolStartedEvent? || event.ToolOutputEvent? || event.ToolCompletedEvent?
    ensures Kept(ProjectTool(t, ref, event, probe))
  {
    var t1 := Touch(t, ref.attempt);
    TouchKeeps(t, ref.attempt);
    match event
    case ToolStartedEvent(call) =>
      ToolKeeps(t1, call, ToolCall(ref.attempt, ToolRunning));
      PublishKeeps(PutTool(t1, call, ToolCall(ref.attempt, ToolRunning)), ref, ToolMoved, probe);
    case ToolOutputEvent(_) => PublishKeeps(t1, ref, ToolMoved, probe);
    case ToolCompletedEvent(call, succeeded, effect) =>
      if call in t.db.tools.rows && t.db.tools.rows[call].attempt == ref.attempt {
        var row := t.db.tools.rows[call].(status := if succeeded then ToolSucceeded else ToolFailed);
        ToolKeeps(t1, call, row);
        PublishKeeps(PutTool(t1, call, row), ref, EventKind.ToolCompleted(ref.attempt, effect), probe);
      }
  }

  lemma ProjectPromptKeeps(t: Tx, ref: AttemptRef, event: AdapterEvent, probe: Probe)
    requires TxInv(t) && ref.attempt in t.db.attempts.rows && (event.ApprovalEvent? || event.InputEvent?)
    ensures Kept(ProjectPrompt(t, ref, event, probe))
  {
    var t1, row := Touch(t, ref.attempt), Prompt(ref.attempt, 1, Open);
    TouchKeeps(t, ref.attempt);
    match event
    case ApprovalEvent(approval, _) =>
      var t2 := t1.(st := t1.st.(nextMessageSequence := t1.st.nextMessageSequence + 1));
      StateKeeps(t1, t2.st);
      PublishKeeps(t2, ref, OutputProduced, probe);
      if approval !in t1.db.approvals.rows {
        PromptKeeps(t1, true, approval, row);
        WaitThenPublish(PutApproval(t1, approval, row), ref, probe);
      }
    case InputEvent(input) =>
      if input !in t1.db.inputs.rows {
        PromptKeeps(t1, false, input, row);
        WaitThenPublish(PutInput(t1, input, row), ref, probe);
        PublishKeeps(PutInput(t1, input, row), ref, PromptMoved, probe);
      }
  }

  lemma WaitThenPublish(t: Tx, ref: AttemptRef, probe: Probe)
    requires TxInv(t)
    ensures var w := EnterWaiting(t, ref.attempt); w.Some? ==> Kept(Publish(w.value, ref, PromptMoved, probe))
  {
    EnterWaitingKeeps(t, ref.attempt);
    if EnterWaiting(t, ref.attempt).Some? {
      PublishKeeps(EnterWaiting(t, ref.attempt).value, ref, PromptMoved, probe);
    }
  }

  lemma ProjectKeeps(t: Tx, ref: AttemptRef, event: AdapterEvent, probe: Probe)
    requires TxInv(t) && t.st.active == Some(ref.attempt)
    requires ref.attempt in t.db.attempts.rows && ref.request == t.db.attempts.rows[ref.attempt].request
    ensures Kept(Project(t, ref, event, probe))
  {
    match event
    case StartedEvent =>
      AdvanceKeeps(t);
      EmitKeeps(Advance(t), AttemptMoved, Some(ref.dialog));
    case WaitingEvent =>
      var row := t.db.attempts.rows[ref.attempt];
      if row.state.Running? {
        WaitKeeps(t, ref.attempt);
        EmitKeeps(Advance(PutAttempt(t, ref.attempt, row.(version := row.version + 1, state := WaitingInput))), AttemptMoved, Some(ref.dialog));
      }
    case DeltaEvent =>
      TouchKeeps(t, ref.attempt);
      PublishKeeps(Touch(t, ref.attempt), ref, OutputProduced, probe);
    case AssistantEvent =>
      TouchKeeps(t, ref.attempt);
      var t1 := Touch(t, ref.attempt);
      var t2 := t1.(st := t1.st.(nextMessageSequence := t1.st.nextMessageSequence + 1));
      StateKeeps(t1, t2.st);
      PublishKeeps(t2, ref, OutputProduced, probe);
    case ToolStartedEvent(_) => ProjectToolKeeps(t, ref, event, probe);
    case ToolOutputEvent(_) => ProjectToolKeeps(t, ref, event, probe);
    case ToolCompletedEvent(_, _, _) => ProjectToolKeeps(t, ref, event, probe);
    case ApprovalEvent(_, _) => ProjectPromptKeeps(t, ref, event, probe);
    case InputEvent(_) => ProjectPromptKeeps(t, ref, event, probe);
    case TerminalEvent(outcome, effect) => ProjectTerminalKeeps(t, ref, outcome, effect, probe);
    case UnknownEvent(effect) =>
      Have(Links, t);
      SetUnknownKeeps(t, ref.attempt, ref.request, effect);
  }

  lemma ArchiveKeeps(t: Tx, ref: AttemptRef, kind: LateKind, probe: Probe)
    requires TxInv(t)
    ensures Kept(Archive(t, ref, kind, probe))
  {
    EmitKeeps(t, Archived, Some(ref.dialog));
    var t1 := if kind.LateEvent? then Emit(t, Archived, Some(ref.dialog)) else t;
    var row := Late(ref.attempt, ref.generation, kind, t1.st.lastEventSeq, probe.bytes);
    LateKeeps(t1, row);
    ScheduleStopKeeps(PutLate(t1, row), ref.attempt, probe.stop);
  }

  /** A request to interact from an attempt that is being stopped or is in doubt adds at most its own archive row. Even
      when it is the row that passes the output limit it schedules nothing, so that the commit, which does not save the
      loaded state, loses nothing: no event, no version and no action comes of it. */
  lemma SuppressedIsSilent(db: Db, ref: AttemptRef, event: AdapterEvent, probe: Probe)
    requires Matches(db, ref) && Interactive(event)
    requires db.attempts.rows[ref.attempt].state.Stopping? || db.attempts.rows[ref.attempt].state.Unknown?
    ensures Observe(db, ref, event, probe) == Some(db.(late := db.late + if probe.duplicate || probe.charge.AlreadyExceeded? then [] else
              [Late(ref.attempt, ref.generation, Suppressed, db.state.lastEventSeq, probe.bytes)]))
    ensures var after := Archive(Begin(db), ref, Suppressed, probe);
      after.Some? && Save(after.value) == after.value && after.value.st == db.state
  {
    var rows := db.late + [Late(ref.attempt, ref.generation, Suppressed, db.state.lastEventSeq, probe.bytes)];
    if probe.duplicate || probe.charge.AlreadyExceeded? {
      assert db.late + [] == db.late;
    } else {
      assert Archive(Begin(db), ref, Suppressed, probe).value == Tx(db.(late := rows), db.state);
    }
  }

  lemma ObserveKeeps(db: Db, ref: AttemptRef, event: AdapterEvent, probe: Probe)
    requires Inv(db)
    ensures Observe(db, ref, event, probe).Some? ==> Inv(Observe(db, ref, event, probe).value)
  {
    var t := Begin(db);
    if Observe(db, ref, event, probe).Some? {
      var row := db.attempts.rows[ref.attempt];
      if (row.state.Stopping? || row.state.Unknown?) && Interactive(event) {
        ArchiveKeeps(t, ref, Suppressed, probe);
        SuppressedIsSilent(db, ref, event, probe);
      } else if db.state.active != Some(ref.attempt) || !Occupies(row.state) {
        ArchiveKeeps(t, ref, LateEvent, probe);
        SaveKeeps(Archive(t, ref, LateEvent, probe).value);
      } else {
        ProjectKeeps(t, ref, event, probe);
        SaveKeeps(Project(t, ref, event, probe).value);
      }
    }
  }

  lemma OutputKeeps(t: Tx, ref: AttemptRef)
    requires TxInv(t)
    ensures TxInv(PutOutput(t, ref))
  {
    TouchKeeps(t, ref.attempt);
    var t1 := Touch(t, ref.attempt);
    var t2 := Advance(t1.(st := t1.st.(nextMessageSequence := t1.st.nextMessageSequence + 1)));
    StateKeeps(t1, t2.st);
    EmitKeeps(t2, OutputProduced, Some(ref.dialog));
  }

  lemma StoreArtifactKeeps(db: Db, ref: AttemptRef, probe: Probe)
    requires Inv(db)
    ensures StoreArtifact(db, ref, probe).Some? ==> Inv(StoreArtifact(db, ref, probe).value)
  {
    if StoreArtifact(db, ref, probe).Some? {
      if probe.charge.Fits? {
        var t := Touch(Begin(db), ref.attempt);
        TouchKeeps(Begin(db), ref.attempt);
        EmitKeeps(t, ArtifactAvailable, Some(ref.dialog));
        SaveKeeps(Emit(t, ArtifactAvailable, Some(ref.dialog)));
      } else {
        OutputKeeps(Begin(db), ref);
        ScheduleStopKeeps(PutOutput(Begin(db), ref), ref.attempt, probe.stop);
        SaveKeeps(ScheduleStop(PutOutput(Begin(db), ref), ref.attempt, probe.stop).value);
      }
    }
  }

  lemma ReconcileKeeps(db: Db, ref: AttemptRef, outcome: Outcome, effect: Effect, newOutput: bool, probe: Probe)
    requires Inv(db)
    ensures Reconcile(db, ref, outcome, effect, newOutput, probe).Some? ==> Inv(Reconcile(db, ref, outcome, effect, newOutput, probe).value)
  {
    if Reconcile(db, ref, outcome, effect, newOutput, probe).Some? {
      OutputKeeps(Begin(db), ref);
      TouchSame(Begin(db), ref);
      var t := if newOutput && outcome.OutcomeCompleted? then PutOutput(Begin(db), ref) else Begin(db);
      ProjectTerminalKeeps(t, ref, outcome, effect, probe);
      SaveKeeps(ProjectTerminal(t, ref, outcome, effect, probe).value);
    }
  }

  lemma TouchSame(t: Tx, ref: AttemptRef)
    ensures PutOutput(t, ref).db.attempts.rows == t.db.attempts.rows
  {
  }
}
