/** How adapter events and reconciliation may change the store. */
module ObservationEvolves {
  import opened Wrappers
  import opened Store
  import opened Commands
  import opened Execution
  import opened Observation
  import opened Administration
  import opened Invariants
  import opened Evolution
  import opened Writes
  import opened Lineage

  /** An attempt in the slot lies outside every parked scope. */
  ghost predicate Clear(t: Tx, a: Id, terms: Terms) {
    a in t.db.attempts.rows && Occupies(t.db.attempts.rows[a].state) ==> Outside(terms, Some(t.db.attempts.rows[a].dialog))
  }

  lemma ThenTouch(db: Db, t: Tx, a: Id, terms: Terms)
    requires From(db, t, terms)
    ensures From(db, Touch(t, a), terms)
    ensures Touch(t, a).db.attempts.rows == t.db.attempts.rows
  {
    if a in t.db.attempts.rows {
      ThenAttempt(db, t, a, t.db.attempts.rows[a], terms);
    }
  }

  lemma ThenScheduleStop(db: Db, t: Tx, a: Id, c: Id, terms: Terms)
    requires From(db, t, terms) && Clear(t, a, terms)
    ensures Reached(db, ScheduleStop(t, a, c), terms)
  {
    if a in t.db.attempts.rows && t.st.active == Some(a) && ScheduleStop(t, a, c).Some?
       && (t.db.attempts.rows[a].state.Running? || t.db.attempts.rows[a].state.WaitingInput?) {
      var row := t.db.attempts.rows[a];
      var row' := row.(version := row.version + 1, state := Stopping);
      ThenAttempt(db, t, a, row', terms);
      var t1 := Advance(PutAttempt(t, a, row'));
      ThenEmit(db, t1, AttemptMoved, Some(row.dialog), terms);
      var t2, action := Emit(t1, AttemptMoved, Some(row.dialog)), Action(AttemptStop, a, 0, row.request, 0, 0, Pending);
      ThenAction(db, t2, c, action, terms);
      assert ScheduleStop(t, a, c).value == PutAction(t2, c, action);
    }
  }

  lemma ThenWaiting(db: Db, t: Tx, a: Id, terms: Terms)
    requires From(db, t, terms) && Clear(t, a, terms)
    ensures Reached(db, EnterWaiting(t, a), terms)
    ensures EnterWaiting(t, a).Some? ==> Clear(EnterWaiting(t, a).value, a, terms)
  {
    if EnterWaiting(t, a).Some? {
      var row := t.db.attempts.rows[a];
      var row' := row.(version := row.version + 1, state := WaitingInput);
      ThenAttempt(db, t, a, row', terms);
      var t1 := Advance(PutAttempt(t, a, row'));
      ThenEmit(db, t1, AttemptMoved, Some(row.dialog), terms);
      assert EnterWaiting(t, a).value == Emit(t1, AttemptMoved, Some(row.dialog));
    }
  }

  lemma ThenPublish(db: Db, t: Tx, ref: AttemptRef, kind: EventKind, probe: Probe, terms: Terms)
    requires From(db, t, terms) && Clear(t, ref.attempt, terms)
    requires kind.ToolCompleted? ==> Outside(terms, Some(ref.dialog))
    ensures Reached(db, Publish(t, ref, kind, probe), terms)
  {
    var t1 := Emit(Advance(t), kind, Some(ref.dialog));
    ThenEmit(db, Advance(t), kind, Some(ref.dialog), terms);
    if probe.charge.NewlyExceeded? {
      ThenScheduleStop(db, t1, ref.attempt, probe.stop, terms);
      assert Publish(t, ref, kind, probe) == ScheduleStop(t1, ref.attempt, probe.stop);
    }
  }

  lemma ThenTerminate(db: Db, t: Tx, ref: AttemptRef, outcome: Outcome, effect: Effect, terms: Terms)
    requires From(db, t, terms) && !outcome.OutcomeUnknown?
    requires ref.attempt in t.db.attempts.rows && Occupies(t.db.attempts.rows[ref.attempt].state)
    requires Outside(terms, Some(t.db.attempts.rows[ref.attempt].dialog))
    requires ref.request in t.db.requests.rows ==> Outside(terms, Some(t.db.requests.rows[ref.request].dialog))
    ensures Reached(db, Terminate(t, ref, outcome, effect), terms)
  {
    var row := t.db.attempts.rows[ref.attempt];
    var row' := row.(version := row.version + 1, state := FinalState(outcome), effect := effect);
    ThenAttempt(db, t, ref.attempt, row', terms);
    var t1 := EndAttempt(t, ref.attempt, outcome, effect);
    ThenMoveRequest(db, t1, ref.request, FinalStatus(outcome), terms);
    ThenAnnounce(db, MoveRequest(t1, ref.request, FinalStatus(outcome)), ref.dialog, terms);
  }

  /** The attempt is doubted and its terminal event archived. */
  lemma ThenDoubt(db: Db, t: Tx, ref: AttemptRef, probe: Probe, terms: Terms)
    requires From(db, t, terms)
    requires ref.attempt in t.db.attempts.rows && Occupies(t.db.attempts.rows[ref.attempt].state)
    requires Outside(terms, Some(t.db.attempts.rows[ref.attempt].dialog))
    requires ref.request in t.db.requests.rows ==> Outside(terms, Some(t.db.requests.rows[ref.request].dialog))
    ensures var doubted := SetUnknown(t, ref.attempt, ref.request, UnknownEffect);
      doubted.Some? ==> Reached(db, Archive(doubted.value, ref, TerminalInDoubt, probe), terms)
  {
    ThenSetUnknown(db, t, ref.attempt, ref.request, UnknownEffect, terms);
    var doubted := SetUnknown(t, ref.attempt, ref.request, UnknownEffect);
    if doubted.Some? {
      ThenArchive(db, doubted.value, ref, TerminalInDoubt, probe, terms);
    }
  }

  lemma ThenProjectTerminal(db: Db, t: Tx, ref: AttemptRef, outcome: Outcome, effect: Effect, probe: Probe, terms: Terms)
    requires From(db, t, terms)
    requires ref.attempt in t.db.attempts.rows && Occupies(t.db.attempts.rows[ref.attempt].state)
    requires Outside(terms, Some(t.db.attempts.rows[ref.attempt].dialog))
    requires ref.request in t.db.requests.rows ==> Outside(terms, Some(t.db.requests.rows[ref.request].dialog))
    ensures Reached(db, ProjectTerminal(t, ref, outcome, effect, probe), terms)
  {
    if Unresolved(t.db, ref.attempt) || effect == UnknownEffect {
      ThenDoubt(db, t, ref, probe, terms);
    } else if outcome.OutcomeUnknown? {
      ThenSetUnknown(db, t, ref.attempt, ref.request, effect, terms);
    } else {
      ThenTerminate(db, t, ref, outcome, effect, terms);
    }
  }

  lemma ThenProjectTool(db: Db, t: Tx, ref: AttemptRef, event: AdapterEvent, probe: Probe, terms: Terms)
    requires From(db, t, terms) && ref.attempt in t.db.attempts.rows
    requires t.db.attempts.rows[ref.attempt].dialog == ref.dialog && Outside(terms, Some(ref.dialog))
    requires event.ToolStartedEvent? || event.ToolOutputEvent? || event.ToolCompletedEvent?
    ensures Reached(db, ProjectTool(t, ref, event, probe), terms)
  {
    var t1 := Touch(t, ref.attempt);
    ThenTouch(db, t, ref.attempt, terms);
    match event
    case ToolStartedEvent(call) =>
      if call !in t.db.tools.rows {
        ThenTool(db, t1, call, ToolCall(ref.attempt, ToolRunning), terms);
        ThenPublish(db, PutTool(t1, call, ToolCall(ref.attempt, ToolRunning)), ref, ToolMoved, probe, terms);
      }
    case ToolOutputEvent(_) => ThenPublish(db, t1, ref, ToolMoved, probe, terms);
    case ToolCompletedEvent(call, succeeded, effect) =>
      if call in t.db.tools.rows && t.db.tools.rows[call].attempt == ref.attempt {
        var row := t.db.tools.rows[call].(status := if succeeded then ToolSucceeded else ToolFailed);
        ThenTool(db, t1, call, row, terms);
        ThenPublish(db, PutTool(t1, call, row), ref, EventKind.ToolCompleted(ref.attempt, effect), probe, terms);
      }
  }

  lemma ThenWaitPublish(db: Db, t: Tx, ref: AttemptRef, probe: Probe, terms: Terms)
    requires From(db, t, terms) && Clear(t, ref.attempt, terms)
    ensures var w := EnterWaiting(t, ref.attempt); w.Some? ==> Reached(db, Publish(w.value, ref, PromptMoved, probe), terms)
  {
    ThenWaiting(db, t, ref.attempt, terms);
    if EnterWaiting(t, ref.attempt).Some? {
      ThenPublish(db, EnterWaiting(t, ref.attempt).value, ref, PromptMoved, probe, terms);
    }
  }

  lemma ThenProjectPrompt(db: Db, t: Tx, ref: AttemptRef, event: AdapterEvent, probe: Probe, terms: Terms)
    requires From(db, t, terms) && ref.attempt in t.db.attempts.rows
    requires t.db.attempts.rows[ref.attempt].dialog == ref.dialog && Outside(terms, Some(ref.dialog))
    requires event.ApprovalEvent? || event.InputEvent?
    ensures Reached(db, ProjectPrompt(t, ref, event, probe), terms)
  {
    var t1, row := Touch(t, ref.attempt), Prompt(ref.attempt, 1, Open);
    ThenTouch(db, t, ref.attempt, terms);
    match event
    case ApprovalEvent(approval, _) =>
      if probe.charge.NewlyExceeded? {
        ThenPublish(db, t1.(st := t1.st.(nextMessageSequence := t1.st.nextMessageSequence + 1)), ref, OutputProduced, probe, terms);
      } else if approval !in t1.db.approvals.rows {
        ThenApproval(db, t1, approval, row, terms);
        ThenWaitPublish(db, PutApproval(t1, approval, row), ref, probe, terms);
      }
    case InputEvent(input) =>
      if input !in t1.db.inputs.rows {
        ThenInput(db, t1, input, row, terms);
        ThenWaitPublish(db, PutInput(t1, input, row), ref, probe, terms);
        ThenPublish(db, PutInput(t1, input, row), ref, PromptMoved, probe, terms);
      }
  }

  lemma ThenProjectWaiting(db: Db, t: Tx, ref: AttemptRef, probe: Probe, terms: Terms)
    requires From(db, t, terms) && ref.attempt in t.db.attempts.rows
    requires t.db.attempts.rows[ref.attempt].dialog == ref.dialog && Outside(terms, Some(ref.dialog))
    requires Occupies(t.db.attempts.rows[ref.attempt].state)
    ensures Reached(db, Project(t, ref, WaitingEvent, probe), terms)
  {
    var row := t.db.attempts.rows[ref.attempt];
    var row' := row.(version := row.version + 1, state := WaitingInput);
    ThenAttempt(db, t, ref.attempt, row', terms);
    ThenEmit(db, Advance(PutAttempt(t, ref.attempt, row')), AttemptMoved, Some(ref.dialog), terms);
  }

  lemma ThenProjectOutput(db: Db, t: Tx, ref: AttemptRef, event: AdapterEvent, probe: Probe, terms: Terms)
    requires From(db, t, terms) && ref.attempt in t.db.attempts.rows && (event.DeltaEvent? || event.AssistantEvent?)
    requires t.db.attempts.rows[ref.attempt].dialog == ref.dialog && Outside(terms, Some(ref.dialog))
    ensures Reached(db, Project(t, ref, event, probe), terms)
  {
    ThenTouch(db, t, ref.attempt, terms);
    var t1 := Touch(t, ref.attempt);
    ThenPublish(db, if event.DeltaEvent? then t1 else t1.(st := t1.st.(nextMessageSequence := t1.st.nextMessageSequence + 1)),
                ref, OutputProduced, probe, terms);
  }

  lemma ThenProject(db: Db, t: Tx, ref: AttemptRef, event: AdapterEvent, probe: Probe, terms: Terms)
    requires From(db, t, terms) && ref.attempt in t.db.attempts.rows
    requires t.db.attempts.rows[ref.attempt].dialog == ref.dialog && Outside(terms, Some(ref.dialog))
    requires ref.request in t.db.requests.rows ==> t.db.requests.rows[ref.request].dialog == ref.dialog
    requires Occupies(t.db.attempts.rows[ref.attempt].state)
    ensures Reached(db, Project(t, ref, event, probe), terms)
  {
    match event
    case StartedEvent => ThenEmit(db, Advance(t), AttemptMoved, Some(ref.dialog), terms);
    case WaitingEvent => ThenProjectWaiting(db, t, ref, probe, terms);
    case DeltaEvent => ThenProjectOutput(db, t, ref, event, probe, terms);
    case AssistantEvent => ThenProjectOutput(db, t, ref, event, probe, terms);
    case ToolStartedEvent(_) => ThenProjectTool(db, t, ref, event, probe, terms);
    case ToolOutputEvent(_) => ThenProjectTool(db, t, ref, event, probe, terms);
    case ToolCompletedEvent(_, _, _) => ThenProjectTool(db, t, ref, event, probe, terms);
    case ApprovalEvent(_, _) => ThenProjectPrompt(db, t, ref, event, probe, terms);
    case InputEvent(_) => ThenProjectPrompt(db, t, ref, event, probe, terms);
    case TerminalEvent(outcome, effect) => ThenProjectTerminal(db, t, ref, outcome, effect, probe, terms);
    case UnknownEvent(effect) => ThenSetUnknown(db, t, ref.attempt, ref.request, effect, terms);
  }

  lemma ThenArchive(db: Db, t: Tx, ref: AttemptRef, kind: LateKind, probe: Probe, terms: Terms)
    requires From(db, t, terms) && Clear(t, ref.attempt, terms)
    ensures Reached(db, Archive(t, ref, kind, probe), terms)
  {
    ThenEmit(db, t, Archived, Some(ref.dialog), terms);
    var t1 := if kind.LateEvent? then Emit(t, Archived, Some(ref.dialog)) else t;
    var row := Late(ref.attempt, ref.generation, kind, t1.st.lastEventSeq, probe.bytes);
    ThenLate(db, t1, row, terms);
    ThenScheduleStop(db, PutLate(t1, row), ref.attempt, probe.stop, terms);
  }

  lemma ObserveEvolves(db: Db, ref: AttemptRef, event: AdapterEvent, probe: Probe, terms: Terms)
    requires Inv(db) && Sheltered(db, terms)
    ensures Observe(db, ref, event, probe).Some? ==> Extends(db, Observe(db, ref, event, probe).value, terms)
  {
    if Observe(db, ref, event, probe).Some? {
      var t, row := Begin(db), db.attempts.rows[ref.attempt];
      Start(db, terms);
      if Occupies(row.state) {
        ActiveOutside(db, terms, ref.attempt);
      }
      if (row.state.Stopping? || row.state.Unknown?) && Interactive(event) {
        ThenArchive(db, t, ref, Suppressed, probe, terms);
      } else if db.state.active != Some(ref.attempt) || !Occupies(row.state) {
        ThenArchive(db, t, ref, LateEvent, probe, terms);
        ThenSave(db, Archive(t, ref, LateEvent, probe).value, terms);
      } else {
        Have(Links, t);
        ThenProject(db, t, ref, event, probe, terms);
        ThenSave(db, Project(t, ref, event, probe).value, terms);
      }
    }
  }

  lemma ThenOutput(db: Db, t: Tx, ref: AttemptRef, terms: Terms)
    requires From(db, t, terms)
    ensures From(db, PutOutput(t, ref), terms)
    ensures PutOutput(t, ref).db.attempts.rows == t.db.attempts.rows && PutOutput(t, ref).db.requests == t.db.requests
  {
    ThenTouch(db, t, ref.attempt, terms);
    var t1 := Touch(t, ref.attempt);
    ThenEmit(db, Advance(t1.(st := t1.st.(nextMessageSequence := t1.st.nextMessageSequence + 1))), OutputProduced, Some(ref.dialog), terms);
  }

  lemma StoreArtifactEvolves(db: Db, ref: AttemptRef, probe: Probe, terms: Terms)
    requires Inv(db) && Sheltered(db, terms)
    ensures StoreArtifact(db, ref, probe).Some? ==> Extends(db, StoreArtifact(db, ref, probe).value, terms)
  {
    if StoreArtifact(db, ref, probe).Some? {
      Start(db, terms);
      if Occupies(db.attempts.rows[ref.attempt].state) {
        ActiveOutside(db, terms, ref.attempt);
      }
      if probe.charge.Fits? {
        var t := Touch(Begin(db), ref.attempt);
        ThenTouch(db, Begin(db), ref.attempt, terms);
        ThenEmit(db, t, ArtifactAvailable, Some(ref.dialog), terms);
        ThenSave(db, Emit(t, ArtifactAvailable, Some(ref.dialog)), terms);
      } else {
        var t := PutOutput(Begin(db), ref);
        ThenOutput(db, Begin(db), ref, terms);
        ThenScheduleStop(db, t, ref.attempt, probe.stop, terms);
        ThenSave(db, ScheduleStop(t, ref.attempt, probe.stop).value, terms);
      }
    }
  }

  lemma ReconcileEvolves(db: Db, ref: AttemptRef, outcome: Outcome, effect: Effect, newOutput: bool, probe: Probe, terms: Terms)
    requires Inv(db) && Sheltered(db, terms)
    ensures var after := Reconcile(db, ref, outcome, effect, newOutput, probe); after.Some? ==> Extends(db, after.value, terms)
  {
    if Reconcile(db, ref, outcome, effect, newOutput, probe).Some? {
      Start(db, terms);
      ActiveOutside(db, terms, ref.attempt);
      Have(Links, Begin(db));
      ThenOutput(db, Begin(db), ref, terms);
      var t := if newOutput && outcome.OutcomeCompleted? then PutOutput(Begin(db), ref) else Begin(db);
      ThenProjectTerminal(db, t, ref, outcome, effect, probe, terms);
      ThenSave(db, ProjectTerminal(t, ref, outcome, effect, probe).value, terms);
    }
  }
}
