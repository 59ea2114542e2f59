/** What a request's status says about the attempt made for it: one attempt per request, the two
    always agree, and a request only ever moves forward. */
module Agreement {
  import opened Wrappers
  import opened Store
  import opened Commands
  import opened Execution
  import opened Observation
  import opened Administration
  import opened Invariants
  import opened System
  import opened SystemKeeps
  import opened Theorems
  import opened Limits
  import opened Evolution
  import opened RowLemmas

  /** The statuses a request may have while its attempt looks like `row`. A doubtful attempt may still have an
      active request: a steer that went wrong doubts the attempt through the steered message's request. */
  predicate Agrees(row: Attempt, status: RequestStatus) {
    match row.state
    case Dispatching => !row.started && status.Dispatched?
    case Running => row.started && status.Active?
    case WaitingInput => row.started && status.Active?
    case Stopping => if row.started then status.Active? else status.Dispatched?
    case Unknown => status.InDoubt? || (row.started && status.Active?)
    case Completed => status.Succeeded?
    case Failed => status.Errored?
    case Interrupted => status.Aborted?
  }

  ghost predicate Matched(attempts: Attempts, requests: Requests) {
    && (forall a :: a in attempts ==> attempts[a].request in requests && Agrees(attempts[a], requests[attempts[a].request].status))
    && (forall a, b :: a in attempts && b in attempts && attempts[a].request == attempts[b].request ==> a == b)
  }

  function Rank(status: RequestStatus): nat {
    match status
    case Queued => 0
    case Dispatched => 1
    case Active => 2
    case InDoubt => 3
    case _ => 4
  }

  /** Forward in life, and cancelled only out of the queue. */
  predicate Later(before: RequestStatus, after: RequestStatus) {
    before == after || (Rank(before) < Rank(after) && (after.Cancelled? ==> before.Queued?))
  }

  ghost predicate Forward(before: Requests, after: Requests) {
    forall r :: r in before ==> r in after && Later(before[r].status, after[r].status)
  }

  /** A transaction that began with the requests `before`, as far as it has come. */
  ghost predicate InStep(before: Requests, t: Tx) {
    Matched(t.db.attempts.rows, t.db.requests.rows) && Forward(before, t.db.requests.rows)
  }

  ghost predicate Agreed(before: Requests, outcome: Option<Tx>) {
    outcome.Some? ==> InStep(before, outcome.value)
  }

  // ---- the moves -----------------------------------------------------------------------

  lemma AttemptMove(before: Requests, t: Tx, a: Id, row: Attempt)
    requires InStep(before, t) && a in t.db.attempts.rows && row.request == t.db.attempts.rows[a].request
    requires Agrees(row, t.db.requests.rows[row.request].status)
    ensures InStep(before, PutAttempt(t, a, row))
  {
  }

  /** An attempt and its request move together. */
  lemma PairMove(before: Requests, t: Tx, a: Id, row: Attempt, status: RequestStatus)
    requires InStep(before, t) && a in t.db.attempts.rows && row.request == t.db.attempts.rows[a].request
    requires Agrees(row, status) && Later(t.db.requests.rows[row.request].status, status)
    ensures InStep(before, MoveRequest(PutAttempt(t, a, row), row.request, status))
  {
  }

  /** A request no attempt was made for moves. */
  lemma LoneMove(before: Requests, t: Tx, r: Id, row: Request)
    requires InStep(before, t) && forall a :: a in t.db.attempts.rows ==> t.db.attempts.rows[a].request != r
    requires r in t.db.requests.rows ==> Later(t.db.requests.rows[r].status, row.status)
    ensures InStep(before, PutRequest(t, r, row))
  {
  }

  /** No attempt was made for a queued or an unknown request. */
  lemma Unattempted(attempts: Attempts, requests: Requests, r: Id)
    requires Matched(attempts, requests) && (r in requests ==> requests[r].status.Queued?)
    ensures forall a :: a in attempts ==> attempts[a].request != r
  {
  }

  // ---- admission ------------------------------------------------------------------------

  lemma EnqueueAgrees(before: Requests, t: Tx, d: Id, version: nat, m: Id, r: Id)
    requires InStep(before, t)
    ensures ApplyEnqueue(t, d, version, m, r).Some? ==> InStep(before, ApplyEnqueue(t, d, version, m, r).value.tx)
  {
  }

  lemma CancelAgrees(before: Requests, t: Tx, r: Id, version: nat)
    requires InStep(before, t)
    ensures ApplyCancel(t, r, version).Some? ==> InStep(before, ApplyCancel(t, r, version).value.tx)
  {
  }

  lemma RetryAgrees(before: Requests, t: Tx, a: Id, generation: nat, known: bool, r: Id)
    requires InStep(before, t)
    ensures ApplyRetry(t, a, generation, known, r).Some? ==> InStep(before, ApplyRetry(t, a, generation, known, r).value.tx)
  {
  }

  lemma StopAgrees(before: Requests, t: Tx, a: Id, generation: nat)
    requires InStep(before, t)
    ensures ApplyStop(t, a, generation).Some? ==> InStep(before, ApplyStop(t, a, generation).value.tx)
  {
  }

  lemma ApplyAgrees(before: Requests, t: Tx, command: Command, ids: Supply)
    requires InStep(before, t)
    ensures Apply(t, command, ids).Some? ==> InStep(before, Apply(t, command, ids).value.tx)
  {
    match command
    case Enqueue(d, version) => EnqueueAgrees(before, t, d, version, ids.first, ids.second);
    case CancelRequest(r, version) => CancelAgrees(before, t, r, version);
    case StopAttempt(a, generation) => StopAgrees(before, t, a, generation);
    case RetryAttempt(a, generation, known) => RetryAgrees(before, t, a, generation, known, ids.first);
    case _ =>
  }

  lemma AdmitFrame(db: Db, id: Id, digest: Id, command: Command, ids: Supply)
    requires Admit(db, id, digest, command, ids).Some?
    ensures var applied, after := Apply(NoteStorage(Begin(db), command, ids), command, ids), Admit(db, id, digest, command, ids).value;
      applied.Some? && after.attempts == applied.value.tx.db.attempts && after.requests == applied.value.tx.db.requests
  {
  }

  lemma AdmitAgrees(db: Db, id: Id, digest: Id, command: Command, ids: Supply)
    requires Matched(db.attempts.rows, db.requests.rows) && Admit(db, id, digest, command, ids).Some?
    ensures InStep(db.requests.rows, Begin(Admit(db, id, digest, command, ids).value))
  {
    ApplyAgrees(db.requests.rows, NoteStorage(Begin(db), command, ids), command, ids);
    AdmitFrame(db, id, digest, command, ids);
  }

  lemma SubmitAgrees(db: Db, id: Id, digest: Id, command: Command, ids: Supply, commits: bool)
    requires Matched(db.attempts.rows, db.requests.rows)
    ensures InStep(db.requests.rows, Begin(Submit(db, id, digest, command, ids, commits).1))
  {
    var after := Submit(db, id, digest, command, ids, commits).1;
    SubmitCases(db, id, digest, command, ids, commits);
    if Admit(db, id, digest, command, ids) == Some(after) {
      AdmitAgrees(db, id, digest, command, ids);
    }
  }

  lemma SubmitCases(db: Db, id: Id, digest: Id, command: Command, ids: Supply, commits: bool)
    ensures var after := Submit(db, id, digest, command, ids, commits).1;
      Admit(db, id, digest, command, ids) == Some(after) || (after.attempts == db.attempts && after.requests == db.requests)
  {
  }

  // ---- execution -------------------------------------------------------------------------

  lemma SetUnknownAgrees(before: Requests, t: Tx, a: Id, effect: Effect)
    requires InStep(before, t) && a in t.db.attempts.rows && Occupies(t.db.attempts.rows[a].state)
    ensures Agreed(before, SetUnknown(t, a, t.db.attempts.rows[a].request, effect))
  {
    var row := t.db.attempts.rows[a];
    if !row.state.Unknown? {
      var row' := row.(version := row.version + 1, state := Unknown, effect := effect);
      PairMove(before, t, a, row', InDoubt);
      var t1 := MoveRequest(DoubtAttempt(t, a, effect), row.request, InDoubt);
      assert t1.db == MoveRequest(PutAttempt(t, a, row'), row.request, InDoubt).db;
      assert InStep(before, Announce(t1, row.dialog));
    }
  }

  lemma MarkUnknownAgrees(db: Db, a: Id, effect: Effect)
    requires Inv(db) && Matched(db.attempts.rows, db.requests.rows) && a in db.attempts.rows
    ensures var after := MarkUnknown(db, a, db.attempts.rows[a].request, effect);
      after.Some? ==> InStep(db.requests.rows, Begin(after.value))
  {
    Have(Slot, Begin(db));
    if db.state.active == Some(a) {
      SetUnknownAgrees(db.requests.rows, Begin(db), a, effect);
    }
  }

  lemma MarkStartedAgrees(db: Db, a: Id)
    requires Matched(db.attempts.rows, db.requests.rows)
    ensures MarkStarted(db, a).Some? ==> InStep(db.requests.rows, Begin(MarkStarted(db, a).value))
  {
  }

  lemma ObserveRefusalAgrees(db: Db, a: Id)
    requires Inv(db) && Matched(db.attempts.rows, db.requests.rows)
    ensures ObserveRefusal(db, a).Some? ==> InStep(db.requests.rows, Begin(ObserveRefusal(db, a).value))
  {
    if ObserveRefusal(db, a).Some? && db.state.active == Some(a) {
      Have(Slot, Begin(db));
      var row := db.attempts.rows[a];
      PairMove(db.requests.rows, Begin(db), a, row.(version := row.version + 1, state := Failed, effect := NoEffect), Errored);
    }
  }

  /** A steer moves the queued request of the message it carries; if it doubts the attempt, the attempt's own
      request stays active. */
  lemma FinishSteerAgrees(db: Db, c: Id, outcome: SteerOutcome)
    requires Inv(db) && Matched(db.attempts.rows, db.requests.rows) && c in db.actions.rows
    requires db.actions.rows[c].kind == MessageSteer && Unclaimed(db.actions.rows[c].status)
    ensures var after := FinishSteer(db, db.actions.rows[c].attempt, db.actions.rows[c].message, outcome);
      after.Some? ==> InStep(db.requests.rows, Begin(after.value))
  {
    var a, m := db.actions.rows[c].attempt, db.actions.rows[c].message;
    if FinishSteer(db, a, m, outcome).Some? {
      SteerMovedAgrees(db, c, outcome);
      if outcome.SteerUnknown? {
        Have(Actors, Begin(db)); Have(Life, Begin(db));
        SteerDoubtAgrees(db.requests.rows, Emit(SteerMoved(db, m, outcome), MessageMoved(m), None), a, db.messages.rows[m].request);
      }
    }
  }

  lemma SteerMovedAgrees(db: Db, c: Id, outcome: SteerOutcome)
    requires Inv(db) && Matched(db.attempts.rows, db.requests.rows) && c in db.actions.rows
    requires db.actions.rows[c].kind == MessageSteer && Unclaimed(db.actions.rows[c].status)
    requires FinishSteer(db, db.actions.rows[c].attempt, db.actions.rows[c].message, outcome).Some?
    ensures var m := db.actions.rows[c].message; var r, t := db.messages.rows[m].request, SteerMoved(db, m, outcome);
      && InStep(db.requests.rows, t) && t.db.attempts == db.attempts
      && (outcome.SteerUnknown? ==> r in t.db.requests.rows && t.db.requests.rows[r].status == InDoubt)
      && forall b :: b in db.attempts.rows ==> db.attempts.rows[b].request != r
  {
    Have(Actors, Begin(db)); Have(Steers, Begin(db));
    var r := db.messages.rows[db.actions.rows[c].message].request;
    var row := db.requests.rows[r];
    Unattempted(db.attempts.rows, db.requests.rows, r);
    if outcome.SteerApplied? || outcome.SteerUnknown? {
      LoneMove(db.requests.rows, Begin(db), r, row.(version := row.version + 1, status := if outcome.SteerApplied? then Succeeded else InDoubt));
    }
  }

  lemma SteerDoubtAgrees(before: Requests, t: Tx, a: Id, r: Id)
    requires InStep(before, t) && a in t.db.attempts.rows && t.db.attempts.rows[a].started && Occupies(t.db.attempts.rows[a].state)
    requires r in t.db.requests.rows && t.db.requests.rows[r].status == InDoubt
    requires forall b :: b in t.db.attempts.rows ==> t.db.attempts.rows[b].request != r
    ensures Agreed(before, SetUnknown(t, a, r, UnknownEffect))
  {
  }

  /** An answer whose outcome is unknown may take a finished attempt back; its request goes with it. */
  lemma FinishResponseAgrees(db: Db, action: Action, outcome: ResponseOutcome)
    requires Matched(db.attempts.rows, db.requests.rows)
    requires action.attempt in db.attempts.rows && action.request == db.attempts.rows[action.attempt].request
    ensures var after := FinishResponse(db, action, outcome); after.Some? ==>
      && Matched(after.value.attempts.rows, after.value.requests.rows)
      && (!outcome.ResponseUnknown? ==> after.value.requests == db.requests)
      && (!Finished(db.attempts.rows[action.attempt].state) ==> Forward(db.requests.rows, after.value.requests.rows))
  {
    var t := SettlePrompt(Begin(db), action, outcome);
    assert t.db.attempts == db.attempts && t.db.requests == db.requests;
    if outcome.ResponseUnknown? {
      LateDoubtAgrees(t, action.attempt);
    }
  }

  lemma LateDoubtAgrees(t: Tx, a: Id)
    requires Matched(t.db.attempts.rows, t.db.requests.rows) && a in t.db.attempts.rows
    ensures var after := SetUnknown(t, a, t.db.attempts.rows[a].request, UnknownEffect);
      after.Some? ==>
        && Matched(after.value.db.attempts.rows, after.value.db.requests.rows)
        && (!Finished(t.db.attempts.rows[a].state) ==> Forward(t.db.requests.rows, after.value.db.requests.rows))
  {
  }

  lemma DispatchRowsTables(db: Db, r: Id, a: Id, generation: nat)
    requires r in db.requests.rows && db.requests.rows[r].message in db.messages.rows
    ensures var t, row := DispatchRows(db, r, a, generation), db.requests.rows[r];
      && t.db.attempts.rows == db.attempts.rows[a := Attempt(row.dialog, r, generation, 1, Dispatching, NoEffect, false)]
      && t.db.requests.rows == db.requests.rows[r := row.(version := row.version + 1, status := Dispatched)]
  {
  }

  lemma DispatchTables(db: Db, candidate: Candidate, a: Id, generation: nat)
    requires Dispatch(db, candidate, a, generation).Some?
    ensures var after, r := Dispatch(db, candidate, a, generation).value, candidate.request;
      && r in db.requests.rows && db.requests.rows[r].status == Queued && a !in db.attempts.rows
      && after.attempts.rows == db.attempts.rows[a := Attempt(db.requests.rows[r].dialog, r, generation, 1, Dispatching, NoEffect, false)]
      && after.requests.rows == db.requests.rows[r := db.requests.rows[r].(version := db.requests.rows[r].version + 1, status := Dispatched)]
  {
    var r, after := candidate.request, Dispatch(db, candidate, a, generation).value;
    DispatchRowsTables(db, r, a, generation);
    assert after.attempts == DispatchRows(db, r, a, generation).db.attempts && after.requests == DispatchRows(db, r, a, generation).db.requests;
  }

  lemma DispatchAgrees(db: Db, candidate: Candidate, a: Id, generation: nat)
    requires Matched(db.attempts.rows, db.requests.rows)
    ensures var after := Dispatch(db, candidate, a, generation); after.Some? ==> InStep(db.requests.rows, Begin(after.value))
  {
    if Dispatch(db, candidate, a, generation).Some? {
      DispatchTables(db, candidate, a, generation);
      NewPair(db.attempts.rows, db.requests.rows, a, candidate.request, generation);
    }
  }

  /** A queued request gets its attempt. */
  lemma NewPair(attempts: Attempts, requests: Requests, a: Id, r: Id, generation: nat)
    requires Matched(attempts, requests) && r in requests && requests[r].status == Queued && a !in attempts
    ensures var row := requests[r];
      var after := requests[r := row.(version := row.version + 1, status := Dispatched)];
      && Matched(attempts[a := Attempt(row.dialog, r, generation, 1, Dispatching, NoEffect, false)], after) && Forward(requests, after)
  {
    Unattempted(attempts, requests, r);
  }

  lemma RecoverAgrees(db: Db)
    requires Matched(db.attempts.rows, db.requests.rows)
    ensures Recover(db).Some? ==> InStep(db.requests.rows, Begin(Recover(db).value))
  {
  }

  // ---- observation ------------------------------------------------------------------------

  lemma TouchAgrees(before: Requests, t: Tx, a: Id)
    requires InStep(before, t)
    ensures InStep(before, Touch(t, a)) && Touch(t, a).db.attempts.rows == t.db.attempts.rows
  {
  }

  lemma ScheduleStopAgrees(before: Requests, t: Tx, a: Id, c: Id)
    requires InStep(before, t)
    ensures Agreed(before, ScheduleStop(t, a, c))
  {
  }

  lemma PublishAgrees(before: Requests, t: Tx, ref: AttemptRef, kind: EventKind, probe: Probe)
    requires InStep(before, t)
    ensures Agreed(before, Publish(t, ref, kind, probe))
  {
    ScheduleStopAgrees(before, Emit(Advance(t), kind, Some(ref.dialog)), ref.attempt, probe.stop);
  }

  lemma TerminateAgrees(before: Requests, t: Tx, ref: AttemptRef, outcome: Outcome, effect: Effect)
    requires InStep(before, t) && !outcome.OutcomeUnknown? && ref.attempt in t.db.attempts.rows
    requires ref.request == t.db.attempts.rows[ref.attempt].request && Occupies(t.db.attempts.rows[ref.attempt].state)
    ensures Agreed(before, Terminate(t, ref, outcome, effect))
  {
    var row := t.db.attempts.rows[ref.attempt];
    var row' := row.(version := row.version + 1, state := FinalState(outcome), effect := effect);
    PairMove(before, t, ref.attempt, row', FinalStatus(outcome));
    var t1 := MoveRequest(EndAttempt(t, ref.attempt, outcome, effect), ref.request, FinalStatus(outcome));
    assert t1.db == MoveRequest(PutAttempt(t, ref.attempt, row'), ref.request, FinalStatus(outcome)).db;
    assert InStep(before, Announce(t1, ref.dialog));
  }

  lemma ProjectTerminalAgrees(before: Requests, t: Tx, ref: AttemptRef, outcome: Outcome, effect: Effect, probe: Probe)
    requires InStep(before, t) && ref.attempt in t.db.attempts.rows
    requires ref.request == t.db.attempts.rows[ref.attempt].request && Occupies(t.db.attempts.rows[ref.attempt].state)
    ensures Agreed(before, ProjectTerminal(t, ref, outcome, effect, probe))
  {
    if Unresolved(t.db, ref.attempt) || effect == UnknownEffect {
      SetUnknownAgrees(before, t, ref.attempt, UnknownEffect);
      if SetUnknown(t, ref.attempt, ref.request, UnknownEffect).Some? {
        ArchiveAgrees(before, SetUnknown(t, ref.attempt, ref.request, UnknownEffect).value, ref, TerminalInDoubt, probe);
      }
    } else if outcome.OutcomeUnknown? {
      SetUnknownAgrees(before, t, ref.attempt, effect);
    } else {
      TerminateAgrees(before, t, ref, outcome, effect);
    }
  }

  lemma ProjectToolAgrees(before: Requests, t: Tx, ref: AttemptRef, event: AdapterEvent, probe: Probe)
    requires InStep(before, t) && (event.ToolStartedEvent? || event.ToolOutputEvent? || event.ToolCompletedEvent?)
    ensures Agreed(before, ProjectTool(t, ref, event, probe))
  {
    var t1 := Touch(t, ref.attempt);
    TouchAgrees(before, t, ref.attempt);
    match event
    case ToolStartedEvent(call) => PublishAgrees(before, PutTool(t1, call, ToolCall(ref.attempt, ToolRunning)), ref, ToolMoved, probe);
    case ToolOutputEvent(_) => PublishAgrees(before, t1, ref, ToolMoved, probe);
    case ToolCompletedEvent(call, succeeded, effect) =>
      if call in t.db.tools.rows {
        var row := t.db.tools.rows[call].(status := if succeeded then ToolSucceeded else ToolFailed);
        PublishAgrees(before, PutTool(t1, call, row), ref, EventKind.ToolCompleted(ref.attempt, effect), probe);
      }
  }

  lemma WaitPublishAgrees(before: Requests, t: Tx, ref: AttemptRef, probe: Probe)
    requires InStep(before, t)
    ensures var w := EnterWaiting(t, ref.attempt); w.Some? ==> Agreed(before, Publish(w.value, ref, PromptMoved, probe))
  {
  }

  lemma ProjectApprovalAgrees(before: Requests, t: Tx, ref: AttemptRef, event: AdapterEvent, probe: Probe)
    requires InStep(before, t) && event.ApprovalEvent?
    ensures Agreed(before, ProjectPrompt(t, ref, event, probe))
  {
    var t1 := Touch(t, ref.attempt);
    TouchAgrees(before, t, ref.attempt);
    if probe.charge.NewlyExceeded? {
      var t2 := t1.(st := t1.st.(nextMessageSequence := t1.st.nextMessageSequence + 1));
      assert InStep(before, t2);
      PublishAgrees(before, t2, ref, OutputProduced, probe);
    } else {
      var t2 := PutApproval(t1, event.approval, Prompt(ref.attempt, 1, Open));
      assert InStep(before, t2);
      WaitPublishAgrees(before, t2, ref, probe);
    }
  }

  lemma ProjectInputAgrees(before: Requests, t: Tx, ref: AttemptRef, event: AdapterEvent, probe: Probe)
    requires InStep(before, t) && event.InputEvent?
    ensures Agreed(before, ProjectPrompt(t, ref, event, probe))
  {
    var t1 := PutInput(Touch(t, ref.attempt), event.input, Prompt(ref.attempt, 1, Open));
    TouchAgrees(before, t, ref.attempt);
    assert InStep(before, t1);
    WaitPublishAgrees(before, t1, ref, probe);
    PublishAgrees(before, t1, ref, PromptMoved, probe);
  }

  lemma ProjectAgrees(before: Requests, t: Tx, ref: AttemptRef, event: AdapterEvent, probe: Probe)
    requires InStep(before, t) && ref.attempt in t.db.attempts.rows
    requires ref.request == t.db.attempts.rows[ref.attempt].request && Occupies(t.db.attempts.rows[ref.attempt].state)
    ensures Agreed(before, Project(t, ref, event, probe))
  {
    var t1, row := Touch(t, ref.attempt), t.db.attempts.rows[ref.attempt];
    TouchAgrees(before, t, ref.attempt);
    match event
    case StartedEvent =>
    case WaitingEvent =>
      if row.state.Running? {
        AttemptMove(before, t, ref.attempt, row.(version := row.version + 1, state := WaitingInput));
      }
    case DeltaEvent => PublishAgrees(before, t1, ref, OutputProduced, probe);
    case AssistantEvent =>
      PublishAgrees(before, t1.(st := t1.st.(nextMessageSequence := t1.st.nextMessageSequence + 1)), ref, OutputProduced, probe);
    case ToolStartedEvent(_) => ProjectToolAgrees(before, t, ref, event, probe);
    case ToolOutputEvent(_) => ProjectToolAgrees(before, t, ref, event, probe);
    case ToolCompletedEvent(_, _, _) => ProjectToolAgrees(before, t, ref, event, probe);
    case ApprovalEvent(_, _) => ProjectApprovalAgrees(before, t, ref, event, probe);
    case InputEvent(_) => ProjectInputAgrees(before, t, ref, event, probe);
    case TerminalEvent(outcome, effect) => ProjectTerminalAgrees(before, t, ref, outcome, effect, probe);
    case UnknownEvent(effect) => SetUnknownAgrees(before, t, ref.attempt, effect);
  }

  lemma ArchiveAgrees(before: Requests, t: Tx, ref: AttemptRef, kind: LateKind, probe: Probe)
    requires InStep(before, t)
    ensures Agreed(before, Archive(t, ref, kind, probe))
  {
    var t1 := if kind.LateEvent? then Emit(t, Archived, Some(ref.dialog)) else t;
    ScheduleStopAgrees(before, PutLate(t1, Late(ref.attempt, ref.generation, kind, t1.st.lastEventSeq, probe.bytes)), ref.attempt, probe.stop);
  }

  lemma ObserveAgrees(db: Db, ref: AttemptRef, event: AdapterEvent, probe: Probe)
    requires Matched(db.attempts.rows, db.requests.rows)
    ensures Observe(db, ref, event, probe).Some? ==> InStep(db.requests.rows, Begin(Observe(db, ref, event, probe).value))
  {
    if Observe(db, ref, event, probe).Some? {
      var before, t, row := db.requests.rows, Begin(db), db.attempts.rows[ref.attempt];
      if (row.state.Stopping? || row.state.Unknown?) && Interactive(event) {
        ArchiveAgrees(before, t, ref, Suppressed, probe);
      } else if db.state.active != Some(ref.attempt) || !Occupies(row.state) {
        ArchiveAgrees(before, t, ref, LateEvent, probe);
      } else {
        ProjectAgrees(before, t, ref, event, probe);
      }
    }
  }

  lemma StoreArtifactAgrees(db: Db, ref: AttemptRef, probe: Probe)
    requires Matched(db.attempts.rows, db.requests.rows)
    ensures StoreArtifact(db, ref, probe).Some? ==> InStep(db.requests.rows, Begin(StoreArtifact(db, ref, probe).value))
  {
  }

  lemma ReconcileAgrees(db: Db, ref: AttemptRef, outcome: Outcome, effect: Effect, newOutput: bool, probe: Probe)
    requires Matched(db.attempts.rows, db.requests.rows)
    ensures var after := Reconcile(db, ref, outcome, effect, newOutput, probe); after.Some? ==> InStep(db.requests.rows, Begin(after.value))
  {
    if Reconcile(db, ref, outcome, effect, newOutput, probe).Some? {
      TouchAgrees(db.requests.rows, Begin(db), ref.attempt);
      var t := if newOutput && outcome.OutcomeCompleted? then PutOutput(Begin(db), ref) else Begin(db);
      assert t.db.attempts.rows == db.attempts.rows && t.db.requests.rows == db.requests.rows;
      ProjectTerminalAgrees(db.requests.rows, t, ref, outcome, effect, probe);
    }
  }

  // ---- every run ------------------------------------------------------------------------------

  lemma QuietTransaction(db: Db, step: Step)
    requires (Gated(step) || step.BlockingPolicy?) && Transact(db, step).Some?
    ensures Transact(db, step).value.attempts == db.attempts && Transact(db, step).value.requests == db.requests
  {
  }

  lemma TransactionAgrees(db: Db, step: Step)
    requires Inv(db) && Matched(db.attempts.rows, db.requests.rows) && OwnTransaction(step) && Transact(db, step).Some?
    ensures InStep(db.requests.rows, Begin(Transact(db, step).value))
  {
    match step
    case Submitting(id, digest, command, ids, commits) => SubmitAgrees(db, id, digest, command, ids, commits);
    case DispatchingNext(candidate, attempt, generation) => DispatchAgrees(db, candidate, attempt, generation);
    case Observing(ref, event, probe) => ObserveAgrees(db, ref, event, probe);
    case StoringArtifact(ref, probe) => StoreArtifactAgrees(db, ref, probe);
    case Reconciling(ref, outcome, effect, newOutput, probe) => ReconcileAgrees(db, ref, outcome, effect, newOutput, probe);
    case LosingStream(attempt, effect) => MarkUnknownAgrees(db, attempt, effect);
    case _ => QuietTransaction(db, step);
  }

  lemma WriteAgrees(db: Db, c: Id, todo: Todo)
    requires Inv(db) && Matched(db.attempts.rows, db.requests.rows) && c in db.actions.rows
    requires db.actions.rows[c].status == Inflight && SystemKeeps.Fits(db.actions.rows[c].kind, todo)
    ensures var after := Write(db, c, todo); after.Some? ==>
      && Matched(after.value.attempts.rows, after.value.requests.rows)
      && (todo != AnswerTodo(ResponseUnknown) ==> Forward(db.requests.rows, after.value.requests.rows))
  {
    var action := db.actions.rows[c];
    Have(Actors, Begin(db));
    match todo
    case MarkUnknownTodo => MarkUnknownAgrees(db, action.attempt, UnknownEffect);
    case RefusalTodo => ObserveRefusalAgrees(db, action.attempt);
    case StartedTodo => MarkStartedAgrees(db, action.attempt);
    case SteerTodo(outcome) => FinishSteerAgrees(db, c, outcome);
    case AnswerTodo(outcome) => FinishResponseAgrees(db, action, outcome);
    case FinishTodo(_) =>
  }

  lemma WritingAgrees(s: Sys, c: Id, durable: bool)
    requires SysInv(s) && Matched(s.db.attempts.rows, s.db.requests.rows) && TakeWriting(s, c, durable).Some?
    ensures var db := TakeWriting(s, c, durable).value.db;
      && Matched(db.attempts.rows, db.requests.rows)
      && (s.workers[c].todo[0] != AnswerTodo(ResponseUnknown) ==> Forward(s.db.requests.rows, db.requests.rows))
  {
    assert WorkerOk(s.db, s.gate, c, s.workers[c]);
    WriteAgrees(s.db, c, s.workers[c].todo[0]);
  }

  lemma LaneFrame(s: Sys, step: Step)
    requires !OwnTransaction(step) && !step.Writing? && !step.Crashing? && Take(s, step).Some?
    ensures Take(s, step).value.db.attempts == s.db.attempts && Take(s, step).value.db.requests == s.db.requests
  {
  }

  lemma StepAgrees(s: Sys, step: Step)
    requires SysInv(s) && Matched(s.db.attempts.rows, s.db.requests.rows) && Take(s, step).Some?
    ensures var db := Take(s, step).value.db;
      && Matched(db.attempts.rows, db.requests.rows)
      && (!StepTerms(s, step, None).reopens ==> Forward(s.db.requests.rows, db.requests.rows))
  {
    if OwnTransaction(step) {
      TransactionAgrees(s.db, step);
    } else if step.Writing? {
      WritingAgrees(s, step.worker, step.durable);
    } else if step.Crashing? {
      RecoverAgrees(s.db);
    } else {
      LaneFrame(s, step);
    }
  }

  /** In every reachable state an attempt and its request tell the same story, and no request has two attempts. */
  lemma {:induction false} AttemptAndRequestAgree(run: seq<Sys>, steps: seq<Step>, i: nat)
    requires IsRun(run, steps) && i < |run|
    ensures Matched(run[i].db.attempts.rows, run[i].db.requests.rows)
  {
    if i > 0 {
      var k := i - 1;
      AttemptAndRequestAgree(run, steps, k);
      StepOf(run, steps, k);
      StepAgrees(run[k], steps[k]);
    }
  }

  lemma ForwardChain(first: Requests, second: Requests, third: Requests)
    requires Forward(first, second) && Forward(second, third)
    ensures Forward(first, third)
  {
  }

  // ---- exactly when something turns back -----------------------------------------------------------

  /** The step writes down that the outcome of an answer is unknown, for an attempt that has finished, while the slot is free. */
  predicate Reopens(s: Sys, step: Step) {
    && step.Writing? && step.durable && step.worker in s.workers && s.workers[step.worker].After?
    && |s.workers[step.worker].todo| > 0 && s.workers[step.worker].todo[0] == AnswerTodo(ResponseUnknown)
    && step.worker in s.db.actions.rows && s.db.actions.rows[step.worker].attempt in s.db.attempts.rows
    && Finished(s.db.attempts.rows[s.db.actions.rows[step.worker].attempt].state) && s.db.state.active == None
  }

  /** The answer of a finished attempt turns its request back, from settled to doubt, exactly when it takes the attempt back. */
  lemma AnswerTurnsBackIff(db: Db, c: Id, outcome: ResponseOutcome)
    requires Inv(db) && Matched(db.attempts.rows, db.requests.rows) && c in db.actions.rows
    requires db.actions.rows[c].kind == ApprovalRespond || db.actions.rows[c].kind == InputRespond
    requires db.actions.rows[c].attempt in db.attempts.rows && Finished(db.attempts.rows[db.actions.rows[c].attempt].state)
    ensures var after := FinishResponse(db, db.actions.rows[c], outcome);
      && (after.Some? && !Forward(db.requests.rows, after.value.requests.rows) <==> outcome.ResponseUnknown? && db.state.active.None?)
      && (after.Some? && !FinalsKept(db.attempts.rows, after.value.attempts.rows) <==> outcome.ResponseUnknown? && db.state.active.None?)
  {
    Have(Actors, Begin(db));
    Have(Slot, Begin(db));
    var action := db.actions.rows[c];
    SlotFree(db, db.state, action.attempt);
    if outcome.ResponseUnknown? {
      LateDoubtTurnsBack(db, action);
    } else {
      SettleFrame(Begin(db), action, outcome);
    }
  }

  lemma LateDoubtTurnsBack(db: Db, action: Action)
    requires Matched(db.attempts.rows, db.requests.rows) && action.attempt in db.attempts.rows
    requires Finished(db.attempts.rows[action.attempt].state) && action.request == db.attempts.rows[action.attempt].request
    ensures var after := FinishResponse(db, action, ResponseUnknown);
      && (after.Some? <==> !ActiveElsewhere(db, action.attempt))
      && (after.Some? ==>
            && Settled(db.requests.rows[action.request].status) && action.request in after.value.requests.rows
            && after.value.requests.rows[action.request].status == InDoubt && after.value.attempts.rows[action.attempt].state == Unknown
            && !Forward(db.requests.rows, after.value.requests.rows) && !FinalsKept(db.attempts.rows, after.value.attempts.rows))
  {
    SettleFrame(Begin(db), action, ResponseUnknown);
    var t := AnswerNoted(db, action, ResponseUnknown);
    assert t.db.attempts == db.attempts && t.db.requests == db.requests;
    var r, a := action.request, action.attempt;
    var after := FinishResponse(db, action, ResponseUnknown);
    if after.Some? {
      assert after.value.requests.rows[r].status == InDoubt;
      assert !Later(db.requests.rows[r].status, after.value.requests.rows[r].status);
      assert after.value.attempts.rows[a].state == Unknown;
    }
  }

  lemma UndecidedWriteIff(s: Sys, c: Id, durable: bool)
    requires SysInv(s) && Matched(s.db.attempts.rows, s.db.requests.rows) && TakeWriting(s, c, durable).Some?
    requires s.workers[c].todo[0] == AnswerTodo(ResponseUnknown)
    ensures var db := TakeWriting(s, c, durable).value.db;
      && (Forward(s.db.requests.rows, db.requests.rows) <==> !Reopens(s, Writing(c, durable)))
      && (FinalsKept(s.db.attempts.rows, db.attempts.rows) <==> !Reopens(s, Writing(c, durable)))
  {
    assert WorkerOk(s.db, s.gate, c, s.workers[c]);
    Have(Actors, Begin(s.db));
    var action := s.db.actions.rows[c];
    if Finished(s.db.attempts.rows[action.attempt].state) {
      AnswerTurnsBackIff(s.db, c, ResponseUnknown);
    } else {
      FinishResponseAgrees(s.db, action, ResponseUnknown);
      OthersKept(s.db, action);
    }
  }

  lemma OthersKept(db: Db, action: Action)
    requires action.attempt in db.attempts.rows && !Finished(db.attempts.rows[action.attempt].state)
    ensures var after := FinishResponse(db, action, ResponseUnknown); after.Some? ==> FinalsKept(db.attempts.rows, after.value.attempts.rows)
  {
    SettleFrame(Begin(db), action, ResponseUnknown);
  }

  lemma DecidedStepKeeps(s: Sys, step: Step)
    requires SysInv(s) && Matched(s.db.attempts.rows, s.db.requests.rows) && Take(s, step).Some? && !StepTerms(s, step, None).reopens
    ensures var db := Take(s, step).value.db;
      Forward(s.db.requests.rows, db.requests.rows) && FinalsKept(s.db.attempts.rows, db.attempts.rows)
  {
    StepAgrees(s, step);
    StepEvolves(s, step, None);
    HaveBond(SameFinals, s.db, Take(s, step).value.db, StepTerms(s, step, None));
  }

  lemma StepTurnsBackIff(run: seq<Sys>, steps: seq<Step>, k: nat)
    requires IsRun(run, steps) && k < |steps|
    ensures Forward(run[k].db.requests.rows, run[k + 1].db.requests.rows) <==> !Reopens(run[k], steps[k])
    ensures FinalsKept(run[k].db.attempts.rows, run[k + 1].db.attempts.rows) <==> !Reopens(run[k], steps[k])
  {
    AttemptAndRequestAgree(run, steps, k);
    StepOf(run, steps, k);
    if StepTerms(run[k], steps[k], None).reopens {
      UndecidedWriteIff(run[k], steps[k].worker, steps[k].durable);
    } else {
      DecidedStepKeeps(run[k], steps[k]);
    }
  }

  ghost predicate OnlyForward(run: seq<Sys>) {
    forall i, j :: 0 <= i <= j < |run| ==> Forward(run[i].db.requests.rows, run[j].db.requests.rows)
  }

  ghost predicate OutcomesStay(run: seq<Sys>) {
    forall i, j :: 0 <= i <= j < |run| ==> FinalsKept(run[i].db.attempts.rows, run[j].db.attempts.rows)
  }

  lemma {:induction false} ForwardBetween(run: seq<Sys>, steps: seq<Step>, i: nat, j: nat)
    requires IsRun(run, steps) && i <= j < |run| && forall k :: i <= k < j ==> !Reopens(run[k], steps[k])
    ensures Forward(run[i].db.requests.rows, run[j].db.requests.rows)
    ensures FinalsKept(run[i].db.attempts.rows, run[j].db.attempts.rows)
  {
    if i < j {
      ForwardBetween(run, steps, i, j - 1);
      StepTurnsBackIff(run, steps, j - 1);
      ForwardChain(run[i].db.requests.rows, run[j - 1].db.requests.rows, run[j].db.requests.rows);
    }
  }

  /** Over any run, requests only move forward and finished attempts keep their outcomes if and only if no step of it
      reopens an attempt; nothing else turns anything back. */
  lemma NothingTurnsBackIff(run: seq<Sys>, steps: seq<Step>)
    requires IsRun(run, steps)
    ensures OnlyForward(run) <==> forall k :: 0 <= k < |steps| ==> !Reopens(run[k], steps[k])
    ensures OutcomesStay(run) <==> forall k :: 0 <= k < |steps| ==> !Reopens(run[k], steps[k])
  {
    if k: nat :| k < |steps| && Reopens(run[k], steps[k]) {
      StepTurnsBackIff(run, steps, k);
    } else {
      forall i: nat, j: nat | i <= j < |run|
        ensures Forward(run[i].db.requests.rows, run[j].db.requests.rows) && FinalsKept(run[i].db.attempts.rows, run[j].db.attempts.rows)
      {
        ForwardBetween(run, steps, i, j);
      }
    }
  }

  /** Under the response contract a request only moves forward, whatever is interleaved and wherever the node crashes: once it
      is settled it stays as it is, and it is cancelled only while it waits. */
  lemma RequestsMoveForward(run: seq<Sys>, steps: seq<Step>, i: nat, j: nat)
    requires IsRun(run, steps) && AnswersAreDecided(steps) && i <= j < |run|
    ensures Forward(run[i].db.requests.rows, run[j].db.requests.rows)
  {
    forall k | i <= k < j ensures !Reopens(run[k], steps[k]) {
      RunDecided(run, steps, k);
    }
    ForwardBetween(run, steps, i, j);
  }

  /** A request reaches the provider at most once: every start or resume in the record is for a request of its own. */
  lemma RequestStartsOnce(run: seq<Sys>, steps: seq<Step>, n: nat, i: nat, j: nat)
    requires IsRun(run, steps) && n < |run| && i < j < |run[n].calls|
    requires run[n].calls[i].kind == DispatchStart && run[n].calls[j].kind == DispatchStart
    ensures var attempts, a, b := run[n].db.attempts.rows, run[n].calls[i].attempt, run[n].calls[j].attempt;
      a in attempts && b in attempts && attempts[a].request != attempts[b].request
  {
    AtMostOnce(run, steps, n, i, j);
    AttemptAndRequestAgree(run, steps, n);
    Reachable(run, steps, n);
    Have(Actors, Begin(run[n].db));
    assert CallOk(run[n].db, run[n].workers, run[n].calls[i]) && CallOk(run[n].db, run[n].workers, run[n].calls[j]);
  }
}
