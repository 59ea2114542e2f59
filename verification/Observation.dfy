/** Projection of adapter events onto the durable state, and reconciliation
    (runtime/observe.go, runtime/reconcile.go, the marker path of runtime/artifact.go). */
module Observation {
  import opened Wrappers
  import opened Store
  import opened Commands
  import opened Execution

  datatype AttemptRef = AttemptRef(dialog: Id, request: Id, attempt: Id, generation: nat)

  datatype FailureClass = TaskFailure | NodeFailure | PolicyFailure | ProtocolFailure
  datatype Outcome = OutcomeCompleted | OutcomeFailed(kind: FailureClass) | OutcomeInterrupted | OutcomeUnknown

  datatype AdapterEvent =
    | StartedEvent
    | WaitingEvent
    | DeltaEvent
    | AssistantEvent
    | ToolStartedEvent(call: Id)
    | ToolOutputEvent(call: Id)
    | ToolCompletedEvent(call: Id, succeeded: bool, effect: Effect)
    | ApprovalEvent(approval: Id, call: Id)
    | InputEvent(input: Id)
    | TerminalEvent(outcome: Outcome, effect: Effect)
    | UnknownEvent(effect: Effect)

  /** What the output ledger answers for one projection. */
  datatype Charge = Fits | NewlyExceeded | AlreadyExceeded

  /** `duplicate`: the projection is already recorded; `refused`: it contradicts what is recorded; `charge` and `bytes`:
      the ledger's answer and the amount it books for a late row; `stop`: the id drawn for an output-limit stop. */
  datatype Probe = Probe(duplicate: bool, refused: bool, charge: Charge, bytes: nat, stop: Id)

  predicate Interactive(event: AdapterEvent) {
    event.WaitingEvent? || event.ApprovalEvent? || event.InputEvent?
  }

  predicate Matches(db: Db, ref: AttemptRef) {
    && ref.attempt in db.attempts.rows && !Deleted(db, db.attempts.rows[ref.attempt].dialog)
    && db.attempts.rows[ref.attempt].dialog == ref.dialog && db.attempts.rows[ref.attempt].request == ref.request
    && db.attempts.rows[ref.attempt].generation == ref.generation
  }

  /** Charging output rewrites the attempt's row. */
  function Touch(tx: Tx, attempt: Id): Tx {
    if attempt in tx.db.attempts.rows then PutAttempt(tx, attempt, tx.db.attempts.rows[attempt]) else tx
  }

  function ScheduleStop(tx: Tx, attempt: Id, command: Id): Option<Tx> {
    if tx.st.active != Some(attempt) || attempt !in tx.db.attempts.rows
       || !(tx.db.attempts.rows[attempt].state.Running? || tx.db.attempts.rows[attempt].state.WaitingInput?) then Some(tx)
    else
      :- Need(command !in tx.db.actions.rows);
      var row := tx.db.attempts.rows[attempt];
      var tx1 := Advance(PutAttempt(tx, attempt, row.(version := row.version + 1, state := Stopping)));
      var tx2 := Emit(tx1, AttemptMoved, Some(row.dialog));
      Some(PutAction(tx2, command, Action(AttemptStop, attempt, 0, row.request, 0, 0, Pending)))
  }

  function EnterWaiting(tx: Tx, attempt: Id): Option<Tx> {
    if attempt !in tx.db.attempts.rows then None else
      var row := tx.db.attempts.rows[attempt];
      :- Need(row.state.Running? || row.state.WaitingInput?);
      Some(Emit(Advance(PutAttempt(tx, attempt, row.(version := row.version + 1, state := WaitingInput))),
                AttemptMoved, Some(row.dialog)))
  }

  /** Bumps the node version, appends the projected event and, over the limit, schedules the stop. */
  function Publish(tx: Tx, ref: AttemptRef, kind: EventKind, probe: Probe): Option<Tx> {
    var tx1 := Emit(Advance(tx), kind, Some(ref.dialog));
    if probe.charge.NewlyExceeded? then ScheduleStop(tx1, ref.attempt, probe.stop) else Some(tx1)
  }

  /** A steer or an answer for the attempt has no settled outcome. */
  predicate Unresolved(db: Db, attempt: Id) {
    exists c | c in db.actions.rows :: db.actions.rows[c].attempt == attempt
      && (db.actions.rows[c].kind == MessageSteer || db.actions.rows[c].kind == ApprovalRespond || db.actions.rows[c].kind == InputRespond)
      && (Unclaimed(db.actions.rows[c].status) || db.actions.rows[c].status == Unsettled)
  }

  function FinalState(outcome: Outcome): AttemptState
    requires !outcome.OutcomeUnknown?
  {
    match outcome case OutcomeCompleted => Completed case OutcomeFailed(_) => Failed case OutcomeInterrupted => Interrupted
  }

  function FinalStatus(outcome: Outcome): RequestStatus
    requires !outcome.OutcomeUnknown?
  {
    match outcome case OutcomeCompleted => Succeeded case OutcomeFailed(_) => Errored case OutcomeInterrupted => Aborted
  }

  function Blame(reasons: seq<Reason>, kind: FailureClass): seq<Reason> {
    match kind
    case TaskFailure => reasons
    case NodeFailure => AddReason(reasons, EngineUnavailable)
    case PolicyFailure => AddReason(reasons, PolicyUnavailable)
    case ProtocolFailure => AddReason(reasons, AdapterProtocol)
  }

  function ReasonsAfter(reasons: seq<Reason>, outcome: Outcome): seq<Reason> {
    var kept := RemoveReason(reasons, ExecutionUnknown);
    if outcome.OutcomeFailed? then Blame(kept, outcome.kind) else kept
  }

  /** The attempt's own row and the slot, when it has ended. */
  function EndAttempt(tx: Tx, attempt: Id, outcome: Outcome, effect: Effect): Tx
    requires !outcome.OutcomeUnknown? && attempt in tx.db.attempts.rows
  {
    var row := tx.db.attempts.rows[attempt];
    var reasons := ReasonsAfter(tx.st.reasons, outcome);
    Tx(PutAttempt(tx, attempt, row.(version := row.version + 1, state := FinalState(outcome), effect := effect)).db,
       tx.st.(version := tx.st.version + 1, active := None, occupancy := Idle, reasons := reasons,
              readiness := if reasons == [] then Ready else Blocked))
  }

  function Terminate(tx: Tx, ref: AttemptRef, outcome: Outcome, effect: Effect): Option<Tx>
    requires !outcome.OutcomeUnknown?
  {
    if ref.attempt !in tx.db.attempts.rows then None else
      Some(Announce(MoveRequest(EndAttempt(tx, ref.attempt, outcome, effect), ref.request, FinalStatus(outcome)), ref.dialog))
  }

  /** An event nobody is waiting for is kept as a row beside the log; only a late one is logged as well. */
  function Archive(tx: Tx, ref: AttemptRef, kind: LateKind, probe: Probe): Option<Tx> {
    if probe.duplicate || probe.charge.AlreadyExceeded? then Some(tx) else
      var tx1 := if kind.LateEvent? then Emit(tx, Archived, Some(ref.dialog)) else tx;
      var tx2 := PutLate(tx1, Late(ref.attempt, ref.generation, kind, tx1.st.lastEventSeq, probe.bytes));
      if probe.charge.NewlyExceeded? then ScheduleStop(tx2, ref.attempt, probe.stop) else Some(tx2)
  }

  /** A terminal event ends the attempt only when its effects are known and nothing sent to it is
      unresolved; otherwise the attempt becomes unknown and the event is only archived. */
  function ProjectTerminal(tx: Tx, ref: AttemptRef, outcome: Outcome, effect: Effect, probe: Probe): Option<Tx> {
    if Unresolved(tx.db, ref.attempt) || effect == UnknownEffect then
      var tx1 :- SetUnknown(tx, ref.attempt, ref.request, UnknownEffect);
      Archive(tx1, ref, TerminalInDoubt, probe)
    else if outcome.OutcomeUnknown? then SetUnknown(tx, ref.attempt, ref.request, effect)
    else if probe.refused then None
    else if probe.duplicate then Some(tx)
    else Terminate(tx, ref, outcome, effect)
  }

  function ProjectTool(tx: Tx, ref: AttemptRef, event: AdapterEvent, probe: Probe): Option<Tx>
    requires event.ToolStartedEvent? || event.ToolOutputEvent? || event.ToolCompletedEvent?
  {
    var known := event.call in tx.db.tools.rows && tx.db.tools.rows[event.call].attempt == ref.attempt;
    :- Need(event.ToolStartedEvent? || known);
    if probe.duplicate || probe.charge.AlreadyExceeded? then Some(tx) else
      match event
      case ToolStartedEvent(call) =>
        :- Need(call !in tx.db.tools.rows);
        Publish(PutTool(Touch(tx, ref.attempt), call, ToolCall(ref.attempt, ToolRunning)), ref, ToolMoved, probe)
      case ToolOutputEvent(_) => Publish(Touch(tx, ref.attempt), ref, ToolMoved, probe)
      case ToolCompletedEvent(call, succeeded, effect) =>
        var row := tx.db.tools.rows[call].(status := if succeeded then ToolSucceeded else ToolFailed);
        Publish(PutTool(Touch(tx, ref.attempt), call, row), ref, EventKind.ToolCompleted(ref.attempt, effect), probe)
  }

  function ProjectPrompt(tx: Tx, ref: AttemptRef, event: AdapterEvent, probe: Probe): Option<Tx>
    requires event.ApprovalEvent? || event.InputEvent?
  {
    if event.ApprovalEvent? && !(event.call in tx.db.tools.rows && tx.db.tools.rows[event.call].attempt == ref.attempt) then None else
      if probe.duplicate || probe.charge.AlreadyExceeded? then Some(tx) else
        var tx1 := Touch(tx, ref.attempt);
        match event
        case ApprovalEvent(approval, _) =>
          if probe.charge.NewlyExceeded?
          then Publish(tx1.(st := tx1.st.(nextMessageSequence := tx1.st.nextMessageSequence + 1)), ref, OutputProduced, probe)
          else
            :- Need(approval !in tx1.db.approvals.rows);
            var tx2 :- EnterWaiting(PutApproval(tx1, approval, Prompt(ref.attempt, 1, Open)), ref.attempt);
            Publish(tx2, ref, PromptMoved, probe)
        case InputEvent(input) =>
          :- Need(input !in tx1.db.inputs.rows);
          var tx2 := PutInput(tx1, input, Prompt(ref.attempt, 1, Open));
          var tx3 :- if probe.charge.NewlyExceeded? then Some(tx2) else EnterWaiting(tx2, ref.attempt);
          Publish(tx3, ref, PromptMoved, probe)
  }

  function Project(tx: Tx, ref: AttemptRef, event: AdapterEvent, probe: Probe): Option<Tx>
    requires ref.attempt in tx.db.attempts.rows
  {
    match event
    case StartedEvent => if probe.duplicate then Some(tx) else Some(Emit(Advance(tx), AttemptMoved, Some(ref.dialog)))
    case WaitingEvent =>
      var row := tx.db.attempts.rows[ref.attempt];
      if row.state.WaitingInput? then Some(tx) else
        :- Need(row.state.Running?);
        var tx1 := PutAttempt(tx, ref.attempt, row.(version := row.version + 1, state := WaitingInput));
        Some(Emit(Advance(tx1), AttemptMoved, Some(ref.dialog)))
    case DeltaEvent =>
      if probe.duplicate || probe.charge.AlreadyExceeded? then Some(tx) else Publish(Touch(tx, ref.attempt), ref, OutputProduced, probe)
    case AssistantEvent =>
      if probe.duplicate || probe.charge.AlreadyExceeded? then Some(tx) else
        var tx1 := Touch(tx, ref.attempt);
        Publish(tx1.(st := tx1.st.(nextMessageSequence := tx1.st.nextMessageSequence + 1)), ref, OutputProduced, probe)
    case ToolStartedEvent(_) => ProjectTool(tx, ref, event, probe)
    case ToolOutputEvent(_) => ProjectTool(tx, ref, event, probe)
    case ToolCompletedEvent(_, _, _) => ProjectTool(tx, ref, event, probe)
    case ApprovalEvent(_, _) => ProjectPrompt(tx, ref, event, probe)
    case InputEvent(_) => ProjectPrompt(tx, ref, event, probe)
    case TerminalEvent(outcome, effect) => ProjectTerminal(tx, ref, outcome, effect, probe)
    case UnknownEvent(effect) => SetUnknown(tx, ref.attempt, ref.request, effect)
  }

  /** One adapter event in one transaction. The suppressed branch commits without saving the state. */
  function Observe(db: Db, ref: AttemptRef, event: AdapterEvent, probe: Probe): Option<Db> {
    if !Matches(db, ref) then None else
      var row := db.attempts.rows[ref.attempt];
      if (row.state.Stopping? || row.state.Unknown?) && Interactive(event) then
        var tx :- Archive(Begin(db), ref, Suppressed, probe);
        Some(tx.db)
      else if db.state.active != Some(ref.attempt) || !Occupies(row.state) then
        var tx :- Archive(Begin(db), ref, LateEvent, probe);
        Some(Save(tx).db)
      else
        var tx :- Project(Begin(db), ref, event, probe);
        Some(Save(tx).db)
  }

  /** A new message row of the attempt, charged and announced. */
  function PutOutput(tx: Tx, ref: AttemptRef): Tx {
    var tx1 := Touch(tx, ref.attempt);
    Emit(Advance(tx1.(st := tx1.st.(nextMessageSequence := tx1.st.nextMessageSequence + 1))), OutputProduced, Some(ref.dialog))
  }

  /** Artifact bytes are charged like output; over the limit only a marker is kept. */
  function StoreArtifact(db: Db, ref: AttemptRef, probe: Probe): Option<Db> {
    if !Matches(db, ref) then None else
      match probe.charge
      case AlreadyExceeded => None
      case Fits => Some(Save(Emit(Touch(Begin(db), ref.attempt), ArtifactAvailable, Some(ref.dialog))).db)
      case NewlyExceeded =>
        var tx :- ScheduleStop(PutOutput(Begin(db), ref), ref.attempt, probe.stop);
        Some(Save(tx).db)
  }

  // ---- reconciliation -----------------------------------------------------------

  predicate EffectsOpen(db: Db, attempt: Id) {
    || Unresolved(db, attempt)
    || (exists t | t in db.tools.rows :: db.tools.rows[t].attempt == attempt && db.tools.rows[t].status.ToolRunning?)
    || (exists p | p in db.approvals.rows :: db.approvals.rows[p].attempt == attempt && !db.approvals.rows[p].status.Resolved?)
    || (exists p | p in db.inputs.rows :: db.inputs.rows[p].attempt == attempt && !db.inputs.rows[p].status.Resolved?)
    || (exists n | n in db.events.rows :: db.events.rows[n].kind == EventKind.ToolCompleted(attempt, UnknownEffect))
  }

  /** Applies a terminal reconciliation result to the unknown attempt in the slot. */
  function Reconcile(db: Db, ref: AttemptRef, outcome: Outcome, effect: Effect, newOutput: bool, probe: Probe): Option<Db> {
    if !(db.state.active == Some(ref.attempt) && Matches(db, ref) && db.attempts.rows[ref.attempt].state.Unknown?) then None else
      :- Need(effect != UnknownEffect && !outcome.OutcomeUnknown? && !EffectsOpen(db, ref.attempt));
      var tx1 :- ProjectTerminal(if newOutput && outcome.OutcomeCompleted? then PutOutput(Begin(db), ref) else Begin(db), ref, outcome, effect, probe);
      Some(Save(tx1).db)
  }
}
