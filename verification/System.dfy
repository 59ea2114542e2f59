/** The running node: its store, the workers of the action lanes, the start gate that
    orders provider starts against administrative changes, and every call a provider got
    (runtime/actions.go, runtime/dispatch.go, runtime/hold.go, runtime/store.go). */
module System {
  import opened Wrappers
  import opened Store
  import opened Commands
  import opened Execution
  import opened Observation
  import opened Administration

  /** What a worker still has to write after its provider call returned. */
  datatype Todo =
    | MarkUnknownTodo
    | RefusalTodo
    | StartedTodo
    | SteerTodo(steer: SteerOutcome)
    | AnswerTodo(answer: ResponseOutcome)
    | FinishTodo(status: ActionStatus)

  /** Only a dispatch waits at the gate; it keeps the gate until it is done. */
  datatype Phase = AtGate | InGate | AtCall | After(todo: seq<Todo>)

  datatype Call = Call(command: Id, kind: ActionKind, attempt: Id)

  datatype Sys = Sys(db: Db, workers: map<Id, Phase>, gate: Option<Id>, calls: seq<Call>)

  datatype Step =
    | Submitting(id: Id, digest: Id, command: Command, ids: Supply, commits: bool)
    | DispatchingNext(candidate: Candidate, attempt: Id, generation: nat)
    | BlockingPolicy
    | Observing(ref: AttemptRef, event: AdapterEvent, probe: Probe)
    | StoringArtifact(ref: AttemptRef, probe: Probe)
    | Reconciling(ref: AttemptRef, outcome: Outcome, effect: Effect, newOutput: bool, probe: Probe)
    | LosingStream(attempt: Id, effect: Effect)
    | Installing(op: Id, digest: Id, scope: Scope, expected: nat)
    | Releasing(op: Id, digest: Id, scope: Scope, holdVersion: nat, expected: nat)
    | Deleting(op: Id, digest: Id, dialog: Id, holdVersion: nat, scopeRevision: nat, receipt: Id, receiptDigest: Id, dialogVersion: nat)
    | Claiming(worker: Id)
    | Entering(worker: Id)
    | Requeuing(worker: Id, durable: bool)
    | Reading(worker: Id, usable: bool)
    | Calling(worker: Id, todo: seq<Todo>)
    | Writing(worker: Id, durable: bool)
    | Leaving(worker: Id)
    | Crashing

  function SteerStatus(outcome: SteerOutcome): ActionStatus {
    match outcome
    case SteerUnknown => Unsettled
    case SteerRejected => Rejected
    case _ => Acknowledged
  }

  function AnswerStatus(outcome: ResponseOutcome): ActionStatus {
    match outcome case ResponseApplied => Acknowledged case ResponseRejected => Rejected case ResponseUnknown => Unsettled
  }

  const UNCERTAIN := [MarkUnknownTodo, FinishTodo(Unsettled)]

  /** The declared results of a provider call, as the writes each of them leads to. */
  predicate Follows(kind: ActionKind, todo: seq<Todo>) {
    match kind
    case DispatchStart =>
      todo == [StartedTodo, FinishTodo(Acknowledged)] || todo == [RefusalTodo, FinishTodo(Rejected)] || todo == UNCERTAIN
    case AttemptStop => todo == [FinishTodo(Acknowledged)] || todo == [FinishTodo(Rejected)] || todo == UNCERTAIN
    case MessageSteer =>
      |todo| == 2 && todo[0].SteerTodo? && todo[1] == FinishTodo(SteerStatus(todo[0].steer))
    case _ =>
      || (|todo| == 2 && todo[0].AnswerTodo? && todo[1] == FinishTodo(AnswerStatus(todo[0].answer)))
      || todo == [MarkUnknownTodo, AnswerTodo(ResponseUnknown), FinishTodo(Unsettled)]
  }

  /** One write of a worker on behalf of its action; `None` leaves the store alone. */
  function Write(db: Db, c: Id, todo: Todo): Option<Db>
    requires c in db.actions.rows
  {
    var action := db.actions.rows[c];
    match todo
    case MarkUnknownTodo => MarkUnknown(db, action.attempt, action.request, UnknownEffect)
    case RefusalTodo => ObserveRefusal(db, action.attempt)
    case StartedTodo => MarkStarted(db, action.attempt)
    case SteerTodo(outcome) => FinishSteer(db, action.attempt, action.message, outcome)
    case AnswerTodo(outcome) => FinishResponse(db, action, outcome)
    case FinishTodo(status) => Some(SetStatus(db, c, Inflight, status))
  }

  /** The steps that are one transaction of their own. */
  predicate OwnTransaction(step: Step) {
    || step.Submitting? || step.DispatchingNext? || step.BlockingPolicy? || step.Observing? || step.StoringArtifact?
    || step.Reconciling? || step.LosingStream? || Gated(step)
  }

  /** The steps that change holds. */
  predicate Gated(step: Step) {
    step.Installing? || step.Releasing? || step.Deleting?
  }

  function Transact(db: Db, step: Step): Option<Db>
    requires OwnTransaction(step)
  {
    match step
    case Submitting(id, digest, command, ids, commits) => Some(Submit(db, id, digest, command, ids, commits).1)
    case DispatchingNext(candidate, attempt, generation) => Dispatch(db, candidate, attempt, generation)
    case BlockingPolicy => BlockPolicy(db)
    case Observing(ref, event, probe) => Observe(db, ref, event, probe)
    case StoringArtifact(ref, probe) => StoreArtifact(db, ref, probe)
    case Reconciling(ref, outcome, effect, newOutput, probe) => Reconcile(db, ref, outcome, effect, newOutput, probe)
    case LosingStream(attempt, effect) =>
      :- Need(attempt in db.attempts.rows);
      MarkUnknown(db, attempt, db.attempts.rows[attempt].request, effect)
    case Installing(op, digest, scope, expected) => InstallHold(db, op, digest, scope, expected)
    case Releasing(op, digest, scope, holdVersion, expected) => ReleaseHold(db, op, digest, scope, holdVersion, expected)
    case Deleting(op, digest, dialog, holdVersion, scopeRevision, receipt, receiptDigest, dialogVersion) =>
      DeleteDialog(db, op, digest, dialog, holdVersion, scopeRevision, receipt, receiptDigest, dialogVersion)
  }

  function TakeWriting(s: Sys, c: Id, durable: bool): Option<Sys> {
    if !(c in s.workers && s.workers[c].After? && |s.workers[c].todo| > 0 && c in s.db.actions.rows) then None else
      var todo := s.workers[c].todo;
      var after := if durable then Write(s.db, c, todo[0]) else None;
      if after.Some? then Some(s.(db := after.value, workers := s.workers[c := After(todo[1..])]))
      else Some(s.(workers := s.workers[c := After(if todo[0].StartedTodo? then UNCERTAIN else todo[1..])]))
  }

  function TakeReading(s: Sys, c: Id, usable: bool): Option<Sys> {
    if !(c in s.workers && s.workers[c] == InGate && c in s.db.actions.rows && s.db.actions.rows[c].attempt in s.db.attempts.rows) then None else
      var found := usable && s.db.attempts.rows[s.db.actions.rows[c].attempt].state.Dispatching?;
      Some(s.(workers := s.workers[c := if found then AtCall else After(UNCERTAIN)]))
  }

  function TakeCalling(s: Sys, c: Id, todo: seq<Todo>): Option<Sys> {
    if !(c in s.workers && s.workers[c] == AtCall && c in s.db.actions.rows && Follows(s.db.actions.rows[c].kind, todo)) then None else
      var call := Call(c, s.db.actions.rows[c].kind, s.db.actions.rows[c].attempt);
      Some(s.(workers := s.workers[c := After(todo)], calls := s.calls + [call]))
  }

  /** One atomic step; `None` when it is not enabled. */
  function Take(s: Sys, step: Step): Option<Sys> {
    if OwnTransaction(step) then
      :- Need(Gated(step) || step.DispatchingNext? ==> s.gate.None?);
      var db :- Transact(s.db, step);
      Some(s.(db := db))
    else
      match step
      case Claiming(c) =>
        :- Need(c !in s.workers && Claimable(s.db, c));
        var phase := if s.db.actions.rows[c].kind == DispatchStart then AtGate else AtCall;
        Some(s.(db := Claim(s.db, c), workers := s.workers[c := phase]))
      case Entering(c) =>
        :- Need(c in s.workers && s.workers[c] == AtGate && s.gate.None?);
        Some(s.(workers := s.workers[c := InGate], gate := Some(c)))
      case Requeuing(c, durable) =>
        :- Need(c in s.workers && s.workers[c] == InGate);
        Some(s.(db := if durable then SetStatus(s.db, c, Inflight, Pending) else s.db, workers := s.workers[c := After([])]))
      case Reading(c, usable) => TakeReading(s, c, usable)
      case Calling(c, todo) => TakeCalling(s, c, todo)
      case Writing(c, durable) => TakeWriting(s, c, durable)
      case Leaving(c) =>
        :- Need(c in s.workers && s.workers[c] == After([]));
        Some(s.(workers := s.workers - {c}, gate := if s.gate == Some(c) then None else s.gate))
      case Crashing =>
        var db :- Recover(s.db);
        Some(s.(db := db, workers := map[], gate := None))
  }

  /** A store as the node creates it: no rows but the node's own scope. */
  ghost predicate Initial(s: Sys) {
    && s.workers == map[] && s.gate == None && s.calls == []
    && s.db.state.active == None && s.db.state.occupancy == Idle && s.db.state.pendingCount == 0 && s.db.state.lastEventSeq == 0
    && s.db.dialogs.rows == map[] && s.db.messages.rows == map[] && s.db.requests.rows == map[] && s.db.attempts.rows == map[]
    && s.db.actions.rows == map[] && s.db.tools.rows == map[] && s.db.approvals.rows == map[] && s.db.inputs.rows == map[]
    && s.db.holds.rows == map[] && s.db.releases.rows == map[] && s.db.accepted.rows == map[] && s.db.rejected.rows == map[]
    && s.db.events.rows == map[] && s.db.late == [] && s.db.revisions.rows.Keys == {NodeScope}
  }

  /** The step after state `i` was taken. */
  ghost predicate Stepped(run: seq<Sys>, steps: seq<Step>, i: nat) {
    i < |steps| && i + 1 < |run| && Take(run[i], steps[i]) == Some(run[i + 1])
  }

  /** A run: its states and the steps between them. */
  ghost predicate IsRun(run: seq<Sys>, steps: seq<Step>) {
    && |run| == |steps| + 1 && Initial(run[0])
    && forall i: nat {:trigger Stepped(run, steps, i)} :: i < |steps| ==> Stepped(run, steps, i)
  }
}
