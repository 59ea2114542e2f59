/** The durable store of one node: its tables, its singleton state row, and the
    row writes a transaction is made of, with the triggers that fire on them.

    A transaction (`Tx`) is the tables under change together with the state
    struct it loaded at the start. The struct reaches the tables only when it is
    saved, so a transaction that commits without saving it loses its counters. */
module Store {
  import opened Wrappers

  type Id = nat

  /** A guard of a transaction: when it does not hold, the transaction is rolled back. */
  datatype Guard = Pass | Fail {
    predicate IsFailure() { Fail? }
    function PropagateFailure<U>(): Option<U> requires Fail? { None }
  }

  function Need(condition: bool): Guard {
    if condition then Pass else Fail
  }

  datatype AttemptState = Dispatching | Running | WaitingInput | Stopping | Unknown | Completed | Failed | Interrupted
  datatype RequestStatus = Queued | Dispatched | Active | InDoubt | Succeeded | Errored | Aborted | Cancelled
  datatype Disposition = InQueue | SteerPending | Consumed | Dropped | Lost
  datatype ActionKind = DispatchStart | AttemptStop | MessageSteer | ApprovalRespond | InputRespond
  datatype ActionStatus = Pending | Inflight | Acknowledged | Rejected | Unsettled
  datatype Effect = NoEffect | KnownEffect | UnknownEffect
  datatype ToolStatus = ToolRunning | ToolSucceeded | ToolFailed
  datatype PromptStatus = Open | Responding | Resolved | PromptUnknown
  datatype Occupancy = Idle | Busy | Doubtful
  datatype Readiness = Ready | Blocked | NotKnown
  datatype Reason = PolicyUnavailable | OperatorPause | ExecutionUnknown | EngineUnavailable | AdapterProtocol | StorageUnavailable

  datatype Scope = NodeScope | DialogScope(dialog: Id)

  datatype Dialog = Dialog(version: nat, deleted: bool)
  datatype Message = Message(dialog: Id, sequence: nat, version: nat, disposition: Disposition, request: Id)
  datatype Request = Request(dialog: Id, message: Id, queueSequence: nat, version: nat, status: RequestStatus)
  datatype Attempt = Attempt(dialog: Id, request: Id, generation: nat, version: nat, state: AttemptState, effect: Effect, started: bool)
  datatype Action = Action(kind: ActionKind, attempt: Id, message: Id, request: Id, prompt: Id, promptVersion: nat, status: ActionStatus)
  datatype ToolCall = ToolCall(attempt: Id, status: ToolStatus)
  datatype Prompt = Prompt(attempt: Id, version: nat, status: PromptStatus)

  datatype Hold = Hold(scope: Scope, digest: Id, holdVersion: nat, scopeRevision: nat)
  datatype Release = Release(digest: Id, scopeRevision: nat)
  datatype Revision = Revision(state: nat, queue: nat)

  datatype EventKind =
    | NodeChanged | QueueChanged | MessageAccepted(into: Id) | MessageMoved(message: Id) | AttemptMoved | ToolMoved
    | ToolCompleted(attempt: Id, effect: Effect) | PromptMoved | OutputProduced | ArtifactAvailable | Archived | DialogDeleted
  datatype Event = Event(number: nat, kind: EventKind, dialog: Option<Id>)

  /** Why an event or observation was kept beside the log. */
  datatype LateKind = LateEvent | Suppressed | TerminalInDoubt | LateObservation

  /** A row kept beside the log: the last sequence at the time, and the bytes it books in the attempt's output ledger. */
  datatype Late = Late(attempt: Id, generation: nat, kind: LateKind, eventSeq: nat, bytes: nat)

  /** What the command ledger remembers about one command. */
  datatype Receipt = Receipt(digest: Id, dialog: Option<Id>)
  datatype Deletion = Deletion(digest: Id, dialog: Id)

  datatype State = State(
    version: nat, lastEventSeq: nat, queueVersion: nat, paused: bool, readiness: Readiness, occupancy: Occupancy,
    active: Option<Id>, pendingCount: int, reasons: seq<Reason>, nextQueueSequence: nat, nextMessageSequence: nat)

  /** A table, by primary key. */
  datatype Table<K, V> = Table(rows: map<K, V>)

  datatype Db = Db(
    state: State,
    dialogs: Table<Id, Dialog>, messages: Table<Id, Message>, requests: Table<Id, Request>, attempts: Table<Id, Attempt>,
    actions: Table<Id, Action>, tools: Table<Id, ToolCall>, approvals: Table<Id, Prompt>, inputs: Table<Id, Prompt>,
    holds: Table<Id, Hold>, releases: Table<Id, Release>, holdRevisions: Table<Scope, nat>, holdClock: nat,
    accepted: Table<Id, Receipt>, rejected: Table<Id, Receipt>, deletions: Table<Id, Deletion>,
    events: Table<nat, Event>, revisions: Table<Scope, Revision>, late: seq<Late>)

  datatype Tx = Tx(db: Db, st: State)

  const QUEUE_CAPACITY := 100

  /** The attempt states counted by the partial unique index `one_active_attempt`. */
  predicate Occupies(s: AttemptState) {
    s.Dispatching? || s.Running? || s.WaitingInput? || s.Stopping? || s.Unknown?
  }

  predicate Covers(scope: Scope, dialog: Id) {
    scope == NodeScope || scope == DialogScope(dialog)
  }

  predicate HeldOver(holds: map<Id, Hold>, releases: map<Id, Release>, dialog: Id) {
    exists op | op in holds :: op !in releases && Covers(holds[op].scope, dialog)
  }

  /** Some committed hold without an outcome row covers the dialog. */
  predicate Covered(db: Db, dialog: Id) {
    HeldOver(db.holds.rows, db.releases.rows, dialog)
  }

  predicate Deleted(db: Db, dialog: Id) {
    dialog in db.dialogs.rows && db.dialogs.rows[dialog].deleted
  }

  predicate Live(db: Db, dialog: Id) {
    dialog in db.dialogs.rows && !db.dialogs.rows[dialog].deleted
  }

  function AddReason(reasons: seq<Reason>, reason: Reason): seq<Reason> {
    if reason in reasons then reasons else reasons + [reason]
  }

  function RemoveReason(reasons: seq<Reason>, reason: Reason): (kept: seq<Reason>)
    ensures reason !in kept
    ensures forall other :: other != reason ==> (other in kept <==> other in reasons)
  {
    if reasons == [] then []
    else if reasons[0] == reason then RemoveReason(reasons[1..], reason)
    else [reasons[0]] + RemoveReason(reasons[1..], reason)
  }

  // ---- the quiescence triggers ------------------------------------------------

  /** One trigger firing for a row of `dialog`: the node scope and the dialog's scope
      move, if they have a revision row. */
  function Bump(revisions: map<Scope, Revision>, dialog: Option<Id>, queue: nat): map<Scope, Revision> {
    map k | k in revisions ::
      if k == NodeScope || (dialog.Some? && k == DialogScope(dialog.value))
      then Revision(revisions[k].state + 1, revisions[k].queue + queue) else revisions[k]
  }

  function BumpAll(revisions: map<Scope, Revision>): map<Scope, Revision> {
    map k | k in revisions :: Revision(revisions[k].state + 1, revisions[k].queue + 1)
  }

  function DialogOf(db: Db, attempt: Id): Option<Id> {
    if attempt in db.attempts.rows then Some(db.attempts.rows[attempt].dialog) else None
  }

  // ---- row writes ---------------------------------------------------------------

  function Begin(db: Db): Tx {
    Tx(db, db.state)
  }

  /** Writes the loaded state back; a changed pause flag moves every scope. */
  function Save(tx: Tx): Tx {
    tx.(db := tx.db.(state := tx.st,
                     revisions := Table(if tx.db.state.paused == tx.st.paused then tx.db.revisions.rows else BumpAll(tx.db.revisions.rows))))
  }

  function PutRequest(tx: Tx, id: Id, row: Request): Tx {
    tx.(db := tx.db.(requests := Table(tx.db.requests.rows[id := row]), revisions := Table(Bump(tx.db.revisions.rows, Some(row.dialog), 1))))
  }

  function PutMessage(tx: Tx, id: Id, row: Message): Tx {
    tx.(db := tx.db.(messages := Table(tx.db.messages.rows[id := row])))
  }

  function PutAttempt(tx: Tx, id: Id, row: Attempt): Tx {
    tx.(db := tx.db.(attempts := Table(tx.db.attempts.rows[id := row]), revisions := Table(Bump(tx.db.revisions.rows, Some(row.dialog), 0))))
  }

  function PutAction(tx: Tx, id: Id, row: Action): Tx {
    tx.(db := tx.db.(actions := Table(tx.db.actions.rows[id := row]),
                     revisions := Table(Bump(tx.db.revisions.rows, DialogOf(tx.db, row.attempt), 0))))
  }

  function PutTool(tx: Tx, id: Id, row: ToolCall): Tx {
    tx.(db := tx.db.(tools := Table(tx.db.tools.rows[id := row]),
                     revisions := Table(Bump(tx.db.revisions.rows, DialogOf(tx.db, row.attempt), 0))))
  }

  function PutApproval(tx: Tx, id: Id, row: Prompt): Tx {
    tx.(db := tx.db.(approvals := Table(tx.db.approvals.rows[id := row]),
                     revisions := Table(Bump(tx.db.revisions.rows, DialogOf(tx.db, row.attempt), 0))))
  }

  function PutInput(tx: Tx, id: Id, row: Prompt): Tx {
    tx.(db := tx.db.(inputs := Table(tx.db.inputs.rows[id := row]),
                     revisions := Table(Bump(tx.db.revisions.rows, DialogOf(tx.db, row.attempt), 0))))
  }

  /** No trigger fires for these rows. */
  function PutLate(tx: Tx, row: Late): Tx {
    tx.(db := tx.db.(late := tx.db.late + [row]))
  }

  /** Allocates the next sequence number in the loaded state and inserts the event row. */
  function Emit(tx: Tx, kind: EventKind, dialog: Option<Id>): Tx {
    var number := tx.st.lastEventSeq + 1;
    Tx(tx.db.(events := Table(tx.db.events.rows[number := Event(number, kind, dialog)]),
              revisions := Table(Bump(tx.db.revisions.rows, dialog, 0))),
       tx.st.(lastEventSeq := number))
  }

  function EmitNode(tx: Tx): Tx {
    Emit(tx, NodeChanged, None)
  }

  function EmitQueue(tx: Tx): Tx {
    Emit(tx, QueueChanged, None)
  }

  /** The pair of events that follows every change of the slot. */
  function Announce(tx: Tx, dialog: Id): Tx {
    EmitNode(Emit(tx, AttemptMoved, Some(dialog)))
  }
}
