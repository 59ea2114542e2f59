/** Dispatch, the control-action lanes and startup recovery
    (runtime/dispatch.go, runtime/actions.go, runtime/recovery.go). */
module Execution {
  import opened Wrappers
  import opened Store
  import opened Commands

  // ---- dispatch ---------------------------------------------------------------

  /** What a dispatcher read in an earlier critical section. */
  datatype Candidate = Candidate(request: Id, stateVersion: nat)

  predicate Eligible(db: Db, request: Id) {
    request in db.requests.rows && db.requests.rows[request].status == Queued && !Covered(db, db.requests.rows[request].dialog)
  }

  /** The first row of the queue in sequence order, holds skipped. */
  predicate IsNext(db: Db, request: Id) {
    && Eligible(db, request)
    && forall other | other in db.requests.rows :: Eligible(db, other) ==>
         db.requests.rows[request].queueSequence <= db.requests.rows[other].queueSequence
  }

  /** One above the highest generation among the attempts made for `message`, or 1. */
  predicate IsNextGeneration(db: Db, message: Id, generation: nat) {
    && generation >= 1 && TopGeneration(db, message, generation - 1)
    && (generation > 1 ==> exists a | a in db.attempts.rows ::
          && db.attempts.rows[a].request in db.requests.rows && db.requests.rows[db.attempts.rows[a].request].message == message
          && db.attempts.rows[a].generation == generation - 1)
  }

  predicate MayPeek(db: Db) {
    !db.state.paused && db.state.active.None? && db.state.pendingCount != 0 && ExecutionUnknown !in db.state.reasons
  }

  /** The rows and the slot of a dispatch of `request` as `attempt`, before anything is announced. */
  function DispatchRows(db: Db, request: Id, attempt: Id, generation: nat): Tx
    requires request in db.requests.rows && db.requests.rows[request].message in db.messages.rows
  {
    var row := db.requests.rows[request];
    var text := db.messages.rows[row.message];
    var tx1 := PutAttempt(Begin(db), attempt, Attempt(row.dialog, request, generation, 1, Dispatching, NoEffect, false));
    var tx2 := PutRequest(tx1, request, row.(version := row.version + 1, status := Dispatched));
    var tx3 := if text.disposition == InQueue
               then PutMessage(tx2, row.message, text.(version := text.version + 1, disposition := Consumed)) else tx2;
    var tx4 := AdvanceQueue(tx3);
    tx4.(st := tx4.st.(pendingCount := tx4.st.pendingCount - 1, active := Some(attempt), readiness := Ready,
                       occupancy := Busy, reasons := RemoveReason(tx4.st.reasons, PolicyUnavailable)))
  }

  function Dispatch(db: Db, candidate: Candidate, attempt: Id, generation: nat): Option<Db> {
    if !(db.state.version == candidate.stateVersion && !db.state.paused) then None else
      :- Need(db.state.active.None? && db.state.pendingCount != 0);
      var request := candidate.request;
      :- Need(IsNext(db, request));
      var row := db.requests.rows[request];
      :- Need(row.message in db.messages.rows && IsNextGeneration(db, row.message, generation));
      :- Need(attempt !in db.attempts.rows && attempt !in db.actions.rows);
      var tx1 := DispatchRows(db, request, attempt, generation);
      var tx2 := if db.messages.rows[row.message].disposition == InQueue then Emit(tx1, MessageMoved(row.message), None) else tx1;
      var tx3 := EmitNode(EmitQueue(Emit(tx2, AttemptMoved, Some(row.dialog))));
      Some(Save(PutAction(tx3, attempt, Action(DispatchStart, attempt, 0, request, 0, 0, Pending))).db)
  }

  function BlockPolicy(db: Db): Option<Db> {
    if db.state.readiness == Blocked && PolicyUnavailable in db.state.reasons then None else
      var tx := Begin(db);
      var tx1 := Advance(tx.(st := tx.st.(readiness := Blocked, reasons := AddReason(tx.st.reasons, PolicyUnavailable))));
      Some(Save(EmitNode(tx1)).db)
  }

  // ---- action lanes --------------------------------------------------------------

  function SetStatus(db: Db, command: Id, from: ActionStatus, to: ActionStatus): Db {
    if command in db.actions.rows && db.actions.rows[command].status == from
    then PutAction(Begin(db), command, db.actions.rows[command].(status := to)).db else db
  }

  /** A lane may claim a pending action; the dispatch lane passes over covered dialogs. */
  predicate Claimable(db: Db, command: Id) {
    && command in db.actions.rows && db.actions.rows[command].status == Pending
    && (db.actions.rows[command].kind == DispatchStart ==>
          && db.actions.rows[command].attempt in db.attempts.rows
          && !Covered(db, db.attempts.rows[db.actions.rows[command].attempt].dialog))
  }

  function Claim(db: Db, command: Id): Db {
    SetStatus(db, command, Pending, Inflight)
  }

  predicate ActiveElsewhere(db: Db, attempt: Id) {
    exists other | other in db.attempts.rows :: other != attempt && Occupies(db.attempts.rows[other].state)
  }

  /** The attempt's own row and the slot, when its state is no longer known. */
  function DoubtAttempt(tx: Tx, attempt: Id, effect: Effect): Tx
    requires attempt in tx.db.attempts.rows
  {
    var row := tx.db.attempts.rows[attempt];
    Tx(PutAttempt(tx, attempt, row.(version := row.version + 1, state := Unknown, effect := effect)).db,
       tx.st.(version := tx.st.version + 1, readiness := NotKnown, occupancy := Doubtful, active := Some(attempt),
              reasons := AddReason(tx.st.reasons, ExecutionUnknown)))
  }

  function MoveRequest(tx: Tx, request: Id, status: RequestStatus): Tx {
    if request !in tx.db.requests.rows then tx else
      var row := tx.db.requests.rows[request];
      PutRequest(tx, request, row.(version := row.version + 1, status := status))
  }

  /** Marks an attempt, and the request its reference names, as unknown and takes the slot for it.
      The unique index on active attempts rolls the transaction back when another one is active. */
  function SetUnknown(tx: Tx, attempt: Id, request: Id, effect: Effect): Option<Tx> {
    if attempt !in tx.db.attempts.rows then None else
      if tx.db.attempts.rows[attempt].state.Unknown? then Some(tx) else
        :- Need(!ActiveElsewhere(tx.db, attempt));
        Some(Announce(MoveRequest(DoubtAttempt(tx, attempt, effect), request, InDoubt), tx.db.attempts.rows[attempt].dialog))
  }

  function MarkUnknown(db: Db, attempt: Id, request: Id, effect: Effect): Option<Db> {
    if db.state.active != Some(attempt) then None else
      var tx :- SetUnknown(Begin(db), attempt, request, effect);
      Some(Save(tx).db)
  }

  /** The attempt's own row and the node's version, when its start has been confirmed. */
  function StartAttempt(tx: Tx, attempt: Id): Tx
    requires attempt in tx.db.attempts.rows
  {
    var row := tx.db.attempts.rows[attempt];
    Advance(PutAttempt(tx, attempt, row.(version := row.version + 1, state := Running, started := true)))
  }

  function MarkStarted(db: Db, attempt: Id): Option<Db> {
    if !(db.state.active == Some(attempt) && attempt in db.attempts.rows) then None else
      var row := db.attempts.rows[attempt];
      :- Need(row.state.Dispatching?);
      Some(Save(Announce(MoveRequest(StartAttempt(Begin(db), attempt), row.request, Active), row.dialog)).db)
  }

  /** The attempt's own row and the slot, when its start was refused. */
  function RefuseAttempt(tx: Tx, attempt: Id): Tx
    requires attempt in tx.db.attempts.rows
  {
    var row := tx.db.attempts.rows[attempt];
    Tx(PutAttempt(tx, attempt, row.(version := row.version + 1, state := Failed, effect := NoEffect)).db,
       tx.st.(version := tx.st.version + 1, active := None, occupancy := Idle,
              readiness := if tx.st.readiness == NotKnown then Blocked else tx.st.readiness))
  }

  /** An observation of an attempt that has left the slot is logged and kept. */
  function NoteLate(db: Db, attempt: Id): Tx
    requires attempt in db.attempts.rows
  {
    var row, tx := db.attempts.rows[attempt], Emit(Begin(db), Archived, Some(db.attempts.rows[attempt].dialog));
    PutLate(tx, Late(attempt, row.generation, LateObservation, tx.st.lastEventSeq, 0))
  }

  /** The confirmed failure recorded when the provider refuses a start; late if the slot has moved on. */
  function ObserveRefusal(db: Db, attempt: Id): Option<Db> {
    if attempt !in db.attempts.rows then None else
      var row := db.attempts.rows[attempt];
      :- Need(!Deleted(db, row.dialog));
      if db.state.active != Some(attempt) then Some(Save(NoteLate(db, attempt)).db) else
        Some(Save(Announce(MoveRequest(RefuseAttempt(Begin(db), attempt), row.request, Errored), row.dialog)).db)
  }

  datatype SteerOutcome = SteerApplied | SteerFallback | SteerUnknown | SteerRejected

  /** The steered message and its request, moved to where the outcome puts them. */
  function SteerMoved(db: Db, message: Id, outcome: SteerOutcome): Tx
    requires message in db.messages.rows && db.messages.rows[message].request in db.requests.rows
  {
    var text, tx := db.messages.rows[message], Begin(db);
    var row := db.requests.rows[text.request];
    var tx1 := if outcome.SteerApplied? || outcome.SteerUnknown?
               then var t := PutRequest(tx, text.request, row.(version := row.version + 1,
                               status := if outcome.SteerApplied? then Succeeded else InDoubt));
                    t.(st := t.st.(pendingCount := t.st.pendingCount - 1))
               else tx;
    var moved := if outcome.SteerApplied? then Consumed else if outcome.SteerUnknown? then Lost else InQueue;
    AdvanceQueue(PutMessage(tx1, message, text.(version := text.version + 1, disposition := moved)))
  }

  /** The move announced, and the attempt doubted if the outcome is unknown. */
  function SteerNoted(db: Db, attempt: Id, message: Id, outcome: SteerOutcome): Option<Tx>
    requires message in db.messages.rows && db.messages.rows[message].request in db.requests.rows
  {
    var tx := Emit(SteerMoved(db, message, outcome), MessageMoved(message), None);
    if outcome.SteerUnknown? then SetUnknown(tx, attempt, db.messages.rows[message].request, UnknownEffect) else Some(tx)
  }

  function FinishSteer(db: Db, attempt: Id, message: Id, outcome: SteerOutcome): Option<Db> {
    if !(message in db.messages.rows && db.messages.rows[message].disposition == SteerPending) then None else
      :- Need(db.messages.rows[message].request in db.requests.rows);
      var tx :- SteerNoted(db, attempt, message, outcome);
      Some(Save(EmitQueue(tx)).db)
  }

  datatype ResponseOutcome = ResponseApplied | ResponseRejected | ResponseUnknown

  function PromptAfter(outcome: ResponseOutcome): PromptStatus {
    match outcome case ResponseApplied => Resolved case ResponseRejected => Open case ResponseUnknown => PromptUnknown
  }

  /** Writes the answer's outcome to the approval or input row the action names, at the version it carries. */
  function SettlePrompt(tx: Tx, action: Action, outcome: ResponseOutcome): Tx {
    if action.kind == ApprovalRespond then
      if action.prompt in tx.db.approvals.rows && tx.db.approvals.rows[action.prompt].version == action.promptVersion
      then PutApproval(tx, action.prompt, tx.db.approvals.rows[action.prompt].(status := PromptAfter(outcome))) else tx
    else
      if action.prompt in tx.db.inputs.rows && tx.db.inputs.rows[action.prompt].version == action.promptVersion
      then PutInput(tx, action.prompt, tx.db.inputs.rows[action.prompt].(status := PromptAfter(outcome))) else tx
  }

  /** The prompt settled, and announced if the answer was applied. */
  function AnswerNoted(db: Db, action: Action, outcome: ResponseOutcome): Tx {
    var tx := SettlePrompt(Begin(db), action, outcome);
    if outcome.ResponseApplied? then Emit(tx, PromptMoved, DialogOf(db, action.attempt)) else tx
  }

  function FinishResponse(db: Db, action: Action, outcome: ResponseOutcome): Option<Db> {
    var tx := AnswerNoted(db, action, outcome);
    var tx1 :- if outcome.ResponseUnknown? then SetUnknown(tx, action.attempt, action.request, UnknownEffect) else Some(tx);
    Some(Save(tx1).db)
  }

  // ---- recovery -------------------------------------------------------------------

  predicate Unclaimed(status: ActionStatus) {
    status.Pending? || status.Inflight?
  }

  function Stranded(db: Db, scope: Scope): set<Id> {
    set c | c in db.actions.rows && Unclaimed(db.actions.rows[c].status)
            && (scope == NodeScope || (DialogOf(db, db.actions.rows[c].attempt).Some?
                                       && scope == DialogScope(DialogOf(db, db.actions.rows[c].attempt).value)))
  }

  /** Every action a lane had not settled becomes unknown; one trigger firing per row. */
  function StrandActions(db: Db): Db {
    db.(actions := Table(map c | c in db.actions.rows ::
          if Unclaimed(db.actions.rows[c].status) then db.actions.rows[c].(status := Unsettled) else db.actions.rows[c]),
        revisions := Table(map k | k in db.revisions.rows ::
          Revision(db.revisions.rows[k].state + |Stranded(db, k)|, db.revisions.rows[k].queue)))
  }

  /** What startup does before any lane runs. `None` is a store the node refuses to open. */
  function Recover(db: Db): Option<Db> {
    var stranded := StrandActions(db);
    if db.state.active.None? then Some(stranded) else
      var attempt := db.state.active.value;
      :- Need(attempt in db.attempts.rows && Occupies(db.attempts.rows[attempt].state));
      if db.attempts.rows[attempt].state.Unknown? then Some(stranded) else
        var tx :- SetUnknown(Begin(stranded), attempt, db.attempts.rows[attempt].request, UnknownEffect);
        Some(Save(tx).db)
  }
}
