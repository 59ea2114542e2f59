/** The row moves transactions are made of keep the invariant. */
module Moves {
  import opened Wrappers
  import opened Store
  import opened Commands
  import opened Execution
  import opened Administration
  import opened Invariants
  import opened RowLemmas

  // ---- the shared moves -----------------------------------------------------------

  /** An attempt moves, and the slot moves with it. */
  lemma MoveKeeps(t: Tx, a: Id, row: Attempt, st: State)
    requires TxInv(t) && a in t.db.attempts.rows
    requires row.dialog == t.db.attempts.rows[a].dialog && row.request == t.db.attempts.rows[a].request
    requires t.st.active == Some(a) || t.st.active == None
    requires row.state.Dispatching? ==> t.db.attempts.rows[a].state.Dispatching? && !row.started
    requires row.state.Running? || row.state.WaitingInput? ==> row.started
    requires t.db.attempts.rows[a].started ==> row.started
    requires row.started && !t.db.attempts.rows[a].started && a in t.db.actions.rows ==> t.db.actions.rows[a].status != Pending
    requires !Occupies(row.state) ==> forall c :: c in t.db.actions.rows && SteerOpen(t.db.actions.rows[c]) ==> t.db.actions.rows[c].attempt != a
    requires st.active == (if Occupies(row.state) then Some(a) else None)
    requires st.occupancy == (if !Occupies(row.state) then Idle else if row.state.Unknown? then Doubtful else Busy)
    requires st.occupancy == Doubtful ==> ExecutionUnknown in st.reasons
    requires st.pendingCount == t.st.pendingCount && st.nextQueueSequence == t.st.nextQueueSequence
    requires st.lastEventSeq == t.st.lastEventSeq
    ensures TxInv(Tx(PutAttempt(t, a, row).db, st))
  {
    var db, t' := t.db, Tx(PutAttempt(t, a, row).db, st);
    forall clause ensures Holds(clause, t') {
      Have(clause, t); Have(Actors, t); Have(Links, t);
      match clause
      case Slot => SlotPut(db.attempts.rows, t.st.active, t.st.occupancy, t.st.reasons, a, row, st.occupancy, st.reasons);
      case Links => LinksPutAttempt(db.dialogs.rows.Keys, db.messages.rows, db.requests.rows, db.attempts.rows, a, row);
      case Actors => ActionsPutAttempt(db.actions.rows, db.attempts.rows, db.messages.rows, a, row);
      case Life => LifecyclePutAttempt(db.attempts.rows, db.actions.rows, db.messages.rows, a, row);
      case Fresh => FreshPutAttempt(db.actions.rows, db.attempts.rows, db.messages.rows, a, row);
      case Starts => StartPutAttempt(db.actions.rows, db.attempts.rows, db.messages.rows, db.holds.rows, db.releases.rows, a, row);
      case Effects => assert db.attempts.rows[a := row].Keys == db.attempts.rows.Keys;
      case _ =>
    }
  }

  /** A request outside the queue moves and stays outside it. */
  lemma RequestKeeps(t: Tx, r: Id, row: Request)
    requires TxInv(t) && r in t.db.requests.rows
    requires row.dialog == t.db.requests.rows[r].dialog && row.message == t.db.requests.rows[r].message
    requires row.queueSequence == t.db.requests.rows[r].queueSequence
    requires t.db.requests.rows[r].status != Queued && row.status != Queued
    ensures TxInv(PutRequest(t, r, row))
  {
    var db := t.db;
    forall clause ensures Holds(clause, PutRequest(t, r, row)) {
      Have(clause, t); Have(Links, t);
      match clause
      case Links => LinksPutRequest(db.dialogs.rows.Keys, db.messages.rows, db.requests.rows, db.attempts.rows, r, row);
      case Waiting => QueuedPutRequest(db.messages.rows, db.requests.rows, r, row);
      case Count => CountPutRequest(db.requests.rows, t.st.pendingCount, t.st.nextQueueSequence, r, row);
      case _ =>
    }
  }

  /** Fields of the state row the invariant does not constrain may change freely. */
  lemma StateKeeps(t: Tx, st: State)
    requires TxInv(t)
    requires st.active == t.st.active && st.occupancy == t.st.occupancy
    requires ExecutionUnknown in t.st.reasons ==> ExecutionUnknown in st.reasons
    requires st.pendingCount == t.st.pendingCount && st.nextQueueSequence == t.st.nextQueueSequence
    requires st.lastEventSeq == t.st.lastEventSeq
    ensures TxInv(t.(st := st))
  {
    forall clause ensures Holds(clause, t.(st := st)) {
      Have(clause, t);
    }
  }

  lemma LateKeeps(t: Tx, row: Late)
    requires TxInv(t)
    ensures TxInv(PutLate(t, row))
  {
    forall clause ensures Holds(clause, PutLate(t, row)) {
      Have(clause, t);
    }
  }

  lemma ActionKeeps(t: Tx, c: Id, row: Action)
    requires TxInv(t)
    requires ActionLinks(t.db.actions.rows[c := row], t.db.attempts.rows, t.db.messages.rows)
    requires row.kind == MessageSteer ==> row.attempt in t.db.attempts.rows && t.db.attempts.rows[row.attempt].started
    requires SteerOpen(row) ==> Occupies(t.db.attempts.rows[row.attempt].state)
    requires SteerQueued(t.db.actions.rows[c := row], t.db.messages.rows, t.db.requests.rows)
    requires PromptLinks(t.db.actions.rows[c := row], t.db.approvals.rows, t.db.inputs.rows)
    requires row.kind == DispatchStart && Unclaimed(row.status) && row.attempt in t.db.attempts.rows
             && t.db.attempts.rows[row.attempt].state.Dispatching? ==>
      !HeldOver(t.db.holds.rows, t.db.releases.rows, t.db.attempts.rows[row.attempt].dialog)
    requires row.kind == DispatchStart && row.status == Pending && row.attempt in t.db.attempts.rows ==>
      !t.db.attempts.rows[row.attempt].started
    ensures TxInv(PutAction(t, c, row))
  {
    forall clause ensures Holds(clause, PutAction(t, c, row)) {
      Have(clause, t);
    }
  }

  lemma AnnounceKeeps(t: Tx, dialog: Id)
    requires TxInv(t)
    ensures TxInv(Announce(t, dialog))
  {
    EmitKeeps(t, AttemptMoved, Some(dialog));
    EmitKeeps(Emit(t, AttemptMoved, Some(dialog)), NodeChanged, None);
  }

  lemma MoveRequestKeeps(t: Tx, r: Id, status: RequestStatus)
    requires TxInv(t) && status != Queued
    requires r in t.db.requests.rows ==> t.db.requests.rows[r].status != Queued
    ensures TxInv(MoveRequest(t, r, status))
  {
    if r in t.db.requests.rows {
      var row := t.db.requests.rows[r];
      RequestKeeps(t, r, row.(version := row.version + 1, status := status));
    }
  }

  lemma SetUnknownKeeps(t: Tx, a: Id, r: Id, effect: Effect)
    requires TxInv(t)
    requires r in t.db.requests.rows ==> t.db.requests.rows[r].status != Queued
    ensures Kept(SetUnknown(t, a, r, effect))
  {
    if SetUnknown(t, a, r, effect).Some? && !t.db.attempts.rows[a].state.Unknown? {
      var row, t1 := t.db.attempts.rows[a], DoubtAttempt(t, a, effect);
      Have(Slot, t);
      SlotFree(t.db, t.st, a);
      MoveKeeps(t, a, row.(version := row.version + 1, state := Unknown, effect := effect), t1.st);
      MoveRequestKeeps(t1, r, InDoubt);
      AnnounceKeeps(MoveRequest(t1, r, InDoubt), row.dialog);
    }
  }

  /** The row of a control action other than a dispatch is properly linked. */
  ghost predicate Sound(t: Tx, row: Action) {
    && row.status == Pending && row.kind != DispatchStart && row.attempt in t.db.attempts.rows
    && (if row.kind == MessageSteer then
          && row.message in t.db.messages.rows && row.request == t.db.messages.rows[row.message].request
          && t.db.messages.rows[row.message].dialog == t.db.attempts.rows[row.attempt].dialog
          && t.db.attempts.rows[row.attempt].started && Occupies(t.db.attempts.rows[row.attempt].state)
          && row.request in t.db.requests.rows && t.db.requests.rows[row.request].status == Queued
        else row.request == t.db.attempts.rows[row.attempt].request)
    && (row.kind == ApprovalRespond ==>
          row.prompt in t.db.approvals.rows && t.db.approvals.rows[row.prompt].attempt == row.attempt)
    && (row.kind == InputRespond ==>
          row.prompt in t.db.inputs.rows && t.db.inputs.rows[row.prompt].attempt == row.attempt)
  }

  lemma NewActionKeeps(t: Tx, c: Id, row: Action)
    requires TxInv(t) && c !in t.db.actions.rows && Sound(t, row)
    ensures TxInv(PutAction(t, c, row))
  {
    Have(Actors, t); Have(Steers, t); Have(Prompts, t);
    ActionKeeps(t, c, row);
  }

  lemma TwoEmits(t: Tx)
    requires TxInv(t)
    ensures TxInv(EmitNode(EmitQueue(t)))
  {
    EmitKeeps(t, QueueChanged, None);
    EmitKeeps(EmitQueue(t), NodeChanged, None);
  }

  lemma ThreeEmits(t: Tx, kind: EventKind, dialog: Option<Id>)
    requires TxInv(t)
    ensures TxInv(EmitNode(EmitQueue(Emit(t, kind, dialog))))
  {
    EmitKeeps(t, kind, dialog);
    TwoEmits(Emit(t, kind, dialog));
  }

  lemma NewRequestKeeps(t: Tx, r: Id, row: Request, st: State)
    requires TxInv(t) && r !in t.db.requests.rows && row.dialog in t.db.dialogs.rows
    requires row.queueSequence == t.st.nextQueueSequence && row.status == Queued && t.st.pendingCount < QUEUE_CAPACITY
    requires st.active == t.st.active && st.occupancy == t.st.occupancy && st.reasons == t.st.reasons
    requires st.pendingCount == t.st.pendingCount + 1 && st.nextQueueSequence == t.st.nextQueueSequence + 1
    requires st.lastEventSeq == t.st.lastEventSeq
    ensures TxInv(Tx(PutRequest(t, r, row).db, st))
  {
    forall clause ensures Holds(clause, Tx(PutRequest(t, r, row).db, st)) {
      Have(clause, t);
      match clause
      case Links => LinksPutRequest(t.db.dialogs.rows.Keys, t.db.messages.rows, t.db.requests.rows, t.db.attempts.rows, r, row);
      case Waiting => QueuedPutRequest(t.db.messages.rows, t.db.requests.rows, r, row);
      case Count => CountNewRequest(t.db.requests.rows, t.st.pendingCount, t.st.nextQueueSequence, r, row);
      case _ =>
    }
  }

  /** A message row moves or arrives. */
  lemma MessageKeeps(t: Tx, m: Id, row: Message)
    requires TxInv(t) && row.request in t.db.requests.rows && t.db.requests.rows[row.request].dialog == row.dialog
    requires m in t.db.messages.rows ==>
      row.dialog == t.db.messages.rows[m].dialog && row.request == t.db.messages.rows[m].request
    requires row.disposition == InQueue || row.disposition == SteerPending ==>
      t.db.requests.rows[row.request].message == m && t.db.requests.rows[row.request].status == Queued
    ensures TxInv(PutMessage(t, m, row))
  {
    forall clause ensures Holds(clause, PutMessage(t, m, row)) {
      Have(clause, t);
      match clause
      case Links => LinksPutMessage(t.db.dialogs.rows.Keys, t.db.messages.rows, t.db.requests.rows, t.db.attempts.rows, m, row);
      case Waiting => QueuedPutMessage(t.db.messages.rows, t.db.requests.rows, m, row);
      case Actors => ActionsPutMessage(t.db.actions.rows, t.db.attempts.rows, t.db.messages.rows, m, row);
      case _ =>
    }
  }

  /** A queued request leaves the queue with its message. */
  lemma UnqueueKeeps(t: Tx, r: Id, row: Request, m: Id, text: Message, st: State)
    requires TxInv(t) && r in t.db.requests.rows && m in t.db.messages.rows
    requires t.db.requests.rows[r].status == Queued && row.status != Queued && t.db.requests.rows[r].message == m
    requires row.dialog == t.db.requests.rows[r].dialog && row.message == m
    requires row.queueSequence == t.db.requests.rows[r].queueSequence
    requires text.dialog == t.db.messages.rows[m].dialog && text.request == t.db.messages.rows[m].request
    requires text.disposition != InQueue && text.disposition != SteerPending
    requires st.active == t.st.active && st.occupancy == t.st.occupancy && st.reasons == t.st.reasons
    requires st.pendingCount == t.st.pendingCount - 1 && st.nextQueueSequence == t.st.nextQueueSequence
    requires st.lastEventSeq == t.st.lastEventSeq
    ensures TxInv(Tx(PutRequest(PutMessage(t, m, text), r, row).db, st))
  {
    Have(Links, t);
    MessageKeeps(t, m, text);
    var t1 := PutMessage(t, m, text);
    var t2 := Tx(PutRequest(t1, r, row).db, st);
    forall clause ensures Holds(clause, t2) {
      Have(clause, t1);
      match clause
      case Links => LinksPutRequest(t1.db.dialogs.rows.Keys, t1.db.messages.rows, t1.db.requests.rows, t1.db.attempts.rows, r, row);
      case Waiting => QueuedPutRequest(t1.db.messages.rows, t1.db.requests.rows, r, row);
      case Count => CountPutRequest(t1.db.requests.rows, t.st.pendingCount, t.st.nextQueueSequence, r, row);
      case Steers => Have(Waiting, t1);
      case _ =>
    }
  }

  lemma PromptKeeps(t: Tx, approval: bool, p: Id, row: Prompt)
    requires TxInv(t) && row.attempt in t.db.attempts.rows
    requires approval && p in t.db.approvals.rows ==> row.attempt == t.db.approvals.rows[p].attempt
    requires !approval && p in t.db.inputs.rows ==> row.attempt == t.db.inputs.rows[p].attempt
    ensures TxInv(if approval then PutApproval(t, p, row) else PutInput(t, p, row))
  {
    var t1 := if approval then PutApproval(t, p, row) else PutInput(t, p, row);
    forall clause ensures Holds(clause, t1) {
      Have(clause, t);
    }
  }
}
