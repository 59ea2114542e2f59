/** Command admission keeps the invariant. */
module AdmissionKeeps {
  import opened Wrappers
  import opened Store
  import opened Commands
  import opened Execution
  import opened Invariants
  import opened RowLemmas
  import opened Moves

  /** What a handler leaves behind: a kept invariant and an action that may be queued. */
  ghost predicate Prepared(handled: Option<Handled>) {
    handled.Some? ==>
      && TxInv(handled.value.tx)
      && (handled.value.action.Some? ==> Sound(handled.value.tx, handled.value.action.value))
  }

  lemma CreateKeeps(t: Tx, id: Id)
    requires TxInv(t)
    ensures Prepared(ApplyCreate(t, id))
  {
    if ApplyCreate(t, id).Some? {
      var t1 := Advance(PutNewDialog(t, id));
      forall clause ensures Holds(clause, t1) {
        Have(clause, t);
      }
      EmitKeeps(t1, NodeChanged, None);
    }
  }

  lemma TouchDialogKeeps(t: Tx, d: Id)
    requires TxInv(t) && d in t.db.dialogs.rows
    ensures TxInv(TouchDialog(t, d))
  {
    var t1 := TouchDialog(t, d);
    assert t1.db.dialogs.rows.Keys == t.db.dialogs.rows.Keys;
    forall clause ensures Holds(clause, t1) {
      Have(clause, t);
    }
  }

  lemma EnqueueRowsKeeps(t: Tx, d: Id, m: Id, r: Id)
    requires TxInv(t) && d in t.db.dialogs.rows && m !in t.db.messages.rows && r !in t.db.requests.rows
    requires t.st.pendingCount < QUEUE_CAPACITY
    ensures TxInv(EnqueueRows(t, d, m, r))
  {
    var message, request := Message(d, t.st.nextMessageSequence, 1, InQueue, r), Request(d, m, t.st.nextQueueSequence, 1, Queued);
    var st := t.st.(version := t.st.version + 1, queueVersion := t.st.queueVersion + 1,
                    nextMessageSequence := t.st.nextMessageSequence + 1,
                    nextQueueSequence := t.st.nextQueueSequence + 1, pendingCount := t.st.pendingCount + 1);
    NewRequestKeeps(t, r, request, st);
    var t1 := Tx(PutRequest(t, r, request).db, st);
    MessageKeeps(t1, m, message);
    TouchDialogKeeps(PutMessage(t1, m, message), d);
    assert EnqueueRows(t, d, m, r) == TouchDialog(PutMessage(t1, m, message), d);
  }

  lemma EnqueueKeeps(t: Tx, d: Id, version: nat, m: Id, r: Id)
    requires TxInv(t)
    ensures Prepared(ApplyEnqueue(t, d, version, m, r))
  {
    if ApplyEnqueue(t, d, version, m, r).Some? {
      EnqueueRowsKeeps(t, d, m, r);
      ThreeEmits(EnqueueRows(t, d, m, r), MessageAccepted(d), None);
    }
  }

  lemma CancelRowsKeeps(t: Tx, r: Id)
    requires TxInv(t) && r in t.db.requests.rows && t.db.requests.rows[r].message in t.db.messages.rows
    requires t.db.requests.rows[r].status == Queued
    ensures TxInv(CancelRows(t, r))
  {
    var row := t.db.requests.rows[r];
    var m, text := row.message, t.db.messages.rows[row.message];
    var row' := row.(version := row.version + 1, status := Cancelled);
    var text' := text.(version := text.version + 1, disposition := Dropped);
    var st := t.st.(version := t.st.version + 1, queueVersion := t.st.queueVersion + 1, pendingCount := t.st.pendingCount - 1);
    UnqueueKeeps(t, r, row', m, text', st);
    assert CancelRows(t, r) == Tx(PutRequest(PutMessage(t, m, text'), r, row').db, st);
  }

  lemma CancelKeeps(t: Tx, r: Id, version: nat)
    requires TxInv(t)
    ensures Prepared(ApplyCancel(t, r, version))
  {
    if ApplyCancel(t, r, version).Some? {
      CancelRowsKeeps(t, r);
      ThreeEmits(CancelRows(t, r), MessageMoved(t.db.requests.rows[r].message), None);
    }
  }

  lemma ResumeKeeps(t: Tx, version: nat)
    requires TxInv(t)
    ensures Prepared(ApplyResume(t, version))
  {
    var st := t.st.(version := t.st.version + 1, queueVersion := t.st.queueVersion + 1, paused := false,
                    reasons := RemoveReason(t.st.reasons, OperatorPause));
    StateKeeps(t, st);
    TwoEmits(t.(st := st));
  }

  lemma StopKeeps(t: Tx, a: Id, generation: nat)
    requires TxInv(t)
    ensures Prepared(ApplyStop(t, a, generation))
  {
    if ApplyStop(t, a, generation).Some? {
      var row := t.db.attempts.rows[a];
      var row' := row.(version := row.version + 1, state := Stopping);
      Have(Slot, t);
      var st := t.st.(version := t.st.version + 1, queueVersion := t.st.queueVersion + 1, paused := true,
                      reasons := AddReason(t.st.reasons, OperatorPause));
      MoveKeeps(t, a, row', st);
      ThreeEmits(Tx(PutAttempt(t, a, row').db, st), AttemptMoved, Some(row.dialog));
    }
  }

  lemma RetryRowsKeeps(t: Tx, a: Id, m: Id, r: Id)
    requires TxInv(t) && a in t.db.attempts.rows && r !in t.db.requests.rows && t.st.pendingCount < QUEUE_CAPACITY
    ensures TxInv(RetryRows(t, a, m, r))
  {
    var request := Request(t.db.attempts.rows[a].dialog, m, t.st.nextQueueSequence, 1, Queued);
    var st := t.st.(version := t.st.version + 1, queueVersion := t.st.queueVersion + 1,
                    nextQueueSequence := t.st.nextQueueSequence + 1, pendingCount := t.st.pendingCount + 1);
    Have(Links, t);
    NewRequestKeeps(t, r, request, st);
    assert RetryRows(t, a, m, r) == Tx(PutRequest(t, r, request).db, st);
  }

  lemma RetryKeeps(t: Tx, a: Id, generation: nat, known: bool, r: Id)
    requires TxInv(t)
    ensures Prepared(ApplyRetry(t, a, generation, known, r))
  {
    if ApplyRetry(t, a, generation, known, r).Some? {
      var m := t.db.requests.rows[t.db.attempts.rows[a].request].message;
      RetryRowsKeeps(t, a, m, r);
      TwoEmits(RetryRows(t, a, m, r));
    }
  }

  lemma SteerRowsKeep(t: Tx, m: Id)
    requires TxInv(t) && m in t.db.messages.rows && t.db.messages.rows[m].disposition == InQueue
    ensures TxInv(SteerRows(t, m))
  {
    var text := t.db.messages.rows[m];
    var text' := text.(version := text.version + 1, disposition := SteerPending);
    Have(Links, t); Have(Waiting, t); Have(Life, t);
    MessageKeeps(t, m, text');
    StateKeeps(PutMessage(t, m, text'), t.st.(version := t.st.version + 1, queueVersion := t.st.queueVersion + 1));
  }

  lemma SteerKeeps(t: Tx, d: Id, m: Id, version: nat, a: Id, generation: nat)
    requires TxInv(t)
    ensures Prepared(ApplySteer(t, d, m, version, a, generation))
  {
    if ApplySteer(t, d, m, version, a, generation).Some? {
      Have(Links, t); Have(Waiting, t); Have(Life, t);
      SteerRowsKeep(t, m);
      var t1 := SteerRows(t, m);
      EmitKeeps(t1, MessageMoved(m), None);
      EmitKeeps(Emit(t1, MessageMoved(m), None), QueueChanged, None);
    }
  }

  lemma ApprovalKeeps(t: Tx, p: Id, version: nat, a: Id, generation: nat, hash: bool)
    requires TxInv(t)
    ensures Prepared(ApplyApproval(t, p, version, a, generation, hash))
  {
    if ApplyApproval(t, p, version, a, generation, hash).Some? {
      var row := t.db.approvals.rows[p];
      PromptKeeps(t, true, p, row.(version := row.version + 1, status := Responding));
    }
  }

  lemma InputKeeps(t: Tx, p: Id, version: nat, a: Id, generation: nat, m: Id)
    requires TxInv(t)
    ensures Prepared(ApplyInput(t, p, version, a, generation, m))
  {
    if ApplyInput(t, p, version, a, generation, m).Some? {
      var row, owner := t.db.inputs.rows[p], t.db.attempts.rows[a];
      var text := Message(owner.dialog, t.st.nextMessageSequence, 1, Consumed, owner.request);
      Have(Links, t);
      MessageKeeps(t, m, text);
      var t1, row' := PutMessage(t, m, text), row.(version := row.version + 1, status := Responding);
      PromptKeeps(t1, false, p, row');
      var t2 := PutInput(t1, p, row');
      StateKeeps(t2, t2.st.(nextMessageSequence := t2.st.nextMessageSequence + 1));
    }
  }

  lemma ApplyKeeps(t: Tx, command: Command, ids: Supply)
    requires TxInv(t)
    ensures Prepared(Apply(t, command, ids))
  {
    match command
    case CreateDialog => CreateKeeps(t, ids.first);
    case Enqueue(dialog, version) => EnqueueKeeps(t, dialog, version, ids.first, ids.second);
    case CancelRequest(request, version) => CancelKeeps(t, request, version);
    case ResumeQueue(version) => ResumeKeeps(t, version);
    case StopAttempt(attempt, generation) => StopKeeps(t, attempt, generation);
    case RetryAttempt(attempt, generation, known) => RetryKeeps(t, attempt, generation, known, ids.first);
    case SteerMessage(dialog, message, version, attempt, generation) => SteerKeeps(t, dialog, message, version, attempt, generation);
    case AnswerApproval(prompt, version, attempt, generation, hash) => ApprovalKeeps(t, prompt, version, attempt, generation, hash);
    case AnswerInput(prompt, version, attempt, generation) => InputKeeps(t, prompt, version, attempt, generation, ids.first);
  }

  lemma AdmitKeeps(db: Db, id: Id, digest: Id, command: Command, ids: Supply)
    requires Inv(db) && Ledger(db, id).None?
    ensures Admit(db, id, digest, command, ids).Some? ==> Inv(Admit(db, id, digest, command, ids).value)
  {
    var t := NoteStorage(Begin(db), command, ids);
    StateKeeps(Begin(db), t.st);
    ApplyKeeps(t, command, ids);
    ApplyFrame(t, command, ids);
    if Admit(db, id, digest, command, ids).Some? {
      var applied := Apply(t, command, ids).value;
      var receipt := Receipt(digest, About(db, command, ids));
      RecordKeeps(applied.tx, id, receipt, applied.action);
      SaveKeeps(Record(applied.tx, id, receipt, applied.action));
    }
  }

  lemma RecordKeeps(t: Tx, id: Id, receipt: Receipt, action: Option<Action>)
    requires TxInv(t) && id !in t.db.rejected.rows && (action.Some? ==> id !in t.db.actions.rows && Sound(t, action.value))
    ensures TxInv(Record(t, id, receipt, action))
  {
    var t1 := t;
    if action.Some? {
      NewActionKeeps(t, id, action.value);
      t1 := PutAction(t, id, action.value);
    }
    AcceptKeeps(t1, id, receipt);
  }

  lemma AcceptKeeps(t: Tx, id: Id, receipt: Receipt)
    requires TxInv(t) && id !in t.db.rejected.rows
    ensures TxInv(t.(db := t.db.(accepted := Table(t.db.accepted.rows[id := receipt]))))
  {
    var t' := t.(db := t.db.(accepted := Table(t.db.accepted.rows[id := receipt])));
    forall clause ensures Holds(clause, t') {
      Have(clause, t);
    }
  }

  /** Handlers write neither ledger nor holds. */
  lemma ApplyFrame(t: Tx, command: Command, ids: Supply)
    ensures var h := Apply(t, command, ids); h.Some? ==>
      && h.value.tx.db.accepted == t.db.accepted && h.value.tx.db.rejected == t.db.rejected
      && h.value.tx.db.holds == t.db.holds && h.value.tx.db.releases == t.db.releases
      && h.value.tx.db.deletions == t.db.deletions && h.value.tx.db.actions == t.db.actions
  {
  }

  lemma SubmitKeeps(db: Db, id: Id, digest: Id, command: Command, ids: Supply, commits: bool)
    requires Inv(db)
    ensures Inv(Submit(db, id, digest, command, ids, commits).1)
  {
    if Ledger(db, id).None? {
      AdmitKeeps(db, id, digest, command, ids);
      forall clause ensures Holds(clause, Begin(RejectHeld(db, id, digest, command))) {
        Have(clause, Begin(db));
      }
    }
  }
}
