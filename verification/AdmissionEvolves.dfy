/** How command admission may change the store. */
module AdmissionEvolves {
  import opened Wrappers
  import opened Store
  import opened Commands
  import opened Execution
  import opened Administration
  import opened Invariants
  import opened Evolution
  import opened Writes
  import opened Lineage
  import opened AdmissionKeeps

  ghost predicate Handed(db: Db, handled: Option<Handled>, terms: Terms) {
    handled.Some? ==>
      && From(db, handled.value.tx, terms)
      && (handled.value.action.Some? ==>
            && handled.value.action.value.attempt in handled.value.tx.db.attempts.rows
            && Outside(terms, DialogOf(handled.value.tx.db, handled.value.action.value.attempt)))
  }

  lemma EnqueueRowsEvolves(db: Db, t: Tx, d: Id, m: Id, r: Id, terms: Terms)
    requires From(db, t, terms) && t.db == db && Sheltered(db, terms) && !Covered(db, d)
    requires d in db.dialogs.rows && m !in db.messages.rows && r !in db.requests.rows
    ensures From(db, EnqueueRows(t, d, m, r), terms)
  {
    HeldOutside(db, terms, d);
    var t1 := PutMessage(t, m, Message(d, t.st.nextMessageSequence, 1, InQueue, r));
    ThenMessage(db, t, m, Message(d, t.st.nextMessageSequence, 1, InQueue, r), terms);
    var request := Request(d, m, t.st.nextQueueSequence, 1, Queued);
    ThenRequest(db, t1, r, request, terms);
    var t2 := PutRequest(t1, r, request);
    ThenSide(db, t2, TouchDialog(t2, d).db.dialogs, t2.db.accepted, t2.db.rejected, t2.db.deletions, terms);
  }

  lemma EnqueueEvolves(db: Db, t: Tx, d: Id, version: nat, m: Id, r: Id, terms: Terms)
    requires From(db, t, terms) && t.db == db && Sheltered(db, terms) && !Covered(db, d)
    ensures Handed(db, ApplyEnqueue(t, d, version, m, r), terms)
  {
    if ApplyEnqueue(t, d, version, m, r).Some? {
      EnqueueRowsEvolves(db, t, d, m, r, terms);
      ThenEmit(db, EnqueueRows(t, d, m, r), MessageAccepted(d), None, terms);
      ThenQueueNode(db, Emit(EnqueueRows(t, d, m, r), MessageAccepted(d), None), terms);
    }
  }

  lemma CancelRowsEvolves(db: Db, t: Tx, r: Id, terms: Terms)
    requires From(db, t, terms) && r in t.db.requests.rows && t.db.requests.rows[r].message in t.db.messages.rows
    requires t.db.requests.rows[r].status == Queued
    ensures From(db, CancelRows(t, r), terms)
  {
    var row := t.db.requests.rows[r];
    var text := t.db.messages.rows[row.message];
    var row' := row.(version := row.version + 1, status := Cancelled);
    ThenRequest(db, t, r, row', terms);
    ThenMessage(db, PutRequest(t, r, row'), row.message, text.(version := text.version + 1, disposition := Dropped), terms);
  }

  lemma CancelEvolves(db: Db, t: Tx, r: Id, version: nat, terms: Terms)
    requires From(db, t, terms)
    ensures Handed(db, ApplyCancel(t, r, version), terms)
  {
    if ApplyCancel(t, r, version).Some? {
      var m := t.db.requests.rows[r].message;
      CancelRowsEvolves(db, t, r, terms);
      ThenEmit(db, CancelRows(t, r), MessageMoved(m), None, terms);
      ThenQueueNode(db, Emit(CancelRows(t, r), MessageMoved(m), None), terms);
    }
  }

  lemma StopRowsEvolves(db: Db, t: Tx, a: Id, terms: Terms)
    requires From(db, t, terms) && a in t.db.attempts.rows && Outside(terms, Some(t.db.attempts.rows[a].dialog))
    requires Occupies(t.db.attempts.rows[a].state)
    ensures From(db, StopRows(t, a), terms)
  {
    var row := t.db.attempts.rows[a];
    ThenAttempt(db, t, a, row.(version := row.version + 1, state := Stopping), terms);
  }

  lemma StopEvolves(db: Db, t: Tx, a: Id, generation: nat, terms: Terms)
    requires From(db, t, terms) && t.db == db && Sheltered(db, terms)
    ensures Handed(db, ApplyStop(t, a, generation), terms)
  {
    if ApplyStop(t, a, generation).Some? {
      var dialog := t.db.attempts.rows[a].dialog;
      ActiveOutside(db, terms, a);
      StopRowsEvolves(db, t, a, terms);
      ThenEmit(db, StopRows(t, a), AttemptMoved, Some(dialog), terms);
      ThenQueueNode(db, Emit(StopRows(t, a), AttemptMoved, Some(dialog)), terms);
    }
  }

  lemma RetryRowsEvolves(db: Db, t: Tx, a: Id, m: Id, r: Id, terms: Terms)
    requires From(db, t, terms) && t.db == db && Sheltered(db, terms) && a in db.attempts.rows && !Covered(db, db.attempts.rows[a].dialog)
    requires r !in db.requests.rows
    ensures From(db, RetryRows(t, a, m, r), terms)
  {
    var dialog := db.attempts.rows[a].dialog;
    HeldOutside(db, terms, dialog);
    ThenRequest(db, t, r, Request(dialog, m, t.st.nextQueueSequence, 1, Queued), terms);
  }

  lemma RetryEvolves(db: Db, t: Tx, a: Id, generation: nat, known: bool, r: Id, terms: Terms)
    requires From(db, t, terms) && t.db == db && Sheltered(db, terms)
    requires a in db.attempts.rows ==> !Covered(db, db.attempts.rows[a].dialog)
    ensures Handed(db, ApplyRetry(t, a, generation, known, r), terms)
  {
    if ApplyRetry(t, a, generation, known, r).Some? {
      var m := db.requests.rows[db.attempts.rows[a].request].message;
      RetryRowsEvolves(db, t, a, m, r, terms);
      ThenQueueNode(db, RetryRows(t, a, m, r), terms);
    }
  }

  lemma SteerRowsEvolves(db: Db, t: Tx, m: Id, terms: Terms)
    requires From(db, t, terms) && m in t.db.messages.rows
    ensures From(db, SteerRows(t, m), terms)
  {
    var text := t.db.messages.rows[m];
    ThenMessage(db, t, m, text.(version := text.version + 1, disposition := SteerPending), terms);
  }

  lemma SteerEvolves(db: Db, t: Tx, d: Id, m: Id, version: nat, a: Id, generation: nat, terms: Terms)
    requires From(db, t, terms) && t.db == db && Sheltered(db, terms)
    ensures Handed(db, ApplySteer(t, d, m, version, a, generation), terms)
  {
    if ApplySteer(t, d, m, version, a, generation).Some? {
      ActiveOutside(db, terms, a);
      SteerRowsEvolves(db, t, m, terms);
      ThenEmit(db, SteerRows(t, m), MessageMoved(m), None, terms);
      ThenEmit(db, Emit(SteerRows(t, m), MessageMoved(m), None), QueueChanged, None, terms);
    }
  }

  lemma ApprovalEvolves(db: Db, t: Tx, p: Id, version: nat, a: Id, generation: nat, hash: bool, terms: Terms)
    requires From(db, t, terms) && t.db == db && Sheltered(db, terms)
    ensures Handed(db, ApplyApproval(t, p, version, a, generation, hash), terms)
  {
    if ApplyApproval(t, p, version, a, generation, hash).Some? {
      var row := t.db.approvals.rows[p];
      var row' := row.(version := row.version + 1, status := Responding);
      PromptOutside(db, terms, true, p);
      ThenApproval(db, t, p, row', terms);
      assert ApplyApproval(t, p, version, a, generation, hash).value.tx == PutApproval(t, p, row');
    }
  }

  lemma InputEvolves(db: Db, t: Tx, p: Id, version: nat, a: Id, generation: nat, m: Id, terms: Terms)
    requires From(db, t, terms) && t.db == db && Sheltered(db, terms)
    ensures Handed(db, ApplyInput(t, p, version, a, generation, m), terms)
  {
    if ApplyInput(t, p, version, a, generation, m).Some? {
      var row, owner := t.db.inputs.rows[p], t.db.attempts.rows[a];
      var row' := row.(version := row.version + 1, status := Responding);
      PromptOutside(db, terms, false, p);
      var text := Message(owner.dialog, t.st.nextMessageSequence, 1, Consumed, owner.request);
      ThenMessage(db, t, m, text, terms);
      var t1 := PutInput(PutMessage(t, m, text), p, row');
      ThenInput(db, PutMessage(t, m, text), p, row', terms);
      assert ApplyInput(t, p, version, a, generation, m).value.tx == t1.(st := t1.st.(nextMessageSequence := t1.st.nextMessageSequence + 1));
    }
  }

  lemma ApplyEvolves(db: Db, t: Tx, command: Command, ids: Supply, terms: Terms)
    requires Inv(db) && From(db, t, terms) && t.db == db && Sheltered(db, terms) && !Held(db, command)
    ensures Handed(db, Apply(t, command, ids), terms)
  {
    match command
    case CreateDialog =>
      if ids.first !in t.db.dialogs.rows {
        Have(Revisions, Begin(db));
        NewDialogWrite(t, ids.first, terms);
        Chain(db, t.db, PutNewDialog(t, ids.first).db, terms);
        ThenEmit(db, Advance(PutNewDialog(t, ids.first)), NodeChanged, None, terms);
      }
    case Enqueue(dialog, version) => EnqueueEvolves(db, t, dialog, version, ids.first, ids.second, terms);
    case CancelRequest(request, version) => CancelEvolves(db, t, request, version, terms);
    case ResumeQueue(version) =>
      var t1 := AdvanceQueue(t);
      ThenQueueNode(db, t1.(st := t1.st.(paused := false, reasons := RemoveReason(t1.st.reasons, OperatorPause))), terms);
    case StopAttempt(attempt, generation) => StopEvolves(db, t, attempt, generation, terms);
    case RetryAttempt(attempt, generation, known) => RetryEvolves(db, t, attempt, generation, known, ids.first, terms);
    case SteerMessage(dialog, message, version, attempt, generation) =>
      SteerEvolves(db, t, dialog, message, version, attempt, generation, terms);
    case AnswerApproval(prompt, version, attempt, generation, hash) =>
      ApprovalEvolves(db, t, prompt, version, attempt, generation, hash, terms);
    case AnswerInput(prompt, version, attempt, generation) =>
      InputEvolves(db, t, prompt, version, attempt, generation, ids.first, terms);
  }

  lemma SubmitEvolves(db: Db, id: Id, digest: Id, command: Command, ids: Supply, commits: bool, terms: Terms)
    requires Inv(db) && Sheltered(db, terms)
    ensures Extends(db, Submit(db, id, digest, command, ids, commits).1, terms)
  {
    Unchanged(db, terms);
    if Ledger(db, id).None? {
      SideWrite(db, db.dialogs, db.accepted, RejectHeld(db, id, digest, command).rejected, db.deletions, terms);
      if !Held(db, command) {
        AdmitEvolves(db, id, digest, command, ids, terms);
      }
    }
  }

  lemma RecordEvolves(db: Db, applied: Handled, id: Id, receipt: Receipt, terms: Terms)
    requires Handed(db, Some(applied), terms) && id !in applied.tx.db.accepted.rows
    requires applied.action.Some? ==> id !in applied.tx.db.actions.rows
    ensures From(db, Record(applied.tx, id, receipt, applied.action), terms)
  {
    var t1 := applied.tx;
    if applied.action.Some? {
      ThenAction(db, t1, id, applied.action.value, terms);
      t1 := PutAction(t1, id, applied.action.value);
    }
    ThenSide(db, t1, t1.db.dialogs, Table(t1.db.accepted.rows[id := receipt]), t1.db.rejected, t1.db.deletions, terms);
  }

  lemma AdmitEvolves(db: Db, id: Id, digest: Id, command: Command, ids: Supply, terms: Terms)
    requires Inv(db) && Sheltered(db, terms) && !Held(db, command) && Ledger(db, id).None?
    ensures Admit(db, id, digest, command, ids).Some? ==> Extends(db, Admit(db, id, digest, command, ids).value, terms)
  {
    var t := NoteStorage(Begin(db), command, ids);
    Start(db, terms);
    ApplyEvolves(db, t, command, ids, terms);
    ApplyFrame(t, command, ids);
    if Admit(db, id, digest, command, ids).Some? {
      var applied := Apply(t, command, ids).value;
      var receipt := Receipt(digest, About(db, command, ids));
      RecordEvolves(db, applied, id, receipt, terms);
      ThenSave(db, Record(applied.tx, id, receipt, applied.action), terms);
    }
  }
}
