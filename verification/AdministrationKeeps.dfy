/** Holds, releases and logical deletion keep the invariant. */
module AdministrationKeeps {
  import opened Wrappers
  import opened Store
  import opened Commands
  import opened Execution
  import opened Administration
  import opened Invariants
  import opened RowLemmas
  import opened Moves

  /** The start guard is what keeps every pending start uncovered. */
  lemma InstallHoldKeeps(db: Db, op: Id, digest: Id, scope: Scope, expected: nat)
    requires Inv(db)
    ensures InstallHold(db, op, digest, scope, expected).Some? ==> Inv(InstallHold(db, op, digest, scope, expected).value)
  {
    if InstallHold(db, op, digest, scope, expected).Some? {
      var db' := InstallHold(db, op, digest, scope, expected).value;
      forall clause ensures Holds(clause, Begin(db')) {
        Have(clause, Begin(db)); Have(Holding, Begin(db));
        match clause
        case Starts =>
          Have(Life, Begin(db));
          forall c | c in db.actions.rows && db.actions.rows[c].kind == DispatchStart && Unclaimed(db.actions.rows[c].status)
                     && db.actions.rows[c].attempt in db.attempts.rows
                     && db.attempts.rows[db.actions.rows[c].attempt].state.Dispatching?
            ensures !HeldOver(db'.holds.rows, db'.releases.rows, db.attempts.rows[db.actions.rows[c].attempt].dialog)
          {
            var dialog := db.attempts.rows[db.actions.rows[c].attempt].dialog;
            assert !Covers(scope, dialog);
          }
        case _ =>
      }
    }
  }

  lemma ReleaseCoversLess(db: Db, op: Id, digest: Id, dialog: Id)
    requires op in db.holds.rows
    ensures HeldOver(db.holds.rows, PutRelease(db, op, digest).releases.rows, dialog) ==> HeldOver(db.holds.rows, db.releases.rows, dialog)
  {
  }

  lemma PutReleaseKeeps(t: Tx, op: Id, digest: Id)
    requires TxInv(t) && op in t.db.holds.rows && op !in t.db.releases.rows
    ensures TxInv(t.(db := PutRelease(t.db, op, digest)))
  {
    var db := PutRelease(t.db, op, digest);
    forall clause ensures Holds(clause, t.(db := db)) {
      Have(clause, t); Have(Holding, t);
      match clause
      case Starts =>
        forall c | c in t.db.actions.rows && t.db.actions.rows[c].attempt in t.db.attempts.rows
          ensures var dialog := t.db.attempts.rows[t.db.actions.rows[c].attempt].dialog;
            HeldOver(db.holds.rows, db.releases.rows, dialog) ==> HeldOver(t.db.holds.rows, t.db.releases.rows, dialog)
        {
          ReleaseCoversLess(t.db, op, digest, t.db.attempts.rows[t.db.actions.rows[c].attempt].dialog);
        }
      case _ =>
    }
  }

  lemma ReleaseHoldKeeps(db: Db, op: Id, digest: Id, scope: Scope, holdVersion: nat, expected: nat)
    requires Inv(db)
    ensures var after := ReleaseHold(db, op, digest, scope, holdVersion, expected); after.Some? ==> Inv(after.value)
  {
    if ReleaseHold(db, op, digest, scope, holdVersion, expected).Some? {
      PutReleaseKeeps(Begin(db), op, digest);
      StateKeeps(Begin(db).(db := PutRelease(db, op, digest)), db.state);
    }
  }

  lemma TombstoneKeeps(t: Tx, dialog: Id, row: Dialog)
    requires TxInv(t) && dialog in t.db.dialogs.rows
    ensures TxInv(t.(db := t.db.(dialogs := Table(t.db.dialogs.rows[dialog := row]))))
  {
    var t' := t.(db := t.db.(dialogs := Table(t.db.dialogs.rows[dialog := row])));
    assert t'.db.dialogs.rows.Keys == t.db.dialogs.rows.Keys;
    forall clause ensures Holds(clause, t') {
      Have(clause, t);
    }
  }

  lemma BookKeeps(t: Tx, accepted: Table<Id, Receipt>, deletions: Table<Id, Deletion>)
    requires TxInv(t) && OneOutcome(accepted.rows, t.db.rejected.rows)
    ensures TxInv(t.(db := t.db.(accepted := accepted, deletions := deletions)))
  {
    var t' := t.(db := t.db.(accepted := accepted, deletions := deletions));
    forall clause ensures Holds(clause, t') {
      Have(clause, t);
    }
  }

  lemma DeleteDialogKeeps(db: Db, op: Id, digest: Id, dialog: Id, holdVersion: nat, scopeRevision: nat,
                          command: Id, commandDigest: Id, dialogVersion: nat)
    requires Inv(db)
    ensures var after := DeleteDialog(db, op, digest, dialog, holdVersion, scopeRevision, command, commandDigest, dialogVersion);
      after.Some? ==> Inv(after.value)
  {
    var after := DeleteDialog(db, op, digest, dialog, holdVersion, scopeRevision, command, commandDigest, dialogVersion);
    if after.Some? {
      var t := Begin(db);
      TombstoneKeeps(t, dialog, Dialog(dialogVersion + 1, true));
      var t1 := t.(db := t.db.(dialogs := Table(t.db.dialogs.rows[dialog := Dialog(dialogVersion + 1, true)])));
      StateKeeps(t1, Advance(t1).st);
      EmitKeeps(Advance(t1), DialogDeleted, Some(dialog));
      var t2 := Emit(Advance(t1), DialogDeleted, Some(dialog));
      Have(Outcomes, t2);
      var accepted := Table(t2.db.accepted.rows[command := Receipt(commandDigest, Some(dialog))]);
      BookKeeps(t2, accepted, t2.db.deletions);
      var t3 := t2.(db := t2.db.(accepted := accepted));
      PutReleaseKeeps(t3, op, digest);
      var t4 := t3.(db := PutRelease(t3.db, op, digest));
      Have(Outcomes, t4);
      BookKeeps(t4, t4.db.accepted, Table(t4.db.deletions.rows[op := Deletion(digest, dialog)]));
      SaveKeeps(t4.(db := t4.db.(deletions := Table(t4.db.deletions.rows[op := Deletion(digest, dialog)]))));
    }
  }
}
