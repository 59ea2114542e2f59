/** How holds, releases and deletion may change the store. */
module AdministrationEvolves {
  import opened Wrappers
  import opened Store
  import opened Commands
  import opened Execution
  import opened Administration
  import opened Invariants
  import opened Evolution
  import opened Writes
  import opened Lineage

  lemma InstallHoldVersions(db: Db, op: Id, digest: Id, scope: Scope, expected: nat, s: Scope)
    requires Inv(db) && InstallHold(db, op, digest, scope, expected).Some?
    ensures VersionMoves(db, InstallHold(db, op, digest, scope, expected).value, s)
  {
    var db' := InstallHold(db, op, digest, scope, expected).value;
    if !InScope(s, ScopeDialog(scope)) {
      Have(Holding, Begin(db));
      assert SeenHolds(db'.holds.rows, s) == SeenHolds(db.holds.rows, s);
      assert SeenReleases(db'.releases.rows, db'.holds.rows, s) == SeenReleases(db.releases.rows, db.holds.rows, s);
    }
    BumpMoves(db, db', ScopeDialog(scope), 0, s);
  }

  lemma InstallHoldEvolves(db: Db, op: Id, digest: Id, scope: Scope, expected: nat, terms: Terms)
    requires Inv(db) && terms.gated
    ensures var after := InstallHold(db, op, digest, scope, expected); after.Some? ==> Extends(db, after.value, terms)
  {
    if InstallHold(db, op, digest, scope, expected).Some? {
      var db' := InstallHold(db, op, digest, scope, expected).value;
      forall bond ensures Bound(bond, db, db', terms) {
        if bond == Versions {
          forall s ensures VersionMoves(db, db', s) {
            InstallHoldVersions(db, op, digest, scope, expected, s);
          }
        }
      }
    }
  }

  lemma PutReleaseEvolves(db: Db, op: Id, digest: Id, terms: Terms)
    requires op in db.holds.rows && terms.gated
    ensures Extends(db, PutRelease(db, op, digest), terms)
  {
    var db', scope := PutRelease(db, op, digest), db.holds.rows[op].scope;
    forall bond ensures Bound(bond, db, db', terms) {
      if bond == Versions {
        forall s ensures VersionMoves(db, db', s) {
          if !InScope(s, ScopeDialog(scope)) {
            assert SeenReleases(db'.releases.rows, db'.holds.rows, s) == SeenReleases(db.releases.rows, db.holds.rows, s);
          }
          BumpMoves(db, db', ScopeDialog(scope), 0, s);
        }
      }
    }
  }

  lemma ReleaseHoldEvolves(db: Db, op: Id, digest: Id, scope: Scope, holdVersion: nat, expected: nat, terms: Terms)
    requires terms.gated
    ensures var after := ReleaseHold(db, op, digest, scope, holdVersion, expected); after.Some? ==> Extends(db, after.value, terms)
  {
    if ReleaseHold(db, op, digest, scope, holdVersion, expected).Some? {
      PutReleaseEvolves(db, op, digest, terms);
    }
  }

  lemma DeleteDialogEvolves(db: Db, op: Id, digest: Id, dialog: Id, holdVersion: nat, scopeRevision: nat,
                            command: Id, commandDigest: Id, dialogVersion: nat, terms: Terms)
    requires Inv(db) && terms.gated
    ensures var after := DeleteDialog(db, op, digest, dialog, holdVersion, scopeRevision, command, commandDigest, dialogVersion);
      after.Some? ==> Extends(db, after.value, terms)
  {
    var after := DeleteDialog(db, op, digest, dialog, holdVersion, scopeRevision, command, commandDigest, dialogVersion);
    if after.Some? {
      var t := Begin(db);
      Start(db, terms);
      var t1 := t.(db := t.db.(dialogs := Table(t.db.dialogs.rows[dialog := Dialog(dialogVersion + 1, true)])));
      ThenSide(db, t, t1.db.dialogs, db.accepted, db.rejected, db.deletions, terms);
      ThenEmit(db, Advance(t1), DialogDeleted, Some(dialog), terms);
      var t2 := Emit(Advance(t1), DialogDeleted, Some(dialog));
      var accepted := Table(t2.db.accepted.rows[command := Receipt(commandDigest, Some(dialog))]);
      ThenSide(db, t2, t2.db.dialogs, accepted, t2.db.rejected, t2.db.deletions, terms);
      var t3 := t2.(db := t2.db.(accepted := accepted));
      PutReleaseEvolves(t3.db, op, digest, terms);
      Chain(db, t3.db, PutRelease(t3.db, op, digest), terms);
      var t4 := t3.(db := PutRelease(t3.db, op, digest));
      var deletions := Table(t4.db.deletions.rows[op := Deletion(digest, dialog)]);
      ThenSide(db, t4, t4.db.dialogs, t4.db.accepted, t4.db.rejected, deletions, terms);
      ThenSave(db, t4.(db := t4.db.(deletions := deletions)), terms);
      assert after.value == Save(t4.(db := t4.db.(deletions := deletions))).db;
    }
  }
}
