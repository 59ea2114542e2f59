/** Administrative holds, the quiescence proof and logical deletion
    (runtime/hold.go, runtime/logical_delete.go). */
module Administration {
  import opened Wrappers
  import opened Store
  import opened Commands
  import opened Execution

  function ScopeDialog(scope: Scope): Option<Id> {
    if scope == NodeScope then None else Some(scope.dialog)
  }

  function ScopeRevision(db: Db, scope: Scope): nat {
    if scope in db.holdRevisions.rows then db.holdRevisions.rows[scope] else 0
  }

  predicate Overlap(left: Scope, right: Scope) {
    left == NodeScope || right == NodeScope || left == right
  }

  predicate Conflicting(db: Db, scope: Scope) {
    exists op | op in db.holds.rows :: op !in db.releases.rows && Overlap(db.holds.rows[op].scope, scope)
  }

  predicate InScope(scope: Scope, dialog: Option<Id>) {
    scope == NodeScope || (dialog.Some? && scope == DialogScope(dialog.value))
  }

  /** A committed dispatch in scope whose provider start is still ahead. */
  predicate StartPending(db: Db, scope: Scope) {
    exists c | c in db.actions.rows :: db.actions.rows[c].kind == DispatchStart && Unclaimed(db.actions.rows[c].status)
      && db.actions.rows[c].attempt in db.attempts.rows
      && db.attempts.rows[db.actions.rows[c].attempt].state.Dispatching? && !db.attempts.rows[db.actions.rows[c].attempt].started
      && InScope(scope, Some(db.attempts.rows[db.actions.rows[c].attempt].dialog))
  }

  function InstallHold(db: Db, op: Id, digest: Id, scope: Scope, expected: nat): Option<Db> {
    if op in db.holds.rows then None else
      :- Need(scope.DialogScope? ==> Live(db, scope.dialog));
      :- Need(!StartPending(db, scope) && !Conflicting(db, scope));
      var current := ScopeRevision(db, scope);
      :- Need(expected == current);
      Some(db.(holds := Table(db.holds.rows[op := Hold(scope, digest, db.holdClock, current + 1)]),
               holdClock := db.holdClock + 1,
               holdRevisions := Table(db.holdRevisions.rows[scope := current + 1]),
               revisions := Table(Bump(db.revisions.rows, ScopeDialog(scope), 0))))
  }

  /** The outcome row of a hold, with the scope's revision advanced. */
  function PutRelease(db: Db, op: Id, digest: Id): Db
    requires op in db.holds.rows
  {
    var scope := db.holds.rows[op].scope;
    var next := ScopeRevision(db, scope) + 1;
    db.(releases := Table(db.releases.rows[op := Release(digest, next)]),
        holdRevisions := Table(db.holdRevisions.rows[scope := next]),
        revisions := Table(Bump(db.revisions.rows, ScopeDialog(scope), 0)))
  }

  function ReleaseHold(db: Db, op: Id, digest: Id, scope: Scope, holdVersion: nat, expected: nat): Option<Db> {
    if op !in db.holds.rows || op in db.releases.rows then None else
      var hold := db.holds.rows[op];
      :- Need(scope == hold.scope && holdVersion == hold.holdVersion && expected == hold.scopeRevision);
      :- Need(ScopeRevision(db, scope) == hold.scopeRevision);
      Some(PutRelease(db, op, digest))
  }

  predicate Settled(status: RequestStatus) {
    status.Cancelled? || status.Succeeded? || status.Errored? || status.Aborted?
  }

  predicate Finished(state: AttemptState) {
    state.Completed? || state.Failed? || state.Interrupted?
  }

  /** Everything the dialog ever asked for has a settled outcome. */
  predicate DialogSettled(db: Db, dialog: Id) {
    && (forall r | r in db.requests.rows :: db.requests.rows[r].dialog == dialog ==> Settled(db.requests.rows[r].status))
    && EffectsSettled(db, DialogScope(dialog))
    && (forall a | a in db.attempts.rows :: db.attempts.rows[a].dialog == dialog ==> Finished(db.attempts.rows[a].state))
  }

  /** Effects, controls, tools and prompts in scope are settled. */
  predicate EffectsSettled(db: Db, scope: Scope) {
    && (forall a | a in db.attempts.rows :: InScope(scope, Some(db.attempts.rows[a].dialog)) ==> db.attempts.rows[a].effect != UnknownEffect)
    && (forall c | c in db.actions.rows :: InScope(scope, DialogOf(db, db.actions.rows[c].attempt)) ==>
          db.actions.rows[c].status == Acknowledged || db.actions.rows[c].status == Rejected)
    && (forall t | t in db.tools.rows :: InScope(scope, DialogOf(db, db.tools.rows[t].attempt)) ==> !db.tools.rows[t].status.ToolRunning?)
    && (forall p | p in db.approvals.rows :: InScope(scope, DialogOf(db, db.approvals.rows[p].attempt)) ==> db.approvals.rows[p].status.Resolved?)
    && (forall p | p in db.inputs.rows :: InScope(scope, DialogOf(db, db.inputs.rows[p].attempt)) ==> db.inputs.rows[p].status.Resolved?)
    && (forall n | n in db.events.rows :: InScope(scope, db.events.rows[n].dialog) && db.events.rows[n].kind.ToolCompleted? ==>
          db.events.rows[n].kind.effect != UnknownEffect)
  }

  /** Nothing in scope is running, undecided or unsettled; queued requests may wait. */
  predicate Quiet(db: Db, scope: Scope) {
    && (forall a | a in db.attempts.rows :: InScope(scope, Some(db.attempts.rows[a].dialog)) ==> !Occupies(db.attempts.rows[a].state))
    && (forall r | r in db.requests.rows :: InScope(scope, Some(db.requests.rows[r].dialog)) ==>
          db.requests.rows[r].status.Queued? || Settled(db.requests.rows[r].status))
    && EffectsSettled(db, scope)
  }

  /** The conditions under which a quiescence proof is issued for an active hold. */
  predicate Parked(db: Db, op: Id) {
    && op in db.holds.rows && op !in db.releases.rows
    && ScopeRevision(db, db.holds.rows[op].scope) == db.holds.rows[op].scopeRevision
    && db.holds.rows[op].scope in db.revisions.rows
    && Quiet(db, db.holds.rows[op].scope)
  }

  /** Tombstone, command receipt, hold release and the record of one logical deletion. */
  function DeletionRows(db: Db, op: Id, digest: Id, dialog: Id, command: Id, commandDigest: Id, dialogVersion: nat): Tx
    requires op in db.holds.rows
  {
    var tx := Begin(db);
    var tx1 := tx.(db := tx.db.(dialogs := Table(tx.db.dialogs.rows[dialog := Dialog(dialogVersion + 1, true)])));
    var tx2 := Emit(Advance(tx1), DialogDeleted, Some(dialog));
    var tx3 := tx2.(db := tx2.db.(accepted := Table(tx2.db.accepted.rows[command := Receipt(commandDigest, Some(dialog))])));
    var tx4 := tx3.(db := PutRelease(tx3.db, op, digest));
    tx4.(db := tx4.db.(deletions := Table(tx4.db.deletions.rows[op := Deletion(digest, dialog)])))
  }

  /** One logical deletion, in one transaction. */
  function DeleteDialog(db: Db, op: Id, digest: Id, dialog: Id, holdVersion: nat, scopeRevision: nat,
                        command: Id, commandDigest: Id, dialogVersion: nat): Option<Db>
  {
    if op in db.deletions.rows then None else
      :- Need(op in db.holds.rows && op !in db.releases.rows);
      var hold := db.holds.rows[op];
      :- Need(hold.scope == DialogScope(dialog) && hold.holdVersion == holdVersion && hold.scopeRevision == scopeRevision);
      :- Need(ScopeRevision(db, hold.scope) == hold.scopeRevision);
      :- Need(Ledger(db, command).None?);
      :- Need(Live(db, dialog) && db.dialogs.rows[dialog].version == dialogVersion && DialogSettled(db, dialog));
      Some(Save(DeletionRows(db, op, digest, dialog, command, commandDigest, dialogVersion)).db)
  }

  // ---- operation identifiers ------------------------------------------------------------

  /** `Repeated`: the same request again, answered with the receipt on file; `Conflict`: the identifier names another one. */
  datatype Answer = Done | Repeated | Conflict | Declined

  function Recorded(digest: Id, onFile: Id): Answer {
    if digest == onFile then Repeated else Conflict
  }

  function Attempted(db: Db, after: Option<Db>): (Answer, Db) {
    if after.Some? then (Done, after.value) else (Declined, db)
  }

  function AskInstall(db: Db, op: Id, digest: Id, scope: Scope, expected: nat): (Answer, Db) {
    if op in db.holds.rows then (Recorded(digest, db.holds.rows[op].digest), db)
    else Attempted(db, InstallHold(db, op, digest, scope, expected))
  }

  function AskRelease(db: Db, op: Id, digest: Id, scope: Scope, holdVersion: nat, expected: nat): (Answer, Db) {
    if op in db.releases.rows then (Recorded(digest, db.releases.rows[op].digest), db)
    else Attempted(db, ReleaseHold(db, op, digest, scope, holdVersion, expected))
  }

  function AskDelete(db: Db, op: Id, digest: Id, dialog: Id, holdVersion: nat, scopeRevision: nat,
                     command: Id, commandDigest: Id, dialogVersion: nat): (Answer, Db)
  {
    if op in db.deletions.rows then (Recorded(digest, db.deletions.rows[op].digest), db)
    else Attempted(db, DeleteDialog(db, op, digest, dialog, holdVersion, scopeRevision, command, commandDigest, dialogVersion))
  }
}
