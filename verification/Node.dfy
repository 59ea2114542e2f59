/** The node's entry points: each runs a transaction and installs what it commits, or drops it.
    Each is proved against the function that says what it does to the store, and each keeps the
    store's invariant. */
module NodeMethods {
  import opened Wrappers
  import opened Store
  import opened Commands
  import opened Execution
  import opened Observation
  import opened Administration
  import opened Invariants
  import opened AdmissionKeeps
  import opened ExecutionKeeps
  import opened ObservationKeeps
  import opened AdministrationKeeps
  import opened Transactions
  import opened Handlers
  import opened Projections
  import opened Lanes
  import opened Parking

  /** The store after a transaction that may have been rolled back. */
  function Committed(db: Db, after: Option<Db>): Db {
    if after.Some? then after.value else db
  }

  method WriteDeletion(tx: Transaction, op: Id, digest: Id, dialog: Id, command: Id, commandDigest: Id, dialogVersion: nat)
    requires tx.st == tx.db.state && op in tx.db.holds.rows
    modifies tx
    ensures tx.Now() == DeletionRows(old(tx.db), op, digest, dialog, command, commandDigest, dialogVersion)
  {
    tx.db := tx.db.(dialogs := Table(tx.db.dialogs.rows[dialog := Dialog(dialogVersion + 1, true)]));
    tx.st := tx.st.(version := tx.st.version + 1);
    tx.AppendEvent(DialogDeleted, Some(dialog));
    tx.db := tx.db.(accepted := Table(tx.db.accepted.rows[command := Receipt(commandDigest, Some(dialog))]));
    tx.db := PutRelease(tx.db, op, digest);
    tx.db := tx.db.(deletions := Table(tx.db.deletions.rows[op := Deletion(digest, dialog)]));
  }

  /** Tombstone, command receipt and hold release of one logical deletion. */
  method RunDeletion(db: Db, op: Id, digest: Id, dialog: Id, holdVersion: nat, scopeRevision: nat,
                     command: Id, commandDigest: Id, dialogVersion: nat) returns (after: Option<Db>)
    ensures after == DeleteDialog(db, op, digest, dialog, holdVersion, scopeRevision, command, commandDigest, dialogVersion)
  {
    if op in db.deletions.rows || op !in db.holds.rows || op in db.releases.rows {
      return None;
    }
    var hold := db.holds.rows[op];
    if hold.scope != DialogScope(dialog) || hold.holdVersion != holdVersion || hold.scopeRevision != scopeRevision {
      return None;
    }
    if ScopeRevision(db, hold.scope) != hold.scopeRevision || Ledger(db, command).Some? {
      return None;
    }
    if !Live(db, dialog) || db.dialogs.rows[dialog].version != dialogVersion || !DialogSettled(db, dialog) {
      return None;
    }
    var tx := new Transaction(db);
    WriteDeletion(tx, op, digest, dialog, command, commandDigest, dialogVersion);
    tx.SaveState();
    return Some(tx.db);
  }

  class Node {
    var db: Db

    ghost predicate Valid()
      reads this
    {
      Inv(db)
    }

    /** Installs the outcome of a transaction. */
    method Install(after: Option<Db>) returns (ok: bool)
      modifies this
      ensures ok == after.Some? && db == Committed(old(db), after)
    {
      if after.Some? {
        db := after.value;
      }
      return after.Some?;
    }

    /** Admits a command, replays its outcome, or turns it away under a hold. */
    method SubmitCommand(id: Id, digest: Id, command: Command, ids: Supply, commits: bool) returns (reply: Reply)
      requires Valid()
      modifies this
      ensures Valid() && (reply, db) == Submit(old(db), id, digest, command, ids, commits)
    {
      SubmitKeeps(db, id, digest, command, ids, commits);
      var known := Ledger(db, id);
      if known.Some? {
        if known.value.digest != digest {
          return IdConflict;
        }
        if known.value.dialog.Some? && Deleted(db, known.value.dialog.value) {
          return NotFound;
        }
        return Replayed(id in db.accepted.rows);
      }
      if !Authorized(db, command) {
        return NotFound;
      }
      if Held(db, command) {
        if !commits {
          return NotDurable;
        }
        db := db.(rejected := Table(db.rejected.rows[id := Receipt(digest, TargetDialog(db, command))]));
        return HeldBack;
      }
      if IsAdmission(command) && !ids.spaceAvailable {
        return NotDurable;
      }
      var after := AdmitCommand(db, id, digest, command, ids);
      if after.None? {
        return Refused;
      }
      if !commits {
        return NotDurable;
      }
      db := after.value;
      return Accepted;
    }

    /** The first critical section of a dispatch: the head of the unheld queue, if dispatching is possible at all. */
    method PeekDispatch(head: Id) returns (candidate: Option<Candidate>)
      requires MayPeek(db) && (exists r | r in db.requests.rows :: Eligible(db, r)) ==> IsNext(db, head)
      ensures candidate.Some? ==> MayPeek(db) && candidate.value == Candidate(head, db.state.version) && IsNext(db, head)
      ensures candidate.None? <==> !MayPeek(db) || forall r :: r in db.requests.rows ==> !Eligible(db, r)
    {
      if db.state.paused || db.state.active.Some? || db.state.pendingCount == 0 || ExecutionUnknown in db.state.reasons {
        return None;
      }
      if !Eligible(db, head) {
        return None;
      }
      return Some(Candidate(head, db.state.version));
    }

    method DispatchNext(candidate: Candidate, attempt: Id, generation: nat) returns (dispatched: bool)
      requires Valid()
      modifies this
      ensures Valid() && dispatched == Dispatch(old(db), candidate, attempt, generation).Some?
      ensures db == Committed(old(db), Dispatch(old(db), candidate, attempt, generation))
    {
      DispatchKeeps(db, candidate, attempt, generation);
      var after := RunDispatch(db, candidate, attempt, generation);
      dispatched := Install(after);
    }

    method BlockForPolicy() returns (ok: bool)
      requires Valid()
      modifies this
      ensures Valid() && ok == BlockPolicy(old(db)).Some? && db == Committed(old(db), BlockPolicy(old(db)))
    {
      BlockPolicyKeeps(db);
      var after := RunBlock(db);
      ok := Install(after);
    }

    /** A lane takes a pending action; the dispatch lane passes over held dialogs. */
    method ClaimAction(command: Id) returns (claimed: bool)
      requires Valid()
      modifies this
      ensures Valid() && claimed == Claimable(old(db), command)
      ensures db == if claimed then Claim(old(db), command) else old(db)
    {
      if !Claimable(db, command) {
        return false;
      }
      SetStatusKeeps(db, command, Pending, Inflight);
      db := RunStatus(db, command, Pending, Inflight);
      return true;
    }

    method FinishAction(command: Id, status: ActionStatus)
      requires Valid() && status != Pending
      modifies this
      ensures Valid() && db == SetStatus(old(db), command, Inflight, status)
    {
      SetStatusKeeps(db, command, Inflight, status);
      db := RunStatus(db, command, Inflight, status);
    }

    method MarkAttemptStarted(attempt: Id) returns (ok: bool)
      requires Valid() && (attempt in db.actions.rows ==> db.actions.rows[attempt].status != Pending)
      modifies this
      ensures Valid() && ok == MarkStarted(old(db), attempt).Some? && db == Committed(old(db), MarkStarted(old(db), attempt))
    {
      MarkStartedKeeps(db, attempt);
      var after := RunStarted(db, attempt);
      ok := Install(after);
    }

    method RecordRefusal(attempt: Id) returns (ok: bool)
      requires Valid() && (attempt in db.attempts.rows ==> !db.attempts.rows[attempt].started)
      modifies this
      ensures Valid() && ok == ObserveRefusal(old(db), attempt).Some? && db == Committed(old(db), ObserveRefusal(old(db), attempt))
    {
      ObserveRefusalKeeps(db, attempt);
      var after := RunRefusal(db, attempt);
      ok := Install(after);
    }

    method MarkAttemptUnknown(attempt: Id, request: Id, effect: Effect) returns (ok: bool)
      requires Valid() && (request in db.requests.rows ==> db.requests.rows[request].status != Queued)
      modifies this
      ensures Valid() && ok == MarkUnknown(old(db), attempt, request, effect).Some?
      ensures db == Committed(old(db), MarkUnknown(old(db), attempt, request, effect))
    {
      MarkUnknownKeeps(db, attempt, request, effect);
      var after := RunUnknown(db, attempt, request, effect);
      ok := Install(after);
    }

    method SettleSteer(command: Id, outcome: SteerOutcome) returns (ok: bool)
      requires Valid() && command in db.actions.rows
      requires db.actions.rows[command].kind == MessageSteer && Unclaimed(db.actions.rows[command].status)
      modifies this
      ensures var action := old(db.actions.rows[command]); var after := FinishSteer(old(db), action.attempt, action.message, outcome);
        Valid() && ok == after.Some? && db == Committed(old(db), after)
    {
      FinishSteerKeeps(db, command, outcome);
      var after := RunSteer(db, db.actions.rows[command].attempt, db.actions.rows[command].message, outcome);
      ok := Install(after);
    }

    method SettleAnswer(command: Id, outcome: ResponseOutcome) returns (ok: bool)
      requires Valid() && command in db.actions.rows && db.actions.rows[command].request in db.requests.rows
      requires db.requests.rows[db.actions.rows[command].request].status != Queued
      modifies this
      ensures var after := FinishResponse(old(db), old(db.actions.rows[command]), outcome);
        Valid() && ok == after.Some? && db == Committed(old(db), after)
    {
      FinishResponseKeeps(db, db.actions.rows[command], outcome);
      var after := RunAnswer(db, db.actions.rows[command], outcome);
      ok := Install(after);
    }

    method RecoverStartup() returns (ok: bool)
      requires Valid()
      modifies this
      ensures Valid() && ok && Recover(old(db)) == Some(db)
    {
      RecoverKeeps(db);
      var after := RunRecovery(db);
      ok := Install(after);
    }

    method ObserveAdapterEvent(ref: AttemptRef, event: AdapterEvent, probe: Probe) returns (ok: bool)
      requires Valid()
      modifies this
      ensures Valid() && ok == Observe(old(db), ref, event, probe).Some?
      ensures db == Committed(old(db), Observe(old(db), ref, event, probe))
    {
      ObserveKeeps(db, ref, event, probe);
      var after := RunObservation(db, ref, event, probe);
      ok := Install(after);
    }

    /** `newOutput`: the result carries an answer the log does not hold yet. */
    method ReconcileUnknown(ref: AttemptRef, outcome: Outcome, effect: Effect, newOutput: bool, probe: Probe) returns (ok: bool)
      requires Valid()
      modifies this
      ensures Valid() && ok == Reconcile(old(db), ref, outcome, effect, newOutput, probe).Some?
      ensures db == Committed(old(db), Reconcile(old(db), ref, outcome, effect, newOutput, probe))
    {
      ReconcileKeeps(db, ref, outcome, effect, newOutput, probe);
      var after := RunReconciliation(db, ref, outcome, effect, newOutput, probe);
      ok := Install(after);
    }

    method RecordArtifact(ref: AttemptRef, probe: Probe) returns (ok: bool)
      requires Valid()
      modifies this
      ensures Valid() && ok == StoreArtifact(old(db), ref, probe).Some?
      ensures db == Committed(old(db), StoreArtifact(old(db), ref, probe))
    {
      StoreArtifactKeeps(db, ref, probe);
      var after := RunArtifact(db, ref, probe);
      ok := Install(after);
    }

    /** Commits a hold over a scope in which no start is under way; a repeated request is answered from the file. */
    method CommitHold(op: Id, digest: Id, scope: Scope, expected: nat) returns (answer: Answer)
      requires Valid()
      modifies this
      ensures Valid() && (answer, db) == AskInstall(old(db), op, digest, scope, expected)
    {
      InstallHoldKeeps(db, op, digest, scope, expected);
      if op in db.holds.rows {
        return if db.holds.rows[op].digest == digest then Repeated else Conflict;
      }
      if scope.DialogScope? && !Live(db, scope.dialog) {
        return Declined;
      }
      if StartPending(db, scope) || Conflicting(db, scope) {
        return Declined;
      }
      var current := ScopeRevision(db, scope);
      if expected != current {
        return Declined;
      }
      var hold := Hold(scope, digest, db.holdClock, current + 1);
      db := db.(holdClock := db.holdClock + 1, holdRevisions := Table(db.holdRevisions.rows[scope := current + 1]));
      db := db.(holds := Table(db.holds.rows[op := hold]), revisions := Table(Bump(db.revisions.rows, ScopeDialog(scope), 0)));
      return Done;
    }

    method CommitRelease(op: Id, digest: Id, scope: Scope, holdVersion: nat, expected: nat) returns (answer: Answer)
      requires Valid()
      modifies this
      ensures Valid() && (answer, db) == AskRelease(old(db), op, digest, scope, holdVersion, expected)
    {
      ReleaseHoldKeeps(db, op, digest, scope, holdVersion, expected);
      if op in db.releases.rows {
        return if db.releases.rows[op].digest == digest then Repeated else Conflict;
      }
      if op !in db.holds.rows {
        return Declined;
      }
      var hold := db.holds.rows[op];
      if scope != hold.scope || holdVersion != hold.holdVersion || expected != hold.scopeRevision {
        return Declined;
      }
      if ScopeRevision(db, scope) != hold.scopeRevision {
        return Declined;
      }
      var next := ScopeRevision(db, scope) + 1;
      db := db.(releases := Table(db.releases.rows[op := Release(digest, next)]));
      db := db.(holdRevisions := Table(db.holdRevisions.rows[scope := next]));
      db := db.(revisions := Table(Bump(db.revisions.rows, ScopeDialog(scope), 0)));
      return Done;
    }

    /** Answers with a proof exactly while the hold's scope is parked. */
    method ProveQuiescence(op: Id) returns (proof: Option<Proof>)
      ensures proof == QuiescenceProof(db, op)
    {
      if op !in db.holds.rows || op in db.releases.rows {
        return None;
      }
      var hold := db.holds.rows[op];
      if ScopeRevision(db, hold.scope) != hold.scopeRevision || hold.scope !in db.revisions.rows {
        return None;
      }
      if exists a | a in db.attempts.rows :: InScope(hold.scope, Some(db.attempts.rows[a].dialog)) && Occupies(db.attempts.rows[a].state) {
        return None;
      }
      if exists r | r in db.requests.rows :: InScope(hold.scope, Some(db.requests.rows[r].dialog))
           && db.requests.rows[r].status in {Dispatched, Active, InDoubt} {
        return None;
      }
      if !EffectsSettled(db, hold.scope) {
        return None;
      }
      assert Parked(db, op);
      var waiting := set r | r in db.requests.rows && InScope(hold.scope, Some(db.requests.rows[r].dialog)) && db.requests.rows[r].status.Queued?;
      var revision := db.revisions.rows[hold.scope];
      return Some(Proof(op, hold.scope, hold.holdVersion, hold.scopeRevision, revision.state, revision.queue, waiting));
    }

    /** Tombstones a settled dialog and, in the same commit, writes the command's receipt and releases the hold. */
    method DeleteLogicalDialog(op: Id, digest: Id, dialog: Id, holdVersion: nat, scopeRevision: nat,
                               command: Id, commandDigest: Id, dialogVersion: nat) returns (answer: Answer)
      requires Valid()
      modifies this
      ensures Valid()
      ensures (answer, db) == AskDelete(old(db), op, digest, dialog, holdVersion, scopeRevision, command, commandDigest, dialogVersion)
    {
      DeleteDialogKeeps(db, op, digest, dialog, holdVersion, scopeRevision, command, commandDigest, dialogVersion);
      if op in db.deletions.rows {
        return if db.deletions.rows[op].digest == digest then Repeated else Conflict;
      }
      var after := RunDeletion(db, op, digest, dialog, holdVersion, scopeRevision, command, commandDigest, dialogVersion);
      var ok := Install(after);
      return if ok then Done else Declined;
    }
  }
}
