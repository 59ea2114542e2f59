/** The owner of credential replacement: operations, command receipts, expiry, and what is in
    force when a replacement ends (providerauth/manager.go). */
module ProviderAuth {
  import opened Wrappers
  import opened Credentials

  type Id = nat

  const RECEIPT_LIMIT := 4096

  datatype AuthState = Authenticated | Unauthenticated | Reauthenticate | UnknownAuth
  datatype Status = Pending | Succeeded | FailedOp | Cancelled | Expired
  datatype Operation = Operation(status: Status, deadline: nat)
  datatype Kind = StartKind | CheckKind | CancelKind(operation: Id) | LogoutKind
  datatype Receipt = Receipt(kind: Kind, operation: Id)
  datatype ProbeResult = ProbeAuthenticated | ProbeUnauthenticated | ProbeInvalid | ProbeUnavailable
  datatype Answer = Accepted | Replayed | IdConflict | NotFound | Busy | PendingOperation | InvalidSecret | Unavailable

  /** How the operation's context stands when it is looked at. */
  datatype Context = Open | DeadlineExceeded | ContextCancelled

  /** Two attempts at writing the state file: the second is made only after the first has failed. */
  datatype Persist = Persist(first: bool, second: bool)

  type Operations = map<Id, Operation>

  function ExpireAll(operations: Operations, now: nat): Operations {
    map id | id in operations ::
      if operations[id].status == Pending && now >= operations[id].deadline then operations[id].(status := Expired) else operations[id]
  }

  ghost predicate OnePending(operations: Operations) {
    forall a, b :: a in operations && b in operations && operations[a].status == Pending && operations[b].status == Pending ==> a == b
  }

  /** A terminal status is final, and no operation is forgotten. */
  ghost predicate Settles(before: Operations, after: Operations) {
    forall id :: id in before ==>
      id in after && after[id].deadline == before[id].deadline && (before[id].status != Pending ==> after[id] == before[id])
  }

  ghost predicate ReceiptsGrow(before: map<Id, Receipt>, after: map<Id, Receipt>) {
    forall id :: id in before ==> id in after && after[id] == before[id]
  }

  predicate AnyPending(operations: Operations) {
    exists id | id in operations :: operations[id].status == Pending
  }

  /** What can go wrong, and what time it is, while a replacement is finished. */
  datatype Weather = Weather(
    started: nat, resumed: nat, early: Context, late: Context, busy: bool,
    expiry: Persist, settling: Persist, reexpiry: Persist, closing: Persist, success: Persist,
    commit: CommitFaults, rollback: RollbackFaults, finalize: Fault, close: RollbackFaults)

  /** With one operation pending, an expiry that changes anything has expired that one. */
  lemma ExpiresThePending(operations: Operations, now: nat, id: Id)
    requires OnePending(operations)
    ensures ExpireAll(operations, now) == operations || (id in operations ==> ExpireAll(operations, now)[id].status != Pending)
  {
  }

  lemma StillPending(operations: Operations, now: nat, id: Id)
    requires OnePending(operations) && id in operations && operations[id].status == Pending
    ensures ExpireAll(operations, now) == operations <==> now < operations[id].deadline
  {
    if now >= operations[id].deadline {
      assert ExpireAll(operations, now)[id].status == Expired;
    }
  }

  /** Something failed that a login depends on: a write of the state file, the finalization, or a step of a rollback. */
  predicate Troubled(w: Weather) {
    || !w.expiry.first || !w.settling.first || !w.reexpiry.first || !w.closing.first || !w.success.first
    || w.finalize != Clean || !Works(w.rollback) || !Works(w.commit.rollback)
  }

  lemma TakenBack<V>(m: map<Id, V>, id: Id, value: V)
    requires id !in m
    ensures m[id := value] - {id} == m
  {
  }

  class Manager {
    const disk: Disk
    const managed: Managed
    var state: AuthState
    var revision: nat
    var operations: Operations
    var receipts: map<Id, Receipt>
    var latest: Id
    var transitioning: bool

    /** Opens on what an earlier process left: a pending operation was interrupted, and a credential on disk
        proves nothing until it has been probed. */
    constructor (disk: Disk, managed: Managed, revision: nat, operations: Operations, receipts: map<Id, Receipt>, hasCredential: bool)
      requires |receipts| <= RECEIPT_LIMIT && disk.Tracked()
      ensures Valid() && this.disk == disk && this.managed == managed && this.receipts == receipts && !transitioning
      ensures state != Authenticated && !AnyPending(this.operations) && Settles(operations, this.operations)
      ensures this.operations.Keys == operations.Keys
      ensures revision < this.revision
    {
      this.disk, this.managed, this.receipts, this.transitioning, this.latest := disk, managed, receipts, false, 0;
      this.state := if hasCredential then UnknownAuth else Unauthenticated;
      this.revision := revision + 1;
      this.operations := map id | id in operations ::
        if operations[id].status == Pending then operations[id].(status := FailedOp) else operations[id];
    }

    ghost predicate Valid()
      reads this, disk
    {
      OnePending(operations) && |receipts| <= RECEIPT_LIMIT && disk.Tracked()
    }

    /** What every entry point keeps: receipts are never evicted, terminal statuses never move, and a visible
        change moves the revision. */
    twostate predicate Keeps()
      reads this
    {
      && Settles(old(operations), operations) && ReceiptsGrow(old(receipts), receipts)
      && old(revision) <= revision
      && ((operations, receipts, state) != (old(operations), old(receipts), old(state)) ==> old(revision) < revision)
    }

    method FailClosed()
      modifies this`state, this`revision
      ensures state == UnknownAuth && revision == old(revision) + 1
    {
      state := UnknownAuth;
      revision := revision + 1;
    }

    /** Writes the state file; after a failure nothing is authenticated until it has been checked again. */
    method PersistOrFail(persist: Persist) returns (failed: bool)
      modifies this`state, this`revision
      ensures failed == !persist.first
      ensures if failed then state == UnknownAuth && revision == old(revision) + 1 else unchanged(this)
    {
      if !persist.first {
        FailClosed();
      }
      return !persist.first;
    }

    /** Expires every pending operation whose deadline has passed. */
    method ExpirePending(now: nat, persist: Persist) returns (failed: bool)
      requires Valid()
      modifies this`operations, this`state, this`revision
      ensures Valid() && Keeps() && operations == ExpireAll(old(operations), now)
      ensures failed <==> operations != old(operations) && !persist.first
      ensures state == if failed then UnknownAuth else old(state)
    {
      var todo, changed := operations.Keys, false;
      ghost var start := operations;
      while todo != {}
        invariant todo <= start.Keys == operations.Keys && state == old(state) && revision == old(revision)
        invariant forall id :: id in operations ==> operations[id] == if id in todo then start[id] else ExpireAll(start, now)[id]
        invariant changed <==> operations != start
        decreases todo
      {
        var id :| id in todo;
        todo := todo - {id};
        if operations[id].status == Pending && now >= operations[id].deadline {
          operations := operations[id := operations[id].(status := Expired)];
          changed := true;
          assert operations[id] != start[id];
        }
      }
      assert operations == ExpireAll(start, now);
      if !changed {
        return false;
      }
      revision := revision + 1;
      failed := PersistOrFail(persist);
    }

    /** The node may start native work. */
    method Ready(now: nat, persist: Persist) returns (ready: bool)
      requires Valid()
      modifies this`operations, this`state, this`revision
      ensures Valid() && Keeps()
      ensures ready ==> state == Authenticated && !transitioning && !AnyPending(operations)
      ensures !ready ==> state != Authenticated || transitioning || AnyPending(operations)
    {
      var failed := ExpirePending(now, persist);
      return !failed && state == Authenticated && !transitioning && !AnyPending(operations);
    }

    /** Admits a login and registers its operation; the replacement itself runs later. */
    method Start(command: Id, secret: string, operation: Id, now: nat, timeout: nat, busy: bool, expiry: Persist, written: bool)
      returns (answer: Answer)
      requires Valid() && operation !in operations
      modifies this`operations, this`receipts, this`latest, this`state, this`revision
      ensures Valid() && Keeps()
      ensures answer == Accepted ==>
        && ValidSecret(secret) && command !in old(receipts) && receipts == old(receipts)[command := Receipt(StartKind, operation)]
      ensures answer != Accepted ==> receipts == old(receipts) && (operations == old(operations) || operations == ExpireAll(old(operations), now))
      ensures answer == Accepted <==>
        && ValidSecret(secret) && command !in old(receipts) && !busy && !AnyPending(ExpireAll(old(operations), now))
        && (ExpireAll(old(operations), now) != old(operations) ==> expiry.first) && |old(receipts)| < RECEIPT_LIMIT && written
      ensures answer == Accepted ==> operations == ExpireAll(old(operations), now)[operation := Operation(Pending, now + timeout)]
    {
      if !ValidSecret(secret) {
        return InvalidSecret;
      }
      var failed := ExpirePending(now, expiry);
      if failed {
        return Unavailable;
      }
      if command in receipts {
        return if receipts[command].kind == StartKind then Replayed else IdConflict;
      }
      if busy {
        return Busy;
      }
      if AnyPending(operations) {
        return PendingOperation;
      }
      if |receipts| >= RECEIPT_LIMIT {
        return Busy;
      }
      Register(command, operation, now + timeout, written);
      return if written then Accepted else Unavailable;
    }

    /** Registers a pending operation and its receipt, and takes both back when they cannot be written. */
    method Register(command: Id, operation: Id, deadline: nat, written: bool)
      requires Valid() && operation !in operations && command !in receipts && !AnyPending(operations) && |receipts| < RECEIPT_LIMIT
      modifies this`operations, this`receipts, this`latest, this`revision
      ensures Valid() && revision == old(revision) + 1
      ensures operations == if written then old(operations)[operation := Operation(Pending, deadline)] else old(operations)
      ensures receipts == if written then old(receipts)[command := Receipt(StartKind, operation)] else old(receipts)
    {
      operations := operations[operation := Operation(Pending, deadline)];
      receipts := receipts[command := Receipt(StartKind, operation)];
      latest, revision := operation, revision + 1;
      if !written {
        TakenBack(old(operations), operation, operations[operation]);
        TakenBack(old(receipts), command, receipts[command]);
        operations := operations - {operation};
        receipts := receipts - {command};
      }
    }

    method Cancel(command: Id, operation: Id, now: nat, expiry: Persist, persist: Persist) returns (answer: Answer)
      requires Valid()
      modifies this`operations, this`receipts, this`state, this`revision
      ensures Valid() && Keeps()
      ensures answer == Accepted ==>
        && receipts == old(receipts)[command := Receipt(CancelKind(operation), operation)] && operation in operations
        && operations[operation].status != Pending
        && operation in ExpireAll(old(operations), now)
        && (ExpireAll(old(operations), now)[operation].status == Pending ==> operations[operation].status == Cancelled)
      ensures command in old(receipts) ==> receipts == old(receipts) && answer != Accepted
    {
      if command in receipts && receipts[command].kind != CancelKind(operation) {
        return IdConflict;
      }
      var failed := ExpirePending(now, expiry);
      if failed {
        return Unavailable;
      }
      if operation !in operations {
        return NotFound;
      }
      if command in receipts {
        return Replayed;
      }
      if |receipts| >= RECEIPT_LIMIT {
        return Busy;
      }
      receipts := receipts[command := Receipt(CancelKind(operation), operation)];
      if operations[operation].status == Pending {
        operations := operations[operation := operations[operation].(status := Cancelled)];
      }
      revision := revision + 1;
      failed := PersistOrFail(persist);
      if failed {
        return Unavailable;
      }
      return Accepted;
    }

    /** What a probe says about the credential. */
    function StateAfter(result: ProbeResult): AuthState {
      match result
      case ProbeAuthenticated => Authenticated
      case ProbeUnauthenticated => Unauthenticated
      case ProbeInvalid => Reauthenticate
      case ProbeUnavailable => UnknownAuth
    }

    method Check(command: Id, now: nat, later: nat, result: ProbeResult, expiry: Persist, reexpiry: Persist, persist: Persist) returns (answer: Answer)
      requires Valid()
      modifies this`operations, this`receipts, this`state, this`revision
      ensures Valid() && Keeps()
      ensures answer == Accepted ==> receipts == old(receipts)[command := Receipt(CheckKind, 0)] && state == StateAfter(result)
      ensures command in old(receipts) ==> receipts == old(receipts) && answer != Accepted
    {
      if command in receipts && receipts[command].kind != CheckKind {
        return IdConflict;
      }
      var failed := ExpirePending(now, expiry);
      if failed {
        return Unavailable;
      }
      if command in receipts {
        return Replayed;
      }
      if AnyPending(operations) {
        return PendingOperation;
      }
      if |receipts| >= RECEIPT_LIMIT {
        return Busy;
      }
      failed := ExpirePending(later, reexpiry);
      if failed {
        return Unavailable;
      }
      receipts := receipts[command := Receipt(CheckKind, 0)];
      revision, state := revision + 1, StateAfter(result);
      failed := PersistOrFail(persist);
      if failed {
        return Unavailable;
      }
      return Accepted;
    }

    /** The credential file goes first, then the adapter; a rollback marker stays where it is. */
    method RemoveCredential(removalFails: bool, closeFails: bool) returns (failed: bool)
      requires disk.Tracked()
      modifies disk, managed
      ensures failed <==> removalFails || (old(managed.current).Some? && closeFails)
      ensures disk.Tracked() && managed.closed == old(managed.closed)
      ensures if removalFails then disk.files == old(disk.files) && managed.current == old(managed.current)
              else disk.files == old(disk.files).(credential := None) && managed.current == None
    {
      failed := disk.RestoreCredential(None, if removalFails then Before else Clean);
      if failed {
        return true;
      }
      failed := managed.Deactivate(closeFails);
    }

    /** `closers`: what logins that have finished still have to close. */
    method Logout(command: Id, now: nat, busy: bool, removalFails: bool, closeFails: bool, expiry: Persist, persist: Persist,
                  ghost closers: map<nat, Closer>)
      returns (answer: Answer)
      requires Valid()
      modifies this`operations, this`receipts, this`state, this`revision, this`transitioning, disk, managed
      ensures Valid() && Keeps()
      ensures answer == Accepted ==>
        && state == Unauthenticated && disk.files == old(disk.files).(credential := None) && managed.current == None
        && receipts == old(receipts)[command := Receipt(LogoutKind, 0)]
      ensures answer == Accepted ==>
        (Recovered(disk.files) == Ok(None) <==> disk.files.marker.None? || ReadSecret(disk.files.marker) == Ok(Some("0")))
      ensures answer == Accepted && Closable(disk.files.marker, closers) ==>
        (Lasting(World(disk.files, managed.current, managed.closed, closers), None) <==> Forgotten(disk.files.marker, closers))
      ensures managed.closed == old(managed.closed)
      ensures answer == Accepted <==>
        && command !in old(receipts) && !busy && |old(receipts)| < RECEIPT_LIMIT && !AnyPending(ExpireAll(old(operations), now))
        && (ExpireAll(old(operations), now) != old(operations) ==> expiry.first) && persist.first
        && !removalFails && !(old(managed.current).Some? && closeFails)
      ensures disk.files != old(disk.files) || managed.current != old(managed.current) ==> state == Unauthenticated || state == UnknownAuth
      ensures command in old(receipts) ==> receipts == old(receipts) && answer != Accepted
    {
      if command in receipts && receipts[command].kind != LogoutKind {
        return IdConflict;
      }
      var failed := ExpirePending(now, expiry);
      if failed {
        return Unavailable;
      }
      if command in receipts {
        return Replayed;
      }
      if busy {
        return Busy;
      }
      if AnyPending(operations) {
        return PendingOperation;
      }
      if |receipts| >= RECEIPT_LIMIT {
        return Busy;
      }
      answer := CarryOutLogout(command, removalFails, closeFails, persist, closers);
    }

    /** The part of a logout that changes something. */
    method CarryOutLogout(command: Id, removalFails: bool, closeFails: bool, persist: Persist, ghost closers: map<nat, Closer>)
      returns (answer: Answer)
      requires Valid() && command !in receipts && |receipts| < RECEIPT_LIMIT
      modifies this`receipts, this`state, this`revision, this`transitioning, disk, managed
      ensures Valid() && Keeps() && (answer == Accepted || answer == Unavailable) && old(revision) < revision
      ensures managed.closed == old(managed.closed)
      ensures answer == Accepted <==> persist.first && !removalFails && !(old(managed.current).Some? && closeFails)
      ensures answer == Accepted ==>
        && state == Unauthenticated && disk.files == old(disk.files).(credential := None) && managed.current == None
        && receipts == old(receipts)[command := Receipt(LogoutKind, 0)]
      ensures answer == Accepted && Closable(disk.files.marker, closers) ==>
        (Lasting(World(disk.files, managed.current, managed.closed, closers), None) <==> Forgotten(disk.files.marker, closers))
      ensures answer != Accepted ==> state == UnknownAuth
    {
      transitioning := true;
      var failed := RemoveCredential(removalFails, closeFails);
      transitioning := false;
      if failed {
        FailClosed();
        return Unavailable;
      }
      receipts := receipts[command := Receipt(LogoutKind, 0)];
      state, revision := Unauthenticated, revision + 1;
      failed := PersistOrFail(persist);
      if failed {
        return Unavailable;
      }
      if Closable(disk.files.marker, closers) {
        LogoutLastsIff(World(disk.files, managed.current, managed.closed, closers));
      }
      return Accepted;
    }

    // ---- finishing a replacement -------------------------------------------------------------

    method Terminalize(operation: Id, status: Status, persist: Persist)
      requires Valid() && operation in operations && operations[operation].status == Pending && status != Pending
      modifies this`operations, this`state, this`revision
      ensures Valid() && Keeps() && operations == old(operations)[operation := old(operations)[operation].(status := status)]
      ensures old(revision) < revision && state == if persist.first then old(state) else UnknownAuth
    {
      operations := operations[operation := operations[operation].(status := status)];
      revision := revision + 1;
      var _ := PersistOrFail(persist);
    }

    /** A replacement that could not be undone or settled leaves the manager not knowing what is in force. */
    method RecordCleanupFailure(operation: Id)
      requires Valid()
      modifies this`operations, this`state, this`revision
      ensures operations.Keys == old(operations.Keys)
      ensures Valid() && Keeps() && state == UnknownAuth
      ensures operation in operations ==> operations[operation].status != Pending
    {
      if operation in operations && operations[operation].status == Pending {
        operations := operations[operation := operations[operation].(status := FailedOp)];
      }
      FailClosed();
    }

    /** The candidate is in force, permanently. */
    ghost predicate CandidateInForce(operation: Id, secret: string, candidate: Adapter)
      reads this, disk, managed
    {
      && operation in operations && operations[operation].status == Succeeded && state == Authenticated
      && disk.files == Files(Some(secret), None) && managed.current == Some(candidate)
    }

    /** The predecessor is in force, file and adapter. */
    twostate predicate PredecessorInForce()
      reads this, disk, managed
    {
      ReadSecret(disk.files.credential) == old(ReadSecret(disk.files.credential)) && managed.current == old(managed.current)
    }

    /** The login gets as far as its finalization. */
    predicate Reaches(operation: Id, w: Weather)
      reads this, disk, managed
    {
      && operation in operations && operations[operation].status == Pending
      && w.started < operations[operation].deadline && w.early == Open && !w.busy && Carries(operation, w)
    }

    /** The commit goes through, in time, and the success can be written. */
    predicate Carries(operation: Id, w: Weather)
      requires operation in operations
      reads this, disk, managed
    {
      && CommitGoes(disk.files, managed.closed, w.commit)
      && w.resumed < operations[operation].deadline && w.late == Open && w.success.first
    }

    /** Runs a login to its end, with nothing in between: the probe of the secret, the preparation of its adapter, and the
        replacement. */
    method RunLogin(operation: Id, secret: string, probe: ProbeResult, prepared: bool, candidate: Adapter, w: Weather)
      requires Valid() && ValidSecret(secret)
      modifies this`operations, this`state, this`revision, this`transitioning, disk, managed
      ensures operations.Keys == old(operations.Keys)
      ensures Valid() && Keeps()
      ensures CandidateInForce(operation, secret, candidate) || PredecessorInForce() || (state == UnknownAuth && Troubled(w))
      ensures state == UnknownAuth ==> old(state) == UnknownAuth || Troubled(w)
      ensures old(operation in operations && operations[operation].status == Pending) ==>
        (CandidateInForce(operation, secret, candidate) <==>
          old(Reaches(operation, w)) && probe == ProbeAuthenticated && prepared && w.finalize == Clean)
      ensures managed.current == old(managed.current) || managed.current == Some(candidate)
      ensures old(disk.past) <= disk.past && AllPass(disk.past, |old(disk.past)|, old(ReadSecret(disk.files.credential)), secret)
      ensures probe == ProbeAuthenticated && prepared && old(Reaches(operation, w)) && w.finalize != Clean ==>
        var previous := old(ReadSecret(disk.files.credential)).value;
        && managed.current == old(managed.current)
        && disk.files == RolledBack(Provisional(secret, previous, w.finalize), previous, false, w.close)
      ensures probe != ProbeAuthenticated || !prepared ==>
        && disk.files == old(disk.files) && managed.current == old(managed.current)
        && (operation in operations && operations[operation].status == Succeeded ==>
              operation in old(operations) && operations[operation] == old(operations)[operation])
      ensures operation in operations && old(operation in operations && operations[operation].status == Pending) ==> operations[operation].status != Pending
    {
      if probe != ProbeAuthenticated || !prepared {
        FinishUnprepared(operation, w);
        return;
      }
      var replacement := new Replacement(disk, managed, secret, candidate);
      Finish(operation, replacement, w);
    }

    /** A login without a replacement: the secret was refused, could not be probed, or no adapter could be prepared. */
    method FinishUnprepared(operation: Id, w: Weather)
      requires Valid()
      modifies this`operations, this`state, this`revision
      ensures operations.Keys == old(operations.Keys)
      ensures Valid() && Keeps()
      ensures state == UnknownAuth ==> old(state) == UnknownAuth || Troubled(w)
      ensures operation in operations && operations[operation].status == Succeeded ==>
        operation in old(operations) && operations[operation] == old(operations)[operation]
      ensures operation in operations && old(operation in operations && operations[operation].status == Pending) ==> operations[operation].status != Pending
    {
      var _, _ := MayCommit(operation, true, w);
    }

    /** Whether a login may go on to its commit: it is still pending and in time, its context is open, and it is not refused.
        Otherwise it ends here. */
    method MayCommit(operation: Id, refused: bool, w: Weather) returns (expiryFailed: bool, go: bool)
      requires Valid()
      modifies this`operations, this`state, this`revision
      ensures operations.Keys == old(operations.Keys)
      ensures Valid() && Keeps()
      ensures state == UnknownAuth ==> old(state) == UnknownAuth || Troubled(w)
      ensures expiryFailed ==> !go && state == UnknownAuth && !w.expiry.first
      ensures go <==>
        && old(operation in operations && operations[operation].status == Pending && w.started < operations[operation].deadline)
        && w.early == Open && !refused
      ensures go ==> operations == old(operations) && state == old(state)
      ensures !go && operation in operations ==>
        && (operations[operation].status == Succeeded ==> operations[operation] == old(operations)[operation])
        && (old(operations)[operation].status == Pending ==> operations[operation].status != Pending)
    {
      expiryFailed := ExpirePending(w.started, w.expiry);
      if expiryFailed {
        ExpiresThePending(old(operations), w.started, operation);
        return true, false;
      }
      if operation !in operations || operations[operation].status != Pending {
        return false, false;
      }
      StillPending(old(operations), w.started, operation);
      if w.early != Open || refused {
        Terminalize(operation, if w.early == DeadlineExceeded then Expired else if w.early == ContextCancelled then Cancelled else FailedOp, w.settling);
        return false, false;
      }
      return false, true;
    }

    /** Runs a prepared replacement to its end. Whatever expires, is cancelled, fails to be written or cannot be undone:
        the candidate is in force and the operation has succeeded, or the predecessor is in force, or the state is unknown
        because something failed. */
    method Finish(operation: Id, replacement: Replacement, w: Weather)
      requires Valid() && Prepared(replacement)
      modifies this`operations, this`state, this`revision, this`transitioning, disk, managed, replacement
      ensures operations.Keys == old(operations.Keys)
      ensures Valid() && Keeps()
      ensures CandidateInForce(operation, replacement.secret, replacement.candidate) || PredecessorInForce() || (state == UnknownAuth && Troubled(w))
      ensures state == UnknownAuth ==> old(state) == UnknownAuth || Troubled(w)
      ensures old(operation in operations && operations[operation].status == Pending) ==>
        (CandidateInForce(operation, replacement.secret, replacement.candidate) <==> old(Reaches(operation, w)) && w.finalize == Clean)
      ensures managed.current == old(managed.current) || managed.current == Some(replacement.candidate)
      ensures old(disk.past) <= disk.past
      ensures AllPass(disk.past, |old(disk.past)|, old(ReadSecret(disk.files.credential)), replacement.secret)
      ensures old(Reaches(operation, w)) && w.finalize != Clean ==>
        var previous := old(ReadSecret(disk.files.credential)).value;
        && managed.current == old(managed.current)
        && disk.files == RolledBack(Provisional(replacement.secret, previous, w.finalize), previous, false, w.close)
      ensures operation in operations && old(operation in operations && operations[operation].status == Pending) ==> operations[operation].status != Pending
    {
      ghost var was := ReadSecret(disk.files.credential);
      FinishReplacement(operation, replacement, w);
      ghost var before := disk.past;
      CloseReplacement(operation, replacement, w.close);
      PassOn(before, disk.past, |old(disk.past)|, was, replacement.secret);
    }

    /** Closes a replacement after the manager's locks have been released: whatever has happened to the files and to the
        adapter since, an open commit is undone. */
    method CloseReplacement(operation: Id, replacement: Replacement, faults: RollbackFaults)
      requires Valid() && replacement.Sound() && replacement.disk == disk && replacement.managed == managed
      modifies this`operations, this`state, this`revision, disk, managed, replacement
      ensures operations.Keys == old(operations.Keys)
      ensures Valid() && Keeps() && managed.closed == old(managed.closed)
      ensures var after := AfterClose(World(old(disk.files), old(managed.current), managed.closed, map[0 := old(replacement.Left())]), 0, faults);
        disk.files == after.files && managed.current == after.current
      ensures old(replacement.Left()).stage.Restoring? ==>
        var refused := managed.closed || old(managed.current) != old(replacement.adapter);
        && disk.files == RolledBack(old(disk.files), old(replacement.previous), refused, faults)
        && managed.current == if refused then old(managed.current) else old(replacement.prior)
      ensures state == UnknownAuth || (state == old(state) && operations == old(operations))
      ensures operation in operations && old(operation in operations && operations[operation].status != Pending) ==> operations[operation].status != Pending
      ensures old(replacement.Left()).stage.Settled? ==> state == old(state) && operations == old(operations) && disk.past == old(disk.past)
      ensures old(disk.past) <= disk.past
      ensures old(replacement.Valid()) ==> AllRecover(disk.past, |old(disk.past)|, Ok(old(replacement.previous)))
    {
      if replacement.Left().stage.Restoring? {
        AfterCloseIs(World(disk.files, managed.current, managed.closed, map[0 := replacement.Left()]), 0, faults);
      }
      var failed := replacement.Close(faults);
      if failed {
        RecordCleanupFailure(operation);
      }
    }

    /** A replacement nobody has used yet. */
    ghost predicate Prepared(replacement: Replacement)
      reads this, disk, managed, replacement
    {
      && replacement.disk == disk && replacement.managed == managed && replacement.Valid()
      && replacement.adapter == Some(replacement.candidate)
      && !replacement.committed && !replacement.finalized && !replacement.rolledBack && !replacement.closed
    }

    /** The files as finalization leaves them. */
    function Provisional(secret: string, previous: Option<string>, finalize: Fault): Files {
      Files(Some(secret), if finalize == Before then Some(EncodeMarker(previous)) else None)
    }

    /** The commit has been finalized, or stands with everything that is needed to undo it. */
    ghost predicate Finalized(replacement: Replacement, prior: Option<Adapter>, w: Weather)
      reads this, disk, managed, replacement
    {
      && state == (if w.finalize == Clean then Authenticated else UnknownAuth)
      && managed.current == Some(replacement.candidate) && !managed.closed
      && disk.files == Provisional(replacement.secret, replacement.previous, w.finalize)
      && replacement.committed && !replacement.rolledBack && (replacement.finalized <==> w.finalize == Clean)
      && (w.finalize != Clean ==> replacement.prior == prior && replacement.adapter == Some(replacement.candidate))
    }

    /** A replacement that was undone, or never took hold. */
    twostate predicate Undone(replacement: Replacement)
      reads this, disk, managed, replacement
    {
      PredecessorInForce() && (!replacement.committed || replacement.rolledBack)
    }

    /** Everything a login does under the manager's action lock. */
    method FinishReplacement(operation: Id, replacement: Replacement, w: Weather)
      requires Valid() && Prepared(replacement)
      modifies this`operations, this`state, this`revision, this`transitioning, disk, managed, replacement
      ensures operations.Keys == old(operations.Keys)
      ensures Valid() && Keeps() && replacement.Valid() && !replacement.closed
      ensures (CandidateInForce(operation, replacement.secret, replacement.candidate) && replacement.finalized)
        || Undone(replacement) || (state == UnknownAuth && Troubled(w))
      ensures state == UnknownAuth ==> old(state) == UnknownAuth || Troubled(w)
      ensures old(operation in operations && operations[operation].status == Pending) ==>
        operation in operations && (operations[operation].status == Succeeded <==> old(Reaches(operation, w)))
      ensures old(Reaches(operation, w)) ==>
        Finalized(replacement, old(managed.current), w) && Ok(replacement.previous) == old(ReadSecret(disk.files.credential))
      ensures managed.current == old(managed.current) || managed.current == Some(replacement.candidate)
      ensures old(disk.past) <= disk.past
      ensures AllPass(disk.past, |old(disk.past)|, old(ReadSecret(disk.files.credential)), replacement.secret)
      ensures replacement.committed ==> Ok(replacement.previous) == old(ReadSecret(disk.files.credential))
      ensures replacement.Open() ==> replacement.prior == old(managed.current) && state == UnknownAuth && Troubled(w)
      ensures Closable(disk.files.marker, map[0 := replacement.Left()])
      ensures operation in operations && old(operation in operations && operations[operation].status == Pending) ==> operations[operation].status != Pending
    {
      var expiryFailed, go := MayCommit(operation, w.busy, w);
      if expiryFailed {
        var _ := replacement.RollbackLocked(w.rollback);
      } else if go {
        CommitAndSettle(operation, replacement, w);
      }
      replacement.LeftIsClosable();
    }

    method CommitAndSettle(operation: Id, replacement: Replacement, w: Weather)
      requires Valid() && Prepared(replacement) && operation in operations && operations[operation].status == Pending
      modifies this`operations, this`state, this`revision, this`transitioning, disk, managed, replacement
      ensures operations.Keys == old(operations.Keys)
      ensures Valid() && Keeps() && replacement.Valid() && !replacement.closed
      ensures (CandidateInForce(operation, replacement.secret, replacement.candidate) && replacement.finalized)
        || Undone(replacement) || (state == UnknownAuth && Troubled(w))
      ensures state == UnknownAuth ==> old(state) == UnknownAuth || Troubled(w)
      ensures operations[operation].status != Pending && (operations[operation].status == Succeeded <==> old(Carries(operation, w)))
      ensures old(Carries(operation, w)) ==> Finalized(replacement, old(managed.current), w)
      ensures managed.current == old(managed.current) || managed.current == Some(replacement.candidate)
      ensures old(disk.past) <= disk.past
      ensures AllPass(disk.past, |old(disk.past)|, old(ReadSecret(disk.files.credential)), replacement.secret)
      ensures replacement.committed ==> Ok(replacement.previous) == old(ReadSecret(disk.files.credential))
      ensures replacement.Open() ==> replacement.prior == old(managed.current) && state == UnknownAuth && Troubled(w)
    {
      ghost var was, start := ReadSecret(disk.files.credential), disk.past;
      transitioning := true;
      var commitFailed := replacement.Commit(w.commit);
      transitioning := false;
      ghost var middle := disk.past;
      Settle(operation, replacement, commitFailed, w, was);
      PassTogether(start, middle, disk.past, was, replacement.secret);
    }

    /** A commit that stands can be undone, unless it was tried already and failed. */
    ghost predicate CanUndo(replacement: Replacement, w: Weather)
      reads this, managed, replacement
    {
      replacement.Open() ==> (managed.current == replacement.adapter && !managed.closed) || !Works(w.commit.rollback)
    }

    /** What the files said before the commit. */
    ghost predicate Was(replacement: Replacement, was: Result<Option<string>>)
      reads this, disk, replacement
    {
      if replacement.committed then Ok(replacement.previous) == was else ReadSecret(disk.files.credential) == was
    }

    /** The critical section after the commit. */
    method Settle(operation: Id, replacement: Replacement, commitFailed: bool, w: Weather, ghost was: Result<Option<string>>)
      requires Valid() && operation in operations && operations[operation].status == Pending
      requires replacement.Valid() && replacement.disk == disk && replacement.managed == managed
      requires !replacement.finalized && !replacement.closed && CanUndo(replacement, w) && Was(replacement, was)
      requires replacement.committed ==> managed.current == replacement.prior || managed.current == Some(replacement.candidate)
      requires !commitFailed ==>
        && replacement.Open() && replacement.adapter == Some(replacement.candidate) && !managed.closed
        && disk.files == Files(Some(replacement.secret), Some(EncodeMarker(replacement.previous)))
        && managed.current == Some(replacement.candidate)
      modifies this`operations, this`state, this`revision, disk, managed, replacement
      ensures operations.Keys == old(operations.Keys)
      ensures Valid() && Keeps() && replacement.Valid() && !replacement.closed && replacement.previous == old(replacement.previous)
      ensures || (CandidateInForce(operation, replacement.secret, replacement.candidate) && replacement.finalized)
              || (replacement.rolledBack && !old(replacement.rolledBack) && replacement.committed && managed.current == old(replacement.prior)
                  && ReadSecret(disk.files.credential) == Ok(old(replacement.previous)))
              || ((!old(replacement.committed) || old(replacement.rolledBack)) && commitFailed
                  && disk.files.credential == old(disk.files.credential) && managed.current == old(managed.current))
              || (state == UnknownAuth && Troubled(w))
      ensures state == UnknownAuth ==> old(state) == UnknownAuth || Troubled(w)
      ensures operation in operations && operations[operation].status != Pending
      ensures operations[operation].status == Succeeded <==>
        !commitFailed && w.resumed < old(operations)[operation].deadline && w.late == Open && w.success.first
      ensures operations[operation].status == Succeeded ==> Finalized(replacement, old(replacement.prior), w)
      ensures managed.current == old(managed.current) || (replacement.committed && managed.current == old(replacement.prior))
      ensures old(disk.past) <= disk.past && AllPass(disk.past, |old(disk.past)|, was, replacement.secret)
      ensures replacement.Open() ==> replacement.prior == old(replacement.prior) && state == UnknownAuth && Troubled(w)
      ensures replacement.committed == old(replacement.committed) && (old(replacement.rolledBack) ==> replacement.rolledBack)
    {
      StillPending(operations, w.resumed, operation);
      var failed := ExpirePending(w.resumed, w.reexpiry);
      if failed || operations[operation].status != Pending || w.late != Open || commitFailed {
        Abandon(operation, replacement, if w.late == DeadlineExceeded then Expired else if w.late == ContextCancelled then Cancelled else FailedOp, w, was);
        return;
      }
      Succeed(operation, replacement, w, was);
    }

    method RecordSuccess(operation: Id, persist: Persist) returns (failed: bool)
      requires Valid() && operation in operations && operations[operation].status == Pending
      modifies this`operations, this`state, this`revision
      ensures Valid() && Keeps() && failed == !persist.first && old(revision) < revision
      ensures operations == old(operations)[operation := old(operations)[operation].(status := if failed then FailedOp else Succeeded)]
      ensures state == if failed then UnknownAuth else Authenticated
    {
      operations := operations[operation := operations[operation].(status := Succeeded)];
      state, revision := Authenticated, revision + 1;
      if !persist.first {
        operations := operations[operation := operations[operation].(status := FailedOp)];
        FailClosed();
      }
      return !persist.first;
    }

    /** Records the success; when that cannot be written the commit is undone after all. */
    method Succeed(operation: Id, replacement: Replacement, w: Weather, ghost was: Result<Option<string>>)
      requires Valid() && operation in operations && operations[operation].status == Pending
      requires replacement.Valid() && replacement.disk == disk && replacement.managed == managed
      requires !replacement.finalized && !replacement.closed && replacement.Open() && !managed.closed && Was(replacement, was)
      requires replacement.adapter == Some(replacement.candidate) && managed.current == Some(replacement.candidate)
      requires disk.files == Files(Some(replacement.secret), Some(EncodeMarker(replacement.previous)))
      modifies this`operations, this`state, this`revision, disk, managed, replacement
      ensures operations.Keys == old(operations.Keys)
      ensures Valid() && Keeps() && replacement.Valid() && !replacement.closed && replacement.committed
      ensures (CandidateInForce(operation, replacement.secret, replacement.candidate) && replacement.finalized) || (state == UnknownAuth && Troubled(w))
      ensures operation in operations && operations[operation].status != Pending
      ensures operations[operation].status == Succeeded <==> w.success.first
      ensures w.success.first ==> Finalized(replacement, old(replacement.prior), w)
      ensures managed.current == old(managed.current) || managed.current == old(replacement.prior)
      ensures old(disk.past) <= disk.past && AllPass(disk.past, |old(disk.past)|, was, replacement.secret)
      ensures replacement.previous == old(replacement.previous)
      ensures replacement.Open() ==> replacement.prior == old(replacement.prior) && state == UnknownAuth && Troubled(w)
    {
      var failed := RecordSuccess(operation, w.success);
      if failed {
        failed := replacement.RollbackLocked(w.rollback);
        if failed {
          RecordCleanupFailure(operation);
        }
        assert AllPass(disk.past, |old(disk.past)|, was, replacement.secret);
        return;
      }
      failed := replacement.Finalize(w.finalize);
      if failed {
        RecordCleanupFailure(operation);
      }
    }

    /** Gives the operation its terminal status and undoes the commit. */
    method Abandon(operation: Id, replacement: Replacement, status: Status, w: Weather, ghost was: Result<Option<string>>)
      requires Valid() && operation in operations && status != Pending && status != Succeeded
      requires replacement.Valid() && replacement.disk == disk && replacement.managed == managed
      requires !replacement.finalized && !replacement.closed && CanUndo(replacement, w) && Was(replacement, was)
      modifies this`operations, this`state, this`revision, disk, managed, replacement
      ensures operations.Keys == old(operations.Keys)
      ensures Valid() && Keeps() && replacement.Valid() && !replacement.closed && !replacement.finalized
      ensures || (replacement.rolledBack && !old(replacement.rolledBack) && replacement.committed && managed.current == old(replacement.prior)
                  && ReadSecret(disk.files.credential) == Ok(old(replacement.previous)))
              || ((!old(replacement.committed) || old(replacement.rolledBack))
                  && disk.files.credential == old(disk.files.credential) && managed.current == old(managed.current))
              || (state == UnknownAuth && Troubled(w))
      ensures state == UnknownAuth ==> old(state) == UnknownAuth || Troubled(w)
      ensures operation in operations && operations[operation].status != Pending
      ensures operations[operation].status == Succeeded ==> operations[operation] == old(operations)[operation]
      ensures managed.current == old(managed.current) || (replacement.committed && managed.current == old(replacement.prior))
      ensures old(disk.past) <= disk.past && AllRecover(disk.past, |old(disk.past)|, was)
      ensures replacement.previous == old(replacement.previous) && replacement.prior == old(replacement.prior)
      ensures replacement.Open() ==> state == UnknownAuth && Troubled(w)
      ensures replacement.committed == old(replacement.committed) && (old(replacement.rolledBack) ==> replacement.rolledBack)
    {
      if operations[operation].status == Pending {
        Terminalize(operation, status, w.closing);
      }
      var failed := replacement.RollbackLocked(w.rollback);
      if failed {
        RecordCleanupFailure(operation);
      }
    }
  }

  const QUIET := Persist(true, true)
  const SMOOTH := RollbackFaults(Clean, Clean)

  /** A login in which nothing goes wrong but, perhaps, its finalization and its close. */
  function Calm(finalize: Fault, close: RollbackFaults): Weather {
    Weather(1, 2, Open, Open, false, QUIET, QUIET, QUIET, QUIET, QUIET,
            CommitFaults(false, false, false, false, Clean, Clean, Clean, SMOOTH), SMOOTH, finalize, close)
  }

  lemma NothingToExpire(operations: Operations)
    requires operations.Keys == {}
    ensures operations == map[] && ExpireAll(operations, 0) == operations && !AnyPending(operations) && ValidSecret("new")
  {
  }

  /** A manager over a node whose credential is "old". */
  method Opened() returns (manager: Manager)
    ensures fresh(manager) && fresh(manager.disk) && fresh(manager.managed) && manager.Valid()
    ensures manager.disk.files == Files(Some("old"), None) && manager.managed.current == None && !manager.managed.closed
    ensures manager.operations == map[] && manager.receipts == map[]
  {
    var disk := new Disk(Files(Some("old"), None));
    var managed := new Managed();
    manager := new Manager(disk, managed, 0, map[], map[], true);
    NothingToExpire(manager.operations);
  }

  /** The same with a login under way. */
  method Beginning() returns (manager: Manager)
    ensures fresh(manager) && fresh(manager.disk) && fresh(manager.managed) && manager.Valid()
    ensures manager.disk.files == Files(Some("old"), None) && manager.managed.current == None && !manager.managed.closed
    ensures manager.operations == map[1 := Operation(Pending, 10)] && manager.receipts == map[1 := Receipt(StartKind, 1)]
  {
    manager := Opened();
    NothingToExpire(manager.operations);
    var answer := manager.Start(1, "new", 1, 0, 10, false, QUIET, true);
    assert answer == Accepted;
  }

  lemma OldCanBeReplaced()
    ensures ReadSecret(Some("old")) == Ok(Some("old")) && ValidSecret(EncodeMarker(Some("old")))
  {
    ReadBack("old");
    MarkerRoundTrip(Some("old"));
  }

  /** An accepted logout that does not last. The login's marker can be removed neither by its finalization nor by its close;
      the logout that follows removes the credential file, and bootstrap brings back from the marker the credential there
      was before the login. */
  method LogoutUndone() returns (answer: Answer, files: Files)
    ensures answer == Accepted && files.credential == None && Recovered(files) == Ok(Some("old"))
  {
    var manager := Beginning();
    OldCanBeReplaced();
    manager.RunLogin(1, "new", ProbeAuthenticated, true, 1, Calm(Before, RollbackFaults(Clean, Before)));
    answer := manager.Logout(2, 2, false, false, false, QUIET, QUIET, map[]);
    files := manager.disk.files;
    MarkerRoundTrip(Some("old"));
    MarkedRecovers(files, Some("old"));
  }

  /** The manager after a login whose finalization took the marker away and yet reported a failure. */
  method Unfinished() returns (manager: Manager, replacement: Replacement)
    ensures fresh(manager) && fresh(manager.disk) && fresh(manager.managed) && fresh(replacement)
    ensures manager.Valid() && replacement.Sound() && replacement.disk == manager.disk && replacement.managed == manager.managed
    ensures manager.disk.files == Files(Some("new"), None) && manager.managed.current == Some(1) && !manager.managed.closed
    ensures manager.receipts == map[1 := Receipt(StartKind, 1)] && !AnyPending(manager.operations)
    ensures replacement.Left() == Closer(Some(1), None, Some("old"), Restoring)
  {
    manager := Beginning();
    OldCanBeReplaced();
    replacement := new Replacement(manager.disk, manager.managed, "new", 1);
    manager.FinishReplacement(1, replacement, Calm(After, SMOOTH));
  }

  /** An accepted logout that is overtaken: it gets in between such a login and its close, and finds no marker. The close then
      refuses to put the adapter back, and puts the credential back. */
  method LogoutOvertaken() returns (answer: Answer, between: Files, files: Files)
    ensures answer == Accepted && Recovered(between) == Ok(None) && Recovered(files) == Ok(Some("old"))
  {
    var manager, replacement := Unfinished();
    answer := manager.Logout(2, 2, false, false, false, QUIET, QUIET, map[0 := replacement.Left()]);
    between := manager.disk.files;
    manager.CloseReplacement(1, replacement, SMOOTH);
    files := manager.disk.files;
    ReadBack("old");
  }
}
