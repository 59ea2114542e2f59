/** What every reachable state of the running node satisfies. */
module SystemKeeps {
  import opened Wrappers
  import opened Store
  import opened Commands
  import opened Execution
  import opened Observation
  import opened Administration
  import opened Invariants
  import opened RowLemmas
  import opened AdmissionKeeps
  import opened ExecutionKeeps
  import opened ObservationKeeps
  import opened AdministrationKeeps
  import opened Evolution
  import opened Lineage
  import opened AdmissionEvolves
  import opened ExecutionEvolves
  import opened ObservationEvolves
  import opened AdministrationEvolves
  import opened System

  /** The write suits the kind of action it is made for. */
  predicate Fits(kind: ActionKind, todo: Todo) {
    match todo
    case MarkUnknownTodo => kind != MessageSteer
    case RefusalTodo => kind == DispatchStart
    case StartedTodo => kind == DispatchStart
    case SteerTodo(_) => kind == MessageSteer
    case AnswerTodo(_) => kind == ApprovalRespond || kind == InputRespond
    case FinishTodo(status) => !Unclaimed(status)
  }

  /** The remaining writes suit the action and end with its status. */
  ghost predicate Plan(kind: ActionKind, todo: seq<Todo>) {
    && (forall i :: 0 <= i < |todo| ==> Fits(kind, todo[i]))
    && (forall i :: 0 <= i < |todo| - 1 ==> !todo[i].FinishTodo?)
    && (forall i :: 0 < i < |todo| ==> !todo[i].RefusalTodo? && !todo[i].StartedTodo?)
  }

  /** The provider start of this dispatch is not yet recorded. */
  predicate Unstarted(phase: Phase) {
    !phase.After? || (|phase.todo| > 0 && (phase.todo[0].RefusalTodo? || phase.todo[0].StartedTodo?))
  }

  predicate Live(phase: Phase) {
    phase != After([])
  }

  ghost predicate WorkerOk(db: Db, gate: Option<Id>, c: Id, phase: Phase) {
    && c in db.actions.rows && db.actions.rows[c].attempt in db.attempts.rows
    && (Live(phase) ==> db.actions.rows[c].status == Inflight)
    && (phase.AtGate? || phase.InGate? ==> db.actions.rows[c].kind == DispatchStart)
    && (phase.After? ==> Plan(db.actions.rows[c].kind, phase.todo))
    && (db.actions.rows[c].kind == DispatchStart ==>
          && (gate == Some(c) <==> phase != AtGate)
          && (phase.AtCall? ==> !Covered(db, db.attempts.rows[db.actions.rows[c].attempt].dialog))
          && (Unstarted(phase) ==> !db.attempts.rows[db.actions.rows[c].attempt].started))
  }

  /** A call was made for an action that was claimed and can never be claimed again. */
  ghost predicate CallOk(db: Db, workers: map<Id, Phase>, call: Call) {
    && call.command in db.actions.rows
    && call.kind == db.actions.rows[call.command].kind && call.attempt == db.actions.rows[call.command].attempt
    && db.actions.rows[call.command].status != Pending
    && (call.command in workers ==> workers[call.command].After?)
  }

  ghost predicate Workers(s: Sys) {
    && (forall c :: c in s.workers ==> WorkerOk(s.db, s.gate, c, s.workers[c]))
    && (s.gate.Some? ==> s.gate.value in s.workers && s.gate.value in s.db.actions.rows
                         && s.db.actions.rows[s.gate.value].kind == DispatchStart)
  }

  ghost predicate Calls(s: Sys) {
    && (forall i :: 0 <= i < |s.calls| ==> CallOk(s.db, s.workers, s.calls[i]))
    && (forall i, j :: 0 <= i < j < |s.calls| ==> s.calls[i].command != s.calls[j].command)
  }

  ghost predicate SysInv(s: Sys) {
    Inv(s.db) && Workers(s) && Calls(s)
  }

  lemma InitialInv(s: Sys)
    requires Initial(s)
    ensures SysInv(s)
  {
  }

  /** A transaction that moves no status, starts nothing and, unless the gate is shut, covers nothing new. */
  lemma StoreStep(s: Sys, db: Db, terms: Terms)
    requires SysInv(s) && Inv(db) && Extends(s.db, db, terms)
    requires terms.moves == {} && terms.starts == None && (terms.gated ==> s.gate.None?)
    ensures SysInv(s.(db := db))
  {
    HaveBond(SameAttempts, s.db, db, terms); HaveBond(SameActions, s.db, db, terms); HaveBond(SameHolds, s.db, db, terms);
    forall c | c in s.workers ensures WorkerOk(db, s.gate, c, s.workers[c]) {
      assert WorkerOk(s.db, s.gate, c, s.workers[c]);
    }
    forall i | 0 <= i < |s.calls| ensures CallOk(db, s.workers, s.calls[i]) {
      assert CallOk(s.db, s.workers, s.calls[i]);
    }
  }

  lemma TransactionKeeps(db: Db, step: Step)
    requires Inv(db) && OwnTransaction(step) && Transact(db, step).Some?
    ensures Inv(Transact(db, step).value)
  {
    match step
    case Submitting(id, digest, command, ids, commits) => SubmitKeeps(db, id, digest, command, ids, commits);
    case DispatchingNext(candidate, attempt, generation) => DispatchKeeps(db, candidate, attempt, generation);
    case BlockingPolicy => BlockPolicyKeeps(db);
    case Observing(ref, event, probe) => ObserveKeeps(db, ref, event, probe);
    case StoringArtifact(ref, probe) => StoreArtifactKeeps(db, ref, probe);
    case Reconciling(ref, outcome, effect, newOutput, probe) => ReconcileKeeps(db, ref, outcome, effect, newOutput, probe);
    case LosingStream(attempt, effect) =>
      Have(Links, Begin(db));
      MarkUnknownKeeps(db, attempt, db.attempts.rows[attempt].request, effect);
    case Installing(op, digest, scope, expected) => InstallHoldKeeps(db, op, digest, scope, expected);
    case Releasing(op, digest, scope, holdVersion, expected) => ReleaseHoldKeeps(db, op, digest, scope, holdVersion, expected);
    case Deleting(op, digest, dialog, holdVersion, scopeRevision, receipt, receiptDigest, dialogVersion) =>
      DeleteDialogKeeps(db, op, digest, dialog, holdVersion, scopeRevision, receipt, receiptDigest, dialogVersion);
  }

  lemma TransactionEvolves(db: Db, step: Step, terms: Terms)
    requires Inv(db) && OwnTransaction(step) && Transact(db, step).Some? && Sheltered(db, terms)
    requires Gated(step) ==> terms.gated
    ensures Extends(db, Transact(db, step).value, terms)
  {
    match step
    case Submitting(id, digest, command, ids, commits) => SubmitEvolves(db, id, digest, command, ids, commits, terms);
    case DispatchingNext(candidate, attempt, generation) => DispatchEvolves(db, candidate, attempt, generation, terms);
    case BlockingPolicy => BlockPolicyEvolves(db, terms);
    case Observing(ref, event, probe) => ObserveEvolves(db, ref, event, probe, terms);
    case StoringArtifact(ref, probe) => StoreArtifactEvolves(db, ref, probe, terms);
    case Reconciling(ref, outcome, effect, newOutput, probe) => ReconcileEvolves(db, ref, outcome, effect, newOutput, probe, terms);
    case LosingStream(attempt, effect) =>
      Have(Links, Begin(db));
      MarkUnknownEvolves(db, attempt, db.attempts.rows[attempt].request, effect, terms);
    case Installing(op, digest, scope, expected) => InstallHoldEvolves(db, op, digest, scope, expected, terms);
    case Releasing(op, digest, scope, holdVersion, expected) => ReleaseHoldEvolves(db, op, digest, scope, holdVersion, expected, terms);
    case Deleting(op, digest, dialog, holdVersion, scopeRevision, receipt, receiptDigest, dialogVersion) =>
      DeleteDialogEvolves(db, op, digest, dialog, holdVersion, scopeRevision, receipt, receiptDigest, dialogVersion, terms);
  }

  // ---- the workers ------------------------------------------------------------------------------

  /** What one worker does to its own action disturbs no other worker and no recorded call. */
  lemma OthersStand(s: Sys, c: Id, db: Db, terms: Terms, d: Id)
    requires SysInv(s) && Extends(s.db, db, terms) && d in s.workers && d != c
    requires terms.parked == None && !terms.gated && terms.moves <= {c} && (terms.starts.Some? ==> terms.starts == Some(c))
    ensures WorkerOk(db, s.gate, d, s.workers[d])
  {
    HaveBond(SameAttempts, s.db, db, terms); HaveBond(SameActions, s.db, db, terms); HaveBond(SameHolds, s.db, db, terms);
    Have(Actors, Begin(s.db));
    assert WorkerOk(s.db, s.gate, d, s.workers[d]);
  }

  lemma CallsStand(s: Sys, c: Id, db: Db, terms: Terms, workers: map<Id, Phase>, i: nat)
    requires SysInv(s) && Extends(s.db, db, terms) && i < |s.calls| && terms.moves <= {c}
    requires forall d :: d != c ==> (d in workers <==> d in s.workers) && (d in workers ==> workers[d] == s.workers[d])
    requires c == s.calls[i].command ==>
      && (c in workers ==> workers[c].After?) && (c in db.actions.rows ==> db.actions.rows[c].status != Pending)
    ensures CallOk(db, workers, s.calls[i])
  {
    HaveBond(SameActions, s.db, db, terms);
    assert CallOk(s.db, s.workers, s.calls[i]);
  }

  /** A worker's own step: its phase moves, and the store honours every bond but its own action's status and start. */
  lemma WorkerStep(s: Sys, c: Id, phase: Phase, db: Db, terms: Terms)
    requires SysInv(s) && Inv(db) && Extends(s.db, db, terms)
    requires terms.parked == None && !terms.gated && terms.moves <= {c} && (terms.starts.Some? ==> terms.starts == Some(c))
    requires c in s.workers && WorkerOk(db, s.gate, c, phase)
    requires s.workers[c].After? ==> phase.After? && (c in db.actions.rows ==> db.actions.rows[c].status != Pending)
    ensures SysInv(s.(db := db, workers := s.workers[c := phase]))
  {
    forall d | d in s.workers && d != c ensures WorkerOk(db, s.gate, d, s.workers[d]) {
      OthersStand(s, c, db, terms, d);
    }
    forall i | 0 <= i < |s.calls| ensures CallOk(db, s.workers[c := phase], s.calls[i]) {
      assert CallOk(s.db, s.workers, s.calls[i]);
      CallsStand(s, c, db, terms, s.workers[c := phase], i);
    }
    HaveBond(SameActions, s.db, db, terms);
  }

  lemma ClaimKeeps(s: Sys, c: Id)
    requires SysInv(s) && Take(s, Claiming(c)).Some?
    ensures SysInv(Take(s, Claiming(c)).value)
  {
    var terms := Terms(None, false, None, {c}, false);
    var s' := Take(s, Claiming(c)).value;
    SetStatusKeeps(s.db, c, Pending, Inflight);
    SetStatusEvolves(s.db, c, Pending, Inflight, terms);
    forall d | d in s'.workers ensures WorkerOk(s'.db, s'.gate, d, s'.workers[d]) {
      if d != c {
        OthersStand(s, c, s'.db, terms, d);
      } else {
        Have(Actors, Begin(s.db)); Have(Fresh, Begin(s.db));
      }
    }
    forall i | 0 <= i < |s.calls| ensures CallOk(s'.db, s'.workers, s.calls[i]) {
      assert CallOk(s.db, s.workers, s.calls[i]);
      CallsStand(s, c, s'.db, terms, s'.workers, i);
    }
  }

  lemma EnterKeeps(s: Sys, c: Id)
    requires SysInv(s) && Take(s, Entering(c)).Some?
    ensures SysInv(Take(s, Entering(c)).value)
  {
    var s' := Take(s, Entering(c)).value;
    assert WorkerOk(s.db, s.gate, c, s.workers[c]);
    forall d | d in s'.workers ensures WorkerOk(s.db, s'.gate, d, s'.workers[d]) {
      assert WorkerOk(s.db, s.gate, d, s.workers[d]);
    }
    forall i | 0 <= i < |s.calls| ensures CallOk(s.db, s'.workers, s.calls[i]) {
      assert CallOk(s.db, s.workers, s.calls[i]);
    }
  }

  lemma RequeueKeeps(s: Sys, c: Id, durable: bool)
    requires SysInv(s) && Take(s, Requeuing(c, durable)).Some?
    ensures SysInv(Take(s, Requeuing(c, durable)).value)
  {
    var terms := Terms(None, false, None, {c}, false);
    assert WorkerOk(s.db, s.gate, c, InGate);
    SetStatusKeeps(s.db, c, Inflight, Pending);
    SetStatusEvolves(s.db, c, Inflight, Pending, terms);
    Unchanged(s.db, terms);
    WorkerStep(s, c, After([]), Take(s, Requeuing(c, durable)).value.db, terms);
  }

  /** The row a start is built from is read under the gate, while its dispatch is still pending a start. */
  lemma ReadKeeps(s: Sys, c: Id, usable: bool)
    requires SysInv(s) && Take(s, Reading(c, usable)).Some?
    ensures SysInv(Take(s, Reading(c, usable)).value)
  {
    var terms := Terms(None, false, None, {c}, false);
    ReadOk(s, c, usable);
    Unchanged(s.db, terms);
    WorkerStep(s, c, Take(s, Reading(c, usable)).value.workers[c], s.db, terms);
  }

  lemma ReadOk(s: Sys, c: Id, usable: bool)
    requires SysInv(s) && Take(s, Reading(c, usable)).Some?
    ensures WorkerOk(s.db, s.gate, c, Take(s, Reading(c, usable)).value.workers[c])
  {
    assert WorkerOk(s.db, s.gate, c, InGate);
    MayCall(s.db, s.gate, c);
  }

  /** Inside the gate, a dispatch whose attempt is still dispatching is not covered; any other is given up. */
  lemma MayCall(db: Db, gate: Option<Id>, c: Id)
    requires Inv(db) && WorkerOk(db, gate, c, InGate)
    ensures WorkerOk(db, gate, c, After(UNCERTAIN))
    ensures db.attempts.rows[db.actions.rows[c].attempt].state.Dispatching? ==> WorkerOk(db, gate, c, AtCall)
  {
    Have(Starts, Begin(db));
  }

  lemma FollowsPlan(kind: ActionKind, todo: seq<Todo>)
    requires Follows(kind, todo)
    ensures Plan(kind, todo) && Live(After(todo))
  {
  }

  lemma CallKeeps(s: Sys, c: Id, todo: seq<Todo>)
    requires SysInv(s) && Take(s, Calling(c, todo)).Some?
    ensures SysInv(Take(s, Calling(c, todo)).value)
  {
    var s' := Take(s, Calling(c, todo)).value;
    FollowsPlan(s.db.actions.rows[c].kind, todo);
    forall d | d in s'.workers ensures WorkerOk(s.db, s.gate, d, s'.workers[d]) {
      assert WorkerOk(s.db, s.gate, d, s.workers[d]);
    }
    assert WorkerOk(s.db, s.gate, c, AtCall);
    forall i | 0 <= i < |s'.calls| ensures CallOk(s.db, s'.workers, s'.calls[i]) && (i < |s.calls| ==> s'.calls[i].command != c) {
      if i < |s.calls| {
        assert CallOk(s.db, s.workers, s.calls[i]);
      }
    }
  }

  lemma LeaveKeeps(s: Sys, c: Id)
    requires SysInv(s) && Take(s, Leaving(c)).Some?
    ensures SysInv(Take(s, Leaving(c)).value)
  {
    var s' := Take(s, Leaving(c)).value;
    forall d | d in s'.workers ensures WorkerOk(s.db, s'.gate, d, s'.workers[d]) {
      assert WorkerOk(s.db, s.gate, d, s.workers[d]);
    }
    forall i | 0 <= i < |s.calls| ensures CallOk(s.db, s'.workers, s.calls[i]) {
      assert CallOk(s.db, s.workers, s.calls[i]);
    }
  }

  lemma CrashKeeps(s: Sys)
    requires SysInv(s)
    ensures Take(s, Crashing).Some? && SysInv(Take(s, Crashing).value)
  {
    RecoverKeeps(s.db);
    StrandKeeps(s.db);
    var s' := Take(s, Crashing).value;
    var terms := Terms(None, false, None, s.db.actions.rows.Keys, false);
    RecoverEvolves(s.db, terms);
    HaveBond(SameActions, s.db, s'.db, terms);
    forall i | 0 <= i < |s.calls| ensures CallOk(s'.db, s'.workers, s.calls[i]) {
      assert CallOk(s.db, s.workers, s.calls[i]);
      RecoverStatuses(s.db, s.calls[i].command);
    }
  }

  /** Startup leaves nothing claimable behind. */
  lemma RecoverStatuses(db: Db, c: Id)
    requires Recover(db).Some? && c in db.actions.rows
    ensures c in Recover(db).value.actions.rows && !Unclaimed(Recover(db).value.actions.rows[c].status)
  {
  }

  lemma WriteKeeps(db: Db, c: Id, todo: Todo)
    requires Inv(db) && c in db.actions.rows && db.actions.rows[c].status == Inflight && Fits(db.actions.rows[c].kind, todo)
    requires todo.RefusalTodo? && c in db.attempts.rows ==> !db.attempts.rows[c].started
    ensures Write(db, c, todo).Some? ==> Inv(Write(db, c, todo).value)
  {
    var action := db.actions.rows[c];
    Have(Actors, Begin(db)); Have(Links, Begin(db));
    match todo
    case MarkUnknownTodo => MarkUnknownKeeps(db, action.attempt, action.request, UnknownEffect);
    case RefusalTodo => ObserveRefusalKeeps(db, action.attempt);
    case StartedTodo => MarkStartedKeeps(db, action.attempt);
    case SteerTodo(outcome) => FinishSteerKeeps(db, c, outcome);
    case AnswerTodo(outcome) => FinishResponseKeeps(db, action, outcome);
    case FinishTodo(status) => SetStatusKeeps(db, c, Inflight, status);
  }

  /** What a write may move: the status it settles, the attempt it starts. */
  function WriteTerms(c: Id, todo: Todo, parked: Option<Scope>): Terms {
    Terms(parked, false, if todo.StartedTodo? then Some(c) else None, if todo.FinishTodo? then {c} else {}, todo == AnswerTodo(ResponseUnknown))
  }

  lemma WriteEvolves(db: Db, c: Id, todo: Todo, parked: Option<Scope>)
    requires Inv(db) && c in db.actions.rows && db.actions.rows[c].status == Inflight && Fits(db.actions.rows[c].kind, todo)
    requires Sheltered(db, WriteTerms(c, todo, parked))
    ensures Write(db, c, todo).Some? ==> Extends(db, Write(db, c, todo).value, WriteTerms(c, todo, parked))
  {
    var action, terms := db.actions.rows[c], WriteTerms(c, todo, parked);
    Have(Actors, Begin(db)); Have(Links, Begin(db));
    match todo
    case MarkUnknownTodo => MarkUnknownEvolves(db, action.attempt, action.request, UnknownEffect, terms);
    case RefusalTodo => ObserveRefusalEvolves(db, action.attempt, terms);
    case StartedTodo => MarkStartedEvolves(db, action.attempt, terms);
    case SteerTodo(outcome) => FinishSteerEvolves(db, c, outcome, terms);
    case AnswerTodo(outcome) => FinishResponseEvolves(db, c, outcome, terms);
    case FinishTodo(status) => SetStatusEvolves(db, c, Inflight, status, terms);
  }

  lemma PlanRest(kind: ActionKind, todo: seq<Todo>)
    requires Plan(kind, todo) && |todo| > 0
    ensures Plan(kind, todo[1..]) && !Unstarted(After(todo[1..])) && (todo[0].FinishTodo? ==> todo[1..] == [])
    ensures todo[0].StartedTodo? ==> kind == DispatchStart && Plan(kind, UNCERTAIN)
  {
  }

  lemma WritingKeeps(s: Sys, c: Id, durable: bool)
    requires SysInv(s) && TakeWriting(s, c, durable).Some?
    ensures SysInv(TakeWriting(s, c, durable).value)
  {
    var todo, s' := s.workers[c].todo, TakeWriting(s, c, durable).value;
    var terms := WriteTerms(c, todo[0], None);
    assert WorkerOk(s.db, s.gate, c, s.workers[c]);
    PlanRest(s.db.actions.rows[c].kind, todo);
    Have(Actors, Begin(s.db));
    WriteKeeps(s.db, c, todo[0]);
    WriteEvolves(s.db, c, todo[0], None);
    Unchanged(s.db, terms);
    HaveBond(SameActions, s.db, s'.db, terms); HaveBond(SameAttempts, s.db, s'.db, terms);
    FinishStatus(s.db, c, todo[0]);
    WorkerStep(s, c, s'.workers[c], s'.db, terms);
  }

  lemma FinishStatus(db: Db, c: Id, todo: Todo)
    requires c in db.actions.rows && db.actions.rows[c].status == Inflight && Fits(db.actions.rows[c].kind, todo)
    ensures todo.FinishTodo? ==> Write(db, c, todo).Some? && c in Write(db, c, todo).value.actions.rows
                                 && Write(db, c, todo).value.actions.rows[c].status != Pending
  {
  }

  /** Every step of the running node keeps the invariant. */
  lemma StepKeeps(s: Sys, step: Step)
    requires SysInv(s) && Take(s, step).Some?
    ensures SysInv(Take(s, step).value)
  {
    if OwnTransaction(step) {
      var terms := Terms(None, Gated(step), None, {}, false);
      TransactionKeeps(s.db, step);
      TransactionEvolves(s.db, step, terms);
      StoreStep(s, Transact(s.db, step).value, terms);
    } else {
      match step
      case Claiming(c) => ClaimKeeps(s, c);
      case Entering(c) => EnterKeeps(s, c);
      case Requeuing(c, durable) => RequeueKeeps(s, c, durable);
      case Reading(c, usable) => ReadKeeps(s, c, usable);
      case Calling(c, todo) => CallKeeps(s, c, todo);
      case Writing(c, durable) => WritingKeeps(s, c, durable);
      case Leaving(c) => LeaveKeeps(s, c);
      case Crashing => CrashKeeps(s);
    }
  }

  lemma RunKeeps(run: seq<Sys>, steps: seq<Step>, k: nat)
    requires IsRun(run, steps) && k < |steps| && SysInv(run[k])
    ensures SysInv(run[k + 1])
  {
    assert Stepped(run, steps, k);
    StepKeeps(run[k], steps[k]);
  }

  lemma {:induction false} Reachable(run: seq<Sys>, steps: seq<Step>, i: nat)
    requires IsRun(run, steps) && i < |run|
    ensures SysInv(run[i])
  {
    if i == 0 {
      InitialInv(run[0]);
    } else {
      Reachable(run, steps, i - 1);
      RunKeeps(run, steps, i - 1);
    }
  }
}
