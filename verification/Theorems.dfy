/** What holds over every run of the node, whatever is interleaved and wherever it crashes. */
module Theorems {
  import opened Wrappers
  import opened Store
  import opened Commands
  import opened Execution
  import opened Observation
  import opened Administration
  import opened Invariants
  import opened RowLemmas
  import opened ExecutionKeeps
  import opened Evolution
  import opened Lineage
  import opened ExecutionEvolves
  import opened System
  import opened SystemKeeps

  // ---- one step, seen through the bonds --------------------------------------------------

  function StepTerms(s: Sys, step: Step, parked: Option<Scope>): Terms {
    match step
    case Claiming(c) => Terms(parked, false, None, {c}, false)
    case Requeuing(c, _) => Terms(parked, false, None, {c}, false)
    case Writing(c, _) =>
      if c in s.workers && s.workers[c].After? && |s.workers[c].todo| > 0 then WriteTerms(c, s.workers[c].todo[0], parked)
      else Terms(parked, false, None, {}, false)
    case Crashing => Terms(parked, false, None, s.db.actions.rows.Keys, false)
    case _ => Terms(parked, Gated(step), None, {}, false)
  }

  lemma StepEvolves(s: Sys, step: Step, parked: Option<Scope>)
    requires SysInv(s) && Take(s, step).Some? && Sheltered(s.db, StepTerms(s, step, parked))
    ensures Extends(s.db, Take(s, step).value.db, StepTerms(s, step, parked))
  {
    if OwnTransaction(step) {
      OwnEvolves(s, step, parked);
    } else {
      LaneEvolves(s, step, parked);
    }
  }

  lemma OwnEvolves(s: Sys, step: Step, parked: Option<Scope>)
    requires SysInv(s) && OwnTransaction(step) && Take(s, step).Some? && Sheltered(s.db, StepTerms(s, step, parked))
    ensures Extends(s.db, Take(s, step).value.db, StepTerms(s, step, parked))
  {
    TransactionEvolves(s.db, step, StepTerms(s, step, parked));
  }

  lemma LaneEvolves(s: Sys, step: Step, parked: Option<Scope>)
    requires SysInv(s) && !OwnTransaction(step) && Take(s, step).Some? && Sheltered(s.db, StepTerms(s, step, parked))
    ensures Extends(s.db, Take(s, step).value.db, StepTerms(s, step, parked))
  {
    var terms := StepTerms(s, step, parked);
    match step
    case Claiming(c) => SetStatusEvolves(s.db, c, Pending, Inflight, terms);
    case Requeuing(c, durable) => RequeueEvolves(s, c, durable, parked);
    case Writing(c, durable) => WritingEvolves(s, c, durable, parked);
    case Crashing => CrashEvolves(s, parked);
    case _ => Unchanged(s.db, terms);
  }

  lemma RequeueEvolves(s: Sys, c: Id, durable: bool, parked: Option<Scope>)
    requires SysInv(s) && Take(s, Requeuing(c, durable)).Some? && Sheltered(s.db, StepTerms(s, Requeuing(c, durable), parked))
    ensures Extends(s.db, Take(s, Requeuing(c, durable)).value.db, StepTerms(s, Requeuing(c, durable), parked))
  {
    var terms := StepTerms(s, Requeuing(c, durable), parked);
    SetStatusEvolves(s.db, c, Inflight, Pending, terms);
    Unchanged(s.db, terms);
  }

  lemma CrashEvolves(s: Sys, parked: Option<Scope>)
    requires SysInv(s) && Take(s, Crashing).Some? && Sheltered(s.db, StepTerms(s, Crashing, parked))
    ensures Extends(s.db, Take(s, Crashing).value.db, StepTerms(s, Crashing, parked))
  {
    StrandKeeps(s.db);
    RecoverEvolves(s.db, StepTerms(s, Crashing, parked));
  }

  lemma WritingEvolves(s: Sys, c: Id, durable: bool, parked: Option<Scope>)
    requires SysInv(s) && TakeWriting(s, c, durable).Some? && Sheltered(s.db, WriteTerms(c, s.workers[c].todo[0], parked))
    ensures Extends(s.db, TakeWriting(s, c, durable).value.db, WriteTerms(c, s.workers[c].todo[0], parked))
  {
    assert WorkerOk(s.db, s.gate, c, s.workers[c]);
    WriteEvolves(s.db, c, s.workers[c].todo[0], parked);
    Unchanged(s.db, WriteTerms(c, s.workers[c].todo[0], parked));
  }

  lemma StepOf(run: seq<Sys>, steps: seq<Step>, i: nat)
    requires IsRun(run, steps) && i < |steps|
    ensures Take(run[i], steps[i]) == Some(run[i + 1]) && SysInv(run[i]) && SysInv(run[i + 1])
  {
    assert Stepped(run, steps, i);
    Reachable(run, steps, i);
    Reachable(run, steps, i + 1);
  }

  /** The bonds that hold between two neighbouring states of every run. */
  lemma Neighbours(run: seq<Sys>, steps: seq<Step>, k: nat)
    requires IsRun(run, steps) && k < |steps|
    ensures Bound(SameLog, run[k].db, run[k + 1].db, StepTerms(run[k], steps[k], None))
    ensures Bound(SameLedger, run[k].db, run[k + 1].db, StepTerms(run[k], steps[k], None))
    ensures Bound(Versions, run[k].db, run[k + 1].db, StepTerms(run[k], steps[k], None))
    ensures Bound(SameFinals, run[k].db, run[k + 1].db, StepTerms(run[k], steps[k], None))
  {
    StepOf(run, steps, k);
    var terms := StepTerms(run[k], steps[k], None);
    StepEvolves(run[k], steps[k], None);
    HaveBond(SameLog, run[k].db, run[k + 1].db, terms); HaveBond(SameLedger, run[k].db, run[k + 1].db, terms);
    HaveBond(Versions, run[k].db, run[k + 1].db, terms); HaveBond(SameFinals, run[k].db, run[k + 1].db, terms);
  }

  // ---- hold safety ------------------------------------------------------------------------

  /** No provider start or resume is issued for an attempt whose dialog is under a committed, unreleased hold. */
  lemma HoldSafety(run: seq<Sys>, steps: seq<Step>, i: nat)
    requires IsRun(run, steps) && i < |steps| && |run[i + 1].calls| > |run[i].calls|
    requires run[i + 1].calls[|run[i].calls|].kind == DispatchStart
    ensures var attempt := run[i + 1].calls[|run[i].calls|].attempt;
      attempt in run[i].db.attempts.rows && !Covered(run[i].db, run[i].db.attempts.rows[attempt].dialog)
      && run[i + 1].db == run[i].db
  {
    StepOf(run, steps, i);
    match steps[i]
    case Calling(c, todo) => assert WorkerOk(run[i].db, run[i].gate, c, run[i].workers[c]);
    case _ =>
  }

  /** From the moment a hold is committed, and until it is released, nothing starts in its scope. */
  lemma HeldScopeStartsNothing(run: seq<Sys>, steps: seq<Step>, i: nat, op: Id)
    requires IsRun(run, steps) && i < |steps| && op in run[i].db.holds.rows && op !in run[i].db.releases.rows
    requires |run[i + 1].calls| > |run[i].calls| && run[i + 1].calls[|run[i].calls|].kind == DispatchStart
    ensures var attempt := run[i + 1].calls[|run[i].calls|].attempt;
      attempt in run[i].db.attempts.rows
      && !Covers(run[i].db.holds.rows[op].scope, run[i].db.attempts.rows[attempt].dialog)
  {
    HoldSafety(run, steps, i);
  }

  // ---- at most once -------------------------------------------------------------------------

  /** The record of provider calls only grows. */
  lemma {:induction false} CallsGrow(run: seq<Sys>, steps: seq<Step>, i: nat, j: nat)
    requires IsRun(run, steps) && i <= j < |run|
    ensures |run[i].calls| <= |run[j].calls| && run[j].calls[..|run[i].calls|] == run[i].calls
  {
    if i < j {
      var k, n := j - 1, |run[i].calls|;
      CallsGrow(run, steps, i, k);
      assert Stepped(run, steps, k);
      CallsStep(run[k], steps[k]);
      assert run[j].calls[..|run[k].calls|][..n] == run[j].calls[..n];
    }
  }

  lemma CallsStep(s: Sys, step: Step)
    requires Take(s, step).Some?
    ensures |s.calls| <= |Take(s, step).value.calls| && Take(s, step).value.calls[..|s.calls|] == s.calls
  {
  }

  /** Over a whole run with any number of crashes, a command reaches the provider at most once,
      and an attempt is started or resumed at most once. */
  lemma AtMostOnce(run: seq<Sys>, steps: seq<Step>, n: nat, i: nat, j: nat)
    requires IsRun(run, steps) && n < |run| && i < j < |run[n].calls|
    ensures run[n].calls[i].command != run[n].calls[j].command
    ensures run[n].calls[i].kind == DispatchStart && run[n].calls[j].kind == DispatchStart ==>
      run[n].calls[i].attempt != run[n].calls[j].attempt
  {
    Reachable(run, steps, n);
    var s := run[n];
    assert CallOk(s.db, s.workers, s.calls[i]) && CallOk(s.db, s.workers, s.calls[j]);
    Have(Actors, Begin(s.db));
  }

  // ---- the slot --------------------------------------------------------------------------------

  /** At most one attempt is active; the slot names it and the occupancy tells its state. */
  lemma OneActiveAttempt(run: seq<Sys>, steps: seq<Step>, i: nat, a: Id, b: Id)
    requires IsRun(run, steps) && i < |run| && a in run[i].db.attempts.rows && b in run[i].db.attempts.rows
    requires Occupies(run[i].db.attempts.rows[a].state)
    ensures Occupies(run[i].db.attempts.rows[b].state) <==> b == a
    ensures run[i].db.state.active == Some(a)
    ensures run[i].db.state.occupancy == (if run[i].db.attempts.rows[a].state.Unknown? then Doubtful else Busy)
    ensures run[i].db.attempts.rows[a].state.Unknown? ==> ExecutionUnknown in run[i].db.state.reasons
  {
    Reachable(run, steps, i);
    Have(Slot, Begin(run[i].db));
  }

  lemma IdleSlot(run: seq<Sys>, steps: seq<Step>, i: nat)
    requires IsRun(run, steps) && i < |run|
    ensures run[i].db.state.occupancy == Idle <==> run[i].db.state.active == None
    ensures run[i].db.state.active == None <==>
      forall a :: a in run[i].db.attempts.rows ==> !Occupies(run[i].db.attempts.rows[a].state)
    ensures run[i].db.state.active.Some? ==>
      run[i].db.state.active.value in run[i].db.attempts.rows && Occupies(run[i].db.attempts.rows[run[i].db.state.active.value].state)
  {
    Reachable(run, steps, i);
    Have(Slot, Begin(run[i].db));
  }

  /** The response contract of the Cursor adapter: an answer is applied or rejected, never unknown. */
  ghost predicate AnswersAreDecided(steps: seq<Step>) {
    forall i :: 0 <= i < |steps| && steps[i].Calling? ==> AnswerTodo(ResponseUnknown) !in steps[i].todo
  }

  ghost predicate Decided(s: Sys) {
    forall c :: c in s.workers && s.workers[c].After? ==> AnswerTodo(ResponseUnknown) !in s.workers[c].todo
  }

  lemma DecidedStep(s: Sys, step: Step)
    requires Decided(s) && Take(s, step).Some? && (step.Calling? ==> AnswerTodo(ResponseUnknown) !in step.todo)
    ensures Decided(Take(s, step).value)
  {
  }

  lemma {:induction false} RunDecided(run: seq<Sys>, steps: seq<Step>, i: nat)
    requires IsRun(run, steps) && AnswersAreDecided(steps) && i < |run|
    ensures Decided(run[i])
  {
    if i > 0 {
      var k := i - 1;
      RunDecided(run, steps, k);
      assert Stepped(run, steps, k);
      DecidedStep(run[k], steps[k]);
    }
  }

  lemma NothingReopens(s: Sys, step: Step)
    requires Decided(s)
    ensures !StepTerms(s, step, None).reopens
  {
  }

  lemma FinalStep(run: seq<Sys>, steps: seq<Step>, k: nat, a: Id)
    requires IsRun(run, steps) && AnswersAreDecided(steps) && k < |steps|
    requires a in run[k].db.attempts.rows && Finished(run[k].db.attempts.rows[a].state)
    ensures a in run[k + 1].db.attempts.rows && run[k + 1].db.attempts.rows[a].state == run[k].db.attempts.rows[a].state
  {
    RunDecided(run, steps, k);
    NothingReopens(run[k], steps[k]);
    Neighbours(run, steps, k);
  }

  /** Under that contract a finished attempt keeps its outcome for ever. */
  lemma {:induction false} TerminalIsAbsorbing(run: seq<Sys>, steps: seq<Step>, i: nat, j: nat, a: Id)
    requires IsRun(run, steps) && AnswersAreDecided(steps) && i <= j < |run|
    requires a in run[i].db.attempts.rows && Finished(run[i].db.attempts.rows[a].state)
    ensures a in run[j].db.attempts.rows && run[j].db.attempts.rows[a].state == run[i].db.attempts.rows[a].state
  {
    if i < j {
      var k := j - 1;
      TerminalIsAbsorbing(run, steps, i, k, a);
      FinalStep(run, steps, k, a);
    }
  }

  /** Only a crash and the worker that holds an unsettled action may move its status. */
  lemma MovesUnsettled(s: Sys, step: Step, c: Id)
    requires SysInv(s) && Take(s, step).Some? && c in StepTerms(s, step, None).moves && !step.Crashing?
    ensures c in s.db.actions.rows && (step.Claiming? || Unclaimed(s.db.actions.rows[c].status))
  {
    if !step.Claiming? {
      assert WorkerOk(s.db, s.gate, c, s.workers[c]);
    }
  }

  lemma SettledStep(s: Sys, step: Step, c: Id)
    requires SysInv(s) && Take(s, step).Some? && c in s.db.actions.rows && !Unclaimed(s.db.actions.rows[c].status)
    ensures c in Take(s, step).value.db.actions.rows && Take(s, step).value.db.actions.rows[c] == s.db.actions.rows[c]
  {
    if step.Crashing? {
      RecoverLeavesSettled(s.db, c);
    } else {
      StepEvolves(s, step, None);
      HaveBond(SameActions, s.db, Take(s, step).value.db, StepTerms(s, step, None));
      if c in StepTerms(s, step, None).moves {
        MovesUnsettled(s, step, c);
      }
    }
  }

  lemma RecoverLeavesSettled(db: Db, c: Id)
    requires Recover(db).Some? && c in db.actions.rows && !Unclaimed(db.actions.rows[c].status)
    ensures c in Recover(db).value.actions.rows && Recover(db).value.actions.rows[c] == db.actions.rows[c]
  {
  }

  /** What an action came to is final. */
  lemma {:induction false} SettledActionsStay(run: seq<Sys>, steps: seq<Step>, i: nat, j: nat, c: Id)
    requires IsRun(run, steps) && i <= j < |run| && c in run[i].db.actions.rows && !Unclaimed(run[i].db.actions.rows[c].status)
    ensures c in run[j].db.actions.rows && run[j].db.actions.rows[c] == run[i].db.actions.rows[c]
  {
    if i < j {
      var k := j - 1;
      SettledActionsStay(run, steps, i, k, c);
      StepOf(run, steps, k);
      SettledStep(run[k], steps[k], c);
    }
  }

  /** An unsettled steer keeps its attempt in the slot and its dialog unsettled. */
  lemma SteerPins(db: Db, c: Id)
    requires Inv(db) && c in db.actions.rows && db.actions.rows[c].kind == MessageSteer && db.actions.rows[c].status == Unsettled
    ensures var a := db.actions.rows[c].attempt;
      && db.state.active == Some(a) && a in db.attempts.rows && Occupies(db.attempts.rows[a].state)
      && !DialogSettled(db, db.attempts.rows[a].dialog)
      && forall op :: Parked(db, op) ==> !Covers(db.holds.rows[op].scope, db.attempts.rows[a].dialog)
  {
    Have(Actors, Begin(db)); Have(Life, Begin(db)); Have(Slot, Begin(db));
  }

  /** A steer whose outcome could not be established pins its attempt: the attempt keeps the slot for ever, no other
      request is ever dispatched, its dialog is never deleted and no hold over it ever proves quiescent. */
  lemma UnsettledSteerPinsTheSlot(run: seq<Sys>, steps: seq<Step>, i: nat, j: nat, c: Id)
    requires IsRun(run, steps) && i <= j < |run| && c in run[i].db.actions.rows
    requires run[i].db.actions.rows[c].kind == MessageSteer && run[i].db.actions.rows[c].status == Unsettled
    ensures var db, a := run[j].db, run[i].db.actions.rows[c].attempt;
      && db.state.active == Some(a) && a in db.attempts.rows && Occupies(db.attempts.rows[a].state)
      && (j < |steps| ==> !steps[j].DispatchingNext? && !(steps[j].Deleting? && steps[j].dialog == db.attempts.rows[a].dialog))
      && forall op :: Parked(db, op) ==> !Covers(db.holds.rows[op].scope, db.attempts.rows[a].dialog)
  {
    SettledActionsStay(run, steps, i, j, c);
    Reachable(run, steps, j);
    SteerPins(run[j].db, c);
    if j < |steps| {
      assert Stepped(run, steps, j);
    }
  }

  // ---- the queue ---------------------------------------------------------------------------------

  /** The pending count is the number of queued requests, between 0 and the capacity. */
  lemma QueueIsCounted(run: seq<Sys>, steps: seq<Step>, i: nat)
    requires IsRun(run, steps) && i < |run|
    ensures run[i].db.state.pendingCount == |QueuedSet(run[i].db.requests.rows)|
    ensures 0 <= run[i].db.state.pendingCount <= QUEUE_CAPACITY
  {
    Reachable(run, steps, i);
    Have(Count, Begin(run[i].db));
  }

  /** A dispatch takes exactly the first unheld request of the queue it commits against, however old the
      candidate it started from, and takes nothing else. */
  lemma DispatchTakesFirst(run: seq<Sys>, steps: seq<Step>, i: nat, other: Id)
    requires IsRun(run, steps) && i < |steps| && steps[i].DispatchingNext?
    ensures var r := steps[i].candidate.request; var db, db' := run[i].db, run[i + 1].db;
      && r in QueuedSet(db.requests.rows) && !Covered(db, db.requests.rows[r].dialog)
      && (other in QueuedSet(db.requests.rows) && other != r && !Covered(db, db.requests.rows[other].dialog) ==>
            db.requests.rows[r].queueSequence < db.requests.rows[other].queueSequence)
      && QueuedSet(db'.requests.rows) == QueuedSet(db.requests.rows) - {r}
      && db'.state.active == Some(steps[i].attempt) && steps[i].attempt in db'.attempts.rows
      && db'.attempts.rows[steps[i].attempt].request == r
  {
    StepOf(run, steps, i);
    Have(Count, Begin(run[i].db));
    DispatchShape(run[i].db, steps[i].candidate, steps[i].attempt, steps[i].generation);
    assert Eligible(run[i].db, steps[i].candidate.request);
  }

  lemma DispatchShape(db: Db, candidate: Candidate, a: Id, generation: nat)
    requires Dispatch(db, candidate, a, generation).Some?
    ensures var db' := Dispatch(db, candidate, a, generation).value;
      && QueuedSet(db'.requests.rows) == QueuedSet(db.requests.rows) - {candidate.request}
      && db'.state.active == Some(a) && a in db'.attempts.rows && db'.attempts.rows[a].request == candidate.request
  {
  }

  // ---- the log ---------------------------------------------------------------------------------------

  lemma LogStep(run: seq<Sys>, steps: seq<Step>, k: nat, n: nat)
    requires IsRun(run, steps) && k < |steps| && n in run[k].db.events.rows
    ensures n in run[k + 1].db.events.rows && run[k + 1].db.events.rows[n] == run[k].db.events.rows[n]
  {
    Neighbours(run, steps, k);
  }

  /** What was logged stays as it was. */
  lemma {:induction false} LogOnlyGrows(run: seq<Sys>, steps: seq<Step>, i: nat, j: nat, n: nat)
    requires IsRun(run, steps) && i <= j < |run| && n in run[i].db.events.rows
    ensures n in run[j].db.events.rows && run[j].db.events.rows[n] == run[i].db.events.rows[n]
  {
    if i < j {
      var k := j - 1;
      LogOnlyGrows(run, steps, i, k, n);
      LogStep(run, steps, k, n);
    }
  }

  /** The log is exactly the events 1 to the last sequence, each under its own number. */
  lemma LogIsGapFree(run: seq<Sys>, steps: seq<Step>, j: nat, n: nat)
    requires IsRun(run, steps) && j < |run|
    ensures n in run[j].db.events.rows <==> 1 <= n <= run[j].db.state.lastEventSeq
    ensures n in run[j].db.events.rows ==> run[j].db.events.rows[n].number == n
  {
    Reachable(run, steps, j);
    Have(Log, Begin(run[j].db));
  }
}
