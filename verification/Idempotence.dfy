/** Command identifiers: one outcome each, and a resubmission that changes nothing. */
module Idempotence {
  import opened Wrappers
  import opened Store
  import opened Commands
  import opened Execution
  import opened Administration
  import opened Invariants
  import opened Evolution
  import opened System
  import opened SystemKeeps
  import opened Theorems

  /** A command never gets a second outcome, and the one it has never changes. */
  lemma {:induction false} OutcomeIsFinal(run: seq<Sys>, steps: seq<Step>, i: nat, j: nat, id: Id)
    requires IsRun(run, steps) && i <= j < |run| && Ledger(run[i].db, id).Some?
    ensures Ledger(run[j].db, id) == Ledger(run[i].db, id)
    ensures id in run[j].db.accepted.rows <==> id in run[i].db.accepted.rows
    ensures !(id in run[j].db.accepted.rows && id in run[j].db.rejected.rows)
  {
    Reachable(run, steps, j);
    Have(Outcomes, Begin(run[j].db));
    if i < j {
      var k := j - 1;
      OutcomeIsFinal(run, steps, i, k, id);
      Neighbours(run, steps, k);
    }
  }

  /** Submitting an identifier again, with the same bytes or with others, leaves the store as it is. */
  lemma ResubmissionIsSilent(db: Db, id: Id, digest: Id, command: Command, ids: Supply, commits: bool)
    requires Ledger(db, id).Some?
    ensures Submit(db, id, digest, command, ids, commits).1 == db
    ensures Submit(db, id, digest, command, ids, commits).0 ==
      if Ledger(db, id).value.digest != digest then IdConflict
      else if Ledger(db, id).value.dialog.Some? && Deleted(db, Ledger(db, id).value.dialog.value) then NotFound
      else Replayed(id in db.accepted.rows)
  {
  }

  /** A command turned away by a hold is turned away for good: the release of the hold does not readmit it. */
  lemma RejectionOutlivesHold(run: seq<Sys>, steps: seq<Step>, i: nat, j: nat, command: Command, ids: Supply, commits: bool)
    requires IsRun(run, steps) && i < |steps| && i < j < |run| && steps[i].Submitting?
    requires Submit(run[i].db, steps[i].id, steps[i].digest, steps[i].command, steps[i].ids, steps[i].commits).0 == HeldBack
    ensures var (reply, after) := Submit(run[j].db, steps[i].id, steps[i].digest, command, ids, commits);
      (reply == Replayed(false) || reply == NotFound) && after == run[j].db
  {
    StepOf(run, steps, i);
    OutcomeIsFinal(run, steps, i + 1, j, steps[i].id);
    ResubmissionIsSilent(run[j].db, steps[i].id, steps[i].digest, command, ids, commits);
  }

  predicate Resubmits(s: Sys, step: Step) {
    step.Submitting? && Ledger(s.db, step.id).Some?
  }

  /** The run without its resubmissions. */
  function Distinct(run: seq<Sys>, steps: seq<Step>): (r: (seq<Sys>, seq<Step>))
    requires |run| == |steps| + 1
    ensures |r.0| == |r.1| + 1
  {
    if steps == [] then (run, steps) else
      var n := |steps| - 1;
      var (states, kept) := Distinct(run[..n + 1], steps[..n]);
      if Resubmits(run[n], steps[n]) then (states, kept) else (states + [run[n + 1]], kept + [steps[n]])
  }

  lemma RunPrefix(run: seq<Sys>, steps: seq<Step>, n: nat)
    requires IsRun(run, steps) && n <= |steps|
    ensures IsRun(run[..n + 1], steps[..n])
  {
    var front, first := run[..n + 1], steps[..n];
    forall i: nat | i < |first| ensures Stepped(front, first, i) {
      assert Stepped(run, steps, i);
    }
  }

  lemma ResubmittingStays(s: Sys, step: Step)
    requires Resubmits(s, step)
    ensures Take(s, step) == Some(s)
  {
  }

  /** Any run with arbitrary resubmissions ends in the state of the run that has none of them. */
  lemma {:induction false} ResubmissionsRefine(run: seq<Sys>, steps: seq<Step>)
    requires IsRun(run, steps)
    ensures var (states, kept) := Distinct(run, steps);
      && IsRun(states, kept) && states[|kept|] == run[|steps|]
      && forall i :: 0 <= i < |kept| ==> !Resubmits(states[i], kept[i])
  {
    if steps != [] {
      var n := |steps| - 1;
      RunPrefix(run, steps, n);
      ResubmissionsRefine(run[..n + 1], steps[..n]);
      var (states, kept) := Distinct(run[..n + 1], steps[..n]);
      assert Stepped(run, steps, n);
      if Resubmits(run[n], steps[n]) {
        ResubmittingStays(run[n], steps[n]);
      } else {
        RunExtends(states, kept, run[n + 1], steps[n]);
      }
    }
  }

  lemma RunExtends(run: seq<Sys>, steps: seq<Step>, s: Sys, step: Step)
    requires IsRun(run, steps) && Take(run[|steps|], step) == Some(s)
    ensures IsRun(run + [s], steps + [step])
  {
    var longer, all := run + [s], steps + [step];
    forall i: nat | i < |all| ensures Stepped(longer, all, i) {
      assert i < |steps| ==> Stepped(run, steps, i);
    }
  }
}
