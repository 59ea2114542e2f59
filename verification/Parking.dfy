/** Quiescence: a parked scope stays parked until its hold gets an outcome row, and the
    scope's version tells whether anything a proof depends on has changed. */
module Parking {
  import opened Wrappers
  import opened Store
  import opened Commands
  import opened Execution
  import opened Observation
  import opened Administration
  import opened Invariants
  import opened RowLemmas
  import opened Evolution
  import opened Lineage
  import opened System
  import opened SystemKeeps
  import opened Theorems

  /** What a quiescence proof states about its scope. */
  datatype Proof = Proof(op: Id, scope: Scope, holdVersion: nat, scopeRevision: nat, stateVersion: nat, queueRevision: nat, waiting: set<Id>)

  /** The read that issues a proof, or refuses it. */
  function QuiescenceProof(db: Db, op: Id): Option<Proof> {
    if !Parked(db, op) then None else
      var hold := db.holds.rows[op];
      Some(Proof(op, hold.scope, hold.holdVersion, hold.scopeRevision,
                 db.revisions.rows[hold.scope].state, db.revisions.rows[hold.scope].queue,
                 set r | r in db.requests.rows && InScope(hold.scope, Some(db.requests.rows[r].dialog)) && db.requests.rows[r].status.Queued?))
  }

  // ---- parked is stable ------------------------------------------------------------------

  lemma QuietStays(db: Db, db': Db, terms: Terms)
    requires Extends(db, db', terms) && terms.parked.Some? && Quiet(db, terms.parked.value)
    ensures Quiet(db', terms.parked.value)
  {
    HaveBond(Calm, db, db', terms);
    HaveBond(SameAttempts, db, db', terms);
    HaveBond(SameRows, db, db', terms);
    SettledStays(db, db', terms.parked.value, terms.starts);
  }

  lemma SettledStays(db: Db, db': Db, s: Scope, starts: Option<Id>)
    requires StandsStill(db, db', s) && AttemptsKept(db.attempts.rows, db'.attempts.rows, starts) && EffectsSettled(db, s)
    ensures EffectsSettled(db', s)
  {
  }

  /** An administrative change leaves the row and the revision of every other active hold alone. */
  lemma OtherHoldsStay(db: Db, step: Step, op: Id)
    requires HoldsApart(db.holds.rows, db.releases.rows, db.holdRevisions.rows)
    requires Gated(step) && Transact(db, step).Some? && op in db.holds.rows && op !in db.releases.rows
    ensures var db' := Transact(db, step).value;
      && op in db'.holds.rows && db'.holds.rows[op] == db.holds.rows[op]
      && (op !in db'.releases.rows ==> ScopeRevision(db', db.holds.rows[op].scope) == ScopeRevision(db, db.holds.rows[op].scope))
  {
  }

  lemma QuietStep(s: Sys, step: Step, scope: Scope)
    requires SysInv(s) && Take(s, step).Some? && Sheltered(s.db, StepTerms(s, step, Some(scope))) && Quiet(s.db, scope)
    ensures Quiet(Take(s, step).value.db, scope)
  {
    StepEvolves(s, step, Some(scope));
    QuietStays(s.db, Take(s, step).value.db, StepTerms(s, step, Some(scope)));
  }

  lemma ParkedStep(s: Sys, step: Step, op: Id)
    requires SysInv(s) && Take(s, step).Some? && Parked(s.db, op) && op !in Take(s, step).value.db.releases.rows
    ensures Parked(Take(s, step).value.db, op)
  {
    var scope := s.db.holds.rows[op].scope;
    HoldStands(s, step, op);
    ScopeKeepsVersion(s, step, scope);
    QuietStep(s, step, scope);
  }

  /** An active hold keeps its row and its revision, and its scope keeps its version row. */
  lemma HoldStands(s: Sys, step: Step, op: Id)
    requires SysInv(s) && Take(s, step).Some? && op in s.db.holds.rows
    requires op !in s.db.releases.rows && op !in Take(s, step).value.db.releases.rows
    ensures var db, db' := s.db, Take(s, step).value.db;
      && op in db'.holds.rows && db'.holds.rows[op] == db.holds.rows[op]
      && ScopeRevision(db', db.holds.rows[op].scope) == ScopeRevision(db, db.holds.rows[op].scope)
  {
    if Gated(step) {
      Have(Clause.Holding, Begin(s.db));
      OtherHoldsStay(s.db, step, op);
    } else {
      StepEvolves(s, step, None);
      HaveBond(SameHolds, s.db, Take(s, step).value.db, StepTerms(s, step, None));
    }
  }

  lemma ScopeKeepsVersion(s: Sys, step: Step, scope: Scope)
    requires SysInv(s) && Take(s, step).Some? && scope in s.db.revisions.rows
    ensures scope in Take(s, step).value.db.revisions.rows
  {
    StepEvolves(s, step, None);
    HaveBond(Versions, s.db, Take(s, step).value.db, StepTerms(s, step, None));
    assert VersionMoves(s.db, Take(s, step).value.db, scope);
  }

  lemma RunParkedStep(run: seq<Sys>, steps: seq<Step>, k: nat, op: Id)
    requires IsRun(run, steps) && k < |steps| && Parked(run[k].db, op) && op !in run[k + 1].db.releases.rows
    ensures Parked(run[k + 1].db, op)
  {
    StepOf(run, steps, k);
    ParkedStep(run[k], steps[k], op);
  }

  /** Once a held scope qualifies for a proof it keeps qualifying, through cancels, late events, artifacts, other
      dialogs' work and restarts, for as long as its hold has no outcome row. */
  lemma {:induction false} ParkedIsStable(run: seq<Sys>, steps: seq<Step>, i: nat, j: nat, op: Id)
    requires IsRun(run, steps) && i <= j < |run| && Parked(run[i].db, op)
    requires forall k :: i <= k <= j ==> op !in run[k].db.releases.rows
    ensures Parked(run[j].db, op)
  {
    if i < j {
      var k := j - 1;
      ParkedIsStable(run, steps, i, k, op);
      RunParkedStep(run, steps, k, op);
    }
  }

  // ---- the version brackets ------------------------------------------------------------------

  lemma {:induction false} VersionsOnlyRise(run: seq<Sys>, steps: seq<Step>, i: nat, j: nat, s: Scope)
    requires IsRun(run, steps) && i <= j < |run|
    ensures VersionMoves(run[i].db, run[j].db, s)
  {
    if i < j {
      var k := j - 1;
      VersionsOnlyRise(run, steps, i, k, s);
      Neighbours(run, steps, k);
      assert VersionMoves(run[k].db, run[j].db, s);
    }
  }

  /** Two proofs with the same state version are the same proof, and nothing either of them depends on
      changed at any moment between them. */
  lemma ProofsBracket(run: seq<Sys>, steps: seq<Step>, i: nat, k: nat, j: nat, op: Id)
    requires IsRun(run, steps) && i <= k <= j < |run|
    requires QuiescenceProof(run[i].db, op).Some? && QuiescenceProof(run[j].db, op).Some?
    requires QuiescenceProof(run[i].db, op).value.stateVersion == QuiescenceProof(run[j].db, op).value.stateVersion
    ensures run[i].db.holds.rows[op] == run[j].db.holds.rows[op]
    ensures QuiescenceProof(run[i].db, op) == QuiescenceProof(run[j].db, op)
    ensures Seen(run[k].db, run[i].db.holds.rows[op].scope) == Seen(run[i].db, run[i].db.holds.rows[op].scope)
  {
    HoldRowStays(run, steps, i, j, op);
    var s := run[i].db.holds.rows[op].scope;
    VersionsOnlyRise(run, steps, i, k, s);
    VersionsOnlyRise(run, steps, k, j, s);
    VersionsOnlyRise(run, steps, i, j, s);
    assert SeenRequests(run[i].db.requests.rows, s) == SeenRequests(run[j].db.requests.rows, s);
    WaitingSeen(run[i].db, op);
    WaitingSeen(run[j].db, op);
  }

  /** The requests a proof counts are those its view shows as queued. */
  lemma WaitingSeen(db: Db, op: Id)
    requires QuiescenceProof(db, op).Some?
    ensures var seen := SeenRequests(db.requests.rows, db.holds.rows[op].scope);
      QuiescenceProof(db, op).value.waiting == set r | r in seen && seen[r].status.Queued?
  {
  }

  /** Holds, their outcomes and the record of deletions are written once and never again. */
  ghost predicate FilesGrow(db: Db, db': Db) {
    && (forall op :: op in db.holds.rows ==> op in db'.holds.rows && db'.holds.rows[op] == db.holds.rows[op])
    && (forall op :: op in db.releases.rows ==> op in db'.releases.rows && db'.releases.rows[op] == db.releases.rows[op])
    && (forall op :: op in db.deletions.rows ==> op in db'.deletions.rows && db'.deletions.rows[op] == db.deletions.rows[op])
  }

  lemma FilesStep(s: Sys, step: Step)
    requires SysInv(s) && Take(s, step).Some?
    ensures FilesGrow(s.db, Take(s, step).value.db)
  {
    if Gated(step) {
      GatedFilesGrow(s.db, step);
    } else {
      StepEvolves(s, step, None);
      HaveBond(SameHolds, s.db, Take(s, step).value.db, StepTerms(s, step, None));
    }
  }

  lemma GatedFilesGrow(db: Db, step: Step)
    requires Gated(step) && Transact(db, step).Some?
    ensures FilesGrow(db, Transact(db, step).value)
  {
    match step
    case Installing(op, digest, scope, expected) => InstallFiles(db, op, digest, scope, expected);
    case Releasing(_, _, _, _, _) =>
    case Deleting(op, digest, dialog, _, _, receipt, receiptDigest, dialogVersion) =>
      DeletionFiles(db, op, digest, dialog, receipt, receiptDigest, dialogVersion);
  }

  lemma InstallFiles(db: Db, op: Id, digest: Id, scope: Scope, expected: nat)
    requires InstallHold(db, op, digest, scope, expected).Some?
    ensures FilesGrow(db, InstallHold(db, op, digest, scope, expected).value)
  {
  }

  lemma DeletionFiles(db: Db, op: Id, digest: Id, dialog: Id, command: Id, commandDigest: Id, dialogVersion: nat)
    requires op in db.holds.rows && op !in db.releases.rows && op !in db.deletions.rows
    ensures FilesGrow(db, Save(DeletionRows(db, op, digest, dialog, command, commandDigest, dialogVersion)).db)
  {
  }

  lemma FilesChain(first: Db, second: Db, third: Db)
    requires FilesGrow(first, second) && FilesGrow(second, third)
    ensures FilesGrow(first, third)
  {
  }

  lemma RunFilesStep(run: seq<Sys>, steps: seq<Step>, k: nat)
    requires IsRun(run, steps) && k < |steps|
    ensures FilesGrow(run[k].db, run[k + 1].db)
  {
    StepOf(run, steps, k);
    FilesStep(run[k], steps[k]);
  }

  lemma {:induction false} FilesOnlyGrow(run: seq<Sys>, steps: seq<Step>, i: nat, j: nat)
    requires IsRun(run, steps) && i <= j < |run|
    ensures FilesGrow(run[i].db, run[j].db)
  {
    if i < j {
      var k := j - 1;
      FilesOnlyGrow(run, steps, i, k);
      RunFilesStep(run, steps, k);
      FilesChain(run[i].db, run[k].db, run[j].db);
    }
  }

  lemma HoldRowStays(run: seq<Sys>, steps: seq<Step>, i: nat, j: nat, op: Id)
    requires IsRun(run, steps) && i <= j < |run| && op in run[i].db.holds.rows
    ensures op in run[j].db.holds.rows && run[j].db.holds.rows[op] == run[i].db.holds.rows[op]
  {
    FilesOnlyGrow(run, steps, i, j);
  }

  /** A hold, a release or a deletion once carried out answers every later request under its identifier from the file, and
      changes nothing: the same request with its receipt, any other with a conflict. */
  lemma OperationsAreAnsweredOnce(run: seq<Sys>, steps: seq<Step>, i: nat, j: nat, op: Id, digest: Id)
    requires IsRun(run, steps) && i <= j < |run|
    ensures op in run[i].db.holds.rows ==> forall scope, expected ::
      AskInstall(run[j].db, op, digest, scope, expected) == (Recorded(digest, run[i].db.holds.rows[op].digest), run[j].db)
    ensures op in run[i].db.releases.rows ==> forall scope, holdVersion, expected ::
      AskRelease(run[j].db, op, digest, scope, holdVersion, expected) == (Recorded(digest, run[i].db.releases.rows[op].digest), run[j].db)
    ensures op in run[i].db.deletions.rows ==> forall dialog, holdVersion, scopeRevision, command, commandDigest, dialogVersion ::
      AskDelete(run[j].db, op, digest, dialog, holdVersion, scopeRevision, command, commandDigest, dialogVersion)
      == (Recorded(digest, run[i].db.deletions.rows[op].digest), run[j].db)
  {
    FilesOnlyGrow(run, steps, i, j);
  }
}
