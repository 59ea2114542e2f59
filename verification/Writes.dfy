/** Each row write honours every bond of an evolution. */
module Writes {
  import opened Wrappers
  import opened Store
  import opened Commands
  import opened Execution
  import opened Administration
  import opened Invariants
  import opened Evolution

  predicate Outside(terms: Terms, dialog: Option<Id>) {
    terms.parked.Some? ==> !InScope(terms.parked.value, dialog)
  }

  ghost predicate FreshLog(events: map<nat, Event>, last: nat) {
    forall n :: n in events ==> n <= last
  }

  /** A write that leaves what a scope sees, or moves its version. */
  lemma BumpMoves(db: Db, db': Db, dialog: Option<Id>, queue: nat, s: Scope)
    requires db'.revisions.rows == Bump(db.revisions.rows, dialog, queue)
    requires !InScope(s, dialog) ==> Seen(db', s) == Seen(db, s)
    ensures VersionMoves(db, db', s)
  {
  }

  lemma MessageWrite(t: Tx, m: Id, row: Message, terms: Terms)
    ensures Extends(t.db, PutMessage(t, m, row).db, terms)
  {
  }

  lemma RequestWrite(t: Tx, r: Id, row: Request, terms: Terms)
    requires r in t.db.requests.rows ==> row.dialog == t.db.requests.rows[r].dialog && row.message == t.db.requests.rows[r].message
                                         && row.queueSequence == t.db.requests.rows[r].queueSequence
    requires Outside(terms, Some(row.dialog)) || (r in t.db.requests.rows && row.status == Cancelled)
    ensures Extends(t.db, PutRequest(t, r, row).db, terms)
  {
    var db, db' := t.db, PutRequest(t, r, row).db;
    forall bond ensures Bound(bond, db, db', terms) {
      if bond == Versions {
        forall s ensures VersionMoves(db, db', s) {
          if !InScope(s, Some(row.dialog)) {
            assert SeenRequests(db'.requests.rows, s) == SeenRequests(db.requests.rows, s);
          }
          BumpMoves(db, db', Some(row.dialog), 1, s);
        }
      }
    }
  }

  /** An existing attempt's row is rewritten in place. */
  lemma AttemptWrite(t: Tx, a: Id, row: Attempt, terms: Terms)
    requires a in t.db.attempts.rows
    requires row.dialog == t.db.attempts.rows[a].dialog && row.request == t.db.attempts.rows[a].request
    requires row.generation == t.db.attempts.rows[a].generation
    requires t.db.attempts.rows[a].started ==> row.started
    requires row.started ==> t.db.attempts.rows[a].started || terms.starts == Some(a)
    requires Finished(t.db.attempts.rows[a].state) && row.state != t.db.attempts.rows[a].state ==> terms.reopens
    requires Outside(terms, Some(row.dialog)) || (row.state == t.db.attempts.rows[a].state && row.effect == t.db.attempts.rows[a].effect)
    ensures Extends(t.db, PutAttempt(t, a, row).db, terms)
  {
    var db, db' := t.db, PutAttempt(t, a, row).db;
    forall bond ensures Bound(bond, db, db', terms) {
      match bond
      case Versions =>
        forall s ensures VersionMoves(db, db', s) {
          AttemptVersions(t, a, row, s);
        }
      case Calm =>
        if terms.parked.Some? {
          AttemptStill(t, a, row, terms.parked.value);
        }
      case _ =>
    }
  }

  lemma AttemptStill(t: Tx, a: Id, row: Attempt, s: Scope)
    requires a in t.db.attempts.rows && row.dialog == t.db.attempts.rows[a].dialog
    requires !InScope(s, Some(row.dialog)) || (row.state == t.db.attempts.rows[a].state && row.effect == t.db.attempts.rows[a].effect)
    ensures StandsStill(t.db, PutAttempt(t, a, row).db, s)
  {
    var db, db' := t.db, PutAttempt(t, a, row).db;
    forall b ensures DialogIn(db'.attempts.rows, b) == DialogIn(db.attempts.rows, b) { }
    OthersStill(db, db', s);
  }

  /** Only attempts have moved, in state and effect not within the scope, and none to another dialog. */
  lemma OthersStill(db: Db, db': Db, s: Scope)
    requires db'.requests == db.requests && db'.actions == db.actions && db'.tools == db.tools
    requires db'.approvals == db.approvals && db'.inputs == db.inputs && db'.events == db.events
    requires forall b :: DialogIn(db'.attempts.rows, b) == DialogIn(db.attempts.rows, b)
    requires forall b :: b in db'.attempts.rows && InScope(s, Some(db'.attempts.rows[b].dialog)) ==>
      && b in db.attempts.rows && db'.attempts.rows[b].state == db.attempts.rows[b].state
      && db'.attempts.rows[b].effect == db.attempts.rows[b].effect
    ensures StandsStill(db, db', s)
  {
  }

  lemma AttemptVersions(t: Tx, a: Id, row: Attempt, s: Scope)
    requires a in t.db.attempts.rows ==> row.dialog == t.db.attempts.rows[a].dialog
    requires a !in t.db.attempts.rows ==>
      && ActionLinks(t.db.actions.rows, t.db.attempts.rows, t.db.messages.rows)
      && EffectLinks(t.db.attempts.rows.Keys, t.db.tools.rows, t.db.approvals.rows, t.db.inputs.rows)
    ensures VersionMoves(t.db, PutAttempt(t, a, row).db, s)
  {
    var db, db' := t.db, PutAttempt(t, a, row).db;
    forall b ensures b in db.attempts.rows ==> DialogIn(db'.attempts.rows, b) == DialogIn(db.attempts.rows, b) { }
    if !InScope(s, Some(row.dialog)) {
      SeenDialogs(db, db', s);
      assert SeenAttempts(db'.attempts.rows, s) == SeenAttempts(db.attempts.rows, s);
    }
    BumpMoves(db, db', Some(row.dialog), 0, s);
  }

  /** Rows that hang on attempts are seen alike when no attempt they hang on has moved to another dialog. */
  lemma SeenDialogs(db: Db, db': Db, s: Scope)
    requires db'.actions == db.actions && db'.tools == db.tools && db'.approvals == db.approvals && db'.inputs == db.inputs
    requires forall c :: c in db.actions.rows ==>
      DialogIn(db'.attempts.rows, db.actions.rows[c].attempt) == DialogIn(db.attempts.rows, db.actions.rows[c].attempt)
    requires forall i :: i in db.tools.rows ==>
      DialogIn(db'.attempts.rows, db.tools.rows[i].attempt) == DialogIn(db.attempts.rows, db.tools.rows[i].attempt)
    requires forall p :: p in db.approvals.rows ==>
      DialogIn(db'.attempts.rows, db.approvals.rows[p].attempt) == DialogIn(db.attempts.rows, db.approvals.rows[p].attempt)
    requires forall p :: p in db.inputs.rows ==>
      DialogIn(db'.attempts.rows, db.inputs.rows[p].attempt) == DialogIn(db.attempts.rows, db.inputs.rows[p].attempt)
    ensures SeenActions(db'.actions.rows, db'.attempts.rows, s) == SeenActions(db.actions.rows, db.attempts.rows, s)
    ensures SeenTools(db'.tools.rows, db'.attempts.rows, s) == SeenTools(db.tools.rows, db.attempts.rows, s)
    ensures SeenPrompts(db'.approvals.rows, db'.attempts.rows, s) == SeenPrompts(db.approvals.rows, db.attempts.rows, s)
    ensures SeenPrompts(db'.inputs.rows, db'.attempts.rows, s) == SeenPrompts(db.inputs.rows, db.attempts.rows, s)
  {
  }

  lemma NewAttemptWrite(t: Tx, a: Id, row: Attempt, terms: Terms)
    requires a !in t.db.attempts.rows && !row.started && Outside(terms, Some(row.dialog))
    requires ActionLinks(t.db.actions.rows, t.db.attempts.rows, t.db.messages.rows)
    requires EffectLinks(t.db.attempts.rows.Keys, t.db.tools.rows, t.db.approvals.rows, t.db.inputs.rows)
    ensures Extends(t.db, PutAttempt(t, a, row).db, terms)
  {
    var db, db' := t.db, PutAttempt(t, a, row).db;
    forall b ensures b in db.attempts.rows ==> DialogIn(db'.attempts.rows, b) == DialogIn(db.attempts.rows, b) { }
    forall bond ensures Bound(bond, db, db', terms) {
      if bond == Versions {
        forall s ensures VersionMoves(db, db', s) {
          AttemptVersions(t, a, row, s);
        }
      }
    }
  }

  lemma ActionWrite(t: Tx, c: Id, row: Action, terms: Terms)
    requires row.attempt in t.db.attempts.rows
    requires c in t.db.actions.rows ==> c in terms.moves && row == t.db.actions.rows[c].(status := row.status)
    requires Outside(terms, DialogOf(t.db, row.attempt))
    ensures Extends(t.db, PutAction(t, c, row).db, terms)
  {
    var db, db', dialog := t.db, PutAction(t, c, row).db, DialogOf(t.db, row.attempt);
    forall bond ensures Bound(bond, db, db', terms) {
      if bond == Versions {
        forall s ensures VersionMoves(db, db', s) {
          if !InScope(s, dialog) {
            assert SeenActions(db'.actions.rows, db'.attempts.rows, s) == SeenActions(db.actions.rows, db.attempts.rows, s);
          }
          BumpMoves(db, db', dialog, 0, s);
        }
      }
    }
  }

  lemma ToolVersions(t: Tx, i: Id, row: ToolCall, s: Scope)
    requires i in t.db.tools.rows ==> row.attempt == t.db.tools.rows[i].attempt
    ensures VersionMoves(t.db, PutTool(t, i, row).db, s)
  {
    var db, db', dialog := t.db, PutTool(t, i, row).db, DialogOf(t.db, row.attempt);
    if !InScope(s, dialog) {
      assert SeenTools(db'.tools.rows, db'.attempts.rows, s) == SeenTools(db.tools.rows, db.attempts.rows, s);
    }
    BumpMoves(db, db', dialog, 0, s);
  }

  lemma ToolWrite(t: Tx, i: Id, row: ToolCall, terms: Terms)
    requires row.attempt in t.db.attempts.rows && Outside(terms, DialogOf(t.db, row.attempt))
    requires i in t.db.tools.rows ==> row.attempt == t.db.tools.rows[i].attempt
    ensures Extends(t.db, PutTool(t, i, row).db, terms)
  {
    forall bond ensures Bound(bond, t.db, PutTool(t, i, row).db, terms) {
      if bond == Versions {
        forall s ensures VersionMoves(t.db, PutTool(t, i, row).db, s) {
          ToolVersions(t, i, row, s);
        }
      }
    }
  }

  lemma ApprovalVersions(t: Tx, p: Id, row: Prompt, s: Scope)
    requires p in t.db.approvals.rows ==> row.attempt == t.db.approvals.rows[p].attempt
    ensures VersionMoves(t.db, PutApproval(t, p, row).db, s)
  {
    var db, db', dialog := t.db, PutApproval(t, p, row).db, DialogOf(t.db, row.attempt);
    if !InScope(s, dialog) {
      assert SeenPrompts(db'.approvals.rows, db'.attempts.rows, s) == SeenPrompts(db.approvals.rows, db.attempts.rows, s);
    }
    BumpMoves(db, db', dialog, 0, s);
  }

  lemma ApprovalWrite(t: Tx, p: Id, row: Prompt, terms: Terms)
    requires row.attempt in t.db.attempts.rows && Outside(terms, DialogOf(t.db, row.attempt))
    requires p in t.db.approvals.rows ==> row.attempt == t.db.approvals.rows[p].attempt
    ensures Extends(t.db, PutApproval(t, p, row).db, terms)
  {
    forall bond ensures Bound(bond, t.db, PutApproval(t, p, row).db, terms) {
      if bond == Versions {
        forall s ensures VersionMoves(t.db, PutApproval(t, p, row).db, s) {
          ApprovalVersions(t, p, row, s);
        }
      }
    }
  }

  lemma InputVersions(t: Tx, p: Id, row: Prompt, s: Scope)
    requires p in t.db.inputs.rows ==> row.attempt == t.db.inputs.rows[p].attempt
    ensures VersionMoves(t.db, PutInput(t, p, row).db, s)
  {
    var db, db', dialog := t.db, PutInput(t, p, row).db, DialogOf(t.db, row.attempt);
    if !InScope(s, dialog) {
      assert SeenPrompts(db'.inputs.rows, db'.attempts.rows, s) == SeenPrompts(db.inputs.rows, db.attempts.rows, s);
    }
    BumpMoves(db, db', dialog, 0, s);
  }

  lemma InputWrite(t: Tx, p: Id, row: Prompt, terms: Terms)
    requires row.attempt in t.db.attempts.rows && Outside(terms, DialogOf(t.db, row.attempt))
    requires p in t.db.inputs.rows ==> row.attempt == t.db.inputs.rows[p].attempt
    ensures Extends(t.db, PutInput(t, p, row).db, terms)
  {
    forall bond ensures Bound(bond, t.db, PutInput(t, p, row).db, terms) {
      if bond == Versions {
        forall s ensures VersionMoves(t.db, PutInput(t, p, row).db, s) {
          InputVersions(t, p, row, s);
        }
      }
    }
  }

  lemma EventWrite(t: Tx, kind: EventKind, dialog: Option<Id>, terms: Terms)
    requires FreshLog(t.db.events.rows, t.st.lastEventSeq)
    requires kind.ToolCompleted? ==> Outside(terms, dialog)
    ensures Extends(t.db, Emit(t, kind, dialog).db, terms)
    ensures FreshLog(Emit(t, kind, dialog).db.events.rows, Emit(t, kind, dialog).st.lastEventSeq)
  {
    var db, db' := t.db, Emit(t, kind, dialog).db;
    forall bond ensures Bound(bond, db, db', terms) {
      if bond == Versions {
        forall s ensures VersionMoves(db, db', s) {
          if !InScope(s, dialog) {
            assert SeenEvents(db'.events.rows, s) == SeenEvents(db.events.rows, s);
          }
          BumpMoves(db, db', dialog, 0, s);
        }
      }
    }
  }

  lemma SaveWrite(t: Tx, terms: Terms)
    ensures Extends(t.db, Save(t).db, terms)
  {
  }

  lemma NewDialogWrite(t: Tx, d: Id, terms: Terms)
    requires RevisionRows(t.db.revisions.rows, t.db.dialogs.rows) && d !in t.db.dialogs.rows
    ensures Extends(t.db, PutNewDialog(t, d).db, terms)
  {
  }

  lemma LateWrite(t: Tx, row: Late, terms: Terms)
    ensures Extends(t.db, PutLate(t, row).db, terms)
  {
    var db, db' := t.db, PutLate(t, row).db;
    forall bond ensures Bound(bond, db, db', terms) {
      if bond == Versions {
        forall s ensures VersionMoves(db, db', s) { }
      }
    }
  }

  /** Dialog rows, message rows and the ledgers are outside every view. */
  lemma SideWrite(db: Db, dialogs: Table<Id, Dialog>, accepted: Table<Id, Receipt>, rejected: Table<Id, Receipt>,
                  deletions: Table<Id, Deletion>, terms: Terms)
    requires ReceiptsKept(db.accepted.rows, accepted.rows) && ReceiptsKept(db.rejected.rows, rejected.rows)
    requires terms.gated || deletions == db.deletions
    ensures Extends(db, db.(dialogs := dialogs, accepted := accepted, rejected := rejected, deletions := deletions), terms)
  {
  }
}
