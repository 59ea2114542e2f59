/** Every transaction's writes, followed one by one from the store it began with. */
module Lineage {
  import opened Wrappers
  import opened Store
  import opened Commands
  import opened Execution
  import opened Observation
  import opened Administration
  import opened Invariants
  import opened Evolution
  import opened Writes

  /** The transaction has so far honoured every bond with `db`, and its log may grow. */
  ghost predicate From(db: Db, t: Tx, terms: Terms) {
    Extends(db, t.db, terms) && FreshLog(t.db.events.rows, t.st.lastEventSeq)
  }

  /** The scope to be left alone is parked under an active hold. */
  ghost predicate Sheltered(db: Db, terms: Terms) {
    terms.parked.Some? ==>
      && Quiet(db, terms.parked.value)
      && exists op | op in db.holds.rows :: op !in db.releases.rows && db.holds.rows[op].scope == terms.parked.value
  }

  lemma Start(db: Db, terms: Terms)
    requires Inv(db)
    ensures From(db, Begin(db), terms)
  {
    Unchanged(db, terms);
    Have(Log, Begin(db));
  }

  // ---- what a parked scope rules out -----------------------------------------------------

  lemma HeldOutside(db: Db, terms: Terms, dialog: Id)
    requires Sheltered(db, terms) && !Covered(db, dialog)
    ensures Outside(terms, Some(dialog))
  {
  }

  lemma ActiveOutside(db: Db, terms: Terms, a: Id)
    requires Sheltered(db, terms) && a in db.attempts.rows && Occupies(db.attempts.rows[a].state)
    ensures Outside(terms, Some(db.attempts.rows[a].dialog))
  {
  }

  lemma ActionOutside(db: Db, terms: Terms, c: Id)
    requires Sheltered(db, terms) && c in db.actions.rows
    requires Unclaimed(db.actions.rows[c].status) || db.actions.rows[c].status == Unsettled
    ensures Outside(terms, DialogOf(db, db.actions.rows[c].attempt))
  {
  }

  lemma PromptOutside(db: Db, terms: Terms, approval: bool, p: Id)
    requires Sheltered(db, terms)
    requires if approval then p in db.approvals.rows && !db.approvals.rows[p].status.Resolved?
             else p in db.inputs.rows && !db.inputs.rows[p].status.Resolved?
    ensures Outside(terms, DialogOf(db, if approval then db.approvals.rows[p].attempt else db.inputs.rows[p].attempt))
  {
  }

  // ---- one more write ------------------------------------------------------------------------

  lemma ThenMessage(db: Db, t: Tx, m: Id, row: Message, terms: Terms)
    requires From(db, t, terms)
    ensures From(db, PutMessage(t, m, row), terms)
  {
    MessageWrite(t, m, row, terms);
    Chain(db, t.db, PutMessage(t, m, row).db, terms);
  }

  lemma ThenRequest(db: Db, t: Tx, r: Id, row: Request, terms: Terms)
    requires From(db, t, terms)
    requires r in t.db.requests.rows ==> row.dialog == t.db.requests.rows[r].dialog && row.message == t.db.requests.rows[r].message
                                         && row.queueSequence == t.db.requests.rows[r].queueSequence
    requires Outside(terms, Some(row.dialog)) || (r in t.db.requests.rows && row.status == Cancelled)
    ensures From(db, PutRequest(t, r, row), terms)
  {
    RequestWrite(t, r, row, terms);
    Chain(db, t.db, PutRequest(t, r, row).db, terms);
  }

  lemma ThenAttempt(db: Db, t: Tx, a: Id, row: Attempt, terms: Terms)
    requires From(db, t, terms) && a in t.db.attempts.rows
    requires row.dialog == t.db.attempts.rows[a].dialog && row.request == t.db.attempts.rows[a].request
    requires row.generation == t.db.attempts.rows[a].generation
    requires t.db.attempts.rows[a].started ==> row.started
    requires row.started ==> t.db.attempts.rows[a].started || terms.starts == Some(a)
    requires Finished(t.db.attempts.rows[a].state) && row.state != t.db.attempts.rows[a].state ==> terms.reopens
    requires Outside(terms, Some(row.dialog)) || (row.state == t.db.attempts.rows[a].state && row.effect == t.db.attempts.rows[a].effect)
    ensures From(db, PutAttempt(t, a, row), terms)
  {
    AttemptWrite(t, a, row, terms);
    Chain(db, t.db, PutAttempt(t, a, row).db, terms);
  }

  lemma ThenAction(db: Db, t: Tx, c: Id, row: Action, terms: Terms)
    requires From(db, t, terms) && row.attempt in t.db.attempts.rows
    requires c in t.db.actions.rows ==> c in terms.moves && row == t.db.actions.rows[c].(status := row.status)
    requires Outside(terms, DialogOf(t.db, row.attempt))
    ensures From(db, PutAction(t, c, row), terms)
  {
    ActionWrite(t, c, row, terms);
    Chain(db, t.db, PutAction(t, c, row).db, terms);
  }

  lemma ThenTool(db: Db, t: Tx, i: Id, row: ToolCall, terms: Terms)
    requires From(db, t, terms) && row.attempt in t.db.attempts.rows && Outside(terms, DialogOf(t.db, row.attempt))
    requires i in t.db.tools.rows ==> row.attempt == t.db.tools.rows[i].attempt
    ensures From(db, PutTool(t, i, row), terms)
  {
    ToolWrite(t, i, row, terms);
    Chain(db, t.db, PutTool(t, i, row).db, terms);
  }

  lemma ThenApproval(db: Db, t: Tx, p: Id, row: Prompt, terms: Terms)
    requires From(db, t, terms) && row.attempt in t.db.attempts.rows && Outside(terms, DialogOf(t.db, row.attempt))
    requires p in t.db.approvals.rows ==> row.attempt == t.db.approvals.rows[p].attempt
    ensures From(db, PutApproval(t, p, row), terms)
  {
    ApprovalWrite(t, p, row, terms);
    Chain(db, t.db, PutApproval(t, p, row).db, terms);
  }

  lemma ThenInput(db: Db, t: Tx, p: Id, row: Prompt, terms: Terms)
    requires From(db, t, terms) && row.attempt in t.db.attempts.rows && Outside(terms, DialogOf(t.db, row.attempt))
    requires p in t.db.inputs.rows ==> row.attempt == t.db.inputs.rows[p].attempt
    ensures From(db, PutInput(t, p, row), terms)
  {
    InputWrite(t, p, row, terms);
    Chain(db, t.db, PutInput(t, p, row).db, terms);
  }

  lemma ThenEmit(db: Db, t: Tx, kind: EventKind, dialog: Option<Id>, terms: Terms)
    requires From(db, t, terms)
    requires kind.ToolCompleted? ==> Outside(terms, dialog)
    ensures From(db, Emit(t, kind, dialog), terms)
  {
    EventWrite(t, kind, dialog, terms);
    Chain(db, t.db, Emit(t, kind, dialog).db, terms);
  }

  lemma ThenLate(db: Db, t: Tx, row: Late, terms: Terms)
    requires From(db, t, terms)
    ensures From(db, PutLate(t, row), terms)
  {
    LateWrite(t, row, terms);
    Chain(db, t.db, PutLate(t, row).db, terms);
  }

  lemma ThenSave(db: Db, t: Tx, terms: Terms)
    requires From(db, t, terms)
    ensures Extends(db, Save(t).db, terms)
  {
    SaveWrite(t, terms);
    Chain(db, t.db, Save(t).db, terms);
  }

  lemma ThenSide(db: Db, t: Tx, dialogs: Table<Id, Dialog>, accepted: Table<Id, Receipt>, rejected: Table<Id, Receipt>,
                 deletions: Table<Id, Deletion>, terms: Terms)
    requires From(db, t, terms)
    requires ReceiptsKept(t.db.accepted.rows, accepted.rows) && ReceiptsKept(t.db.rejected.rows, rejected.rows)
    requires terms.gated || deletions == t.db.deletions
    ensures From(db, t.(db := t.db.(dialogs := dialogs, accepted := accepted, rejected := rejected, deletions := deletions)), terms)
  {
    SideWrite(t.db, dialogs, accepted, rejected, deletions, terms);
    Chain(db, t.db, t.db.(dialogs := dialogs, accepted := accepted, rejected := rejected, deletions := deletions), terms);
  }

  // ---- the shared moves -------------------------------------------------------------------------

  lemma ThenAnnounce(db: Db, t: Tx, dialog: Id, terms: Terms)
    requires From(db, t, terms)
    ensures From(db, Announce(t, dialog), terms)
  {
    ThenEmit(db, t, AttemptMoved, Some(dialog), terms);
    ThenEmit(db, Emit(t, AttemptMoved, Some(dialog)), NodeChanged, None, terms);
  }

  lemma ThenQueueNode(db: Db, t: Tx, terms: Terms)
    requires From(db, t, terms)
    ensures From(db, EmitNode(EmitQueue(t)), terms)
  {
    ThenEmit(db, t, QueueChanged, None, terms);
    ThenEmit(db, EmitQueue(t), NodeChanged, None, terms);
  }

  lemma ThenMoveRequest(db: Db, t: Tx, r: Id, status: RequestStatus, terms: Terms)
    requires From(db, t, terms)
    requires r in t.db.requests.rows ==> Outside(terms, Some(t.db.requests.rows[r].dialog))
    ensures From(db, MoveRequest(t, r, status), terms)
  {
    if r in t.db.requests.rows {
      var row := t.db.requests.rows[r];
      ThenRequest(db, t, r, row.(version := row.version + 1, status := status), terms);
    }
  }

  ghost predicate Reached(db: Db, outcome: Option<Tx>, terms: Terms) {
    outcome.Some? ==> From(db, outcome.value, terms)
  }

  lemma ThenSetUnknown(db: Db, t: Tx, a: Id, r: Id, effect: Effect, terms: Terms)
    requires From(db, t, terms)
    requires a in t.db.attempts.rows ==> Outside(terms, Some(t.db.attempts.rows[a].dialog))
    requires r in t.db.requests.rows ==> Outside(terms, Some(t.db.requests.rows[r].dialog))
    requires a in t.db.attempts.rows && Finished(t.db.attempts.rows[a].state) ==> terms.reopens
    ensures Reached(db, SetUnknown(t, a, r, effect), terms)
  {
    if SetUnknown(t, a, r, effect).Some? && !t.db.attempts.rows[a].state.Unknown? {
      var row, t1 := t.db.attempts.rows[a], DoubtAttempt(t, a, effect);
      ThenAttempt(db, t, a, row.(version := row.version + 1, state := Unknown, effect := effect), terms);
      ThenMoveRequest(db, t1, r, InDoubt, terms);
      ThenAnnounce(db, MoveRequest(t1, r, InDoubt), row.dialog, terms);
    }
  }
}
