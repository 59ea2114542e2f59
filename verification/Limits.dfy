/** Two properties that hold only under the declared adapter contract, with the exact
    condition under which each fails. */
module Limits {
  import opened Store
  import opened Commands
  import opened Execution
  import opened Administration
  import opened Invariants
  import opened RowLemmas

  // ---- a finished attempt can be taken back ---------------------------------------------

  /** The prompt of a finished attempt may still be answered: the handler does not ask for the slot. An answer
      whose outcome is unknown then takes the attempt back into a free slot, and only that does. */
  lemma AnswerReopensIff(db: Db, c: Id, outcome: ResponseOutcome)
    requires Inv(db) && c in db.actions.rows
    requires db.actions.rows[c].kind == ApprovalRespond || db.actions.rows[c].kind == InputRespond
    requires db.actions.rows[c].attempt in db.attempts.rows && Finished(db.attempts.rows[db.actions.rows[c].attempt].state)
    ensures var a, after := db.actions.rows[c].attempt, FinishResponse(db, db.actions.rows[c], outcome);
      (after.Some? && a in after.value.attempts.rows && Occupies(after.value.attempts.rows[a].state))
      <==> (outcome.ResponseUnknown? && db.state.active.None?)
  {
    var action := db.actions.rows[c];
    Have(Slot, Begin(db));
    SlotFree(db, db.state, action.attempt);
    SettleFrame(Begin(db), action, outcome);
  }

  lemma SettleFrame(t: Tx, action: Action, outcome: ResponseOutcome)
    ensures SettlePrompt(t, action, outcome).db.attempts == t.db.attempts && SettlePrompt(t, action, outcome).st == t.st
  {
  }

  // ---- an undeclared steer outcome miscounts the queue --------------------------------------

  /** A steer names the steered message's request. Marking the attempt unknown through that name takes a queued
      request out of the queue without counting it, unless the attempt is already unknown. */
  lemma UndeclaredSteerCountsIff(db: Db, c: Id, effect: Effect)
    requires Inv(db) && c in db.actions.rows && db.actions.rows[c].kind == MessageSteer
    requires db.actions.rows[c].attempt in db.attempts.rows
    requires MarkUnknown(db, db.actions.rows[c].attempt, db.actions.rows[c].request, effect).Some?
    ensures var action := db.actions.rows[c]; var after := MarkUnknown(db, action.attempt, action.request, effect).value;
      (after.state.pendingCount == |QueuedSet(after.requests.rows)|)
      <==> (db.attempts.rows[action.attempt].state.Unknown? || action.request !in QueuedSet(db.requests.rows))
  {
    var action := db.actions.rows[c];
    var after := MarkUnknown(db, action.attempt, action.request, effect).value;
    Have(Count, Begin(db));
    var before, now := QueuedSet(db.requests.rows), QueuedSet(after.requests.rows);
    if db.attempts.rows[action.attempt].state.Unknown? {
      assert now == before;
    } else {
      assert now == before - {action.request};
    }
  }

  /** The steer's own outcome, written next, counts the request it finds already moved: the two errors cancel,
      and only a crash or a failed write between them leaves the count wrong. */
  lemma UndeclaredSteerIsRepaired(db: Db, a: Id, m: Id, effect: Effect)
    requires Inv(db) && m in db.messages.rows && db.messages.rows[m].disposition == SteerPending
    requires db.messages.rows[m].request in QueuedSet(db.requests.rows)
    requires a in db.attempts.rows && !db.attempts.rows[a].state.Unknown?
    requires MarkUnknown(db, a, db.messages.rows[m].request, effect).Some?
    ensures var marked := MarkUnknown(db, a, db.messages.rows[m].request, effect).value;
      var after := FinishSteer(marked, a, m, SteerUnknown);
      after.Some? && after.value.state.pendingCount == |QueuedSet(after.value.requests.rows)|
  {
    var r := db.messages.rows[m].request;
    var marked := MarkUnknown(db, a, r, effect).value;
    Have(Count, Begin(db));
    assert QueuedSet(marked.requests.rows) == QueuedSet(db.requests.rows) - {r};
    var after := FinishSteer(marked, a, m, SteerUnknown).value;
    assert QueuedSet(after.requests.rows) == QueuedSet(marked.requests.rows);
  }
}
