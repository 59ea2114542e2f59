/** Dispatch, the action lanes and recovery keep the invariant. */
module ExecutionKeeps {
  import opened Wrappers
  import opened Store
  import opened Commands
  import opened Execution
  import opened Invariants
  import opened RowLemmas
  import opened Moves

  lemma BlockPolicyKeeps(db: Db)
    requires Inv(db)
    ensures BlockPolicy(db).Some? ==> Inv(BlockPolicy(db).value)
  {
    var t := Begin(db);
    var st := t.st.(version := t.st.version + 1, readiness := Blocked, reasons := AddReason(t.st.reasons, PolicyUnavailable));
    StateKeeps(t, st);
    EmitKeeps(t.(st := st), NodeChanged, None);
    SaveKeeps(EmitNode(t.(st := st)));
  }

  /** A lane moves the status of an action it holds. */
  lemma SetStatusKeeps(db: Db, c: Id, from: ActionStatus, to: ActionStatus)
    requires Inv(db) && Unclaimed(from)
    requires to == Pending && c in db.actions.rows && db.actions.rows[c].attempt in db.attempts.rows ==>
      !db.attempts.rows[db.actions.rows[c].attempt].started
    ensures Inv(SetStatus(db, c, from, to))
  {
    forall clause ensures Holds(clause, Begin(SetStatus(db, c, from, to))) {
      Have(clause, Begin(db));
    }
  }

  lemma MarkUnknownKeeps(db: Db, a: Id, r: Id, effect: Effect)
    requires Inv(db)
    requires r in db.requests.rows ==> db.requests.rows[r].status != Queued
    ensures MarkUnknown(db, a, r, effect).Some? ==> Inv(MarkUnknown(db, a, r, effect).value)
  {
    SetUnknownKeeps(Begin(db), a, r, effect);
    if MarkUnknown(db, a, r, effect).Some? {
      SaveKeeps(SetUnknown(Begin(db), a, r, effect).value);
    }
  }

  lemma MarkStartedKeeps(db: Db, a: Id)
    requires Inv(db) && (a in db.actions.rows ==> db.actions.rows[a].status != Pending)
    ensures MarkStarted(db, a).Some? ==> Inv(MarkStarted(db, a).value)
  {
    if MarkStarted(db, a).Some? {
      var t, row := Begin(db), db.attempts.rows[a];
      var row' := row.(version := row.version + 1, state := Running, started := true);
      Have(Slot, t); Have(Links, t);
      var t1 := Advance(PutAttempt(t, a, row'));
      MoveKeeps(t, a, row', t1.st);
      MoveRequestKeeps(t1, row.request, Active);
      AnnounceKeeps(MoveRequest(t1, row.request, Active), row.dialog);
      SaveKeeps(Announce(MoveRequest(t1, row.request, Active), row.dialog));
    }
  }

  /** A refused start ends an attempt that never ran, so nothing can be on its way to it. */
  lemma ObserveRefusalKeeps(db: Db, a: Id)
    requires Inv(db)
    requires a in db.attempts.rows ==> !db.attempts.rows[a].started
    ensures ObserveRefusal(db, a).Some? ==> Inv(ObserveRefusal(db, a).value)
  {
    if ObserveRefusal(db, a).Some? {
      var t, row := Begin(db), db.attempts.rows[a];
      EmitKeeps(t, Archived, Some(row.dialog));
      LateKeeps(Emit(t, Archived, Some(row.dialog)), Late(a, row.generation, LateObservation, t.st.lastEventSeq + 1, 0));
      SaveKeeps(NoteLate(db, a));
      if db.state.active == Some(a) {
        var row' := row.(version := row.version + 1, state := Failed, effect := NoEffect);
        var t1 := RefuseAttempt(t, a);
        Have(Slot, t); Have(Links, t); Have(Life, t);
        MoveKeeps(t, a, row', t1.st);
        MoveRequestKeeps(t1, row.request, Errored);
        AnnounceKeeps(MoveRequest(t1, row.request, Errored), row.dialog);
        SaveKeeps(Announce(MoveRequest(t1, row.request, Errored), row.dialog));
      }
    }
  }

  lemma FinishSteerKeeps(db: Db, c: Id, outcome: SteerOutcome)
    requires Inv(db) && c in db.actions.rows
    requires db.actions.rows[c].kind == MessageSteer && Unclaimed(db.actions.rows[c].status)
    ensures var after := FinishSteer(db, db.actions.rows[c].attempt, db.actions.rows[c].message, outcome);
      after.Some? ==> Inv(after.value)
  {
    var t, a, m := Begin(db), db.actions.rows[c].attempt, db.actions.rows[c].message;
    if FinishSteer(db, a, m, outcome).Some? {
      Have(Actors, t); Have(Steers, t); Have(Waiting, t); Have(Links, t);
      var text := db.messages.rows[m];
      var t2 := SteerMoved(db, m, outcome);
      SteerMovedKeeps(db, m, outcome);
      EmitKeeps(t2, MessageMoved(m), None);
      var t3 := Emit(t2, MessageMoved(m), None);
      var t4 := t3;
      if outcome.SteerUnknown? {
        SetUnknownKeeps(t3, a, text.request, UnknownEffect);
        t4 := SetUnknown(t3, a, text.request, UnknownEffect).value;
      }
      EmitKeeps(t4, QueueChanged, None);
      SaveKeeps(EmitQueue(t4));
    }
  }

  /** The message and its request after a steer, before anything is announced. */
  lemma SteerMovedKeeps(db: Db, m: Id, outcome: SteerOutcome)
    requires Inv(db) && m in db.messages.rows && db.messages.rows[m].disposition == SteerPending
    requires db.messages.rows[m].request in db.requests.rows
    requires db.requests.rows[db.messages.rows[m].request].status == Queued
    ensures TxInv(SteerMoved(db, m, outcome))
  {
    var t, text := Begin(db), db.messages.rows[m];
    var row := db.requests.rows[text.request];
    Have(Waiting, t); Have(Links, t);
    var t2 := SteerMoved(db, m, outcome);
    if outcome.SteerApplied? || outcome.SteerUnknown? {
      var row' := row.(version := row.version + 1, status := if outcome.SteerApplied? then Succeeded else InDoubt);
      UnqueueKeeps(t, text.request, row', m, t2.db.messages.rows[m], t2.st);
    } else {
      MessageKeeps(t, m, t2.db.messages.rows[m]);
      StateKeeps(PutMessage(t, m, t2.db.messages.rows[m]), t2.st);
    }
  }

  lemma SettlePromptKeeps(t: Tx, action: Action, outcome: ResponseOutcome)
    requires TxInv(t)
    ensures TxInv(SettlePrompt(t, action, outcome))
  {
    Have(Effects, t);
    if action.kind == ApprovalRespond {
      if action.prompt in t.db.approvals.rows {
        PromptKeeps(t, true, action.prompt, t.db.approvals.rows[action.prompt].(status := PromptAfter(outcome)));
      }
    } else if action.prompt in t.db.inputs.rows {
      PromptKeeps(t, false, action.prompt, t.db.inputs.rows[action.prompt].(status := PromptAfter(outcome)));
    }
  }

  lemma FinishResponseKeeps(db: Db, action: Action, outcome: ResponseOutcome)
    requires Inv(db)
    requires action.request in db.requests.rows ==> db.requests.rows[action.request].status != Queued
    ensures FinishResponse(db, action, outcome).Some? ==> Inv(FinishResponse(db, action, outcome).value)
  {
    var t := SettlePrompt(Begin(db), action, outcome);
    SettlePromptKeeps(Begin(db), action, outcome);
    EmitKeeps(t, PromptMoved, DialogOf(db, action.attempt));
    var t1 := if outcome.ResponseApplied? then Emit(t, PromptMoved, DialogOf(db, action.attempt)) else t;
    if FinishResponse(db, action, outcome).Some? {
      if outcome.ResponseUnknown? {
        SetUnknownKeeps(t1, action.attempt, action.request, UnknownEffect);
        SaveKeeps(SetUnknown(t1, action.attempt, action.request, UnknownEffect).value);
      } else {
        SaveKeeps(t1);
      }
    }
  }

  lemma StrandKeeps(db: Db)
    requires Inv(db)
    ensures Inv(StrandActions(db))
  {
    forall clause ensures Holds(clause, Begin(StrandActions(db))) {
      Have(clause, Begin(db));
    }
  }

  /** Startup never refuses a store the node itself wrote. */
  lemma RecoverKeeps(db: Db)
    requires Inv(db)
    ensures Recover(db).Some? && Inv(Recover(db).value)
  {
    StrandKeeps(db);
    Have(Slot, Begin(db)); Have(Links, Begin(db));
    if db.state.active.Some? {
      var a, t := db.state.active.value, Begin(StrandActions(db));
      SlotFree(t.db, t.st, a);
      SetUnknownKeeps(t, a, db.attempts.rows[a].request, UnknownEffect);
      SaveKeeps(SetUnknown(t, a, db.attempts.rows[a].request, UnknownEffect).value);
    }
  }

  /** With the slot free no steer is on its way, so a queued request may leave the queue. */
  lemma SteersPutRequest(actions: Actions, attempts: Attempts, messages: Messages, requests: Requests, active: Option<Id>,
                         m: Id, text: Message, r: Id, row: Request, occupancy: Occupancy, reasons: seq<Reason>)
    requires ActionLinks(actions, attempts, messages) && Lifecycle(attempts, actions)
    requires SlotAgreement(attempts, active, occupancy, reasons) && active == None
    ensures SteerQueued(actions, messages, requests[r := row]) && SteerQueued(actions, messages[m := text], requests[r := row])
  {
  }

  lemma LinksDispatched(dialogs: set<Id>, messages: Messages, requests: Requests, attempts: Attempts,
                        r: Id, row: Request, a: Id, attempt: Attempt, m: Id, text: Message)
    requires RowLinks(dialogs, messages, requests, attempts) && r in requests && m in messages
    requires row.dialog == requests[r].dialog == attempt.dialog && row.dialog in dialogs && row.status != Queued && attempt.request == r
    requires text.request == messages[m].request && text.dialog == messages[m].dialog
    ensures RowLinks(dialogs, messages, requests[r := row], attempts[a := attempt])
    ensures RowLinks(dialogs, messages[m := text], requests[r := row], attempts[a := attempt])
  {
    LinksPutRequest(dialogs, messages, requests, attempts, r, row);
    LinksPutAttempt(dialogs, messages, requests[r := row], attempts, a, attempt);
    LinksPutMessage(dialogs, messages, requests[r := row], attempts[a := attempt], m, text);
  }

  lemma QueueDispatched(messages: Messages, requests: Requests, r: Id, row: Request, m: Id, text: Message)
    requires QueuedMessages(messages, requests) && r in requests && requests[r].message == m == row.message && m in messages
    requires requests[r].status == Queued && row.status != Queued && text.disposition == Consumed
    ensures if messages[m].disposition == InQueue then QueuedMessages(messages[m := text], requests[r := row])
            else QueuedMessages(messages, requests[r := row])
  {
    if messages[m].disposition == InQueue {
      QueuedPutMessage(messages, requests, m, text);
      QueuedPutRequest(messages[m := text], requests, r, row);
    } else {
      QueuedPutRequest(messages, requests, r, row);
    }
  }

  lemma DispatchRowsKeeps(db: Db, r: Id, a: Id, generation: nat)
    requires Inv(db) && db.state.active == None && r in db.requests.rows && db.requests.rows[r].status == Queued
    requires db.requests.rows[r].message in db.messages.rows && a !in db.attempts.rows && a !in db.actions.rows
    ensures TxInv(DispatchRows(db, r, a, generation))
  {
    var t, t', row := Begin(db), DispatchRows(db, r, a, generation), db.requests.rows[r];
    var m, text := row.message, db.messages.rows[row.message];
    var row', attempt := t'.db.requests.rows[r], t'.db.attempts.rows[a];
    var text' := text.(version := text.version + 1, disposition := Consumed);
    var messages, requests, attempts, actions := db.messages.rows, db.requests.rows, db.attempts.rows, db.actions.rows;
    forall clause ensures Holds(clause, t') {
      Have(clause, t);
      match clause
      case Slot => SlotPut(attempts, None, t.st.occupancy, t.st.reasons, a, attempt, Busy, t'.st.reasons);
      case Links =>
        LinksDispatched(db.dialogs.rows.Keys, messages, requests, attempts, r, row', a, attempt, m, text');
      case Waiting => QueueDispatched(messages, requests, r, row', m, text');
      case Actors =>
        ActionsPutAttempt(actions, attempts, messages, a, attempt);
        ActionsPutMessage(actions, attempts[a := attempt], messages, m, text');
      case Life =>
        Have(Actors, t);
        LifecyclePutAttempt(attempts, actions, messages, a, attempt);
      case Fresh =>
        Have(Actors, t);
        FreshPutAttempt(actions, attempts, messages, a, attempt);
      case Steers =>
        Have(Life, t); Have(Slot, t); Have(Actors, t);
        SteersPutRequest(actions, attempts, messages, requests, None, m, text', r, row', t.st.occupancy, t.st.reasons);
      case Starts =>
        Have(Actors, t);
        StartPutAttempt(actions, attempts, messages, db.holds.rows, db.releases.rows, a, attempt);
      case Count => CountPutRequest(requests, t.st.pendingCount, t.st.nextQueueSequence, r, row');
      case _ =>
    }
  }

  lemma DispatchActionKeeps(t: Tx, a: Id, r: Id)
    requires TxInv(t) && a !in t.db.actions.rows && a in t.db.attempts.rows && t.db.attempts.rows[a].request == r
    requires !HeldOver(t.db.holds.rows, t.db.releases.rows, t.db.attempts.rows[a].dialog) && !t.db.attempts.rows[a].started
    ensures TxInv(PutAction(t, a, Action(DispatchStart, a, 0, r, 0, 0, Pending)))
  {
    forall clause ensures Holds(clause, PutAction(t, a, Action(DispatchStart, a, 0, r, 0, 0, Pending))) {
      Have(clause, t);
    }
  }

  lemma DispatchKeeps(db: Db, candidate: Candidate, a: Id, generation: nat)
    requires Inv(db)
    ensures Dispatch(db, candidate, a, generation).Some? ==> Inv(Dispatch(db, candidate, a, generation).value)
  {
    if Dispatch(db, candidate, a, generation).Some? {
      var r := candidate.request;
      var row := db.requests.rows[r];
      DispatchRowsKeeps(db, r, a, generation);
      var t1 := DispatchRows(db, r, a, generation);
      EmitKeeps(t1, MessageMoved(row.message), None);
      var t2 := if db.messages.rows[row.message].disposition == InQueue then Emit(t1, MessageMoved(row.message), None) else t1;
      ThreeEmits(t2, AttemptMoved, Some(row.dialog));
      var t3 := EmitNode(EmitQueue(Emit(t2, AttemptMoved, Some(row.dialog))));
      DispatchActionKeeps(t3, a, r);
      SaveKeeps(PutAction(t3, a, Action(DispatchStart, a, 0, r, 0, 0, Pending)));
    }
  }
}
