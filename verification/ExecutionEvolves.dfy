/** How dispatch, the action lanes and recovery may change the store. */
module ExecutionEvolves {
  import opened Wrappers
  import opened Store
  import opened Commands
  import opened Execution
  import opened Administration
  import opened Invariants
  import opened Evolution
  import opened Writes
  import opened Lineage

  lemma BlockPolicyEvolves(db: Db, terms: Terms)
    requires Inv(db)
    ensures BlockPolicy(db).Some? ==> Extends(db, BlockPolicy(db).value, terms)
  {
    Start(db, terms);
    var t := Begin(db);
    var t1 := Advance(t.(st := t.st.(readiness := Blocked, reasons := AddReason(t.st.reasons, PolicyUnavailable))));
    ThenEmit(db, t1, NodeChanged, None, terms);
    ThenSave(db, EmitNode(t1), terms);
  }

  lemma SetStatusEvolves(db: Db, c: Id, from: ActionStatus, to: ActionStatus, terms: Terms)
    requires Inv(db) && Sheltered(db, terms) && Unclaimed(from) && c in terms.moves
    ensures Extends(db, SetStatus(db, c, from, to), terms)
  {
    Start(db, terms);
    Have(Actors, Begin(db));
    if c in db.actions.rows && db.actions.rows[c].status == from {
      ActionOutside(db, terms, c);
      ThenAction(db, Begin(db), c, db.actions.rows[c].(status := to), terms);
    }
  }

  lemma MarkUnknownEvolves(db: Db, a: Id, r: Id, effect: Effect, terms: Terms)
    requires Inv(db) && Sheltered(db, terms)
    requires a in db.attempts.rows && r in db.requests.rows ==> db.requests.rows[r].dialog == db.attempts.rows[a].dialog
    ensures MarkUnknown(db, a, r, effect).Some? ==> Extends(db, MarkUnknown(db, a, r, effect).value, terms)
  {
    if MarkUnknown(db, a, r, effect).Some? {
      Start(db, terms);
      Have(Slot, Begin(db));
      ActiveOutside(db, terms, a);
      ThenSetUnknown(db, Begin(db), a, r, effect, terms);
      ThenSave(db, SetUnknown(Begin(db), a, r, effect).value, terms);
    }
  }

  lemma StartAttemptEvolves(db: Db, a: Id, terms: Terms)
    requires Inv(db) && Sheltered(db, terms) && terms.starts == Some(a)
    requires a in db.attempts.rows && db.attempts.rows[a].state.Dispatching? && Outside(terms, Some(db.attempts.rows[a].dialog))
    ensures From(db, StartAttempt(Begin(db), a), terms)
  {
    var t, row := Begin(db), db.attempts.rows[a];
    var row' := row.(version := row.version + 1, state := Running, started := true);
    Start(db, terms);
    ThenAttempt(db, t, a, row', terms);
    assert StartAttempt(t, a).db == PutAttempt(t, a, row').db;
  }

  lemma MarkStartedEvolves(db: Db, a: Id, terms: Terms)
    requires Inv(db) && Sheltered(db, terms) && terms.starts == Some(a)
    ensures MarkStarted(db, a).Some? ==> Extends(db, MarkStarted(db, a).value, terms)
  {
    if MarkStarted(db, a).Some? {
      var row, t1 := db.attempts.rows[a], StartAttempt(Begin(db), a);
      Have(Links, Begin(db));
      ActiveOutside(db, terms, a);
      StartAttemptEvolves(db, a, terms);
      ThenMoveRequest(db, t1, row.request, Active, terms);
      ThenAnnounce(db, MoveRequest(t1, row.request, Active), row.dialog, terms);
      ThenSave(db, Announce(MoveRequest(t1, row.request, Active), row.dialog), terms);
    }
  }

  lemma RefuseAttemptEvolves(db: Db, a: Id, terms: Terms)
    requires Inv(db) && a in db.attempts.rows && Occupies(db.attempts.rows[a].state)
    requires Outside(terms, Some(db.attempts.rows[a].dialog))
    ensures From(db, RefuseAttempt(Begin(db), a), terms)
  {
    var t, row := Begin(db), db.attempts.rows[a];
    var row' := row.(version := row.version + 1, state := Failed, effect := NoEffect);
    Start(db, terms);
    ThenAttempt(db, t, a, row', terms);
    assert RefuseAttempt(t, a).db == PutAttempt(t, a, row').db;
  }

  lemma ObserveRefusalEvolves(db: Db, a: Id, terms: Terms)
    requires Inv(db) && Sheltered(db, terms)
    ensures ObserveRefusal(db, a).Some? ==> Extends(db, ObserveRefusal(db, a).value, terms)
  {
    if ObserveRefusal(db, a).Some? {
      var t, row := Begin(db), db.attempts.rows[a];
      if db.state.active != Some(a) {
        Start(db, terms);
        ThenEmit(db, t, Archived, Some(row.dialog), terms);
        ThenLate(db, Emit(t, Archived, Some(row.dialog)), Late(a, row.generation, LateObservation, t.st.lastEventSeq + 1, 0), terms);
        ThenSave(db, NoteLate(db, a), terms);
      } else {
        Have(Links, t); Have(Slot, t);
        ActiveOutside(db, terms, a);
        RefuseAttemptEvolves(db, a, terms);
        var t1 := RefuseAttempt(t, a);
        ThenMoveRequest(db, t1, row.request, Errored, terms);
        ThenAnnounce(db, MoveRequest(t1, row.request, Errored), row.dialog, terms);
        ThenSave(db, Announce(MoveRequest(t1, row.request, Errored), row.dialog), terms);
      }
    }
  }

  lemma SteerMovedEvolves(db: Db, m: Id, outcome: SteerOutcome, terms: Terms)
    requires Inv(db) && m in db.messages.rows && db.messages.rows[m].request in db.requests.rows
    requires Outside(terms, Some(db.requests.rows[db.messages.rows[m].request].dialog))
    ensures From(db, SteerMoved(db, m, outcome), terms)
  {
    Start(db, terms);
    var t, text := Begin(db), db.messages.rows[m];
    var row := db.requests.rows[text.request];
    var t1 := t;
    if outcome.SteerApplied? || outcome.SteerUnknown? {
      var row' := row.(version := row.version + 1, status := if outcome.SteerApplied? then Succeeded else InDoubt);
      ThenRequest(db, t, text.request, row', terms);
      t1 := PutRequest(t, text.request, row');
      t1 := t1.(st := t1.st.(pendingCount := t1.st.pendingCount - 1));
    }
    var moved := if outcome.SteerApplied? then Consumed else if outcome.SteerUnknown? then Lost else InQueue;
    var text' := text.(version := text.version + 1, disposition := moved);
    ThenMessage(db, t1, m, text', terms);
    assert SteerMoved(db, m, outcome) == AdvanceQueue(PutMessage(t1, m, text'));
  }

  lemma SteerNotedEvolves(db: Db, c: Id, outcome: SteerOutcome, terms: Terms)
    requires Inv(db) && Sheltered(db, terms) && c in db.actions.rows
    requires db.actions.rows[c].kind == MessageSteer && Unclaimed(db.actions.rows[c].status)
    requires db.actions.rows[c].message in db.messages.rows && db.messages.rows[db.actions.rows[c].message].request in db.requests.rows
    ensures Reached(db, SteerNoted(db, db.actions.rows[c].attempt, db.actions.rows[c].message, outcome), terms)
  {
    var a, m := db.actions.rows[c].attempt, db.actions.rows[c].message;
    Have(Actors, Begin(db)); Have(Links, Begin(db)); Have(Life, Begin(db));
    ActionOutside(db, terms, c);
    SteerMovedEvolves(db, m, outcome, terms);
    var t := Emit(SteerMoved(db, m, outcome), MessageMoved(m), None);
    ThenEmit(db, SteerMoved(db, m, outcome), MessageMoved(m), None, terms);
    if outcome.SteerUnknown? {
      ThenSetUnknown(db, t, a, db.messages.rows[m].request, UnknownEffect, terms);
    }
  }

  lemma FinishSteerEvolves(db: Db, c: Id, outcome: SteerOutcome, terms: Terms)
    requires Inv(db) && Sheltered(db, terms) && c in db.actions.rows
    requires db.actions.rows[c].kind == MessageSteer && Unclaimed(db.actions.rows[c].status)
    ensures var after := FinishSteer(db, db.actions.rows[c].attempt, db.actions.rows[c].message, outcome);
      after.Some? ==> Extends(db, after.value, terms)
  {
    var a, m := db.actions.rows[c].attempt, db.actions.rows[c].message;
    if FinishSteer(db, a, m, outcome).Some? {
      SteerNotedEvolves(db, c, outcome, terms);
      var t := SteerNoted(db, a, m, outcome).value;
      ThenEmit(db, t, QueueChanged, None, terms);
      ThenSave(db, EmitQueue(t), terms);
    }
  }

  lemma AnswerNotedEvolves(db: Db, c: Id, outcome: ResponseOutcome, terms: Terms)
    requires Inv(db) && Sheltered(db, terms) && c in db.actions.rows
    requires db.actions.rows[c].kind == ApprovalRespond || db.actions.rows[c].kind == InputRespond
    requires Unclaimed(db.actions.rows[c].status)
    ensures From(db, AnswerNoted(db, db.actions.rows[c], outcome), terms)
    ensures AnswerNoted(db, db.actions.rows[c], outcome).db.attempts == db.attempts
    ensures AnswerNoted(db, db.actions.rows[c], outcome).db.requests == db.requests
  {
    var t, action := Begin(db), db.actions.rows[c];
    Start(db, terms);
    Have(Actors, t); Have(Prompts, t);
    ActionOutside(db, terms, c);
    if action.kind == ApprovalRespond {
      ThenApproval(db, t, action.prompt, db.approvals.rows[action.prompt].(status := PromptAfter(outcome)), terms);
    } else {
      ThenInput(db, t, action.prompt, db.inputs.rows[action.prompt].(status := PromptAfter(outcome)), terms);
    }
    ThenEmit(db, SettlePrompt(t, action, outcome), PromptMoved, DialogOf(db, action.attempt), terms);
  }

  lemma FinishResponseEvolves(db: Db, c: Id, outcome: ResponseOutcome, terms: Terms)
    requires Inv(db) && Sheltered(db, terms) && c in db.actions.rows
    requires db.actions.rows[c].kind == ApprovalRespond || db.actions.rows[c].kind == InputRespond
    requires Unclaimed(db.actions.rows[c].status) && (outcome.ResponseUnknown? ==> terms.reopens)
    ensures FinishResponse(db, db.actions.rows[c], outcome).Some? ==> Extends(db, FinishResponse(db, db.actions.rows[c], outcome).value, terms)
  {
    var action := db.actions.rows[c];
    if FinishResponse(db, action, outcome).Some? {
      var t := AnswerNoted(db, action, outcome);
      AnswerNotedEvolves(db, c, outcome, terms);
      if outcome.ResponseUnknown? {
        Have(Actors, Begin(db)); Have(Links, Begin(db));
        ActionOutside(db, terms, c);
        ThenSetUnknown(db, t, action.attempt, action.request, UnknownEffect, terms);
        ThenSave(db, SetUnknown(t, action.attempt, action.request, UnknownEffect).value, terms);
      } else {
        ThenSave(db, t, terms);
      }
    }
  }

  lemma DispatchEvolves(db: Db, candidate: Candidate, a: Id, generation: nat, terms: Terms)
    requires Inv(db) && Sheltered(db, terms)
    ensures Dispatch(db, candidate, a, generation).Some? ==> Extends(db, Dispatch(db, candidate, a, generation).value, terms)
  {
    if Dispatch(db, candidate, a, generation).Some? {
      var r := candidate.request;
      var row := db.requests.rows[r];
      HeldOutside(db, terms, row.dialog);
      DispatchRowsEvolves(db, r, a, generation, terms);
      var t1 := DispatchRows(db, r, a, generation);
      ThenEmit(db, t1, MessageMoved(row.message), None, terms);
      var t2 := if db.messages.rows[row.message].disposition == InQueue then Emit(t1, MessageMoved(row.message), None) else t1;
      ThenEmit(db, t2, AttemptMoved, Some(row.dialog), terms);
      ThenQueueNode(db, Emit(t2, AttemptMoved, Some(row.dialog)), terms);
      var t3 := EmitNode(EmitQueue(Emit(t2, AttemptMoved, Some(row.dialog))));
      ThenAction(db, t3, a, Action(DispatchStart, a, 0, r, 0, 0, Pending), terms);
      ThenSave(db, PutAction(t3, a, Action(DispatchStart, a, 0, r, 0, 0, Pending)), terms);
    }
  }

  lemma DispatchRowsEvolves(db: Db, r: Id, a: Id, generation: nat, terms: Terms)
    requires Inv(db) && a !in db.attempts.rows && a !in db.actions.rows
    requires r in db.requests.rows && db.requests.rows[r].message in db.messages.rows
    requires Outside(terms, Some(db.requests.rows[r].dialog))
    ensures From(db, DispatchRows(db, r, a, generation), terms)
  {
    var t, row := Begin(db), db.requests.rows[r];
    var text := db.messages.rows[row.message];
    var attempt := Attempt(row.dialog, r, generation, 1, Dispatching, NoEffect, false);
    Start(db, terms);
    Have(Actors, t); Have(Effects, t);
    NewAttemptWrite(t, a, attempt, terms);
    var t1 := PutAttempt(t, a, attempt);
    ThenRequest(db, t1, r, row.(version := row.version + 1, status := Dispatched), terms);
    var t2 := PutRequest(t1, r, row.(version := row.version + 1, status := Dispatched));
    var text' := text.(version := text.version + 1, disposition := Consumed);
    ThenMessage(db, t2, row.message, text', terms);
    var t3 := AdvanceQueue(if text.disposition == InQueue then PutMessage(t2, row.message, text') else t2);
    assert DispatchRows(db, r, a, generation) ==
      t3.(st := t3.st.(pendingCount := t3.st.pendingCount - 1, active := Some(a), readiness := Ready,
                       occupancy := Busy, reasons := RemoveReason(t3.st.reasons, PolicyUnavailable)));
  }

  lemma StrandVersions(db: Db, s: Scope)
    ensures VersionMoves(db, StrandActions(db), s)
  {
    var db' := StrandActions(db);
    if Stranded(db, s) == {} {
      forall c | c in db.actions.rows && InScope(s, DialogIn(db.attempts.rows, db.actions.rows[c].attempt))
        ensures db'.actions.rows[c] == db.actions.rows[c]
      {
        assert c !in Stranded(db, s);
      }
      assert SeenActions(db'.actions.rows, db'.attempts.rows, s) == SeenActions(db.actions.rows, db.attempts.rows, s);
    }
  }

  lemma StrandStill(db: Db, s: Scope)
    requires Quiet(db, s)
    ensures StandsStill(db, StrandActions(db), s)
  {
    var actions := StrandActions(db).actions.rows;
    forall c | c in actions && InScope(s, DialogIn(db.attempts.rows, actions[c].attempt)) ensures actions[c] == db.actions.rows[c] {
      assert InScope(s, DialogOf(db, db.actions.rows[c].attempt));
    }
  }

  /** The startup sweep moves statuses only, and every scope that sees one moves with it. */
  lemma StrandEvolves(db: Db, terms: Terms)
    requires Inv(db) && Sheltered(db, terms) && db.actions.rows.Keys <= terms.moves
    ensures Extends(db, StrandActions(db), terms)
  {
    var db' := StrandActions(db);
    forall bond ensures Bound(bond, db, db', terms) {
      match bond
      case Versions =>
        forall s ensures VersionMoves(db, db', s) {
          StrandVersions(db, s);
        }
      case Calm =>
        if terms.parked.Some? {
          StrandStill(db, terms.parked.value);
        }
      case _ =>
    }
  }

  lemma RecoverEvolves(db: Db, terms: Terms)
    requires Inv(db) && Inv(StrandActions(db)) && Sheltered(db, terms) && db.actions.rows.Keys <= terms.moves
    ensures Recover(db).Some? ==> Extends(db, Recover(db).value, terms)
  {
    StrandEvolves(db, terms);
    if Recover(db).Some? && db.state.active.Some? && !db.attempts.rows[db.state.active.value].state.Unknown? {
      var a, stranded := db.state.active.value, StrandActions(db);
      var r := db.attempts.rows[a].request;
      Have(Links, Begin(db)); Have(Log, Begin(stranded));
      ActiveOutside(db, terms, a);
      assert From(db, Begin(stranded), terms);
      ThenSetUnknown(db, Begin(stranded), a, r, UnknownEffect, terms);
      ThenSave(db, SetUnknown(Begin(stranded), a, r, UnknownEffect).value, terms);
    }
  }
}
