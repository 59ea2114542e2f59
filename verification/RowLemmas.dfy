/** One row write against one invariant at a time. */
module RowLemmas {
  import opened Wrappers
  import opened Store
  import opened Commands
  import opened Execution
  import opened Administration
  import opened Invariants

  // ---- the slot ------------------------------------------------------------------

  lemma SlotPut(attempts: Attempts, active: Option<Id>, occupancy: Occupancy, reasons: seq<Reason>, a: Id, row: Attempt,
                occupancy': Occupancy, reasons': seq<Reason>)
    requires SlotAgreement(attempts, active, occupancy, reasons)
    requires active == Some(a) || active == None
    requires occupancy' == (if !Occupies(row.state) then Idle else if row.state.Unknown? then Doubtful else Busy)
    requires occupancy' == Doubtful ==> ExecutionUnknown in reasons'
    ensures SlotAgreement(attempts[a := row], if Occupies(row.state) then Some(a) else None, occupancy', reasons')
  {
  }

  lemma SlotFree(db: Db, st: State, a: Id)
    requires SlotAgreement(db.attempts.rows, st.active, st.occupancy, st.reasons)
    ensures !ActiveElsewhere(db, a) <==> st.active == Some(a) || st.active == None
  {
  }

  // ---- row links --------------------------------------------------------------------

  lemma LinksPutAttempt(dialogs: set<Id>, messages: Messages, requests: Requests, attempts: Attempts, a: Id, row: Attempt)
    requires RowLinks(dialogs, messages, requests, attempts)
    requires row.request in requests && requests[row.request].dialog == row.dialog && requests[row.request].status != Queued
    ensures RowLinks(dialogs, messages, requests, attempts[a := row])
  {
  }

  lemma LinksPutRequest(dialogs: set<Id>, messages: Messages, requests: Requests, attempts: Attempts, r: Id, row: Request)
    requires RowLinks(dialogs, messages, requests, attempts)
    requires row.dialog in dialogs
    requires r in requests ==> row.dialog == requests[r].dialog && (row.status == Queued ==> requests[r].status == Queued)
    ensures RowLinks(dialogs, messages, requests[r := row], attempts)
  {
  }

  lemma LinksPutMessage(dialogs: set<Id>, messages: Messages, requests: Requests, attempts: Attempts, m: Id, row: Message)
    requires RowLinks(dialogs, messages, requests, attempts)
    requires row.request in requests && requests[row.request].dialog == row.dialog
    ensures RowLinks(dialogs, messages[m := row], requests, attempts)
  {
  }

  // ---- queued messages ----------------------------------------------------------------

  lemma QueuedPutMessage(messages: Messages, requests: Requests, m: Id, row: Message)
    requires QueuedMessages(messages, requests)
    requires row.disposition == InQueue || row.disposition == SteerPending ==>
      row.request in requests && requests[row.request].message == m
    requires row.disposition == InQueue ==> requests[row.request].status == Queued
    ensures QueuedMessages(messages[m := row], requests)
  {
  }

  /** A request may leave the queue once its message has stopped waiting. */
  lemma QueuedPutRequest(messages: Messages, requests: Requests, r: Id, row: Request)
    requires QueuedMessages(messages, requests)
    requires r in requests ==> row.message == requests[r].message
    requires row.status != Queued && r in requests && requests[r].status == Queued ==>
      forall m :: m in messages && messages[m].request == r && requests[r].message == m ==> messages[m].disposition != InQueue
    ensures QueuedMessages(messages, requests[r := row])
  {
  }

  // ---- actions ---------------------------------------------------------------------

  lemma ActionsPutAttempt(actions: Actions, attempts: Attempts, messages: Messages, a: Id, row: Attempt)
    requires ActionLinks(actions, attempts, messages)
    requires a in attempts ==> row.dialog == attempts[a].dialog && row.request == attempts[a].request
    ensures ActionLinks(actions, attempts[a := row], messages)
  {
  }

  lemma ActionsPutMessage(actions: Actions, attempts: Attempts, messages: Messages, m: Id, row: Message)
    requires ActionLinks(actions, attempts, messages)
    requires m in messages ==> row.dialog == messages[m].dialog && row.request == messages[m].request
    ensures ActionLinks(actions, attempts, messages[m := row])
  {
  }

  // ---- lifecycle -----------------------------------------------------------------------

  lemma LifecyclePutAttempt(attempts: Attempts, actions: Actions, messages: Messages, a: Id, row: Attempt)
    requires Lifecycle(attempts, actions) && ActionLinks(actions, attempts, messages)
    requires row.state.Dispatching? ==> !row.started
    requires row.state.Running? || row.state.WaitingInput? ==> row.started
    requires a in attempts && attempts[a].started ==> row.started
    requires a in attempts && !Occupies(row.state) ==> forall c :: c in actions && SteerOpen(actions[c]) ==> actions[c].attempt != a
    ensures Lifecycle(attempts[a := row], actions)
  {
  }

  lemma FreshPutAttempt(actions: Actions, attempts: Attempts, messages: Messages, a: Id, row: Attempt)
    requires PendingUnstarted(actions, attempts) && ActionLinks(actions, attempts, messages)
    requires a in attempts && a in actions && row.started ==> attempts[a].started || actions[a].status != Pending
    requires a !in attempts ==> !row.started
    ensures PendingUnstarted(actions, attempts[a := row])
  {
  }

  lemma StartPutAttempt(actions: Actions, attempts: Attempts, messages: Messages, holds: map<Id, Hold>, releases: map<Id, Release>, a: Id, row: Attempt)
    requires NoCoveredStart(actions, attempts, holds, releases) && ActionLinks(actions, attempts, messages)
    requires row.state.Dispatching? && a in actions && a in attempts ==> attempts[a].state.Dispatching? && row.dialog == attempts[a].dialog
    requires a !in attempts ==> a !in actions
    ensures NoCoveredStart(actions, attempts[a := row], holds, releases)
  {
  }

  // ---- the queue count ------------------------------------------------------------------

  lemma CountPutRequest(requests: Requests, pending: int, next: nat, r: Id, row: Request)
    requires QueueCount(requests, pending, next)
    requires r in requests && row.queueSequence == requests[r].queueSequence
    requires row.status == Queued ==> requests[r].status == Queued
    ensures QueueCount(requests[r := row], if requests[r].status == Queued && row.status != Queued then pending - 1 else pending, next)
  {
    var before, after := QueuedSet(requests), QueuedSet(requests[r := row]);
    if requests[r].status == Queued && row.status != Queued {
      assert after == before - {r};
    } else {
      assert after == before;
    }
  }

  lemma CountNewRequest(requests: Requests, pending: int, next: nat, r: Id, row: Request)
    requires QueueCount(requests, pending, next) && pending < QUEUE_CAPACITY
    requires r !in requests && row.queueSequence == next && row.status == Queued
    ensures QueueCount(requests[r := row], pending + 1, next + 1)
  {
    assert QueuedSet(requests[r := row]) == QueuedSet(requests) + {r};
  }

  // ---- the log and the revisions ------------------------------------------------------------

  lemma EmitKeeps(t: Tx, kind: EventKind, dialog: Option<Id>)
    requires TxInv(t)
    ensures TxInv(Emit(t, kind, dialog))
  {
    forall clause ensures Holds(clause, Emit(t, kind, dialog)) {
      Have(clause, t);
    }
  }

  lemma SaveKeeps(t: Tx)
    requires TxInv(t)
    ensures Inv(Save(t).db)
  {
    forall clause ensures Holds(clause, Begin(Save(t).db)) {
      Have(clause, t);
    }
  }
}
