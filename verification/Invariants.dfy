/** What every committed transaction keeps. The predicates speak of a transaction
    in progress: its tables and the state it will save. */
module Invariants {
  import opened Wrappers
  import opened Store
  import opened Commands
  import opened Execution
  import opened Observation
  import opened Administration

  type Attempts = map<Id, Attempt>
  type Requests = map<Id, Request>
  type Messages = map<Id, Message>
  type Actions = map<Id, Action>

  /** The slot names exactly the attempt in an occupying state, and the occupancy matches it. */
  ghost predicate SlotAgreement(attempts: Attempts, active: Option<Id>, occupancy: Occupancy, reasons: seq<Reason>) {
    && (forall a :: a in attempts ==> (Occupies(attempts[a].state) <==> active == Some(a)))
    && (match active
        case None => occupancy == Idle
        case Some(a) => a in attempts && occupancy == (if attempts[a].state.Unknown? then Doubtful else Busy))
    && (occupancy == Doubtful ==> ExecutionUnknown in reasons)
  }

  /** Rows refer to rows of the same dialog; an attempted request has left the queue. */
  ghost predicate RowLinks(dialogs: set<Id>, messages: Messages, requests: Requests, attempts: Attempts) {
    && (forall r :: r in requests ==> requests[r].dialog in dialogs)
    && (forall m :: m in messages ==> messages[m].request in requests && requests[messages[m].request].dialog == messages[m].dialog)
    && (forall a :: a in attempts ==>
          && attempts[a].request in requests && requests[attempts[a].request].dialog == attempts[a].dialog
          && requests[attempts[a].request].status != Queued)
  }

  /** A message waits in the queue only through its own request. */
  ghost predicate QueuedMessages(messages: Messages, requests: Requests) {
    forall m :: m in messages && (messages[m].disposition == InQueue || messages[m].disposition == SteerPending) ==>
      && messages[m].request in requests && requests[messages[m].request].message == m
      && (messages[m].disposition == InQueue ==> requests[messages[m].request].status == Queued)
  }

  ghost predicate ActionLinks(actions: Actions, attempts: Attempts, messages: Messages) {
    forall c :: c in actions ==>
      && actions[c].attempt in attempts
      && (actions[c].kind == DispatchStart ==> actions[c].attempt == c)
      && (actions[c].kind == MessageSteer ==>
            && actions[c].message in messages && actions[c].request == messages[actions[c].message].request
            && messages[actions[c].message].dialog == attempts[actions[c].attempt].dialog)
      && (actions[c].kind != MessageSteer ==> actions[c].request == attempts[actions[c].attempt].request)
  }

  ghost predicate EffectLinks(attempts: set<Id>, tools: map<Id, ToolCall>, approvals: map<Id, Prompt>, inputs: map<Id, Prompt>) {
    && (forall i :: i in tools ==> tools[i].attempt in attempts)
    && (forall i :: i in approvals ==> approvals[i].attempt in attempts)
    && (forall i :: i in inputs ==> inputs[i].attempt in attempts)
  }

  predicate SteerOpen(action: Action) {
    action.kind == MessageSteer && (Unclaimed(action.status) || action.status == Unsettled)
  }

  /** An attempt runs only after it started; an unresolved steer keeps its attempt in the slot. */
  ghost predicate Lifecycle(attempts: Attempts, actions: Actions) {
    && (forall a :: a in attempts ==>
          && (attempts[a].state.Dispatching? ==> !attempts[a].started)
          && (attempts[a].state.Running? || attempts[a].state.WaitingInput? ==> attempts[a].started))
    && (forall c :: c in actions && actions[c].kind == MessageSteer && actions[c].attempt in attempts ==>
          && attempts[actions[c].attempt].started
          && (SteerOpen(actions[c]) ==> Occupies(attempts[actions[c].attempt].state)))
  }

  /** A dispatch no lane has claimed belongs to an attempt that never started. */
  ghost predicate PendingUnstarted(actions: Actions, attempts: Attempts) {
    forall c :: c in actions && actions[c].kind == DispatchStart && actions[c].status == Pending && actions[c].attempt in attempts ==>
      !attempts[actions[c].attempt].started
  }

  /** While a steer is on its way, the message it carries still waits through a queued request. */
  ghost predicate SteerQueued(actions: Actions, messages: Messages, requests: Requests) {
    forall c :: c in actions && actions[c].kind == MessageSteer && Unclaimed(actions[c].status)
                && actions[c].message in messages && messages[actions[c].message].disposition == SteerPending ==>
      messages[actions[c].message].request in requests && requests[messages[actions[c].message].request].status == Queued
  }

  /** An answer names a prompt of its own attempt. */
  ghost predicate PromptLinks(actions: Actions, approvals: map<Id, Prompt>, inputs: map<Id, Prompt>) {
    forall c :: c in actions ==>
      && (actions[c].kind == ApprovalRespond ==>
            actions[c].prompt in approvals && approvals[actions[c].prompt].attempt == actions[c].attempt)
      && (actions[c].kind == InputRespond ==>
            actions[c].prompt in inputs && inputs[actions[c].prompt].attempt == actions[c].attempt)
  }

  ghost function QueuedSet(requests: Requests): set<Id> {
    set r | r in requests && requests[r].status == Queued
  }

  /** The pending count is the number of queued requests, and their order is a strict one. */
  ghost predicate QueueCount(requests: Requests, pendingCount: int, nextQueueSequence: nat) {
    && pendingCount == |QueuedSet(requests)| && pendingCount <= QUEUE_CAPACITY
    && (forall r :: r in requests ==> requests[r].queueSequence < nextQueueSequence)
    && (forall r, q :: r in requests && q in requests && r != q ==> requests[r].queueSequence != requests[q].queueSequence)
  }

  /** No dispatch whose provider start is still ahead is covered by an active hold. */
  ghost predicate NoCoveredStart(actions: Actions, attempts: Attempts, holds: map<Id, Hold>, releases: map<Id, Release>) {
    forall c :: c in actions && actions[c].kind == DispatchStart && Unclaimed(actions[c].status)
                && actions[c].attempt in attempts && attempts[actions[c].attempt].state.Dispatching? ==>
      !HeldOver(holds, releases, attempts[actions[c].attempt].dialog)
  }

  /** Active holds do not overlap and carry their scope's current revision. */
  ghost predicate HoldsApart(holds: map<Id, Hold>, releases: map<Id, Release>, revisions: map<Scope, nat>) {
    && (forall h :: h in releases ==> h in holds)
    && (forall h :: h in holds && h !in releases ==> holds[h].scope in revisions && revisions[holds[h].scope] == holds[h].scopeRevision)
    && (forall h, k :: h in holds && h !in releases && k in holds && k !in releases && h != k ==>
          !Overlap(holds[h].scope, holds[k].scope))
  }

  /** The log is exactly the events numbered 1 to the last sequence. */
  ghost predicate GapFree(events: map<nat, Event>, last: nat) {
    && (forall n :: n in events ==> 1 <= n <= last && events[n].number == n)
    && (forall n: nat :: 1 <= n <= last ==> n in events)
  }

  ghost predicate RevisionRows(revisions: map<Scope, Revision>, dialogs: map<Id, Dialog>) {
    NodeScope in revisions && forall d :: d in dialogs <==> DialogScope(d) in revisions
  }

  ghost predicate OneOutcome(accepted: map<Id, Receipt>, rejected: map<Id, Receipt>) {
    forall id :: id in accepted ==> id !in rejected
  }

  /** The clauses of the invariant, by name. */
  datatype Clause =
    | Slot | Links | Waiting | Actors | Effects | Life | Fresh | Steers | Prompts | Count | Starts | Holding | Log | Revisions | Outcomes

  ghost predicate Holds(clause: Clause, t: Tx) {
    match clause
    case Slot => SlotAgreement(t.db.attempts.rows, t.st.active, t.st.occupancy, t.st.reasons)
    case Links => RowLinks(t.db.dialogs.rows.Keys, t.db.messages.rows, t.db.requests.rows, t.db.attempts.rows)
    case Waiting => QueuedMessages(t.db.messages.rows, t.db.requests.rows)
    case Actors => ActionLinks(t.db.actions.rows, t.db.attempts.rows, t.db.messages.rows)
    case Effects => EffectLinks(t.db.attempts.rows.Keys, t.db.tools.rows, t.db.approvals.rows, t.db.inputs.rows)
    case Life => Lifecycle(t.db.attempts.rows, t.db.actions.rows)
    case Fresh => PendingUnstarted(t.db.actions.rows, t.db.attempts.rows)
    case Steers => SteerQueued(t.db.actions.rows, t.db.messages.rows, t.db.requests.rows)
    case Prompts => PromptLinks(t.db.actions.rows, t.db.approvals.rows, t.db.inputs.rows)
    case Count => QueueCount(t.db.requests.rows, t.st.pendingCount, t.st.nextQueueSequence)
    case Starts => NoCoveredStart(t.db.actions.rows, t.db.attempts.rows, t.db.holds.rows, t.db.releases.rows)
    case Holding => HoldsApart(t.db.holds.rows, t.db.releases.rows, t.db.holdRevisions.rows)
    case Log => GapFree(t.db.events.rows, t.st.lastEventSeq)
    case Revisions => RevisionRows(t.db.revisions.rows, t.db.dialogs.rows)
    case Outcomes => OneOutcome(t.db.accepted.rows, t.db.rejected.rows)
  }

  ghost predicate TxInv(t: Tx) {
    forall clause :: Holds(clause, t)
  }

  lemma Have(clause: Clause, t: Tx)
    requires TxInv(t)
    ensures Holds(clause, t)
  {
  }

  /** A transaction that is rolled back keeps everything. */
  ghost predicate Kept(outcome: Option<Tx>) {
    outcome.Some? ==> TxInv(outcome.value)
  }

  ghost predicate Inv(db: Db) {
    TxInv(Begin(db))
  }
}
