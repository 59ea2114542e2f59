/** Two runs that end where the adapter contract is needed: each is a run the node can make, step by step,
    from an empty store. */
module Scenarios {
  import opened Wrappers
  import opened Store
  import opened Commands
  import opened Execution
  import opened Observation
  import opened Administration
  import opened Invariants
  import opened System
  import opened SystemKeeps
  import opened ExecutionKeeps
  import opened Idempotence
  import opened Limits

  // ---- runs by name -----------------------------------------------------------------------

  /** The state ends a run. */
  ghost predicate Ends(run: seq<Sys>, steps: seq<Step>, s: Sys) {
    IsRun(run, steps) && run[|steps|] == s
  }

  lemma Onward(run: seq<Sys>, steps: seq<Step>, s: Sys, step: Step) returns (longer: seq<Sys>, more: seq<Step>)
    requires Ends(run, steps, s) && Take(s, step).Some?
    ensures Ends(longer, more, Take(s, step).value)
    ensures longer == run + [Take(s, step).value] && more == steps + [step]
  {
    longer, more := run + [Take(s, step).value], steps + [step];
    RunExtends(run, steps, Take(s, step).value, step);
  }

  /** What the next transaction of a scenario depends on. */
  datatype Core = Core(
    version: nat, paused: bool, active: Option<Id>, pendingCount: int, nextQueue: nat, nextMessage: nat,
    dialogs: map<Id, Dialog>, messages: map<Id, Message>, requests: map<Id, Request>, attempts: map<Id, Attempt>,
    actions: map<Id, Action>, tools: map<Id, ToolCall>, approvals: map<Id, Prompt>,
    holds: map<Id, Hold>, releases: map<Id, Release>, accepted: set<Id>, rejected: set<Id>)

  function CoreOf(t: Tx): Core {
    Core(t.st.version, t.st.paused, t.st.active, t.st.pendingCount, t.st.nextQueueSequence, t.st.nextMessageSequence,
         t.db.dialogs.rows, t.db.messages.rows, t.db.requests.rows, t.db.attempts.rows, t.db.actions.rows, t.db.tools.rows,
         t.db.approvals.rows, t.db.holds.rows, t.db.releases.rows, t.db.accepted.rows.Keys, t.db.rejected.rows.Keys)
  }

  /** The core together with the workers. */
  datatype Shot = Shot(core: Core, workers: map<Id, Phase>, gate: Option<Id>)

  predicate Looks(s: Sys, shot: Shot) {
    CoreOf(Begin(s.db)) == shot.core && s.workers == shot.workers && s.gate == shot.gate
  }

  /** From the end of one run another step leads to a state that looks like `next`. */
  lemma Follow(run: seq<Sys>, steps: seq<Step>, step: Step, next: Shot) returns (longer: seq<Sys>, more: seq<Step>)
    requires IsRun(run, steps) && Take(run[|steps|], step).Some? && Looks(Take(run[|steps|], step).value, next)
    ensures IsRun(longer, more) && Looks(longer[|more|], next) && |more| == |steps| + 1 && more[|steps|] == step
  {
    longer, more := Onward(run, steps, run[|steps|], step);
  }

  const ROOM := Supply(0, 0, false, true)
  const REF := AttemptRef(1, 3, 4, 1)
  const PROBE := Probe(false, false, Charge.Fits, 0, 0)

  // ---- what transactions make of a core ------------------------------------------------------

  lemma SaveCore(t: Tx)
    ensures CoreOf(Begin(Save(t).db)) == CoreOf(t)
  {
  }

  lemma EmitCore(t: Tx, kind: EventKind, dialog: Option<Id>)
    ensures CoreOf(Emit(t, kind, dialog)) == CoreOf(t)
  {
  }

  /** A command that is admitted. */
  lemma SubmitCore(db: Db, id: Id, command: Command, ids: Supply)
    requires Ledger(db, id).None? && Authorized(db, command) && !Held(db, command) && ids.spaceAvailable && !ids.storageLow
    requires Apply(Begin(db), command, ids).Some? && (Apply(Begin(db), command, ids).value.action.Some? ==> id !in db.actions.rows)
    requires Apply(Begin(db), command, ids).value.tx.db.actions == db.actions
    requires Apply(Begin(db), command, ids).value.tx.db.accepted == db.accepted
    ensures var applied, after := Apply(Begin(db), command, ids).value, Submit(db, id, 0, command, ids, true).1;
      CoreOf(Begin(after)) == CoreOf(applied.tx).(accepted := db.accepted.rows.Keys + {id},
        actions := if applied.action.Some? then db.actions.rows[id := applied.action.value] else db.actions.rows)
  {
  }

  lemma SubmitTaken(s: Sys, id: Id, command: Command, ids: Supply)
    ensures Take(s, Submitting(id, 0, command, ids, true)) == Some(s.(db := Submit(s.db, id, 0, command, ids, true).1))
  {
  }

  lemma EnqueueCore(t: Tx, d: Id, m: Id, r: Id)
    requires d in t.db.dialogs.rows
    ensures var row := t.db.dialogs.rows[d];
      CoreOf(EnqueueRows(t, d, m, r)) == CoreOf(t).(
        version := t.st.version + 1, pendingCount := t.st.pendingCount + 1, nextQueue := t.st.nextQueueSequence + 1,
        nextMessage := t.st.nextMessageSequence + 1, dialogs := t.db.dialogs.rows[d := row.(version := row.version + 1)],
        messages := t.db.messages.rows[m := Message(d, t.st.nextMessageSequence, 1, InQueue, r)],
        requests := t.db.requests.rows[r := Request(d, m, t.st.nextQueueSequence, 1, Queued)])
  {
  }

  lemma EnqueueApplied(t: Tx, d: Id, version: nat, m: Id, r: Id)
    requires ApplyEnqueue(t, d, version, m, r).Some?
    ensures var applied := ApplyEnqueue(t, d, version, m, r).value;
      && CoreOf(applied.tx) == CoreOf(EnqueueRows(t, d, m, r)) && applied.action == None
      && applied.tx.db.actions == t.db.actions && applied.tx.db.accepted == t.db.accepted
  {
    var t1 := EnqueueRows(t, d, m, r);
    EmitCore(t1, MessageAccepted(d), None);
    EmitCore(Emit(t1, MessageAccepted(d), None), QueueChanged, None);
    EmitCore(EmitQueue(Emit(t1, MessageAccepted(d), None)), NodeChanged, None);
  }

  lemma DispatchCore(db: Db, r: Id, a: Id)
    requires r in db.requests.rows && db.requests.rows[r].message in db.messages.rows
    requires db.messages.rows[db.requests.rows[r].message].disposition == InQueue
    ensures var row, text := db.requests.rows[r], db.messages.rows[db.requests.rows[r].message];
      CoreOf(DispatchRows(db, r, a, 1)) == CoreOf(Begin(db)).(
        version := db.state.version + 1, pendingCount := db.state.pendingCount - 1, active := Some(a),
        messages := db.messages.rows[row.message := text.(version := text.version + 1, disposition := Consumed)],
        requests := db.requests.rows[r := row.(version := row.version + 1, status := Dispatched)],
        attempts := db.attempts.rows[a := Attempt(row.dialog, r, 1, 1, Dispatching, NoEffect, false)])
  {
  }

  lemma DispatchSaved(db: Db, candidate: Candidate, a: Id)
    requires Dispatch(db, candidate, a, 1).Some?
    ensures CoreOf(Begin(Dispatch(db, candidate, a, 1).value)) == CoreOf(DispatchRows(db, candidate.request, a, 1)).(
      actions := db.actions.rows[a := Action(DispatchStart, a, 0, candidate.request, 0, 0, Pending)])
  {
    var row, t1 := db.requests.rows[candidate.request], DispatchRows(db, candidate.request, a, 1);
    var t2 := if db.messages.rows[row.message].disposition == InQueue then Emit(t1, MessageMoved(row.message), None) else t1;
    EmitCore(t1, MessageMoved(row.message), None);
    EmitCore(t2, AttemptMoved, Some(row.dialog));
    EmitCore(Emit(t2, AttemptMoved, Some(row.dialog)), QueueChanged, None);
    var t3 := EmitQueue(Emit(t2, AttemptMoved, Some(row.dialog)));
    EmitCore(t3, NodeChanged, None);
    SaveCore(PutAction(EmitNode(t3), a, Action(DispatchStart, a, 0, candidate.request, 0, 0, Pending)));
  }

  lemma StatusCore(db: Db, c: Id, from: ActionStatus, to: ActionStatus)
    requires c in db.actions.rows && db.actions.rows[c].status == from
    ensures CoreOf(Begin(SetStatus(db, c, from, to))) == CoreOf(Begin(db)).(actions := db.actions.rows[c := db.actions.rows[c].(status := to)])
  {
  }

  lemma StartCore(db: Db, a: Id)
    requires MarkStarted(db, a).Some? && db.attempts.rows[a].request in db.requests.rows
    ensures var row, request := db.attempts.rows[a], db.requests.rows[db.attempts.rows[a].request];
      CoreOf(Begin(MarkStarted(db, a).value)) == CoreOf(Begin(db)).(
        version := db.state.version + 1,
        attempts := db.attempts.rows[a := row.(version := row.version + 1, state := Running, started := true)],
        requests := db.requests.rows[row.request := request.(version := request.version + 1, status := Active)])
  {
    var t := MoveRequest(StartAttempt(Begin(db), a), db.attempts.rows[a].request, Active);
    EmitCore(t, AttemptMoved, Some(db.attempts.rows[a].dialog));
    EmitCore(Emit(t, AttemptMoved, Some(db.attempts.rows[a].dialog)), NodeChanged, None);
    SaveCore(Announce(t, db.attempts.rows[a].dialog));
  }

  /** An event of the running or waiting attempt in the slot. */
  lemma ObserveCore(db: Db, ref: AttemptRef, event: AdapterEvent)
    requires Matches(db, ref) && db.state.active == Some(ref.attempt)
    requires db.attempts.rows[ref.attempt].state.Running? || db.attempts.rows[ref.attempt].state.WaitingInput?
    requires Project(Begin(db), ref, event, PROBE).Some?
    ensures Observe(db, ref, event, PROBE).Some?
    ensures CoreOf(Begin(Observe(db, ref, event, PROBE).value)) == CoreOf(Project(Begin(db), ref, event, PROBE).value)
  {
  }

  lemma TouchCore(t: Tx, a: Id)
    ensures CoreOf(Touch(t, a)) == CoreOf(t)
  {
    if a in t.db.attempts.rows {
      assert t.db.attempts.rows[a := t.db.attempts.rows[a]] == t.db.attempts.rows;
    }
  }

  lemma PublishCore(t: Tx, ref: AttemptRef, kind: EventKind)
    ensures Publish(t, ref, kind, PROBE).Some?
    ensures CoreOf(Publish(t, ref, kind, PROBE).value) == CoreOf(t).(version := t.st.version + 1)
  {
  }

  lemma ToolCore(t: Tx, ref: AttemptRef, call: Id)
    requires ref.attempt in t.db.attempts.rows && call !in t.db.tools.rows
    ensures Project(t, ref, ToolStartedEvent(call), PROBE).Some?
    ensures CoreOf(Project(t, ref, ToolStartedEvent(call), PROBE).value) == CoreOf(t).(
      version := t.st.version + 1, tools := t.db.tools.rows[call := ToolCall(ref.attempt, ToolRunning)])
  {
    TouchCore(t, ref.attempt);
    PublishCore(PutTool(Touch(t, ref.attempt), call, ToolCall(ref.attempt, ToolRunning)), ref, ToolMoved);
  }

  lemma WaitCore(t: Tx, a: Id)
    requires a in t.db.attempts.rows && t.db.attempts.rows[a].state.Running?
    ensures EnterWaiting(t, a).Some?
    ensures var row := t.db.attempts.rows[a];
      CoreOf(EnterWaiting(t, a).value) == CoreOf(t).(
        version := t.st.version + 1, attempts := t.db.attempts.rows[a := row.(version := row.version + 1, state := WaitingInput)])
  {
  }

  lemma PromptCore(t: Tx, ref: AttemptRef, approval: Id, call: Id)
    requires ref.attempt in t.db.attempts.rows && t.db.attempts.rows[ref.attempt].state.Running? && approval !in t.db.approvals.rows
    requires call in t.db.tools.rows && t.db.tools.rows[call].attempt == ref.attempt
    ensures Project(t, ref, ApprovalEvent(approval, call), PROBE).Some?
    ensures var row := t.db.attempts.rows[ref.attempt];
      CoreOf(Project(t, ref, ApprovalEvent(approval, call), PROBE).value) == CoreOf(t).(
        version := t.st.version + 2, approvals := t.db.approvals.rows[approval := Prompt(ref.attempt, 1, Open)],
        attempts := t.db.attempts.rows[ref.attempt := row.(version := row.version + 1, state := WaitingInput)])
  {
    TouchCore(t, ref.attempt);
    var t1 := PutApproval(Touch(t, ref.attempt), approval, Prompt(ref.attempt, 1, Open));
    WaitCore(t1, ref.attempt);
    PublishCore(EnterWaiting(t1, ref.attempt).value, ref, PromptMoved);
  }

  lemma EndCore(t: Tx, ref: AttemptRef)
    requires ref.attempt in t.db.attempts.rows && ref.request in t.db.requests.rows
    requires forall c :: c in t.db.actions.rows ==> t.db.actions.rows[c].kind == DispatchStart
    ensures Project(t, ref, TerminalEvent(OutcomeCompleted, NoEffect), PROBE).Some?
    ensures var row, request := t.db.attempts.rows[ref.attempt], t.db.requests.rows[ref.request];
      CoreOf(Project(t, ref, TerminalEvent(OutcomeCompleted, NoEffect), PROBE).value) == CoreOf(t).(
        version := t.st.version + 1, active := None,
        attempts := t.db.attempts.rows[ref.attempt := row.(version := row.version + 1, state := Completed, effect := NoEffect)],
        requests := t.db.requests.rows[ref.request := request.(version := request.version + 1, status := Succeeded)])
  {
    var t1 := MoveRequest(EndAttempt(t, ref.attempt, OutcomeCompleted, NoEffect), ref.request, Succeeded);
    assert !Unresolved(t.db, ref.attempt);
    EmitCore(t1, AttemptMoved, Some(ref.dialog));
    EmitCore(Emit(t1, AttemptMoved, Some(ref.dialog)), NodeChanged, None);
    assert Project(t, ref, TerminalEvent(OutcomeCompleted, NoEffect), PROBE) == Some(Announce(t1, ref.dialog));
  }

  // ---- a running attempt -------------------------------------------------------------------------

  const TODO := [StartedTodo, FinishTodo(Acknowledged)]

  function EmptyCore(): Core {
    Core(0, false, None, 0, 1, 1, map[], map[], map[], map[], map[], map[], map[], map[], map[], {}, {})
  }

  function CreatedCore(): Core {
    Core(1, false, None, 0, 1, 1, map[1 := Dialog(1, false)], map[], map[], map[], map[], map[], map[], map[], map[], {1}, {})
  }

  /** One dialog with one message waiting. */
  function WaitingCore(): Core {
    Core(2, false, None, 1, 2, 2, map[1 := Dialog(2, false)], map[2 := Message(1, 1, 1, InQueue, 3)],
         map[3 := Request(1, 2, 1, 1, Queued)], map[], map[], map[], map[], map[], map[], {1, 2}, {})
  }

  /** Its attempt committed to the dispatch lane. */
  function DispatchedCore(status: ActionStatus): Core {
    Core(3, false, Some(4), 0, 2, 2, map[1 := Dialog(2, false)], map[2 := Message(1, 1, 2, Consumed, 3)],
         map[3 := Request(1, 2, 1, 2, Dispatched)], map[4 := Attempt(1, 3, 1, 1, Dispatching, NoEffect, false)],
         map[4 := Action(DispatchStart, 4, 0, 3, 0, 0, status)], map[], map[], map[], map[], {1, 2}, {})
  }

  /** Its attempt running. */
  function RunningCore(status: ActionStatus): Core {
    Core(4, false, Some(4), 0, 2, 2, map[1 := Dialog(2, false)], map[2 := Message(1, 1, 2, Consumed, 3)],
         map[3 := Request(1, 2, 1, 3, Active)], map[4 := Attempt(1, 3, 1, 2, Running, NoEffect, true)],
         map[4 := Action(DispatchStart, 4, 0, 3, 0, 0, status)], map[], map[], map[], map[], {1, 2}, {})
  }

  function Idling(core: Core): Shot {
    Shot(core, map[], None)
  }

  function Fresh(): Sys {
    Sys(Db(State(0, 0, 0, false, Ready, Idle, None, 0, [], 1, 1), Table(map[]), Table(map[]), Table(map[]), Table(map[]),
           Table(map[]), Table(map[]), Table(map[]), Table(map[]), Table(map[]), Table(map[]), Table(map[]), 0, Table(map[]),
           Table(map[]), Table(map[]), Table(map[]), Table(map[NodeScope := Revision(1, 1)]), []),
        map[], None, [])
  }

  lemma Creates(s: Sys)
    requires Looks(s, Idling(EmptyCore()))
    ensures var next := Take(s, Submitting(1, 0, CreateDialog, ROOM.(first := 1), true));
      next.Some? && Looks(next.value, Idling(CreatedCore()))
  {
    var t := Advance(PutNewDialog(Begin(s.db), 1));
    EmitCore(t, NodeChanged, None);
    SubmitCore(s.db, 1, CreateDialog, ROOM.(first := 1));
  }

  lemma Enqueues(s: Sys)
    requires Looks(s, Idling(CreatedCore()))
    ensures var next := Take(s, Submitting(2, 0, Enqueue(1, 1), ROOM.(first := 2, second := 3), true));
      next.Some? && Looks(next.value, Idling(WaitingCore()))
  {
    EnqueueCore(Begin(s.db), 1, 2, 3);
    EnqueueApplied(Begin(s.db), 1, 1, 2, 3);
    SubmitCore(s.db, 2, Enqueue(1, 1), ROOM.(first := 2, second := 3));
  }

  lemma Dispatches(s: Sys)
    requires Looks(s, Idling(WaitingCore()))
    ensures var next := Take(s, DispatchingNext(Candidate(3, 2), 4, 1));
      next.Some? && Looks(next.value, Idling(DispatchedCore(Pending)))
  {
    MayDispatch(s.db);
    DispatchCore(s.db, 3, 4);
    DispatchSaved(s.db, Candidate(3, 2), 4);
  }

  lemma MayDispatch(db: Db)
    requires CoreOf(Begin(db)) == WaitingCore()
    ensures Dispatch(db, Candidate(3, 2), 4, 1).Some?
  {
    assert IsNext(db, 3) && IsNextGeneration(db, 2, 1);
  }

  lemma Claims(s: Sys)
    requires Looks(s, Idling(DispatchedCore(Pending)))
    ensures Take(s, Claiming(4)).Some? && Looks(Take(s, Claiming(4)).value, Shot(DispatchedCore(Inflight), map[4 := AtGate], None))
  {
    StatusCore(s.db, 4, Pending, Inflight);
  }

  lemma Enters(s: Sys)
    requires Looks(s, Shot(DispatchedCore(Inflight), map[4 := AtGate], None))
    ensures Take(s, Entering(4)).Some? && Looks(Take(s, Entering(4)).value, Shot(DispatchedCore(Inflight), map[4 := InGate], Some(4)))
  {
  }

  lemma Reads(s: Sys)
    requires Looks(s, Shot(DispatchedCore(Inflight), map[4 := InGate], Some(4)))
    ensures Take(s, Reading(4, true)).Some? && Looks(Take(s, Reading(4, true)).value, Shot(DispatchedCore(Inflight), map[4 := AtCall], Some(4)))
  {
  }

  lemma Called(s: Sys)
    requires Looks(s, Shot(DispatchedCore(Inflight), map[4 := AtCall], Some(4)))
    ensures Take(s, Calling(4, TODO)).Some? && Looks(Take(s, Calling(4, TODO)).value, Shot(DispatchedCore(Inflight), map[4 := After(TODO)], Some(4)))
  {
  }

  lemma Starts(s: Sys)
    requires Looks(s, Shot(DispatchedCore(Inflight), map[4 := After(TODO)], Some(4)))
    ensures Take(s, Writing(4, true)).Some?
    ensures Looks(Take(s, Writing(4, true)).value, Shot(RunningCore(Inflight), map[4 := After([FinishTodo(Acknowledged)])], Some(4)))
  {
    MayStart(s.db);
    assert TODO[1..] == [FinishTodo(Acknowledged)];
  }

  lemma MayStart(db: Db)
    requires CoreOf(Begin(db)) == DispatchedCore(Inflight)
    ensures MarkStarted(db, 4).Some? && CoreOf(Begin(MarkStarted(db, 4).value)) == RunningCore(Inflight)
  {
    StartCore(db, 4);
  }

  lemma Settles(s: Sys)
    requires Looks(s, Shot(RunningCore(Inflight), map[4 := After([FinishTodo(Acknowledged)])], Some(4)))
    ensures Take(s, Writing(4, true)).Some?
    ensures Looks(Take(s, Writing(4, true)).value, Shot(RunningCore(Acknowledged), map[4 := After([])], Some(4)))
  {
    StatusCore(s.db, 4, Inflight, Acknowledged);
    assert [FinishTodo(Acknowledged)][1..] == [];
  }

  lemma Leaves(s: Sys)
    requires Looks(s, Shot(RunningCore(Acknowledged), map[4 := After([])], Some(4)))
    ensures Take(s, Leaving(4)).Some? && Looks(Take(s, Leaving(4)).value, Idling(RunningCore(Acknowledged)))
  {
  }

  lemma Waits() returns (run: seq<Sys>, steps: seq<Step>)
    ensures IsRun(run, steps) && Looks(run[|steps|], Idling(WaitingCore()))
  {
    run, steps := [Fresh()], [];
    Creates(run[|steps|]);
    run, steps := Follow(run, steps, Submitting(1, 0, CreateDialog, ROOM.(first := 1), true), Idling(CreatedCore()));
    Enqueues(run[|steps|]);
    run, steps := Follow(run, steps, Submitting(2, 0, Enqueue(1, 1), ROOM.(first := 2, second := 3), true), Idling(WaitingCore()));
  }

  /** One dialog, one message, and its attempt running in the slot. */
  lemma Runs() returns (run: seq<Sys>, steps: seq<Step>)
    ensures IsRun(run, steps) && Looks(run[|steps|], Idling(RunningCore(Acknowledged)))
  {
    run, steps := Waits();
    var core := DispatchedCore(Inflight);
    Dispatches(run[|steps|]);
    run, steps := Follow(run, steps, DispatchingNext(Candidate(3, 2), 4, 1), Idling(DispatchedCore(Pending)));
    Claims(run[|steps|]);
    run, steps := Follow(run, steps, Claiming(4), Shot(core, map[4 := AtGate], None));
    Enters(run[|steps|]);
    run, steps := Follow(run, steps, Entering(4), Shot(core, map[4 := InGate], Some(4)));
    Reads(run[|steps|]);
    run, steps := Follow(run, steps, Reading(4, true), Shot(core, map[4 := AtCall], Some(4)));
    Called(run[|steps|]);
    run, steps := Follow(run, steps, Calling(4, TODO), Shot(core, map[4 := After(TODO)], Some(4)));
    Starts(run[|steps|]);
    run, steps := Follow(run, steps, Writing(4, true), Shot(RunningCore(Inflight), map[4 := After([FinishTodo(Acknowledged)])], Some(4)));
    Settles(run[|steps|]);
    run, steps := Follow(run, steps, Writing(4, true), Shot(RunningCore(Acknowledged), map[4 := After([])], Some(4)));
    Leaves(run[|steps|]);
    run, steps := Follow(run, steps, Leaving(4), Idling(RunningCore(Acknowledged)));
  }

  // ---- a finished attempt is taken back ---------------------------------------------------------

  const UNDECIDED := [AnswerTodo(ResponseUnknown), FinishTodo(Unsettled)]

  /** A tool has started. */
  function ToolingCore(): Core {
    RunningCore(Acknowledged).(version := 5, tools := map[7 := ToolCall(4, ToolRunning)])
  }

  /** It asks for approval. */
  function AskingCore(): Core {
    RunningCore(Acknowledged).(version := 7, tools := map[7 := ToolCall(4, ToolRunning)], approvals := map[6 := Prompt(4, 1, Open)],
                               attempts := map[4 := Attempt(1, 3, 1, 3, WaitingInput, NoEffect, true)])
  }

  /** The attempt completes with the approval still open. */
  function EndedCore(): Core {
    RunningCore(Acknowledged).(version := 8, active := None, tools := map[7 := ToolCall(4, ToolRunning)],
                               approvals := map[6 := Prompt(4, 1, Open)], requests := map[3 := Request(1, 2, 1, 4, Succeeded)],
                               attempts := map[4 := Attempt(1, 3, 1, 4, Completed, NoEffect, true)])
  }

  /** The approval is answered. */
  function AnsweredCore(status: ActionStatus): Core {
    EndedCore().(approvals := map[6 := Prompt(4, 2, Responding)], accepted := {1, 2, 5},
                 actions := map[4 := Action(DispatchStart, 4, 0, 3, 0, 0, Acknowledged), 5 := Action(ApprovalRespond, 4, 0, 3, 6, 2, status)])
  }

  lemma Tools(s: Sys)
    requires Looks(s, Idling(RunningCore(Acknowledged)))
    ensures var next := Take(s, Observing(REF, ToolStartedEvent(7), PROBE)); next.Some? && Looks(next.value, Idling(ToolingCore()))
  {
    ToolCore(Begin(s.db), REF, 7);
    ObserveCore(s.db, REF, ToolStartedEvent(7));
  }

  lemma Asks(s: Sys)
    requires Looks(s, Idling(ToolingCore()))
    ensures var next := Take(s, Observing(REF, ApprovalEvent(6, 7), PROBE)); next.Some? && Looks(next.value, Idling(AskingCore()))
  {
    PromptCore(Begin(s.db), REF, 6, 7);
    ObserveCore(s.db, REF, ApprovalEvent(6, 7));
  }

  lemma Completes(s: Sys)
    requires Looks(s, Idling(AskingCore()))
    ensures var next := Take(s, Observing(REF, TerminalEvent(OutcomeCompleted, NoEffect), PROBE));
      next.Some? && Looks(next.value, Idling(EndedCore()))
  {
    EndsInCore(s.db);
  }

  lemma EndsInCore(db: Db)
    requires CoreOf(Begin(db)) == AskingCore()
    ensures var db' := Observe(db, REF, TerminalEvent(OutcomeCompleted, NoEffect), PROBE);
      db'.Some? && CoreOf(Begin(db'.value)) == EndedCore()
  {
    EndCore(Begin(db), REF);
    ObserveCore(db, REF, TerminalEvent(OutcomeCompleted, NoEffect));
  }

  lemma Answers(s: Sys)
    requires Looks(s, Idling(EndedCore()))
    ensures var next := Take(s, Submitting(5, 0, AnswerApproval(6, 1, 4, 1, true), ROOM, true));
      next.Some? && Looks(next.value, Idling(AnsweredCore(Pending)))
  {
    MayAnswer(s.db);
    SubmitTaken(s, 5, AnswerApproval(6, 1, 4, 1, true), ROOM);
  }

  lemma MayAnswer(db: Db)
    requires CoreOf(Begin(db)) == EndedCore()
    ensures CoreOf(Begin(Submit(db, 5, 0, AnswerApproval(6, 1, 4, 1, true), ROOM, true).1)) == AnsweredCore(Pending)
  {
    AnswerApplied(Begin(db));
    SubmitCore(db, 5, AnswerApproval(6, 1, 4, 1, true), ROOM);
  }

  lemma AnswerApplied(t: Tx)
    requires CoreOf(t) == EndedCore()
    ensures var applied := ApplyApproval(t, 6, 1, 4, 1, true);
      && applied.Some? && applied.value.action == Some(Action(ApprovalRespond, 4, 0, 3, 6, 2, Pending))
      && CoreOf(applied.value.tx) == AnsweredCore(Pending).(actions := t.db.actions.rows, accepted := t.db.accepted.rows.Keys)
      && applied.value.tx.db.actions == t.db.actions && applied.value.tx.db.accepted == t.db.accepted
  {
  }

  lemma Claimed(s: Sys)
    requires Looks(s, Idling(AnsweredCore(Pending)))
    ensures Take(s, Claiming(5)).Some? && Looks(Take(s, Claiming(5)).value, Shot(AnsweredCore(Inflight), map[5 := AtCall], None))
  {
    StatusCore(s.db, 5, Pending, Inflight);
  }

  lemma Delivers(s: Sys)
    requires Looks(s, Shot(AnsweredCore(Inflight), map[5 := AtCall], None))
    ensures var next := Take(s, Calling(5, UNDECIDED)); next.Some? && Looks(next.value, Shot(AnsweredCore(Inflight), map[5 := After(UNDECIDED)], None))
  {
  }

  lemma RunsToEnd() returns (run: seq<Sys>, steps: seq<Step>)
    ensures IsRun(run, steps) && Looks(run[|steps|], Idling(EndedCore()))
  {
    run, steps := Runs();
    Tools(run[|steps|]);
    run, steps := Follow(run, steps, Observing(REF, ToolStartedEvent(7), PROBE), Idling(ToolingCore()));
    Asks(run[|steps|]);
    run, steps := Follow(run, steps, Observing(REF, ApprovalEvent(6, 7), PROBE), Idling(AskingCore()));
    Completes(run[|steps|]);
    run, steps := Follow(run, steps, Observing(REF, TerminalEvent(OutcomeCompleted, NoEffect), PROBE), Idling(EndedCore()));
  }

  lemma StaysUndecided() returns (run: seq<Sys>, steps: seq<Step>)
    ensures IsRun(run, steps) && Looks(run[|steps|], Shot(AnsweredCore(Inflight), map[5 := After(UNDECIDED)], None))
  {
    run, steps := RunsToEnd();
    Answers(run[|steps|]);
    run, steps := Follow(run, steps, Submitting(5, 0, AnswerApproval(6, 1, 4, 1, true), ROOM, true), Idling(AnsweredCore(Pending)));
    Claimed(run[|steps|]);
    run, steps := Follow(run, steps, Claiming(5), Shot(AnsweredCore(Inflight), map[5 := AtCall], None));
    Delivers(run[|steps|]);
    run, steps := Follow(run, steps, Calling(5, UNDECIDED), Shot(AnsweredCore(Inflight), map[5 := After(UNDECIDED)], None));
  }

  lemma Reopens(s: Sys)
    requires SysInv(s) && Looks(s, Shot(AnsweredCore(Inflight), map[5 := After(UNDECIDED)], None))
    ensures var next := Take(s, Writing(5, true)); next.Some?
    ensures var db := Take(s, Writing(5, true)).value.db;
      4 in db.attempts.rows && Occupies(db.attempts.rows[4].state) && db.state.active == Some(4)
  {
    Doubts(s.db);
    WriteTaken(s, 5, UNDECIDED);
    AnswerWritten(s.db);
  }

  lemma AnswerWritten(db: Db)
    requires 5 in db.actions.rows
    ensures Write(db, 5, UNDECIDED[0]) == FinishResponse(db, db.actions.rows[5], ResponseUnknown)
  {
  }

  lemma WriteTaken(s: Sys, c: Id, todo: seq<Todo>)
    requires c in s.workers && s.workers[c] == After(todo) && |todo| > 0 && c in s.db.actions.rows && Write(s.db, c, todo[0]).Some?
    ensures Take(s, Writing(c, true)).Some? && Take(s, Writing(c, true)).value.db == Write(s.db, c, todo[0]).value
  {
  }

  lemma Doubts(db: Db)
    requires Inv(db) && CoreOf(Begin(db)) == AnsweredCore(Inflight)
    ensures var after := FinishResponse(db, db.actions.rows[5], ResponseUnknown);
      && after.Some? && 4 in after.value.attempts.rows && Occupies(after.value.attempts.rows[4].state)
      && after.value.state.active == Some(4)
  {
    var action := db.actions.rows[5];
    AnswerReopensIff(db, 5, ResponseUnknown);
    FinishResponseKeeps(db, action, ResponseUnknown);
    Have(Slot, Begin(FinishResponse(db, action, ResponseUnknown).value));
  }

  /** A run in which a completed attempt becomes active again: the attempt ends with an approval still open, the approval is
      answered, and the outcome of the answer is unknown. */
  lemma CompletedAttemptReopens() returns (run: seq<Sys>, steps: seq<Step>)
    ensures IsRun(run, steps) && |steps| > 0 && steps[|steps| - 1] == Writing(5, true)
    ensures var db := run[|steps| - 1].db;
      4 in db.attempts.rows && db.attempts.rows[4].state == Completed && db.state.active == None
    ensures var db := run[|steps|].db;
      4 in db.attempts.rows && Occupies(db.attempts.rows[4].state) && db.state.active == Some(4)
  {
    run, steps := StaysUndecided();
    Reachable(run, steps, |steps|);
    Reopens(run[|steps|]);
    run, steps := Onward(run, steps, run[|steps|], Writing(5, true));
  }

  // ---- the queue is miscounted --------------------------------------------------------------------

  /** A second message waits. */
  function SecondCore(): Core {
    RunningCore(Acknowledged).(version := 5, pendingCount := 1, nextQueue := 3, nextMessage := 3, dialogs := map[1 := Dialog(3, false)],
      messages := map[2 := Message(1, 1, 2, Consumed, 3), 12 := Message(1, 2, 1, InQueue, 13)],
      requests := map[3 := Request(1, 2, 1, 3, Active), 13 := Request(1, 12, 2, 1, Queued)], accepted := {1, 2, 11})
  }

  /** It is on its way to the provider as a steer. */
  function SteeringCore(status: ActionStatus): Core {
    SecondCore().(version := 6, messages := map[2 := Message(1, 1, 2, Consumed, 3), 12 := Message(1, 2, 2, SteerPending, 13)],
      actions := map[4 := Action(DispatchStart, 4, 0, 3, 0, 0, Acknowledged), 15 := Action(MessageSteer, 4, 12, 13, 0, 0, status)],
      accepted := {1, 2, 11, 15})
  }

  lemma EnqueuesAgain(s: Sys)
    requires Looks(s, Idling(RunningCore(Acknowledged)))
    ensures var next := Take(s, Submitting(11, 0, Enqueue(1, 2), ROOM.(first := 12, second := 13), true));
      next.Some? && Looks(next.value, Idling(SecondCore()))
  {
    MayEnqueue(s.db);
    SubmitTaken(s, 11, Enqueue(1, 2), ROOM.(first := 12, second := 13));
  }

  lemma MayEnqueue(db: Db)
    requires CoreOf(Begin(db)) == RunningCore(Acknowledged)
    ensures CoreOf(Begin(Submit(db, 11, 0, Enqueue(1, 2), ROOM.(first := 12, second := 13), true).1)) == SecondCore()
  {
    SecondApplied(Begin(db));
    SubmitCore(db, 11, Enqueue(1, 2), ROOM.(first := 12, second := 13));
  }

  lemma SecondApplied(t: Tx)
    requires CoreOf(t) == RunningCore(Acknowledged)
    ensures var applied := ApplyEnqueue(t, 1, 2, 12, 13);
      && applied.Some? && applied.value.action == None && CoreOf(applied.value.tx) == SecondCore().(accepted := t.db.accepted.rows.Keys)
      && applied.value.tx.db.actions == t.db.actions && applied.value.tx.db.accepted == t.db.accepted
  {
    EnqueueCore(t, 1, 12, 13);
    EnqueueApplied(t, 1, 2, 12, 13);
  }

  lemma Steers(s: Sys)
    requires Looks(s, Idling(SecondCore()))
    ensures var next := Take(s, Submitting(15, 0, SteerMessage(1, 12, 1, 4, 1), ROOM, true));
      next.Some? && Looks(next.value, Idling(SteeringCore(Pending)))
  {
    MaySteer(s.db);
    SubmitTaken(s, 15, SteerMessage(1, 12, 1, 4, 1), ROOM);
  }

  lemma SteerApplied(t: Tx)
    requires CoreOf(t) == SecondCore()
    ensures var applied := ApplySteer(t, 1, 12, 1, 4, 1);
      && applied.Some? && applied.value.action == Some(Action(MessageSteer, 4, 12, 13, 0, 0, Pending))
      && CoreOf(applied.value.tx) == SteeringCore(Pending).(actions := t.db.actions.rows, accepted := t.db.accepted.rows.Keys)
      && applied.value.tx.db.actions == t.db.actions && applied.value.tx.db.accepted == t.db.accepted
  {
    EmitCore(SteerRows(t, 12), MessageMoved(12), None);
    EmitCore(Emit(SteerRows(t, 12), MessageMoved(12), None), QueueChanged, None);
  }

  lemma MaySteer(db: Db)
    requires CoreOf(Begin(db)) == SecondCore()
    ensures CoreOf(Begin(Submit(db, 15, 0, SteerMessage(1, 12, 1, 4, 1), ROOM, true).1)) == SteeringCore(Pending)
  {
    SteerApplied(Begin(db));
    SubmitCore(db, 15, SteerMessage(1, 12, 1, 4, 1), ROOM);
  }

  lemma Hands(s: Sys)
    requires Looks(s, Idling(SteeringCore(Pending)))
    ensures Take(s, Claiming(15)).Some? && Looks(Take(s, Claiming(15)).value, Shot(SteeringCore(Inflight), map[15 := AtCall], None))
  {
    StatusCore(s.db, 15, Pending, Inflight);
  }

  /** A run in which a message is on its way to the provider as a steer. If the adapter's answer then lies outside the declared
      outcomes, the write that doubts the attempt leaves the queue miscounted. */
  lemma UndeclaredSteerMiscounts() returns (run: seq<Sys>, steps: seq<Step>)
    ensures IsRun(run, steps)
    ensures var s := run[|steps|]; var after := MarkUnknown(s.db, 4, 13, UnknownEffect);
      && 15 in s.workers && s.workers[15] == AtCall
      && 15 in s.db.actions.rows && s.db.actions.rows[15] == Action(MessageSteer, 4, 12, 13, 0, 0, Inflight)
      && after.Some? && after.value.state.pendingCount != |QueuedSet(after.value.requests.rows)|
  {
    run, steps := Runs();
    EnqueuesAgain(run[|steps|]);
    run, steps := Follow(run, steps, Submitting(11, 0, Enqueue(1, 2), ROOM.(first := 12, second := 13), true), Idling(SecondCore()));
    Steers(run[|steps|]);
    run, steps := Follow(run, steps, Submitting(15, 0, SteerMessage(1, 12, 1, 4, 1), ROOM, true), Idling(SteeringCore(Pending)));
    Hands(run[|steps|]);
    run, steps := Follow(run, steps, Claiming(15), Shot(SteeringCore(Inflight), map[15 := AtCall], None));
    Reachable(run, steps, |steps|);
    Miscounts(run[|steps|].db);
  }

  lemma Miscounts(db: Db)
    requires Inv(db) && CoreOf(Begin(db)) == SteeringCore(Inflight)
    ensures var after := MarkUnknown(db, 4, 13, UnknownEffect);
      after.Some? && after.value.state.pendingCount != |QueuedSet(after.value.requests.rows)|
  {
    assert MarkUnknown(db, 4, 13, UnknownEffect).Some? && 13 in QueuedSet(db.requests.rows);
    UndeclaredSteerCountsIff(db, 15, UnknownEffect);
  }
}
