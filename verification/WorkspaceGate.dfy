/** Mutual exclusion of tool runs: one at a time in a workspace, eight at a time overall
    (tools/helper_runner.go). Every step below is one atomic action of one caller. */
module WorkspaceGate {
  import opened Wrappers

  type Task = nat
  type Workspace = nat
  type GateId = nat

  const MAX_RUNS := 8

  /** `Waiting` for the workspace's slot, `Holding` it and waiting for a run slot, `Running`, `Releasing` the workspace's
      slot, or `Dropping` the reference, with the slot given back or never taken. */
  datatype Stage = Waiting | Holding | Running | Releasing | Dropping

  datatype Caller = Caller(stage: Stage, workspace: Workspace, gate: GateId)

  /** A gate object: its one-place channel and the count of callers that refer to it. */
  datatype Gate = Gate(full: bool, refs: int)

  datatype Runner = Runner(
    callers: map<Task, Caller>, gates: map<GateId, Gate>, entries: map<Workspace, GateId>, slots: nat, next: GateId)

  datatype Step =
    | Enter(task: Task, workspace: Workspace)
    | TakeSlot(task: Task)
    | GiveUp(task: Task)
    | Begin(task: Task)
    | Abandon(task: Task)
    | Finish(task: Task)
    | Release(task: Task)
    | Drop(task: Task)

  predicate At(s: Runner, task: Task, stage: Stage) {
    task in s.callers && s.callers[task].stage == stage && s.callers[task].gate in s.gates
  }

  function Move(s: Runner, task: Task, stage: Stage): Runner
    requires task in s.callers
  {
    s.(callers := s.callers[task := s.callers[task].(stage := stage)])
  }

  function SetFull(s: Runner, gate: GateId, full: bool): Runner
    requires gate in s.gates
  {
    s.(gates := s.gates[gate := s.gates[gate].(full := full)])
  }

  /** One atomic step; `None` when it is not enabled. */
  function Next(s: Runner, step: Step): Option<Runner> {
    match step
    case Enter(task, workspace) =>
      if task in s.callers then None
      else if workspace in s.entries then
        var gate := s.entries[workspace];
        if gate !in s.gates then None else
          Some(s.(callers := s.callers[task := Caller(Waiting, workspace, gate)],
                  gates := s.gates[gate := s.gates[gate].(refs := s.gates[gate].refs + 1)]))
      else
        Some(s.(callers := s.callers[task := Caller(Waiting, workspace, s.next)], gates := s.gates[s.next := Gate(false, 1)],
                entries := s.entries[workspace := s.next], next := s.next + 1))
    case TakeSlot(task) =>
      if !At(s, task, Waiting) || s.gates[s.callers[task].gate].full then None
      else Some(SetFull(Move(s, task, Holding), s.callers[task].gate, true))
    case GiveUp(task) => if !At(s, task, Waiting) then None else Some(Move(s, task, Dropping))
    case Begin(task) =>
      if !At(s, task, Holding) || s.slots >= MAX_RUNS then None else Some(Move(s, task, Running).(slots := s.slots + 1))
    case Abandon(task) => if !At(s, task, Holding) then None else Some(Move(s, task, Releasing))
    case Finish(task) =>
      if !At(s, task, Running) || s.slots == 0 then None else Some(Move(s, task, Releasing).(slots := s.slots - 1))
    case Release(task) =>
      if !At(s, task, Releasing) || !s.gates[s.callers[task].gate].full then None
      else Some(SetFull(Move(s, task, Dropping), s.callers[task].gate, false))
    case Drop(task) =>
      if !At(s, task, Dropping) then None
      else
        var workspace, gate := s.callers[task].workspace, s.callers[task].gate;
        var refs := s.gates[gate].refs - 1;
        var forget := refs == 0 && workspace in s.entries && s.entries[workspace] == gate;
        Some(s.(callers := s.callers - {task}, gates := s.gates[gate := s.gates[gate].(refs := refs)],
                entries := if forget then s.entries - {workspace} else s.entries))
  }

  // ---- the invariant ------------------------------------------------------------------------

  type Callers = map<Task, Caller>
  type Gates = map<GateId, Gate>

  function Referring(callers: Callers, gate: GateId): set<Task> {
    set t | t in callers && callers[t].gate == gate
  }

  predicate HasSlot(c: Caller) {
    c.stage == Holding || c.stage == Running || c.stage == Releasing
  }

  function Holders(callers: Callers, gate: GateId): set<Task> {
    set t | t in callers && callers[t].gate == gate && HasSlot(callers[t])
  }

  function InStage(callers: Callers, stage: Stage): set<Task> {
    set t | t in callers && callers[t].stage == stage
  }

  /** Every caller of a workspace refers to the gate its entry names. */
  ghost predicate Shared(callers: Callers, gates: Gates, entries: map<Workspace, GateId>, next: GateId) {
    && (forall t :: t in callers ==>
          && callers[t].gate in gates && callers[t].workspace in entries && entries[callers[t].workspace] == callers[t].gate)
    && (forall v, w :: v in entries && w in entries && entries[v] == entries[w] ==> v == w)
    && (forall w :: w in entries ==> entries[w] in gates && gates[entries[w]].refs > 0)
    && (forall g :: g in gates ==> g < next)
  }

  ghost predicate RefsCounted(callers: Callers, gates: Gates) {
    forall g :: g in gates ==> gates[g].refs == |Referring(callers, g)|
  }

  /** A gate's channel is full exactly while one caller has its slot. */
  ghost predicate SlotHeld(callers: Callers, gates: Gates) {
    forall g :: g in gates ==> |Holders(callers, g)| == if gates[g].full then 1 else 0
  }

  ghost predicate RunsCounted(callers: Callers, slots: nat) {
    slots == |InStage(callers, Running)| && slots <= MAX_RUNS
  }

  ghost predicate Inv(s: Runner) {
    && Shared(s.callers, s.gates, s.entries, s.next) && RefsCounted(s.callers, s.gates)
    && SlotHeld(s.callers, s.gates) && RunsCounted(s.callers, s.slots)
  }

  ghost predicate Initial(s: Runner) {
    s == Runner(map[], map[], map[], 0, 0)
  }

  function Only(condition: bool, t: Task): set<Task> {
    if condition then {t} else {}
  }

  lemma Put(callers: Callers, t: Task, c: Caller, g: GateId)
    ensures Referring(callers[t := c], g) == Referring(callers, g) - {t} + Only(c.gate == g, t)
    ensures Holders(callers[t := c], g) == Holders(callers, g) - {t} + Only(c.gate == g && HasSlot(c), t)
    ensures InStage(callers[t := c], Running) == InStage(callers, Running) - {t} + Only(c.stage == Running, t)
    ensures t in Referring(callers, g) <==> t in callers && callers[t].gate == g
    ensures t in Holders(callers, g) <==> t in callers && callers[t].gate == g && HasSlot(callers[t])
    ensures t in InStage(callers, Running) <==> t in callers && callers[t].stage == Running
  {
  }

  lemma Removed(callers: Callers, t: Task, g: GateId)
    ensures Referring(callers - {t}, g) == Referring(callers, g) - {t}
    ensures Holders(callers - {t}, g) == Holders(callers, g) - {t}
    ensures InStage(callers - {t}, Running) == InStage(callers, Running) - {t}
    ensures t in Referring(callers, g) <==> t in callers && callers[t].gate == g
    ensures t in Holders(callers, g) <==> t in callers && callers[t].gate == g && HasSlot(callers[t])
    ensures t in InStage(callers, Running) <==> t in callers && callers[t].stage == Running
  {
  }

  // ---- entering ---------------------------------------------------------------------------------

  lemma EnterRefs(callers: Callers, gates: Gates, task: Task, c: Caller, gate: Gate)
    requires RefsCounted(callers, gates) && task !in callers
    requires gate.refs == (if c.gate in gates then gates[c.gate].refs else 0) + 1
    requires c.gate in gates || forall t :: t in callers ==> callers[t].gate != c.gate
    ensures RefsCounted(callers[task := c], gates[c.gate := gate])
  {
    var after := gates[c.gate := gate];
    forall g | g in after ensures after[g].refs == |Referring(callers[task := c], g)| {
      Put(callers, task, c, g);
      if g !in gates {
        assert Referring(callers, g) == {};
      }
    }
  }

  lemma EnterHeld(callers: Callers, gates: Gates, task: Task, c: Caller, gate: Gate)
    requires SlotHeld(callers, gates) && task !in callers && !HasSlot(c)
    requires if c.gate in gates then gate.full == gates[c.gate].full else !gate.full
    requires c.gate in gates || forall t :: t in callers ==> callers[t].gate != c.gate
    ensures SlotHeld(callers[task := c], gates[c.gate := gate])
  {
    var after := gates[c.gate := gate];
    forall g | g in after ensures |Holders(callers[task := c], g)| == if after[g].full then 1 else 0 {
      Put(callers, task, c, g);
      if g !in gates {
        assert Holders(callers, g) == {};
      }
    }
  }

  lemma EnterKeeps(s: Runner, task: Task, workspace: Workspace)
    requires Inv(s) && Next(s, Enter(task, workspace)).Some?
    ensures Inv(Next(s, Enter(task, workspace)).value)
  {
    var s' := Next(s, Enter(task, workspace)).value;
    var c := s'.callers[task];
    EnterRefs(s.callers, s.gates, task, c, s'.gates[c.gate]);
    EnterHeld(s.callers, s.gates, task, c, s'.gates[c.gate]);
    RunsPut(s.callers, s.slots, task, c, s.slots);
    EnterShares(s, task, workspace);
  }

  lemma EnterShares(s: Runner, task: Task, workspace: Workspace)
    requires Shared(s.callers, s.gates, s.entries, s.next) && Next(s, Enter(task, workspace)).Some?
    ensures var s' := Next(s, Enter(task, workspace)).value; Shared(s'.callers, s'.gates, s'.entries, s'.next)
  {
    if workspace in s.entries {
      JoinShares(s.callers, s.gates, s.entries, s.next, task, workspace);
    } else {
      FoundShares(s.callers, s.gates, s.entries, s.next, task, workspace);
    }
  }

  /** A caller joins the gate its workspace's entry names. */
  lemma JoinShares(callers: Callers, gates: Gates, entries: map<Workspace, GateId>, next: GateId, task: Task, w: Workspace)
    requires Shared(callers, gates, entries, next) && w in entries
    ensures var g := entries[w];
      Shared(callers[task := Caller(Waiting, w, g)], gates[g := gates[g].(refs := gates[g].refs + 1)], entries, next)
  {
  }

  /** The first caller of a workspace makes its gate. */
  lemma FoundShares(callers: Callers, gates: Gates, entries: map<Workspace, GateId>, next: GateId, task: Task, w: Workspace)
    requires Shared(callers, gates, entries, next) && w !in entries && task !in callers
    ensures Shared(callers[task := Caller(Waiting, w, next)], gates[next := Gate(false, 1)], entries[w := next], next + 1)
  {
  }

  lemma RunsPut(callers: Callers, slots: nat, task: Task, c: Caller, slots': nat)
    requires RunsCounted(callers, slots) && slots' <= MAX_RUNS
    requires slots' == slots + (if c.stage == Running then 1 else 0) - (if task in callers && callers[task].stage == Running then 1 else 0)
    ensures RunsCounted(callers[task := c], slots')
  {
    Put(callers, task, c, c.gate);
  }

  // ---- moving ------------------------------------------------------------------------------------

  /** A caller moves on; its gate's channel follows its hold on the slot. */
  lemma MoveHeld(callers: Callers, gates: Gates, task: Task, stage: Stage, full: bool)
    requires SlotHeld(callers, gates) && task in callers && callers[task].gate in gates
    requires HasSlot(callers[task]) != HasSlot(callers[task].(stage := stage)) ==>
      full == HasSlot(callers[task].(stage := stage)) && gates[callers[task].gate].full == HasSlot(callers[task])
    requires HasSlot(callers[task]) == HasSlot(callers[task].(stage := stage)) ==> full == gates[callers[task].gate].full
    ensures SlotHeld(callers[task := callers[task].(stage := stage)],
                     gates[callers[task].gate := gates[callers[task].gate].(full := full)])
  {
    var c := callers[task].(stage := stage);
    var gates' := gates[c.gate := gates[c.gate].(full := full)];
    forall g | g in gates' ensures |Holders(callers[task := c], g)| == if gates'[g].full then 1 else 0 {
      Put(callers, task, c, g);
    }
  }

  lemma MoveRefs(callers: Callers, gates: Gates, task: Task, stage: Stage, full: bool)
    requires RefsCounted(callers, gates) && task in callers && callers[task].gate in gates
    ensures RefsCounted(callers[task := callers[task].(stage := stage)],
                        gates[callers[task].gate := gates[callers[task].gate].(full := full)])
  {
    var c := callers[task].(stage := stage);
    forall g | g in gates ensures |Referring(callers[task := c], g)| == |Referring(callers, g)| {
      Put(callers, task, c, g);
    }
  }

  /** The gate's channel follows the caller's hold on the slot. */
  predicate Follows(s: Runner, task: Task, stage: Stage, full: bool)
    requires task in s.callers && s.callers[task].gate in s.gates
  {
    var before, after, was := HasSlot(s.callers[task]), HasSlot(s.callers[task].(stage := stage)), s.gates[s.callers[task].gate].full;
    if before == after then full == was else full == after && was == before
  }

  lemma MoveShares(callers: Callers, gates: Gates, entries: map<Workspace, GateId>, next: GateId, task: Task, stage: Stage, full: bool)
    requires Shared(callers, gates, entries, next) && task in callers
    ensures var c := callers[task]; Shared(callers[task := c.(stage := stage)], gates[c.gate := gates[c.gate].(full := full)], entries, next)
  {
  }

  lemma MoveKeeps(s: Runner, task: Task, stage: Stage, full: bool, slots: nat)
    requires Inv(s) && task in s.callers && s.callers[task].gate in s.gates && slots <= MAX_RUNS && Follows(s, task, stage, full)
    requires slots == s.slots + (if stage == Running then 1 else 0) - (if s.callers[task].stage == Running then 1 else 0)
    ensures Inv(SetFull(Move(s, task, stage), s.callers[task].gate, full).(slots := slots))
  {
    MoveHeld(s.callers, s.gates, task, stage, full);
    MoveRefs(s.callers, s.gates, task, stage, full);
    MoveShares(s.callers, s.gates, s.entries, s.next, task, stage, full);
    RunsPut(s.callers, s.slots, task, s.callers[task].(stage := stage), slots);
  }

  lemma FullAsBefore(s: Runner, gate: GateId)
    requires gate in s.gates
    ensures SetFull(s, gate, s.gates[gate].full) == s
  {
    assert s.gates[gate := s.gates[gate]] == s.gates;
  }

  /** A step that leaves the gate's channel as it is. */
  lemma Same(s: Runner, task: Task, stage: Stage, slots: nat)
    requires Inv(s) && task in s.callers && s.callers[task].gate in s.gates && slots <= MAX_RUNS
    requires slots == s.slots + (if stage == Running then 1 else 0) - (if s.callers[task].stage == Running then 1 else 0)
    requires HasSlot(s.callers[task]) <==> HasSlot(s.callers[task].(stage := stage))
    ensures Inv(Move(s, task, stage).(slots := slots))
  {
    var gate := s.callers[task].gate;
    MoveKeeps(s, task, stage, s.gates[gate].full, slots);
    FullAsBefore(Move(s, task, stage), gate);
  }

  // ---- leaving -----------------------------------------------------------------------------------

  /** The last reference takes the map entry with it; otherwise the entry stays. */
  lemma DropKeeps(s: Runner, task: Task)
    requires Inv(s) && Next(s, Drop(task)).Some?
    ensures Inv(Next(s, Drop(task)).value)
  {
    var s', gate := Next(s, Drop(task)).value, s.callers[task].gate;
    DropRefs(s.callers, s.gates, task);
    DropHeld(s.callers, s.gates, task);
    DropRuns(s.callers, s.slots, task);
    LastReference(s.callers, task, s.gates[gate].refs);
    DropShares(s, task);
  }

  lemma DropRefs(callers: Callers, gates: Gates, task: Task)
    requires RefsCounted(callers, gates) && task in callers && callers[task].gate in gates
    ensures var gate := callers[task].gate; RefsCounted(callers - {task}, gates[gate := gates[gate].(refs := gates[gate].refs - 1)])
  {
    var gate := callers[task].gate;
    var after := gates[gate := gates[gate].(refs := gates[gate].refs - 1)];
    forall g | g in after ensures after[g].refs == |Referring(callers - {task}, g)| {
      Removed(callers, task, g);
    }
  }

  lemma DropHeld(callers: Callers, gates: Gates, task: Task)
    requires SlotHeld(callers, gates) && task in callers && callers[task].gate in gates && !HasSlot(callers[task])
    ensures var gate := callers[task].gate; SlotHeld(callers - {task}, gates[gate := gates[gate].(refs := gates[gate].refs - 1)])
  {
    forall g | g in gates ensures |Holders(callers - {task}, g)| == |Holders(callers, g)| {
      Removed(callers, task, g);
      assert Holders(callers - {task}, g) == Holders(callers, g);
    }
  }

  lemma DropRuns(callers: Callers, slots: nat, task: Task)
    requires RunsCounted(callers, slots) && task in callers && callers[task].stage != Running
    ensures RunsCounted(callers - {task}, slots)
  {
    Removed(callers, task, 0);
    assert InStage(callers - {task}, Running) == InStage(callers, Running);
  }

  /** Whoever drops the only reference leaves no caller of the gate behind. */
  lemma LastReference(callers: Callers, task: Task, refs: int)
    requires task in callers && refs == |Referring(callers, callers[task].gate)|
    ensures refs == 1 ==> forall t :: t in callers && callers[t].gate == callers[task].gate ==> t == task
  {
    var all := Referring(callers, callers[task].gate);
    assert task in all;
    if refs == 1 {
      assert |all - {task}| == 0;
      forall t | t in callers && callers[t].gate == callers[task].gate ensures t == task {
        assert t in all && t !in all - {task};
      }
    }
  }

  lemma DropShares(s: Runner, task: Task)
    requires Shared(s.callers, s.gates, s.entries, s.next) && Next(s, Drop(task)).Some?
    requires s.gates[s.callers[task].gate].refs == 1 ==>
      forall t :: t in s.callers && s.callers[t].gate == s.callers[task].gate ==> t == task
    ensures var s' := Next(s, Drop(task)).value; Shared(s'.callers, s'.gates, s'.entries, s'.next)
  {
  }

  /** Every step keeps the invariant. */
  lemma StepKeeps(s: Runner, step: Step)
    requires Inv(s) && Next(s, step).Some?
    ensures Inv(Next(s, step).value)
  {
    var task := step.task;
    match step
    case Enter(_, workspace) => EnterKeeps(s, task, workspace);
    case TakeSlot(_) => MoveKeeps(s, task, Holding, true, s.slots);
    case GiveUp(_) => Same(s, task, Dropping, s.slots);
    case Begin(_) => Same(s, task, Running, s.slots + 1);
    case Abandon(_) => Same(s, task, Releasing, s.slots);
    case Finish(_) => Same(s, task, Releasing, s.slots - 1);
    case Release(_) => MoveKeeps(s, task, Dropping, false, s.slots);
    case Drop(_) => DropKeeps(s, task);
  }

  // ---- every run ---------------------------------------------------------------------------------

  ghost predicate IsRun(run: seq<Runner>, steps: seq<Step>) {
    && |run| == |steps| + 1 && Initial(run[0])
    && forall i {:trigger steps[i]} :: 0 <= i < |steps| ==> Next(run[i], steps[i]) == Some(run[i + 1])
  }

  lemma {:induction false} Reachable(run: seq<Runner>, steps: seq<Step>, i: nat)
    requires IsRun(run, steps) && i < |run|
    ensures Inv(run[i])
  {
    if i == 0 {
      assert InStage(run[0].callers, Running) == {};
    } else {
      var k := i - 1;
      Reachable(run, steps, k);
      assert Next(run[k], steps[k]) == Some(run[k + 1]);
      StepKeeps(run[k], steps[k]);
    }
  }

  /** At most one run per workspace, however gates are deleted and made again. */
  lemma OneRunPerWorkspace(run: seq<Runner>, steps: seq<Step>, i: nat, t: Task, u: Task)
    requires IsRun(run, steps) && i < |run| && t in run[i].callers && u in run[i].callers
    requires run[i].callers[t].stage == Running && run[i].callers[u].stage == Running
    requires run[i].callers[t].workspace == run[i].callers[u].workspace
    ensures t == u
  {
    Reachable(run, steps, i);
    var holders := Holders(run[i].callers, run[i].callers[t].gate);
    assert t in holders && u in holders;
    assert |holders - {t}| == 0;
  }

  lemma EightRunsOverall(run: seq<Runner>, steps: seq<Step>, i: nat)
    requires IsRun(run, steps) && i < |run|
    ensures |InStage(run[i].callers, Running)| == run[i].slots <= MAX_RUNS
  {
    Reachable(run, steps, i);
  }

  /** A map entry exists exactly while callers refer to its gate, and all callers of a workspace share it. */
  lemma EntryIffReferred(run: seq<Runner>, steps: seq<Step>, i: nat, w: Workspace)
    requires IsRun(run, steps) && i < |run|
    ensures w in run[i].entries <==> exists t :: t in run[i].callers && run[i].callers[t].workspace == w
    ensures w in run[i].entries ==>
      && run[i].entries[w] in run[i].gates
      && run[i].gates[run[i].entries[w]].refs == |Referring(run[i].callers, run[i].entries[w])| > 0
      && forall t :: t in run[i].callers ==> (run[i].callers[t].workspace == w <==> run[i].callers[t].gate == run[i].entries[w])
  {
    Reachable(run, steps, i);
    var s := run[i];
    if w in s.entries {
      assert Referring(s.callers, s.entries[w]) != {};
      var t :| t in Referring(s.callers, s.entries[w]);
      assert s.callers[t].workspace == w;
    }
  }

  /** Whoever has to give something back can: neither a held slot nor a run slot is ever missing when it is returned. */
  lemma HolderMeansFull(callers: Callers, gates: Gates, slots: nat, t: Task)
    requires SlotHeld(callers, gates) && RunsCounted(callers, slots) && t in callers && callers[t].gate in gates
    ensures HasSlot(callers[t]) ==> gates[callers[t].gate].full
    ensures callers[t].stage == Running ==> slots > 0
  {
    assert HasSlot(callers[t]) ==> t in Holders(callers, callers[t].gate);
    assert callers[t].stage == Running ==> t in InStage(callers, Running);
  }

  lemma ReturnsNeverBlock(run: seq<Runner>, steps: seq<Step>, i: nat, t: Task)
    requires IsRun(run, steps) && i < |run| && t in run[i].callers
    ensures run[i].callers[t].stage == Running ==> Next(run[i], Finish(t)).Some?
    ensures run[i].callers[t].stage == Releasing ==> Next(run[i], Release(t)).Some?
    ensures run[i].callers[t].stage == Dropping ==> Next(run[i], Drop(t)).Some?
  {
    Reachable(run, steps, i);
    HolderMeansFull(run[i].callers, run[i].gates, run[i].slots, t);
  }
}
