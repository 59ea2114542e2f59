/** The system-call filter: a compiler from a deny list to classic BPF, and the meaning it
    must have (tools/sandbox_linux.go). */
module Seccomp {
  type Word = bv32

  const MASKED_FLAGS: Word := 0x7e020000
  const CLONE3: Word := 435

  /** The four instruction forms the filter uses. */
  datatype Instruction =
    | LoadWord(offset: Word)
    | JumpEqual(jt: nat, jf: nat, k: Word)
    | JumpSet(jt: nat, jf: nat, k: Word)
    | Return(action: Action)

  datatype Action = Kill | Errno(code: Word) | Allow

  const EPERM: Word := 1
  const ENOSYS: Word := 38

  /** The words of a system call a filter can load: its number, its architecture, its arguments. */
  datatype Request = Request(number: Word, arch: Word, arguments: seq<Word>)

  function Load(r: Request, offset: Word): Word {
    if offset == 0 then r.number else if offset == 4 then r.arch
    else if offset == 16 && |r.arguments| > 0 then r.arguments[0] else 0
  }

  function Flags(r: Request): Word {
    if |r.arguments| > 0 then r.arguments[0] else 0
  }

  /** Where control goes after an instruction that does not return. */
  function Target(i: Instruction, pc: nat, a: Word): (next: nat)
    ensures next > pc
  {
    match i
    case JumpEqual(jt, jf, k) => pc + 1 + (if a == k then jt else jf)
    case JumpSet(jt, jf, k) => pc + 1 + (if a & k != 0 then jt else jf)
    case _ => pc + 1
  }

  /** Classic BPF from instruction `pc` with accumulator `a`; the first component is false when control leaves the program. */
  function Run(p: seq<Instruction>, r: Request, pc: nat, a: Word): (result: (bool, Action))
    decreases |p| - pc
  {
    if pc >= |p| then (false, Kill)
    else if p[pc].Return? then (true, p[pc].action)
    else Run(p, r, Target(p[pc], pc, a), if p[pc].LoadWord? then Load(r, p[pc].offset) else a)
  }

  /** From here control goes on inside the program, with offsets that fit their byte, or returns. */
  predicate StaysInside(p: seq<Instruction>, i: nat)
    requires i < |p|
  {
    match p[i]
    case JumpEqual(jt, jf, _) => jt < 256 && jf < 256 && i + 1 + jt < |p| && i + 1 + jf < |p|
    case JumpSet(jt, jf, _) => jt < 256 && jf < 256 && i + 1 + jt < |p| && i + 1 + jf < |p|
    case LoadWord(_) => i + 1 < |p|
    case Return(_) => true
  }

  /** Every jump lands inside the program, and the last instruction returns. */
  ghost predicate WellFormed(p: seq<Instruction>) {
    |p| > 0 && p[|p| - 1].Return? && forall i: nat :: i < |p| ==> StaysInside(p, i)
  }

  lemma TargetInside(p: seq<Instruction>, pc: nat, a: Word)
    requires pc < |p| && StaysInside(p, pc) && !p[pc].Return?
    ensures Target(p[pc], pc, a) < |p|
  {
  }

  lemma {:induction false} WellFormedReturns(p: seq<Instruction>, r: Request, pc: nat, a: Word)
    requires WellFormed(p) && pc < |p|
    ensures Run(p, r, pc, a).0
    decreases |p| - pc
  {
    if !p[pc].Return? {
      TargetInside(p, pc, a);
      WellFormedReturns(p, r, Target(p[pc], pc, a), if p[pc].LoadWord? then Load(r, p[pc].offset) else a);
    }
  }

  // ---- the compiler -----------------------------------------------------------------------

  function Prologue(arch: Word, clone: Word): seq<Instruction> {
    [LoadWord(4), JumpEqual(1, 0, arch), Return(Kill), LoadWord(0), JumpEqual(0, 3, clone), LoadWord(16),
     JumpSet(0, 1, MASKED_FLAGS), Return(Errno(EPERM)), LoadWord(0), JumpEqual(0, 1, CLONE3), Return(Errno(ENOSYS))]
  }

  /** A test and a refusal for every number of the list. */
  function Denials(denied: seq<Word>): seq<Instruction> {
    seq(2 * |denied|, i requires 0 <= i < 2 * |denied| => if i % 2 == 0 then JumpEqual(0, 1, denied[i / 2]) else Return(Errno(EPERM)))
  }

  /** The generator's loop: two instructions for every denied number. */
  method Compile(arch: Word, clone: Word, denied: seq<Word>) returns (p: seq<Instruction>)
    ensures p == Prologue(arch, clone) + Denials(denied) + [Return(Allow)]
    ensures |p| == 12 + 2 * |denied| && WellFormed(p)
    ensures forall r :: Run(p, r, 0, 0) == (true, Policy(arch, clone, denied, r))
  {
    p := Prologue(arch, clone);
    for i := 0 to |denied|
      invariant p == Prologue(arch, clone) + Denials(denied[..i])
    {
      assert Denials(denied[..i + 1]) == Denials(denied[..i]) + [JumpEqual(0, 1, denied[i]), Return(Errno(EPERM))];
      p := p + [JumpEqual(0, 1, denied[i]), Return(Errno(EPERM))];
    }
    assert denied[..|denied|] == denied;
    p := p + [Return(Allow)];
    Layout(arch, clone, denied, p);
    LayoutWellFormed(arch, clone, denied, p);
    forall r ensures Run(p, r, 0, 0) == (true, Policy(arch, clone, denied, r)) {
      FilterMeansPolicy(arch, clone, denied, p, r);
    }
  }

  /** Where everything is in the finished program. */
  lemma Layout(arch: Word, clone: Word, denied: seq<Word>, p: seq<Instruction>)
    requires p == Prologue(arch, clone) + Denials(denied) + [Return(Allow)]
    ensures |p| == 12 + 2 * |denied| && p[..11] == Prologue(arch, clone) && p[|p| - 1] == Return(Allow)
    ensures forall i :: 0 <= i < |denied| ==> p[11 + 2 * i] == JumpEqual(0, 1, denied[i]) && p[12 + 2 * i] == Return(Errno(EPERM))
  {
    var pro, den := Prologue(arch, clone), Denials(denied);
    assert |pro| == 11;
    assert forall i :: 0 <= i < 11 ==> p[i] == pro[i];
    forall i | 0 <= i < |denied|
      ensures p[11 + 2 * i] == JumpEqual(0, 1, denied[i]) && p[12 + 2 * i] == Return(Errno(EPERM))
    {
      assert p[11 + 2 * i] == den[2 * i] && p[11 + (2 * i + 1)] == den[2 * i + 1];
    }
  }

  lemma LayoutWellFormed(arch: Word, clone: Word, denied: seq<Word>, p: seq<Instruction>)
    requires p == Prologue(arch, clone) + Denials(denied) + [Return(Allow)]
    ensures WellFormed(p)
  {
    var pro, den := Prologue(arch, clone), Denials(denied);
    assert forall i :: 0 <= i < 11 ==> p[i] == pro[i];
    forall i: nat | i < |p| ensures StaysInside(p, i) {
      if 11 <= i < |p| - 1 {
        assert p[i] == den[i - 11];
      }
    }
  }

  // ---- the policy ----------------------------------------------------------------------------

  /** What the filter is for. */
  function Policy(arch: Word, clone: Word, denied: seq<Word>, r: Request): Action {
    if r.arch != arch then Kill
    else if r.number == clone && Flags(r) & MASKED_FLAGS != 0 then Errno(EPERM)
    else if r.number == CLONE3 then Errno(ENOSYS)
    else if r.number in denied then Errno(EPERM)
    else Allow
  }

  lemma {:induction false} DenialsRun(p: seq<Instruction>, denied: seq<Word>, r: Request, i: nat)
    requires |p| == 12 + 2 * |denied| && i <= |denied| && p[|p| - 1] == Return(Allow)
    requires forall k :: 0 <= k < |denied| ==> p[11 + 2 * k] == JumpEqual(0, 1, denied[k]) && p[12 + 2 * k] == Return(Errno(EPERM))
    ensures Run(p, r, 11 + 2 * i, r.number) == (true, if r.number in denied[i..] then Errno(EPERM) else Allow)
    decreases |denied| - i
  {
    if i < |denied| {
      DenialsRun(p, denied, r, i + 1);
      assert denied[i..] == [denied[i]] + denied[i + 1..];
      if r.number == denied[i] {
        assert Run(p, r, 12 + 2 * i, r.number) == (true, Errno(EPERM));
      }
    }
  }

  /** Running the compiled filter is applying the policy, for every deny list and every system call. */
  lemma FilterMeansPolicy(arch: Word, clone: Word, denied: seq<Word>, p: seq<Instruction>, r: Request)
    requires p == Prologue(arch, clone) + Denials(denied) + [Return(Allow)]
    ensures Run(p, r, 0, 0) == (true, Policy(arch, clone, denied, r))
  {
    Layout(arch, clone, denied, p);
    DenialsRun(p, denied, r, 0);
    assert denied[0..] == denied;
    PrologueRun(arch, clone, p, r);
  }

  /** The prologue either decides or hands the call number on. */
  lemma PrologueRun(arch: Word, clone: Word, p: seq<Instruction>, r: Request)
    requires |p| >= 12 && p[..11] == Prologue(arch, clone)
    ensures Run(p, r, 0, 0) ==
      if r.arch != arch then (true, Kill)
      else if r.number == clone && Flags(r) & MASKED_FLAGS != 0 then (true, Errno(EPERM))
      else if r.number == CLONE3 then (true, Errno(ENOSYS))
      else Run(p, r, 11, r.number)
  {
    forall i | 0 <= i < 11 ensures p[i] == Prologue(arch, clone)[i] {
      assert p[i] == p[..11][i];
    }
    if r.arch == arch {
      CloneRun(p, clone, r);
    } else {
      assert Run(p, r, 2, r.arch) == (true, Kill);
    }
    assert Run(p, r, 1, r.arch) == if r.arch == arch then Run(p, r, 3, r.arch) else Run(p, r, 2, r.arch);
  }

  /** Instructions 8 to 10: clone3 is reported missing. */
  lemma Clone3Run(p: seq<Instruction>, r: Request, a: Word)
    requires |p| >= 12 && p[8] == LoadWord(0) && p[9] == JumpEqual(0, 1, CLONE3) && p[10] == Return(Errno(ENOSYS))
    ensures Run(p, r, 8, a) == if r.number == CLONE3 then (true, Errno(ENOSYS)) else Run(p, r, 11, r.number)
  {
    assert Run(p, r, 9, r.number) == if r.number == CLONE3 then Run(p, r, 10, r.number) else Run(p, r, 11, r.number);
  }

  /** Instructions 3 to 7: clone with a masked flag is refused. */
  lemma CloneRun(p: seq<Instruction>, clone: Word, r: Request)
    requires |p| >= 12 && p[3] == LoadWord(0) && p[4] == JumpEqual(0, 3, clone) && p[5] == LoadWord(16)
    requires p[6] == JumpSet(0, 1, MASKED_FLAGS) && p[7] == Return(Errno(EPERM))
    requires p[8] == LoadWord(0) && p[9] == JumpEqual(0, 1, CLONE3) && p[10] == Return(Errno(ENOSYS))
    ensures Run(p, r, 3, r.arch) ==
      if r.number == clone && Flags(r) & MASKED_FLAGS != 0 then (true, Errno(EPERM))
      else if r.number == CLONE3 then (true, Errno(ENOSYS)) else Run(p, r, 11, r.number)
  {
    var flags := Load(r, 16);
    Clone3Run(p, r, flags);
    Clone3Run(p, r, r.number);
    assert Run(p, r, 6, flags) == if flags & MASKED_FLAGS != 0 then Run(p, r, 7, flags) else Run(p, r, 8, flags);
    assert Run(p, r, 4, r.number) == if r.number == clone then Run(p, r, 5, r.number) else Run(p, r, 8, r.number);
  }

  // ---- what follows for callers -----------------------------------------------------------------

  /** Adding the read-only list only ever takes permissions away, and never changes what was refused. */
  lemma MoreDenialsAllowLess(arch: Word, clone: Word, denied: seq<Word>, more: seq<Word>, r: Request)
    ensures Policy(arch, clone, denied + more, r) == Allow <==> Policy(arch, clone, denied, r) == Allow && r.number !in more
    ensures Policy(arch, clone, denied, r) != Allow ==> Policy(arch, clone, denied + more, r) == Policy(arch, clone, denied, r)
  {
  }

  /** The order and the repetitions of a deny list mean nothing. */
  lemma OrderIsIrrelevant(arch: Word, clone: Word, a: seq<Word>, b: seq<Word>)
    requires forall n :: n in a <==> n in b
    ensures forall p, q, r ::
      p == Prologue(arch, clone) + Denials(a) + [Return(Allow)] && q == Prologue(arch, clone) + Denials(b) + [Return(Allow)] ==>
        Run(p, r, 0, 0) == Run(q, r, 0, 0)
  {
    forall p, q, r | p == Prologue(arch, clone) + Denials(a) + [Return(Allow)] && q == Prologue(arch, clone) + Denials(b) + [Return(Allow)]
      ensures Run(p, r, 0, 0) == Run(q, r, 0, 0)
    {
      FilterMeansPolicy(arch, clone, a, p, r);
      FilterMeansPolicy(arch, clone, b, q, r);
    }
  }
}
