/** The output ledger of one attempt, shared by live projection, artifacts and the late archive
    (runtime/output_budget.go). */
module OutputBudget {
  const MAX_OUTPUT := 64 * 1024 * 1024

  /** `active`: the counter on the attempt's row; `archived`: the amounts on its archive rows. */
  datatype Ledger = Ledger(active: int, archived: seq<int>)

  datatype Answer = Refused | Admitted | NewlyExceeded | AlreadyExceeded

  datatype Charge = Live(bytes: int) | Late(bytes: int)

  function Sum(rows: seq<int>): int {
    if rows == [] then 0 else Sum(rows[..|rows| - 1]) + rows[|rows| - 1]
  }

  predicate Exceeded(l: Ledger) {
    l.active > MAX_OUTPUT || Sum(l.archived) > MAX_OUTPUT || l.active > MAX_OUTPUT - Sum(l.archived)
  }

  /** What a charge answers and the ledger it leaves. Overflow writes a marker above the maximum, where it stays. */
  function Apply(l: Ledger, c: Charge): (Answer, Ledger) {
    if c.bytes < 0 || c.bytes > MAX_OUTPUT then (Refused, l)
    else if Exceeded(l) then (AlreadyExceeded, l)
    else
      var current := l.active + Sum(l.archived);
      if c.bytes > MAX_OUTPUT - current then
        (NewlyExceeded, if c.Live? then l.(active := MAX_OUTPUT + 1) else l.(archived := l.archived + [MAX_OUTPUT + 1 - current]))
      else (Admitted, if c.Live? then l.(active := l.active + c.bytes) else l.(archived := l.archived + [c.bytes]))
  }

  /** The ledger and its answers after a sequence of charges. */
  function Run(charges: seq<Charge>): (Ledger, seq<Answer>) {
    if charges == [] then (Ledger(0, []), []) else
      var n := |charges| - 1;
      var (before, answers) := Run(charges[..n]);
      var (answer, after) := Apply(before, charges[n]);
      (after, answers + [answer])
  }

  lemma {:induction false} Answers(charges: seq<Charge>)
    ensures |Run(charges).1| == |charges|
  {
    if charges != [] {
      Answers(charges[..|charges| - 1]);
    }
  }

  /** The bytes of the charges that were admitted. */
  function AdmittedBytes(charges: seq<Charge>, answers: seq<Answer>): int
    requires |charges| == |answers|
  {
    if charges == [] then 0 else
      var n := |charges| - 1;
      AdmittedBytes(charges[..n], answers[..n]) + if answers[n] == Admitted then charges[n].bytes else 0
  }

  function Overflows(answers: seq<Answer>): nat {
    if answers == [] then 0 else
      Overflows(answers[..|answers| - 1]) + if answers[|answers| - 1] == NewlyExceeded then 1 else 0
  }

  /** Until it overflows the ledger is exactly the admitted bytes; it overflows at most once. */
  ghost predicate Sound(l: Ledger, admitted: int, overflows: nat) {
    && 0 <= admitted <= MAX_OUTPUT && 0 <= l.active <= MAX_OUTPUT + 1 && 0 <= Sum(l.archived) <= MAX_OUTPUT + 1
    && l.active + Sum(l.archived) <= 2 * MAX_OUTPUT + 1
    && (if Exceeded(l) then overflows == 1 else overflows == 0 && admitted == l.active + Sum(l.archived))
  }

  lemma ApplyKeepsSound(l: Ledger, c: Charge, admitted: int, overflows: nat)
    requires Sound(l, admitted, overflows)
    ensures var (answer, after) := Apply(l, c);
      && Sound(after, admitted + (if answer == Admitted then c.bytes else 0), overflows + if answer == NewlyExceeded then 1 else 0)
      && (Exceeded(l) ==> Exceeded(after) && (answer == AlreadyExceeded || answer == Refused))
      && (answer == NewlyExceeded ==> !Exceeded(l) && Exceeded(after))
  {
  }

  /** Under any interleaving of live, artifact and late charges the admitted bytes stay within 64 MiB and the
      overflow is reported once. */
  lemma {:induction false} BudgetHolds(charges: seq<Charge>)
    ensures var (l, answers) := Run(charges);
      |answers| == |charges| && Sound(l, AdmittedBytes(charges, answers), Overflows(answers))
  {
    if charges != [] {
      var n := |charges| - 1;
      BudgetHolds(charges[..n]);
      var (before, answers) := Run(charges[..n]);
      var (answer, after) := Apply(before, charges[n]);
      ApplyKeepsSound(before, charges[n], AdmittedBytes(charges[..n], answers), Overflows(answers));
      assert (answers + [answer])[..n] == answers;
    }
  }

  /** After the overflow nothing is admitted any more. */
  lemma {:induction false} OverflowIsSticky(charges: seq<Charge>, i: nat, j: nat)
    requires i < j < |charges| && |Run(charges).1| == |charges| && Run(charges).1[i] == NewlyExceeded
    ensures Run(charges).1[j] == AlreadyExceeded || Run(charges).1[j] == Refused
  {
    var n := |charges| - 1;
    var front := charges[..n];
    Answers(front);
    if j < n {
      OverflowIsSticky(front, i, j);
    } else {
      BudgetHolds(front);
      ApplyKeepsSound(Run(front).0, charges[n], AdmittedBytes(front, Run(front).1), Overflows(Run(front).1));
      SomeOverflow(Run(front).1, i);
    }
  }

  lemma {:induction false} SomeOverflow(answers: seq<Answer>, i: nat)
    requires i < |answers| && answers[i] == NewlyExceeded
    ensures Overflows(answers) >= 1
  {
    if i < |answers| - 1 {
      SomeOverflow(answers[..|answers| - 1], i);
    }
  }

  /** The value fits a signed 64-bit integer. */
  predicate InRange(n: int) {
    -0x8000_0000_0000_0000 <= n <= 0x7fff_ffff_ffff_ffff
  }

  /** The rows of one attempt. No intermediate sum leaves 64 bits. */
  class Account {
    var active: int
    var archived: seq<int>
    ghost var admitted: int
    ghost var overflows: nat

    constructor ()
      ensures Valid() && Now() == Ledger(0, []) && admitted == 0 && overflows == 0
    {
      active, archived, admitted, overflows := 0, [], 0, 0;
    }

    function Now(): Ledger
      reads this
    {
      Ledger(active, archived)
    }

    ghost predicate Valid()
      reads this
    {
      Sound(Now(), admitted, overflows)
    }

    method ChargeAttemptOutput(bytes: int) returns (answer: Answer)
      requires Valid()
      modifies this
      ensures Valid() && (answer, Now()) == Apply(old(Now()), Live(bytes))
      ensures admitted == old(admitted) + (if answer == Admitted then bytes else 0) <= MAX_OUTPUT
      ensures overflows == old(overflows) + (if answer == NewlyExceeded then 1 else 0) <= 1
    {
      ApplyKeepsSound(Now(), Live(bytes), admitted, overflows);
      if bytes < 0 || bytes > MAX_OUTPUT {
        return Refused;
      }
      var late := Sum(archived);
      if active > MAX_OUTPUT || late > MAX_OUTPUT || active > MAX_OUTPUT - late {
        return AlreadyExceeded;
      }
      assert InRange(MAX_OUTPUT - active - late) && InRange(active + bytes);
      if bytes > MAX_OUTPUT - active - late {
        active, overflows := MAX_OUTPUT + 1, overflows + 1;
        return NewlyExceeded;
      }
      active, admitted := active + bytes, admitted + bytes;
      return Admitted;
    }

    /** The amount goes to the archive row committed with it, not to the attempt. */
    method ChargeArchivedOutput(bytes: int) returns (answer: Answer)
      requires Valid()
      modifies this
      ensures Valid() && (answer, Now()) == Apply(old(Now()), Late(bytes))
      ensures active == old(active)
      ensures admitted == old(admitted) + (if answer == Admitted then bytes else 0) <= MAX_OUTPUT
      ensures overflows == old(overflows) + (if answer == NewlyExceeded then 1 else 0) <= 1
    {
      ApplyKeepsSound(Now(), Late(bytes), admitted, overflows);
      if bytes < 0 || bytes > MAX_OUTPUT {
        return Refused;
      }
      var late := Sum(archived);
      if active > MAX_OUTPUT || late > MAX_OUTPUT || active > MAX_OUTPUT - late {
        return AlreadyExceeded;
      }
      var current := active + late;
      assert InRange(current) && InRange(MAX_OUTPUT + 1 - current);
      var amount := bytes;
      answer := Admitted;
      if bytes > MAX_OUTPUT - current {
        amount, answer, overflows := MAX_OUTPUT + 1 - current, NewlyExceeded, overflows + 1;
      } else {
        admitted := admitted + bytes;
      }
      archived := archived + [amount];
    }
  }
}
