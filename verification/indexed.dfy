/**
 * An independent reference for the evaluator: the conventional
 * representation in which the cursor is a position in one fixed program and
 * each saved continuation is the position right after its `[`.  The
 * evaluator's suffix-based machine is proved to be exactly this machine seen
 * through the map from positions to suffixes.
 */
module Indexed {
  import opened Lists
  import opened Machines
  import opened Evaluator
  import opened Continuations

  datatype IStepResult =
    | IHalt
    | INext(pc: nat, m: Machine<nat>)
    | IStuck(fault: Fault)

  /** Every position the state holds lies inside the program. */
  predicate Valid(p: Program, pc: nat, m: Machine<nat>)
  {
    pc <= |p| && forall i :: 0 <= i < |m.stack| ==> m.stack[i] <= |p|
  }

  /** One instruction of the position-based machine. */
  function IStep(p: Program, pc: nat, m: Machine<nat>): (r: IStepResult)
    requires Valid(p, pc, m)
    ensures r.INext? ==> Valid(p, r.pc, r.m)
  {
    if pc == |p| then IHalt
    else
      match p[pc]
      case '>' => INext(pc + 1, MoveRight(m))
      case '<' => INext(pc + 1, MoveLeft(m))
      case '+' => INext(pc + 1, Increment(m))
      case '-' => INext(pc + 1, Decrement(m))
      case '.' => INext(pc + 1, Emit(m))
      case ',' => INext(pc + 1, ReadInput(m))
      case '[' => INext(pc + 1, Enter(m, pc + 1))
      case ']' =>
        if |m.stack| == 0 then IStuck(EmptyStack)
        else if m.val == 0 then INext(pc + 1, Leave(m))
        else INext(Top(m.stack), m)
      case c => IStuck(UnknownCommand(c))
  }

  datatype IOutcome = IOutcome(status: Status, pc: nat, m: Machine<nat>)

  /** The position-based machine run for at most `fuel` instructions. */
  function IRun(p: Program, pc: nat, m: Machine<nat>, fuel: nat): (r: IOutcome)
    requires Valid(p, pc, m)
    ensures Valid(p, r.pc, r.m)
    decreases fuel
  {
    match IStep(p, pc, m)
    case IHalt => IOutcome(Halted, pc, m)
    case IStuck(f) => IOutcome(Failed(f), pc, m)
    case INext(pc', m') =>
      if fuel == 0 then IOutcome(OutOfFuel, pc, m)
      else IRun(p, pc', m', fuel - 1)
  }

  /** The continuations that saved positions stand for. */
  function Saved(p: Program, ks: seq<nat>): seq<Program>
    requires forall i :: 0 <= i < |ks| ==> ks[i] <= |p|
  {
    seq(|ks|, i requires 0 <= i < |ks| => p[ks[i]..])
  }

  /** Saving a position and saving the suffix it stands for give the same picture. */
  lemma SavedPush(p: Program, k: nat, ks: seq<nat>)
    requires k <= |p| && forall i :: 0 <= i < |ks| ==> ks[i] <= |p|
    ensures Saved(p, Push(k, ks)) == Push(p[k..], Saved(p, ks))
  {
    assert forall i :: 0 <= i < |ks| ==> Push(k, ks)[i + 1] == ks[i];
  }

  /** Dropping the newest saved position drops the newest saved suffix. */
  lemma SavedPop(p: Program, ks: seq<nat>)
    requires |ks| > 0 && forall i :: 0 <= i < |ks| ==> ks[i] <= |p|
    ensures Saved(p, Pop(ks)) == Pop(Saved(p, ks))
  {
  }

  /** The suffix-based machine a position-based one stands for. */
  function Abs(p: Program, m: Machine<nat>): Machine<Program>
    requires forall i :: 0 <= i < |m.stack| ==> m.stack[i] <= |p|
  {
    Machine(m.output, m.input, m.left, m.val, m.right, Saved(p, m.stack))
  }

  function AbsStep(p: Program, r: IStepResult): StepResult
    requires r.INext? ==> Valid(p, r.pc, r.m)
  {
    match r
    case IHalt => Halt
    case IStuck(f) => Stuck(f)
    case INext(pc, m) => Next(p[pc..], Abs(p, m))
  }

  function AbsOutcome(p: Program, r: IOutcome): Outcome
    requires Valid(p, r.pc, r.m)
  {
    Outcome(r.status, p[r.pc..], Abs(p, r.m))
  }

  /** One step of the evaluator on the suffix at `pc` is one step of the position-based machine. */
  lemma StepSimulates(p: Program, pc: nat, m: Machine<nat>)
    requires Valid(p, pc, m)
    ensures Step(p[pc..], Abs(p, m)) == AbsStep(p, IStep(p, pc, m))
  {
    if pc < |p| {
      assert p[pc..][0] == p[pc];
      assert p[pc..][1..] == p[pc + 1..];
      var a := Abs(p, m);
      match p[pc]
      case '[' =>
        assert Abs(p, Enter(m, pc + 1)) == Enter(a, p[pc + 1..]) by { SavedPush(p, pc + 1, m.stack); }
      case ']' =>
        if |m.stack| > 0 {
          assert Abs(p, Leave(m)) == Leave(a) by { SavedPop(p, m.stack); }
        }
      case _ =>
    }
  }

  /** Whole runs agree, whatever the budget. */
  lemma {:induction false} RunSimulates(p: Program, pc: nat, m: Machine<nat>, fuel: nat)
    requires Valid(p, pc, m)
    ensures Run(p[pc..], Abs(p, m), fuel) == AbsOutcome(p, IRun(p, pc, m, fuel))
    decreases fuel
  {
    StepSimulates(p, pc, m);
    var s := IStep(p, pc, m);
    if s.INext? && fuel > 0 {
      RunSimulates(p, s.pc, s.m, fuel - 1);
    }
  }

  /** Evaluating a program gives the same outcome under both representations. */
  lemma EvalSimulates(p: Program, input: seq<Bytes.Byte>, fuel: nat)
    ensures Run(p, Initial(input), fuel) == AbsOutcome(p, IRun(p, 0, Initial(input), fuel))
  {
    var m: Machine<nat> := Initial(input);
    assert Abs(p, m) == Initial(input);
    assert p[0..] == p;
    RunSimulates(p, 0, m, fuel);
  }

  /** The position-based machine whose picture is a resumable suffix-based one. */
  function Positions(p: Program, code: Program, m: Machine<Program>): (r: (nat, Machine<nat>))
    requires Resumable(p, code, m)
    ensures Valid(p, r.0, r.1)
  {
    (|p| - |code|,
     Machine(m.output, m.input, m.left, m.val, m.right,
             seq(|m.stack|, i requires 0 <= i < |m.stack| => |p| - |m.stack[i]|)))
  }

  /** Every resumable state is the picture of a position-based one: the suffix invariant is what makes positions suffice. */
  lemma ResumableHasPositions(p: Program, code: Program, m: Machine<Program>)
    requires Resumable(p, code, m)
    ensures p[Positions(p, code, m).0..] == code
    ensures Abs(p, Positions(p, code, m).1) == m
  {
    var (pc, im) := Positions(p, code, m);
    assert Saved(p, im.stack) == m.stack;
  }
}
