/**
 * The evaluator: one instruction at a time, the head command of the program
 * cursor is taken off and applied to the machine.  Loops are not matched
 * bracket to bracket: `[` saves the program after it on the stack and `]`
 * either drops that continuation or jumps back to it.
 */
module Evaluator {
  import opened Bytes
  import opened Lists
  import opened Machines

  /** A program, and any remaining part of one, is a list of command characters. */
  type Program = seq<char>

  /** The eight commands that have a step. */
  predicate IsCommand(c: char)
  {
    c == '>' || c == '<' || c == '+' || c == '-' || c == '.' || c == ',' || c == '[' || c == ']'
  }

  /** Why a non-empty program has no next step. */
  datatype Fault =
    | EmptyStack             // `]` with no saved continuation
    | UnknownCommand(c: char) // a character outside the eight commands

  datatype StepResult =
    | Halt                                     // the program cursor is empty
    | Next(code: Program, m: Machine<Program>)  // the successor cursor and machine
    | Stuck(fault: Fault)

  /** One instruction: the head command of `code` applied to `m`. */
  function Step(code: Program, m: Machine<Program>): (r: StepResult)
    // only the empty cursor halts
    ensures r.Halt? <==> code == []
    // exactly these two situations have no step
    ensures r.Stuck? <==> code != [] && (!IsCommand(code[0]) || (code[0] == ']' && |m.stack| == 0))
  {
    if code == [] then Halt
    else
      var rest := code[1..];
      match code[0]
      case '>' => Next(rest, MoveRight(m))
      case '<' => Next(rest, MoveLeft(m))
      case '+' => Next(rest, Increment(m))
      case '-' => Next(rest, Decrement(m))
      case '.' => Next(rest, Emit(m))
      case ',' => Next(rest, ReadInput(m))
      case '[' => Next(rest, Enter(m, rest))
      case ']' =>
        if |m.stack| == 0 then Stuck(EmptyStack)
        else if m.val == 0 then Next(rest, Leave(m))
        else Next(Top(m.stack), m)
      case c => Stuck(UnknownCommand(c))
  }

  /** How a bounded run ended. */
  datatype Status =
    | Halted              // the cursor became empty
    | Failed(fault: Fault) // an instruction had no step
    | OutOfFuel           // the step budget ran out first

  /** Where a bounded run stopped: the status, and the cursor and machine at that point. */
  datatype Outcome = Outcome(status: Status, code: Program, m: Machine<Program>)

  /**
   * Runs at most `fuel` instructions.  Halting and failing use no fuel; an
   * exhausted budget stops before the next instruction.
   */
  function Run(code: Program, m: Machine<Program>, fuel: nat): (r: Outcome)
    decreases fuel
  {
    match Step(code, m)
    case Halt => Outcome(Halted, code, m)
    case Stuck(f) => Outcome(Failed(f), code, m)
    case Next(code', m') =>
      if fuel == 0 then Outcome(OutOfFuel, code, m)
      else Run(code', m', fuel - 1)
  }

  /** The fault of a stuck step names its cause. */
  lemma StepFault(code: Program, m: Machine<Program>)
    requires Step(code, m).Stuck?
    ensures !IsCommand(code[0]) ==> Step(code, m).fault == UnknownCommand(code[0])
    ensures IsCommand(code[0]) ==> code[0] == ']' && |m.stack| == 0 && Step(code, m).fault == EmptyStack
  {
  }

  /** Every command but `]` continues with the rest of the program, and the input is never consumed. */
  lemma StepCursor(code: Program, m: Machine<Program>)
    requires Step(code, m).Next?
    ensures code[0] != ']' ==> Step(code, m).code == code[1..]
    ensures Step(code, m).m.input == m.input
  {
  }

  /** Only `.` touches the output, and it appends the current cell. */
  lemma StepOutput(code: Program, m: Machine<Program>)
    requires Step(code, m).Next?
    ensures Step(code, m).m.output == if code[0] == '.' then m.output + [Cell(m, 0)] else m.output
  {
  }

  /** Only `[` and `]` touch the stack: `[` raises it by one, `]` lowers it by one or leaves it. */
  lemma StepStack(code: Program, m: Machine<Program>)
    requires Step(code, m).Next?
    ensures code[0] != '[' && code[0] != ']' ==> Step(code, m).m.stack == m.stack
    ensures code[0] == '[' ==> |Step(code, m).m.stack| == |m.stack| + 1
    ensures code[0] == ']' ==> |Step(code, m).m.stack| == |m.stack| - (if Cell(m, 0) == 0 then 1 else 0)
  {
  }

  /** `[` saves the rest of the program and enters it, whatever the current cell holds. */
  lemma StepOpen(code: Program, m: Machine<Program>)
    requires |code| > 0 && code[0] == '['
    ensures Step(code, m) == Next(code[1..], Enter(m, code[1..]))
    ensures Step(code, m).m.stack == Push(code[1..], m.stack)
  {
  }

  /**
   * `]` on a zero cell drops the top continuation and falls through; on a
   * non-zero cell it jumps to the top continuation and keeps it saved.
   */
  lemma StepClose(code: Program, m: Machine<Program>)
    requires |code| > 0 && code[0] == ']' && |m.stack| > 0
    ensures Cell(m, 0) == 0 ==> Step(code, m) == Next(code[1..], Leave(m)) && Step(code, m).m.stack == Pop(m.stack)
    ensures Cell(m, 0) != 0 ==> Step(code, m) == Next(Top(m.stack), m)
  {
  }

  /**
   * A run stops only where it must: halted at the empty cursor, on an
   * instruction without a step, or with its budget spent in front of one that
   * has a step.
   */
  lemma {:induction false} RunStops(code: Program, m: Machine<Program>, fuel: nat)
    ensures Run(code, m, fuel).status == Halted ==> Run(code, m, fuel).code == []
    ensures Run(code, m, fuel).status.Failed? ==>
              Step(Run(code, m, fuel).code, Run(code, m, fuel).m) == Stuck(Run(code, m, fuel).status.fault)
    ensures Run(code, m, fuel).status == OutOfFuel ==> Step(Run(code, m, fuel).code, Run(code, m, fuel).m).Next?
    decreases fuel
  {
    var s := Step(code, m);
    if s.Next? && fuel > 0 {
      RunStops(s.code, s.m, fuel - 1);
    }
  }

  /** A run with budget left takes the step in front of it. */
  lemma RunNext(code: Program, m: Machine<Program>, fuel: nat)
    requires fuel > 0 && Step(code, m).Next?
    ensures Run(code, m, fuel) == Run(Step(code, m).code, Step(code, m).m, fuel - 1)
  {
  }

  /** A run with no step to take, or no budget left, stops where it is: the base case of the recursion. */
  lemma RunHere(code: Program, m: Machine<Program>, fuel: nat)
    requires !Step(code, m).Next? || fuel == 0
    ensures Run(code, m, fuel).code == code && Run(code, m, fuel).m == m
    ensures code == [] ==> Run(code, m, fuel).status == Halted
  {
  }

  /** What evaluating a program yields. */
  datatype Evaluation =
    | Output(bytes: seq<Byte>) // the run halted with this output
    | NoStep(fault: Fault)     // the run reached an instruction without a step
    | Unfinished               // the step budget ran out

  /** Evaluates `program` from the fresh machine for `input`, within `fuel` instructions. */
  function EvalMachine(program: Program, input: seq<Byte>, fuel: nat): (r: Evaluation)
    // the result is read off the state the run stopped in: an output only at
    // the end of the program, a fault only where the next instruction has no
    // step, and an unfinished run only in front of one that has a step
    ensures r.Output? ==> Run(program, Initial(input), fuel).code == []
    ensures r.Output? ==> r.bytes == Run(program, Initial(input), fuel).m.output
    ensures r.NoStep? ==> Step(Run(program, Initial(input), fuel).code, Run(program, Initial(input), fuel).m) == Stuck(r.fault)
    ensures r.Unfinished? ==> Step(Run(program, Initial(input), fuel).code, Run(program, Initial(input), fuel).m).Next?
  {
    var o := Run(program, Initial(input), fuel);
    RunStops(program, Initial(input), fuel);
    match o.status
    case Halted => Output(o.m.output)
    case Failed(f) => NoStep(f)
    case OutOfFuel => Unfinished
  }

  /** A run that stopped for any reason other than its budget stops the same way with any larger budget. */
  lemma {:induction false} RunMoreFuel(code: Program, m: Machine<Program>, fuel: nat, more: nat)
    requires fuel <= more
    requires Run(code, m, fuel).status != OutOfFuel
    ensures Run(code, m, more) == Run(code, m, fuel)
    decreases fuel
  {
    var s := Step(code, m);
    if s.Next? {
      assert fuel > 0;
      RunMoreFuel(s.code, s.m, fuel - 1, more - 1);
    }
  }

  /** An evaluation that finished gives the same result with any larger budget. */
  lemma EvalMoreFuel(program: Program, input: seq<Byte>, fuel: nat, more: nat)
    requires fuel <= more
    requires !EvalMachine(program, input, fuel).Unfinished?
    ensures EvalMachine(program, input, more) == EvalMachine(program, input, fuel)
  {
    RunMoreFuel(program, Initial(input), fuel, more);
  }
}
