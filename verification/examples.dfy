/** Small programs worked through the evaluator, end to end. */
module Examples {
  import opened Bytes
  import opened Lists
  import opened Machines
  import opened Evaluator
  import opened Loops

  /** The empty program halts at once with no output, whatever the input. */
  lemma EmptyProgram(input: seq<Byte>, fuel: nat)
    ensures EvalMachine([], input, fuel) == Output([])
    ensures Run([], Initial(input), fuel).m == Initial(input)
  {
  }

  /** `,` never consumes input, so both reads see the first byte. */
  lemma ReadTwice()
    ensures EvalMachine(",.,.", [65, 66], 4) == Output([65, 65])
  {
  }

  /** `[` does not test the cell: the body of `[.]` runs once on a fresh machine. */
  lemma BodyRunsOnce()
    ensures EvalMachine("[.]", [], 3) == Output([0])
  {
  }

  /** A `]` with nothing saved has no step. */
  lemma LoneClose()
    ensures EvalMachine("]", [], 1) == NoStep(EmptyStack)
  {
  }

  /** A character outside the eight commands has no step. */
  lemma NotACommand()
    ensures EvalMachine("+a", [], 2) == NoStep(UnknownCommand('a'))
  {
  }

  /** A program that ends inside an open loop simply halts. */
  lemma LoneOpen()
    ensures EvalMachine("[", [], 1) == Output([])
  {
  }

  /** The program `++++++++[>++++++++<-]>.`: a counter of 8, a right transfer loop of step 8, a print. */
  lemma EightText()
    ensures "++++++++[>++++++++<-]>." == Repeat('+', 8) + ("[" + ToRight(8) + "]" + ">.")
  {
    Written('+', 8, "++++++++");
  }

  lemma CountToEight(rest: Program, input: seq<Byte>, fuel: nat)
    requires fuel >= 8
    ensures Run(Repeat('+', 8) + rest, Initial(input), fuel) == Run(rest, Machine([], input, [], 8, [], []), fuel - 8)
  {
    ApplyIncrements(8, Initial(input));
    RunStraight(Repeat('+', 8), rest, Initial(input), fuel);
  }

  lemma EightTransfers(rest: Program, input: seq<Byte>, fuel: nat)
    requires fuel >= 97
    ensures Run("[" + ToRight(8) + "]" + rest, Machine([], input, [], 8, [], []), fuel)
         == Run(rest, Machine([], input, [], 0, [64], []), fuel - 97)
  {
    var m: Machine<Program> := Machine([], input, [], 8, [], []);
    assert Times(8, 8) == 64;
    TransferRight(8, rest, m, fuel, 64, 97);
    assert [64] + Tail(m.right) == [64];
  }

  lemma PrintRight(input: seq<Byte>, fuel: nat)
    requires fuel >= 2
    ensures Run(">.", Machine([], input, [], 0, [64], []), fuel) == Outcome(Halted, [], Machine([64], input, [0], 64, [], []))
  {
    var m: Machine<Program> := Machine([], input, [], 0, [64], []);
    ApplyTwo('>', '.', m);
    assert ">." + [] == ">.";
    RunStraight(">.", [], m, fuel);
  }

  /** `8 * 8` through a right transfer loop, printed from the cell on the right. */
  lemma EightTimesEight(input: seq<Byte>, fuel: nat)
    requires fuel >= 107
    ensures EvalMachine("++++++++[>++++++++<-]>.", input, fuel) == Output([64])
  {
    EightText();
    CountToEight("[" + ToRight(8) + "]" + ">.", input, fuel);
    assert "[" + ToRight(8) + "]" + ">." == ("[" + ToRight(8) + "]") + ">.";
    EightTransfers(">.", input, fuel - 8);
    PrintRight(input, fuel - 105);
  }
}
