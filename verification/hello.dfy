/**
 * The hello-world program the evaluator is instantiated with, proved to
 * print "Hello World!".  Each letter is built by the same pattern: step two
 * cells right, set a counter, run a transfer loop that adds the counter
 * times a step to the cell on the left, step back onto that cell, adjust it
 * by a few `+` or `-`, and print it.
 */
module HelloWorld {
  import opened Bytes
  import opened Lists
  import opened Machines
  import opened Evaluator
  import opened Loops

  /** The shape of one letter: counter `a`, step `b`, then `up` times `+` and `down` times `-`. */
  datatype LetterShape = LetterShape(a: nat, b: nat, up: nat, down: nat)

  predicate Positive(s: LetterShape)
  {
    1 <= s.a < 256
  }

  /** The code of one letter, after the moves to its counter cell. */
  function Letter(s: LetterShape): Program
  {
    Repeat('+', s.a) + "[" + ToLeft(s.b) + "]" + Finish(s)
  }

  /** The byte a letter prints. */
  function Char(s: LetterShape): Byte
  {
    (Times(s.a, s.b) % 256 + s.up - s.down) % 256
  }

  /** Instructions a letter takes. */
  function LetterCost(s: LetterShape): nat
  {
    5 * s.a + Times(s.a, s.b) + 3 + s.up + s.down
  }

  /** The bytes a row of letters prints, in order. */
  function Chars(shapes: seq<LetterShape>): seq<Byte>
  {
    seq(|shapes|, i requires 0 <= i < |shapes| => Char(shapes[i]))
  }

  /** Every letter after the first: two moves right, then the letter. */
  function Letters(shapes: seq<LetterShape>): Program
  {
    if shapes == [] then [] else ">>" + Letter(shapes[0]) + Letters(shapes[1..])
  }

  function LettersCost(shapes: seq<LetterShape>): nat
  {
    if shapes == [] then 0 else 2 + LetterCost(shapes[0]) + LettersCost(shapes[1..])
  }

  /** The tail of a letter after its loop: step left, adjust, print. */
  function Finish(s: LetterShape): (r: Program)
    ensures Straight(r)
  {
    StraightConcat("<", Repeat('+', s.up));
    StraightConcat("<" + Repeat('+', s.up), Repeat('-', s.down));
    StraightConcat("<" + Repeat('+', s.up) + Repeat('-', s.down), ".");
    "<" + Repeat('+', s.up) + Repeat('-', s.down) + "."
  }

  lemma StepBack(m: Machine<Program>)
    requires |m.left| > 0
    ensures Apply("<", m) == m.(left := m.left[1..], val := m.left[0], right := [m.val] + m.right)
  {
    ApplyOne('<', m);
  }

  lemma Print(m: Machine<Program>)
    ensures Apply(".", m) == m.(output := m.output + [m.val])
  {
    ApplyOne('.', m);
  }

  lemma Adjust(up: nat, down: nat, m: Machine<Program>, x: Byte, y: Byte)
    requires x == (m.val + up) % 256 && y == (x - down) % 256
    ensures Straight(Repeat('+', up) + Repeat('-', down))
    ensures Apply(Repeat('+', up) + Repeat('-', down), m) == m.(val := y)
  {
    ApplyIncrements(up, m);
    assert Apply(Repeat('-', down), m.(val := x)) == m.(val := y) by { ApplyDecrements(down, m.(val := x)); }
    ApplyThen(Repeat('+', up), Repeat('-', down), m, m.(val := x), m.(val := y));
  }

  lemma AdjustAndPrint(up: nat, down: nat, m: Machine<Program>, x: Byte, v: Byte)
    requires x == (m.val + up) % 256 && v == (x - down) % 256
    ensures Straight(Repeat('+', up) + Repeat('-', down) + ".")
    ensures Apply(Repeat('+', up) + Repeat('-', down) + ".", m) == m.(val := v, output := m.output + [v])
  {
    Adjust(up, down, m, x, v);
    Print(m.(val := v));
    ApplyThen(Repeat('+', up) + Repeat('-', down), ".", m, m.(val := v), m.(val := v, output := m.output + [v]));
  }

  /** Stepping back onto the letter cell, adjusting it to `v`, and printing it. */
  lemma ApplyFinish(s: LetterShape, m: Machine<Program>, p: Byte, x: Byte, v: Byte)
    requires |m.left| > 0 && m.left[0] == p
    requires x == (p + s.up) % 256 && v == (x - s.down) % 256
    ensures Apply(Finish(s), m)
         == m.(left := m.left[1..], val := v, right := [m.val] + m.right, output := m.output + [v])
  {
    var adjust := Repeat('+', s.up) + Repeat('-', s.down) + ".";
    var back := m.(left := m.left[1..], val := m.left[0], right := [m.val] + m.right);
    assert Finish(s) == "<" + adjust;
    AdjustAndPrint(s.up, s.down, back, x, v);
    StepBack(m);
    ApplyThen("<", adjust, m, back, back.(val := v, output := m.output + [v]));
  }

  lemma CharMod(s: LetterShape, p: int)
    requires p == Times(s.a, s.b) % 256
    ensures ((p + s.up) % 256 - s.down) % 256 == Char(s)
  {
  }

  lemma CostSplit(s: LetterShape, cost: nat)
    requires cost == 1 + Times(s.a, s.b) + 4 * s.a
    ensures LetterCost(s) == s.a + cost + |Finish(s)|
  {
  }

  /** Counting a zero cell up to `a`. */
  lemma SetCounter(a: Byte, m: Machine<Program>)
    requires m.val == 0
    ensures Straight(Repeat('+', a)) && Apply(Repeat('+', a), m) == m.(val := a)
  {
    ApplyIncrements(a, m);
  }

  lemma LetterSplit(s: LetterShape, rest: Program)
    ensures Letter(s) + rest == Repeat('+', s.a) + ("[" + ToLeft(s.b) + "]" + (Finish(s) + rest))
  {
  }

  /** The counter and loop of a letter: the product lands in the cell on the left. */
  lemma LetterStart(s: LetterShape, rest: Program, m: Machine<Program>, fuel: nat, p: Byte, cost: nat)
    requires Positive(s) && m.val == 0 && Head(m.left) == 0
    requires p == Times(s.a, s.b) % 256 && cost == 1 + Times(s.a, s.b) + 4 * s.a
    requires fuel >= s.a + cost
    ensures Run(Repeat('+', s.a) + ("[" + ToLeft(s.b) + "]" + rest), m, fuel)
         == Run(rest, m.(left := [p] + Tail(m.left), val := 0), fuel - s.a - cost)
  {
    var loop := "[" + ToLeft(s.b) + "]";
    SetCounter(s.a, m);
    RunStraight(Repeat('+', s.a), loop + rest, m, fuel);
    TransferLeft(s.b, rest, m.(val := s.a), fuel - s.a, p, cost);
  }

  /** The tape after a letter's loop: the product `p` on the left, a zero counter, nothing stored to the right. */
  predicate AfterLoop(m: Machine<Program>, p: Byte)
  {
    |m.left| > 0 && m.left[0] == p && m.val == 0 && m.right == []
  }

  /** The end of a letter: back onto the product cell, adjust, print. */
  lemma LetterEnd(s: LetterShape, rest: Program, m: Machine<Program>, fuel: nat, p: Byte, x: Byte, v: Byte)
    requires AfterLoop(m, p)
    requires x == (p + s.up) % 256 && v == (x - s.down) % 256
    requires fuel >= |Finish(s)|
    ensures Run(Finish(s) + rest, m, fuel)
         == Run(rest, m.(left := m.left[1..], val := v, right := [0], output := m.output + [v]), fuel - |Finish(s)|)
  {
    RunStraight(Finish(s), rest, m, fuel);
    ApplyFinish(s, m, p, x, v);
    assert [m.val] + m.right == [0];
  }

  /** A letter's counter, loop and end, with the product `p` and the printed value `v` given. */
  lemma LetterBody(s: LetterShape, rest: Program, m: Machine<Program>, fuel: nat, p: Byte, cost: nat, v: Byte)
    requires Positive(s)
    requires m.val == 0 && m.right == [] && |m.left| > 0 && m.left[0] == 0
    requires p == Times(s.a, s.b) % 256 && cost == 1 + Times(s.a, s.b) + 4 * s.a
    requires v == ((p + s.up) % 256 - s.down) % 256
    requires fuel >= s.a + cost + |Finish(s)|
    ensures Run(Repeat('+', s.a) + ("[" + ToLeft(s.b) + "]" + (Finish(s) + rest)), m, fuel)
         == Run(rest, m.(left := Tail(m.left), val := v, right := [0], output := m.output + [v]),
                fuel - s.a - cost - |Finish(s)|)
  {
    LetterStart(s, Finish(s) + rest, m, fuel, p, cost);
    var m2 := m.(left := [p] + Tail(m.left), val := 0);
    assert m2.left[1..] == Tail(m.left);
    assert AfterLoop(m2, p);
    var x: Byte := (p + s.up) % 256;
    LetterEnd(s, rest, m2, fuel - s.a - cost, p, x, v);
  }

  /**
   * One letter, started on a zero counter cell with a zero cell on its left
   * and nothing stored to its right: it prints `v` and ends on the letter
   * cell with a single zero cell stored to the right, after `steps`
   * instructions.
   */
  lemma LetterRuns(s: LetterShape, rest: Program, m: Machine<Program>, fuel: nat, v: Byte, steps: nat)
    requires Positive(s)
    requires m.val == 0 && m.right == [] && |m.left| > 0 && m.left[0] == 0
    requires v == Char(s) && steps == LetterCost(s) && fuel >= steps
    ensures Run(Letter(s) + rest, m, fuel)
         == Run(rest, m.(left := Tail(m.left), val := v, right := [0], output := m.output + [v]), fuel - steps)
  {
    var p: Byte := Times(s.a, s.b) % 256;
    var cost: nat := 1 + Times(s.a, s.b) + 4 * s.a;
    CostSplit(s, cost);
    CharMod(s, p);
    LetterSplit(s, rest);
    LetterBody(s, rest, m, fuel, p, cost, v);
  }

  /** From a printed letter cell, `>>` lands on a fresh counter cell with a zero cell on its left. */
  lemma TwoRight(m: Machine<Program>)
    requires m.right == [0]
    ensures Straight(">>")
    ensures Apply(">>", m) == m.(left := [0, m.val] + m.left, val := 0, right := [])
  {
    ApplyTwo('>', '>', m);
    assert [0] + ([m.val] + m.left) == [0, m.val] + m.left;
  }

  lemma LettersSplit(shapes: seq<LetterShape>)
    requires |shapes| > 0
    ensures Letters(shapes) == ">>" + (Letter(shapes[0]) + Letters(shapes[1..]))
  {
  }

  /** The machine after a letter printing `v`, seen from the previous letter cell `m`. */
  function Printed(m: Machine<Program>, v: Byte): Machine<Program>
  {
    m.(left := [m.val] + m.left, val := v, right := [0], output := m.output + [v])
  }

  /** From a printed letter cell, `>>` lands on a fresh counter cell with a zero cell on its left. */
  lemma Advance(rest: Program, m: Machine<Program>, fuel: nat)
    requires m.right == [0] && fuel >= 2
    ensures Run(">>" + rest, m, fuel) == Run(rest, m.(left := [0, m.val] + m.left, val := 0, right := []), fuel - 2)
  {
    TwoRight(m);
    RunStraight(">>", rest, m, fuel);
  }

  /** One letter after a `>>`, from a printed letter cell. */
  lemma NextLetter(s: LetterShape, tail: Program, m: Machine<Program>, fuel: nat)
    requires Positive(s) && m.right == [0]
    requires fuel >= 2 + LetterCost(s)
    ensures Run(">>" + (Letter(s) + tail), m, fuel) == Run(tail, Printed(m, Char(s)), fuel - 2 - LetterCost(s))
  {
    Advance(Letter(s) + tail, m, fuel);
    var m1 := m.(left := [0, m.val] + m.left, val := 0, right := []);
    var v := Char(s);
    LetterRuns(s, tail, m1, fuel - 2, v, LetterCost(s));
    assert Tail(m1.left) == [m.val] + m.left;
    assert m1.(left := Tail(m1.left), val := v, right := [0], output := m1.output + [v]) == Printed(m, v);
  }

  /** A run of letters from a printed letter cell, one letter less. */
  lemma LettersStep(shapes: seq<LetterShape>, m: Machine<Program>, fuel: nat)
    requires |shapes| > 0 && Positive(shapes[0])
    requires m.right == [0]
    requires fuel >= LettersCost(shapes)
    ensures fuel - 2 - LetterCost(shapes[0]) >= LettersCost(shapes[1..])
    ensures Run(Letters(shapes), m, fuel)
         == Run(Letters(shapes[1..]), Printed(m, Char(shapes[0])), fuel - 2 - LetterCost(shapes[0]))
  {
    LettersSplit(shapes);
    NextLetter(shapes[0], Letters(shapes[1..]), m, fuel);
  }

  /** With no letters left the run halts where it is. */
  lemma NoLetters(m: Machine<Program>, fuel: nat)
    ensures Run(Letters([]), m, fuel) == Outcome(Halted, [], m)
  {
    RunHere([], m, fuel);
  }

  /** The machine after a row of letters, each printed in turn. */
  function Final(shapes: seq<LetterShape>, m: Machine<Program>): Machine<Program>
    decreases |shapes|
  {
    if shapes == [] then m else Final(shapes[1..], Printed(m, Char(shapes[0])))
  }

  /** A row of letters prints the letters' bytes in order after what was there. */
  lemma {:induction false} FinalOutput(shapes: seq<LetterShape>, m: Machine<Program>)
    ensures Final(shapes, m).output == m.output + Chars(shapes)
    decreases |shapes|
  {
    if shapes != [] {
      var m1 := Printed(m, Char(shapes[0]));
      FinalOutput(shapes[1..], m1);
      assert Chars(shapes) == [Char(shapes[0])] + Chars(shapes[1..]);
      assert m1.output + Chars(shapes[1..]) == m.output + Chars(shapes);
    }
  }

  /** The letters after the first run to the end and halt. */
  lemma {:induction false} LettersRun(shapes: seq<LetterShape>, m: Machine<Program>, fuel: nat)
    requires forall i :: 0 <= i < |shapes| ==> Positive(shapes[i])
    requires m.right == [0]
    requires fuel >= LettersCost(shapes)
    ensures Run(Letters(shapes), m, fuel) == Outcome(Halted, [], Final(shapes, m))
    decreases |shapes|
  {
    if shapes == [] {
      NoLetters(m, fuel);
    } else {
      LettersStep(shapes, m, fuel);
      LettersRun(shapes[1..], Printed(m, Char(shapes[0])), fuel - 2 - LetterCost(shapes[0]));
    }
  }

  /** Letters written out, each after a `>>`. */
  function Join(texts: seq<Program>): Program
  {
    if texts == [] then [] else ">>" + texts[0] + Join(texts[1..])
  }

  lemma {:induction false} JoinLetters(texts: seq<Program>, shapes: seq<LetterShape>)
    requires |texts| == |shapes|
    requires forall i :: 0 <= i < |texts| ==> texts[i] == Letter(shapes[i])
    ensures Join(texts) == Letters(shapes)
    decreases |texts|
  {
    if texts != [] {
      JoinLetters(texts[1..], shapes[1..]);
    }
  }

  /** The hello-world program of the source: a move, the first letter, then the others, each after `>>`. */
  const FirstText: Program := "++++++++[<+++++++++>-]<."

  const RestTexts: seq<Program> := [
    "++++++++++[<++++++++++>-]<+.",
    "+++++++++[<++++++++++++>-]<.",
    "+++++++++[<++++++++++++>-]<.",
    "++++++++++[<+++++++++++>-]<+.",
    "++++[<++++++++>-]<.",
    "+++++++++++[<++++++++>-]<-.",
    "++++++++++[<+++++++++++>-]<+.",
    "++++++++++[<++++++++++++>-]<------.",
    "+++++++++[<++++++++++++>-]<.",
    "++++++++++[<++++++++++>-]<.",
    "++++++[<++++++>-]<---."]

  const Hello: Program := ">" + (FirstText + Join(RestTexts))

  /** The letters of the program: counter, step, and the final adjustment. */
  const First: LetterShape := LetterShape(8, 9, 0, 0)

  const Rest: seq<LetterShape> := [
    LetterShape(10, 10, 1, 0), LetterShape(9, 12, 0, 0), LetterShape(9, 12, 0, 0),
    LetterShape(10, 11, 1, 0), LetterShape(4, 8, 0, 0), LetterShape(11, 8, 0, 1),
    LetterShape(10, 11, 1, 0), LetterShape(10, 12, 0, 6), LetterShape(9, 12, 0, 0),
    LetterShape(10, 10, 0, 0), LetterShape(6, 6, 0, 3)]

  /** A letter's text from the texts of its runs of `+` and `-`. */
  lemma Spelled(s: LetterShape, count: Program, step: Program, ups: Program, downs: Program)
    requires count == Repeat('+', s.a) && step == Repeat('+', s.b)
    requires ups == Repeat('+', s.up) && downs == Repeat('-', s.down)
    ensures Letter(s) == count + "[" + ("<" + step + ">-") + "]" + ("<" + ups + downs + ".")
  {
  }

  /**
   * The runs of `+` and `-` the program uses, written out.  Each is its own
   * lemma so that no proof has to unfold more than one run at a time, which
   * keeps the solver's work small.
   */
  lemma Plus1()
    ensures Repeat('+', 1) == "+"
  {
    Written('+', 1, "+");
  }

  lemma Plus4()
    ensures Repeat('+', 4) == "++++"
  {
    Written('+', 4, "++++");
  }

  lemma Plus6()
    ensures Repeat('+', 6) == "++++++"
  {
    Written('+', 6, "++++++");
  }

  lemma Plus8()
    ensures Repeat('+', 8) == "++++++++"
  {
    Written('+', 8, "++++++++");
  }

  lemma Plus9()
    ensures Repeat('+', 9) == "+++++++++"
  {
    Written('+', 9, "+++++++++");
  }

  lemma Plus10()
    ensures Repeat('+', 10) == "++++++++++"
  {
    Written('+', 10, "++++++++++");
  }

  lemma Plus11()
    ensures Repeat('+', 11) == "+++++++++++"
  {
    Written('+', 11, "+++++++++++");
  }

  lemma Plus12()
    ensures Repeat('+', 12) == "++++++++++++"
  {
    Written('+', 12, "++++++++++++");
  }

  lemma Minus1()
    ensures Repeat('-', 1) == "-"
  {
    Written('-', 1, "-");
  }

  lemma Minus3()
    ensures Repeat('-', 3) == "---"
  {
    Written('-', 3, "---");
  }

  lemma Minus6()
    ensures Repeat('-', 6) == "------"
  {
    Written('-', 6, "------");
  }

  lemma SpellsH()
    ensures FirstText == Letter(First)
  {
    Plus8(); Plus9();
    Spelled(First, "++++++++", "+++++++++", "", "");
  }

  lemma SpellsE()
    ensures RestTexts[0] == Letter(Rest[0])
  {
    Plus10(); Plus1();
    Spelled(Rest[0], "++++++++++", "++++++++++", "+", "");
  }

  lemma SpellsL1()
    ensures RestTexts[1] == Letter(Rest[1])
  {
    Plus9(); Plus12();
    Spelled(Rest[1], "+++++++++", "++++++++++++", "", "");
  }

  lemma SpellsL2()
    ensures RestTexts[2] == Letter(Rest[2])
  {
    Plus9(); Plus12();
    Spelled(Rest[2], "+++++++++", "++++++++++++", "", "");
  }

  lemma SpellsO1()
    ensures RestTexts[3] == Letter(Rest[3])
  {
    Plus10(); Plus11(); Plus1();
    Spelled(Rest[3], "++++++++++", "+++++++++++", "+", "");
  }

  lemma SpellsSpace()
    ensures RestTexts[4] == Letter(Rest[4])
  {
    Plus4(); Plus8();
    Spelled(Rest[4], "++++", "++++++++", "", "");
  }

  lemma SpellsW()
    ensures RestTexts[5] == Letter(Rest[5])
  {
    Plus11(); Plus8(); Minus1();
    Spelled(Rest[5], "+++++++++++", "++++++++", "", "-");
  }

  lemma SpellsO2()
    ensures RestTexts[6] == Letter(Rest[6])
  {
    Plus10(); Plus11(); Plus1();
    Spelled(Rest[6], "++++++++++", "+++++++++++", "+", "");
  }

  lemma SpellsR()
    ensures RestTexts[7] == Letter(Rest[7])
  {
    Plus10(); Plus12(); Minus6();
    Spelled(Rest[7], "++++++++++", "++++++++++++", "", "------");
  }

  lemma SpellsL3()
    ensures RestTexts[8] == Letter(Rest[8])
  {
    Plus9(); Plus12();
    Spelled(Rest[8], "+++++++++", "++++++++++++", "", "");
  }

  lemma SpellsD()
    ensures RestTexts[9] == Letter(Rest[9])
  {
    Plus10();
    Spelled(Rest[9], "++++++++++", "++++++++++", "", "");
  }

  lemma SpellsBang()
    ensures RestTexts[10] == Letter(Rest[10])
  {
    Plus6(); Minus3();
    Spelled(Rest[10], "++++++", "++++++", "", "---");
  }

  lemma JoinRest()
    ensures Join(RestTexts) == Letters(Rest)
  {
    SpellsE();
    SpellsL1();
    SpellsL2();
    SpellsO1();
    SpellsSpace();
    SpellsW();
    SpellsO2();
    SpellsR();
    SpellsL3();
    SpellsD();
    SpellsBang();
    JoinLetters(RestTexts, Rest);
  }

  lemma HelloShape()
    ensures Hello == ">" + (Letter(First) + Letters(Rest))
  {
    SpellsH();
    JoinRest();
  }

  /** "Hello World!" in ASCII. */
  const HelloBytes: seq<Byte> := [72, 101, 108, 108, 111, 32, 87, 111, 114, 108, 100, 33]

  /** Instructions the program executes before it halts. */
  const HelloSteps: nat := 1694

  lemma CostFrom(shapes: seq<LetterShape>, i: nat)
    requires i < |shapes|
    ensures LettersCost(shapes[i..]) == 2 + LetterCost(shapes[i]) + LettersCost(shapes[i + 1..])
  {
    assert shapes[i..][1..] == shapes[i + 1..];
  }

  lemma CostLast()
    ensures LettersCost(Rest[8..]) == 387
  {
    assert Rest[11..] == [];
    CostFrom(Rest, 10);
    assert LettersCost(Rest[10..]) == 74;
    CostFrom(Rest, 9);
    assert LettersCost(Rest[9..]) == 229;
    CostFrom(Rest, 8);
  }

  lemma CostMiddle()
    ensures LettersCost(Rest[4..]) == 940
  {
    CostLast();
    CostFrom(Rest, 7);
    assert LettersCost(Rest[7..]) == 568;
    CostFrom(Rest, 6);
    assert LettersCost(Rest[6..]) == 734;
    CostFrom(Rest, 5);
    assert LettersCost(Rest[5..]) == 883;
    CostFrom(Rest, 4);
  }

  lemma HelloCost()
    ensures 1 + LetterCost(First) + LettersCost(Rest) == HelloSteps
  {
    CostMiddle();
    CostFrom(Rest, 3);
    assert LettersCost(Rest[3..]) == 1106;
    CostFrom(Rest, 2);
    assert LettersCost(Rest[2..]) == 1264;
    CostFrom(Rest, 1);
    assert LettersCost(Rest[1..]) == 1422;
    CostFrom(Rest, 0);
    assert LettersCost(Rest[0..]) == 1578;
    assert Rest[0..] == Rest;
  }

  lemma HelloPositive()
    ensures Positive(First) && forall i :: 0 <= i < |Rest| ==> Positive(Rest[i])
  {
  }

  lemma CharsLow()
    ensures forall i :: 0 <= i < 6 ==> Char(Rest[i]) == HelloBytes[i + 1]
  {
  }

  lemma CharsHigh()
    ensures forall i :: 6 <= i < 11 ==> Char(Rest[i]) == HelloBytes[i + 1]
  {
  }

  lemma HelloChars()
    ensures [Char(First)] + Chars(Rest) == HelloBytes
  {
    CharsLow();
    CharsHigh();
  }

  /** The first move of the program leaves the counter cell with a zero cell on its left. */
  lemma FirstMove(rest: Program, input: seq<Byte>, fuel: nat)
    requires fuel >= 1
    ensures Run(">" + rest, Initial(input), fuel) == Run(rest, Machine([], input, [0], 0, [], []), fuel - 1)
  {
    var m0: Machine<Program> := Initial(input);
    ApplyOne('>', m0);
    assert Prepend(0, []) == [0] && Tail([]) == [];
    assert MoveRight(m0) == Machine([], input, [0], 0, [], []);
    RunStraight(">", rest, m0, fuel);
  }

  /** Every letter has a positive counter, and the fuel covers the whole program. */
  predicate Fits(first: LetterShape, rest: seq<LetterShape>, fuel: nat)
  {
    && Positive(first)
    && (forall i :: 0 <= i < |rest| ==> Positive(rest[i]))
    && fuel >= 1 + LetterCost(first) + LettersCost(rest)
  }

  lemma HelloReady(fuel: nat)
    requires fuel >= HelloSteps
    ensures Fits(First, Rest, fuel)
  {
    HelloCost();
    HelloPositive();
  }

  /** After the first move and the first letter, the cell left of the counter holds the letter. */
  lemma Opening(first: LetterShape, tail: Program, input: seq<Byte>, fuel: nat)
    requires Positive(first) && fuel >= 1 + LetterCost(first)
    ensures var v := Char(first);
      Run(">" + (Letter(first) + tail), Initial(input), fuel)
      == Run(tail, Machine([v], input, [], v, [0], []), fuel - 1 - LetterCost(first))
  {
    var v := Char(first);
    FirstMove(Letter(first) + tail, input, fuel);
    var m1: Machine<Program> := Machine([], input, [0], 0, [], []);
    LetterRuns(first, tail, m1, fuel - 1, v, LetterCost(first));
    assert m1.(left := Tail(m1.left), val := v, right := [0], output := m1.output + [v])
        == Machine([v], input, [], v, [0], []);
  }

  /** A program of this shape halts after its first letter and then the others, whatever the input. */
  lemma ShapeRuns(first: LetterShape, rest: seq<LetterShape>, input: seq<Byte>, fuel: nat)
    requires Fits(first, rest, fuel)
    ensures var v := Char(first);
      Run(">" + (Letter(first) + Letters(rest)), Initial(input), fuel)
      == Outcome(Halted, [], Final(rest, Machine([v], input, [], v, [0], [])))
  {
    var v := Char(first);
    Opening(first, Letters(rest), input, fuel);
    LettersRun(rest, Machine([v], input, [], v, [0], []), fuel - 1 - LetterCost(first));
  }

  /** The program's letters, run from the start, halt after the first letter and then the others. */
  lemma HelloRun(input: seq<Byte>, fuel: nat)
    requires fuel >= HelloSteps
    ensures var v := Char(First);
      Run(">" + (Letter(First) + Letters(Rest)), Initial(input), fuel)
      == Outcome(Halted, [], Final(Rest, Machine([v], input, [], v, [0], [])))
  {
    HelloReady(fuel);
    ShapeRuns(First, Rest, input, fuel);
  }

  /** The letters print "Hello World!", whatever the input, given enough steps. */
  lemma LettersOutput(input: seq<Byte>, fuel: nat)
    requires fuel >= HelloSteps
    ensures EvalMachine(">" + (Letter(First) + Letters(Rest)), input, fuel) == Output(HelloBytes)
  {
    var v := Char(First);
    HelloRun(input, fuel);
    FinalOutput(Rest, Machine([v], input, [], v, [0], []));
    HelloChars();
  }

  /**
   * The hello-world program of the source evaluates to "Hello World!",
   * whatever the input, given enough steps.
   */
  lemma HelloWorldOutput(input: seq<Byte>, fuel: nat)
    requires fuel >= HelloSteps
    ensures EvalMachine(Hello, input, fuel) == Output(HelloBytes)
  {
    HelloShape();
    LettersOutput(input, fuel);
  }
}
