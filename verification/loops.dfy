/**
 * Compositional facts about runs: bracket-free stretches of a program run
 * straight through, and a loop whose body is bracket-free runs its body
 * again and again, through the saved continuation, until the body leaves
 * the current cell at 0.
 */
module Loops {
  import opened Bytes
  import opened Lists
  import opened Machines
  import opened Evaluator

  /** The six commands that never touch the cursor or the stack. */
  predicate IsStraight(c: char)
  {
    c == '>' || c == '<' || c == '+' || c == '-' || c == '.' || c == ','
  }

  predicate Straight(b: Program)
  {
    forall i :: 0 <= i < |b| ==> IsStraight(b[i])
  }

  /** The machine change of a straight command. */
  function Effect(c: char, m: Machine<Program>): Machine<Program>
    requires IsStraight(c)
  {
    match c
    case '>' => MoveRight(m)
    case '<' => MoveLeft(m)
    case '+' => Increment(m)
    case '-' => Decrement(m)
    case '.' => Emit(m)
    case ',' => ReadInput(m)
  }

  /** A straight command steps to the rest of the program, changing the machine by its effect. */
  lemma StepStraight(code: Program, m: Machine<Program>)
    requires |code| > 0 && IsStraight(code[0])
    ensures Step(code, m) == Next(code[1..], Effect(code[0], m))
  {
  }

  /** The machine after running a whole straight program. */
  function Apply(b: Program, m: Machine<Program>): (r: Machine<Program>)
    requires Straight(b)
    ensures r.stack == m.stack && r.input == m.input
    decreases |b|
  {
    if b == [] then m else Apply(b[1..], Effect(b[0], m))
  }

  /** A straight prefix runs through in one step per command. */
  lemma {:induction false} RunStraight(b: Program, rest: Program, m: Machine<Program>, fuel: nat)
    requires Straight(b)
    requires fuel >= |b|
    ensures Run(b + rest, m, fuel) == Run(rest, Apply(b, m), fuel - |b|)
    decreases |b|
  {
    if b == [] {
      assert b + rest == rest;
    } else {
      var code := b + rest;
      assert code[0] == b[0];
      assert code[1..] == b[1..] + rest;
      StepStraight(code, m);
      RunNext(code, m, fuel);
      RunStraight(b[1..], rest, Effect(b[0], m), fuel - 1);
    }
  }

  /** Joining straight pieces gives straight code. */
  lemma StraightConcat(a: Program, b: Program)
    requires Straight(a) && Straight(b)
    ensures Straight(a + b)
  {
    assert forall i :: 0 <= i < |a + b| ==> (a + b)[i] == if i < |a| then a[i] else b[i - |a|];
  }

  lemma {:induction false} ApplyConcat(a: Program, b: Program, m: Machine<Program>)
    requires Straight(a) && Straight(b)
    ensures Straight(a + b)
    ensures Apply(a + b, m) == Apply(b, Apply(a, m))
    decreases |a|
  {
    if a == [] {
      assert a + b == b;
    } else {
      assert (a + b)[0] == a[0];
      assert (a + b)[1..] == a[1..] + b;
      ApplyConcat(a[1..], b, Effect(a[0], m));
    }
  }

  /** Two straight pieces with known effects compose. */
  lemma ApplyThen(a: Program, b: Program, m: Machine<Program>, m1: Machine<Program>, m2: Machine<Program>)
    requires Straight(a) && Straight(b)
    requires Apply(a, m) == m1 && Apply(b, m1) == m2
    ensures Straight(a + b) && Apply(a + b, m) == m2
  {
    ApplyConcat(a, b, m);
  }

  /** Straight code does not look at the stack, so replacing the stack commutes with it. */
  lemma {:induction false} ApplyOtherStack(b: Program, m: Machine<Program>, s: seq<Program>)
    requires Straight(b)
    ensures Apply(b, m.(stack := s)) == Apply(b, m).(stack := s)
    decreases |b|
  {
    if b != [] {
      assert Effect(b[0], m.(stack := s)) == Effect(b[0], m).(stack := s);
      ApplyOtherStack(b[1..], Effect(b[0], m), s);
    }
  }

  /** `n` copies of one command. */
  function Repeat(c: char, n: nat): (r: Program)
    ensures |r| == n
    ensures forall i :: 0 <= i < n ==> r[i] == c
  {
    if n == 0 then [] else [c] + Repeat(c, n - 1)
  }

  /** A run of one character, written out. */
  lemma Written(c: char, n: nat, t: Program)
    requires |t| == n && forall i :: 0 <= i < n ==> t[i] == c
    ensures Repeat(c, n) == t
  {
  }

  /** `n` times `+` adds `n` to the current cell, modulo 256. */
  lemma {:induction false} ApplyIncrements(n: nat, m: Machine<Program>)
    ensures Straight(Repeat('+', n))
    ensures Apply(Repeat('+', n), m) == m.(val := (m.val + n) % 256)
  {
    if n > 0 {
      ApplyIncrements(n - 1, Increment(m));
      assert (Inc(m.val) + (n - 1)) % 256 == (m.val + n) % 256;
    }
  }

  /** `n` times `-` subtracts `n` from the current cell, modulo 256. */
  lemma {:induction false} ApplyDecrements(n: nat, m: Machine<Program>)
    ensures Straight(Repeat('-', n))
    ensures Apply(Repeat('-', n), m) == m.(val := (m.val - n) % 256)
  {
    if n > 0 {
      ApplyDecrements(n - 1, Decrement(m));
      assert (Dec(m.val) - (n - 1)) % 256 == (m.val - n) % 256;
    }
  }

  /** The machine after `n` passes over a straight loop body. */
  function Iterate(b: Program, m: Machine<Program>, n: nat): (r: Machine<Program>)
    requires Straight(b)
    ensures r.stack == m.stack
    decreases n
  {
    if n == 0 then m else Iterate(b, Apply(b, m), n - 1)
  }

  lemma {:induction false} IterateOtherStack(b: Program, m: Machine<Program>, s: seq<Program>, n: nat)
    requires Straight(b)
    ensures Iterate(b, m.(stack := s), n) == Iterate(b, m, n).(stack := s)
    decreases n
  {
    if n > 0 {
      ApplyOtherStack(b, m, s);
      IterateOtherStack(b, Apply(b, m), s, n - 1);
    }
  }

  /** The body leaves a non-zero cell after each of the first `n - 1` passes and a zero cell after pass `n`. */
  predicate StopsAfter(b: Program, m: Machine<Program>, n: nat)
    requires Straight(b)
    decreases n
  {
    && n >= 1
    && if n == 1 then Apply(b, m).val == 0
       else Apply(b, m).val != 0 && StopsAfter(b, Apply(b, m), n - 1)
  }

  /** Straight code does not look at the stack, so neither does the number of passes. */
  lemma {:induction false} StopsOtherStack(b: Program, m: Machine<Program>, s: seq<Program>, n: nat)
    requires Straight(b) && StopsAfter(b, m, n)
    ensures StopsAfter(b, m.(stack := s), n)
    decreases n
  {
    ApplyOtherStack(b, m, s);
    if n > 1 {
      StopsOtherStack(b, Apply(b, m), s, n - 1);
    }
  }

  /** One pass inside a loop that leaves a zero cell: `]` drops the saved continuation and falls through. */
  lemma PassThenExit(b: Program, rest: Program, m: Machine<Program>, fuel: nat)
    requires Straight(b)
    requires |m.stack| > 0 && Top(m.stack) == b + "]" + rest
    requires fuel >= |b| + 1
    requires Apply(b, m).val == 0
    ensures Run(b + "]" + rest, m, fuel) == Run(rest, Leave(Apply(b, m)), fuel - |b| - 1)
  {
    var m1 := Apply(b, m);
    var close := "]" + rest;
    assert b + "]" + rest == b + close;
    RunStraight(b, close, m, fuel);
    assert close[0] == ']' && close[1..] == rest;
    StepClose(close, m1);
    RunNext(close, m1, fuel - |b|);
  }

  /** One pass inside a loop that leaves a non-zero cell: `]` jumps back to the saved body. */
  lemma PassThenRepeat(b: Program, rest: Program, m: Machine<Program>, fuel: nat)
    requires Straight(b)
    requires |m.stack| > 0 && Top(m.stack) == b + "]" + rest
    requires fuel >= |b| + 1
    requires Apply(b, m).val != 0
    ensures Run(b + "]" + rest, m, fuel) == Run(b + "]" + rest, Apply(b, m), fuel - |b| - 1)
  {
    var m1 := Apply(b, m);
    var close := "]" + rest;
    assert b + "]" + rest == b + close;
    RunStraight(b, close, m, fuel);
    assert close[0] == ']';
    StepClose(close, m1);
    RunNext(close, m1, fuel - |b|);
  }

  /** Instructions run by `n` passes over a body of `len` instructions, each pass ending at `]`. */
  function Passes(n: nat, len: nat): nat
  {
    if n == 0 then 0 else len + 1 + Passes(n - 1, len)
  }

  lemma {:induction false} PassesProduct(n: nat, len: nat)
    ensures Passes(n, len) == n * (len + 1)
  {
    if n > 0 {
      PassesProduct(n - 1, len);
    }
  }

  /** Inside the loop: each pass runs the body then meets `]`, which jumps back until the cell is 0. */
  lemma {:induction false} LoopPasses(b: Program, rest: Program, m: Machine<Program>, n: nat, fuel: nat)
    requires Straight(b)
    requires |m.stack| > 0 && Top(m.stack) == b + "]" + rest
    requires StopsAfter(b, m, n)
    requires fuel >= Passes(n, |b|)
    ensures Run(b + "]" + rest, m, fuel) == Run(rest, Leave(Iterate(b, m, n)), fuel - Passes(n, |b|))
    decreases n
  {
    assert Passes(n, |b|) == |b| + 1 + Passes(n - 1, |b|);
    assert Iterate(b, m, n) == Iterate(b, Apply(b, m), n - 1);
    if n == 1 {
      PassThenExit(b, rest, m, fuel);
    } else {
      PassThenRepeat(b, rest, m, fuel);
      LoopPasses(b, rest, Apply(b, m), n - 1, fuel - |b| - 1);
    }
  }

  /** `[` saves the rest of the program, the loop included, and goes on into it. */
  lemma OpenLoop(k: Program, m: Machine<Program>, fuel: nat)
    requires fuel >= 1
    ensures Run("[" + k, m, fuel) == Run(k, Enter(m, k), fuel - 1)
  {
    assert ("[" + k)[0] == '[' && ("[" + k)[1..] == k;
    StepOpen("[" + k, m);
    RunNext("[" + k, m, fuel);
  }

  /** `[` saves the continuation and enters the body without testing the cell; the passes follow. */
  lemma EnterLoop(b: Program, rest: Program, m: Machine<Program>, n: nat, fuel: nat)
    requires Straight(b)
    requires StopsAfter(b, m, n)
    requires fuel >= 1 + Passes(n, |b|)
    ensures Run("[" + (b + "]" + rest), m, fuel) == Run(rest, Iterate(b, m, n), fuel - 1 - Passes(n, |b|))
  {
    var m0 := Enter(m, b + "]" + rest);
    OpenLoop(b + "]" + rest, m, fuel);
    IterateOtherStack(b, m, m0.stack, n);
    StopsOtherStack(b, m, m0.stack, n);
    LoopPasses(b, rest, m0, n, fuel - 1);
  }

  /**
   * A whole loop over a straight body: `[` saves the continuation and enters
   * the body without testing the cell, and after `n` passes the loop is left
   * with the stack as it was.
   */
  lemma Loop(b: Program, rest: Program, m: Machine<Program>, n: nat, fuel: nat)
    requires Straight(b)
    requires StopsAfter(b, m, n)
    requires fuel >= 1 + n * (|b| + 1)
    ensures Run("[" + b + "]" + rest, m, fuel) == Run(rest, Iterate(b, m, n), fuel - 1 - n * (|b| + 1))
  {
    PassesProduct(n, |b|);
    EnterLoop(b, rest, m, n, fuel);
    assert "[" + b + "]" + rest == "[" + (b + "]" + rest);
  }

  /** The body `<` `+`*k `>-`: adds `k` to the left neighbour and counts the current cell down. */
  function ToLeft(k: nat): (b: Program)
    ensures Straight(b)
    ensures |b| == k + 3
  {
    "<" + Repeat('+', k) + ">-"
  }

  /** The body `>` `+`*k `<-`: adds `k` to the right neighbour and counts the current cell down. */
  function ToRight(k: nat): (b: Program)
    ensures Straight(b)
    ensures |b| == k + 3
  {
    ">" + Repeat('+', k) + "<-"
  }

  lemma ApplyOne(c: char, m: Machine<Program>)
    requires IsStraight(c)
    ensures Straight([c])
    ensures Apply([c], m) == Effect(c, m)
  {
    assert [c][1..] == [];
  }

  lemma ApplyThree(a: Program, b: Program, c: Program, m: Machine<Program>)
    requires Straight(a) && Straight(b) && Straight(c)
    ensures Straight(a + b + c)
    ensures Apply(a + b + c, m) == Apply(c, Apply(b, Apply(a, m)))
  {
    ApplyConcat(a, b, m);
    ApplyConcat(a + b, c, m);
  }

  lemma ToLeftFields(k: nat, m: Machine<Program>)
    ensures var r := Apply(ToLeft(k), m);
      && r.left == [(Head(m.left) + k) % 256] + Tail(m.left) && r.val == Dec(m.val) && r.right == m.right
      && r.output == m.output && r.input == m.input && r.stack == m.stack
  {
    var r := Repeat('+', k);
    ApplyIncrements(k, MoveLeft(m));
    ApplyThree("<", r, ">-", m);
    ApplyOne('<', m);
    var m2 := Apply(r, MoveLeft(m));
    ApplyTwo('>', '-', m2);
    assert Apply(ToLeft(k), m) == Decrement(MoveRight(m2));
    LeftAndBack(k, m);
  }

  lemma ApplyToLeft(k: nat, m: Machine<Program>)
    ensures Apply(ToLeft(k), m) == m.(left := [(Head(m.left) + k) % 256] + Tail(m.left), val := Dec(m.val))
  {
    ToLeftFields(k, m);
  }

  lemma LeftAndBack(k: nat, m: Machine<Program>)
    ensures Decrement(MoveRight(MoveLeft(m).(val := (Head(m.left) + k) % 256)))
         == m.(left := [(Head(m.left) + k) % 256] + Tail(m.left), val := Dec(m.val))
  {
  }

  lemma ToRightFields(k: nat, m: Machine<Program>)
    ensures var r := Apply(ToRight(k), m);
      && r.right == [(Head(m.right) + k) % 256] + Tail(m.right) && r.val == Dec(m.val) && r.left == m.left
      && r.output == m.output && r.input == m.input && r.stack == m.stack
  {
    var r := Repeat('+', k);
    ApplyIncrements(k, MoveRight(m));
    ApplyThree(">", r, "<-", m);
    ApplyOne('>', m);
    var m2 := Apply(r, MoveRight(m));
    ApplyTwo('<', '-', m2);
    assert Apply(ToRight(k), m) == Decrement(MoveLeft(m2));
    RightAndBack(k, m);
  }

  lemma ApplyToRight(k: nat, m: Machine<Program>)
    ensures Apply(ToRight(k), m) == m.(right := [(Head(m.right) + k) % 256] + Tail(m.right), val := Dec(m.val))
  {
    ToRightFields(k, m);
  }

  lemma RightAndBack(k: nat, m: Machine<Program>)
    ensures Decrement(MoveLeft(MoveRight(m).(val := (Head(m.right) + k) % 256)))
         == m.(right := [(Head(m.right) + k) % 256] + Tail(m.right), val := Dec(m.val))
  {
  }

  lemma ApplyTwo(c: char, d: char, m: Machine<Program>)
    requires IsStraight(c) && IsStraight(d)
    ensures Straight([c, d])
    ensures Apply([c, d], m) == Effect(d, Effect(c, m))
  {
    assert [c, d][1..] == [d];
    ApplyOne(d, Effect(c, m));
  }

  /** `a * b` as repeated addition, the way the counting loop computes it. */
  function Times(a: nat, b: nat): nat
  {
    if a == 0 then 0 else b + Times(a - 1, b)
  }

  lemma {:induction false} TimesProduct(a: nat, b: nat)
    ensures Times(a, b) == a * b
  {
    if a > 0 {
      TimesProduct(a - 1, b);
    }
  }

  lemma AddTimes(a: int, k: nat, j: nat)
    requires j >= 1
    ensures ((a + k) % 256 + Times(j - 1, k)) % 256 == (a + Times(j, k)) % 256
  {
  }

  /** Passes a counting loop makes: the counter, except that a counter of 0 wraps round to 255 on the first pass and so makes 256. */
  function Count(v: Byte): (n: nat)
    ensures 1 <= n <= 256
    ensures n % 256 == v
  {
    if v == 0 then 256 else v
  }

  /** One pass adds `k` to the left neighbour; the `c - 1` passes after it add the rest of `c` times `k`. */
  lemma LeftSum(k: nat, m: Machine<Program>, m1: Machine<Program>, c: nat)
    requires 1 < c <= 256 && m1 == m.(left := [(Head(m.left) + k) % 256] + Tail(m.left), val := c - 1)
    ensures m1.(left := [(Head(m1.left) + Times(m1.val, k)) % 256] + Tail(m1.left), val := 0)
         == m.(left := [(Head(m.left) + Times(c, k)) % 256] + Tail(m.left), val := 0)
  {
    assert Head(m1.left) == (Head(m.left) + k) % 256 && Tail(m1.left) == Tail(m.left);
    AddTimes(Head(m.left), k, c);
  }

  /**
   * The left transfer loop runs `Count(val)` passes, adding that many times
   * `k` to the left neighbour: a counter of 0 is first taken down to 255.
   */
  lemma {:induction false} CountdownLeft(k: nat, m: Machine<Program>)
    ensures StopsAfter(ToLeft(k), m, Count(m.val))
    ensures Iterate(ToLeft(k), m, Count(m.val))
         == m.(left := [(Head(m.left) + Times(Count(m.val), k)) % 256] + Tail(m.left), val := 0)
    decreases Count(m.val)
  {
    var c := Count(m.val);
    var m1 := m.(left := [(Head(m.left) + k) % 256] + Tail(m.left), val := c - 1);
    assert Apply(ToLeft(k), m) == m1 by {
      ApplyToLeft(k, m);
    }
    assert Iterate(ToLeft(k), m, c) == Iterate(ToLeft(k), m1, c - 1);
    if c == 1 {
      assert Times(1, k) == k;
    } else {
      CountdownLeft(k, m1);
      assert Count(m1.val) == c - 1;
      LeftSum(k, m, m1, c);
    }
  }

  /** One pass adds `k` to the right neighbour; the `c - 1` passes after it add the rest of `c` times `k`. */
  lemma RightSum(k: nat, m: Machine<Program>, m1: Machine<Program>, c: nat)
    requires 1 < c <= 256 && m1 == m.(right := [(Head(m.right) + k) % 256] + Tail(m.right), val := c - 1)
    ensures m1.(right := [(Head(m1.right) + Times(m1.val, k)) % 256] + Tail(m1.right), val := 0)
         == m.(right := [(Head(m.right) + Times(c, k)) % 256] + Tail(m.right), val := 0)
  {
    assert Head(m1.right) == (Head(m.right) + k) % 256 && Tail(m1.right) == Tail(m.right);
    AddTimes(Head(m.right), k, c);
  }

  /** The right transfer loop runs `Count(val)` passes, adding that many times `k` to the right neighbour. */
  lemma {:induction false} CountdownRight(k: nat, m: Machine<Program>)
    ensures StopsAfter(ToRight(k), m, Count(m.val))
    ensures Iterate(ToRight(k), m, Count(m.val))
         == m.(right := [(Head(m.right) + Times(Count(m.val), k)) % 256] + Tail(m.right), val := 0)
    decreases Count(m.val)
  {
    var c := Count(m.val);
    var m1 := m.(right := [(Head(m.right) + k) % 256] + Tail(m.right), val := c - 1);
    assert Apply(ToRight(k), m) == m1 by {
      ApplyToRight(k, m);
    }
    assert Iterate(ToRight(k), m, c) == Iterate(ToRight(k), m1, c - 1);
    if c == 1 {
      assert Times(1, k) == k;
    } else {
      CountdownRight(k, m1);
      assert Count(m1.val) == c - 1;
      RightSum(k, m, m1, c);
    }
  }

  /** `n` passes over a transfer body of step `k`, counted without a product. */
  lemma {:induction false} PassesTimes(n: nat, k: nat)
    ensures Passes(n, k + 3) == Times(n, k) + 4 * n
  {
    if n > 0 {
      PassesTimes(n - 1, k);
    }
  }

  /**
   * `[<` `+`*k `>-]` with counter `v`: adds `Count(v)` times `k` to the left
   * neighbour, modulo 256, and leaves the counter at 0, after
   * `1 + Count(v) * (k + 4)` instructions (products written as `Times`, see
   * TimesProduct).
   */
  lemma TransferLeft(k: nat, rest: Program, m: Machine<Program>, fuel: nat, p: Byte, steps: nat)
    requires p == (Head(m.left) + Times(Count(m.val), k)) % 256 && steps == 1 + Times(Count(m.val), k) + 4 * Count(m.val)
    requires fuel >= steps
    ensures Run("[" + ToLeft(k) + "]" + rest, m, fuel) == Run(rest, m.(left := [p] + Tail(m.left), val := 0), fuel - steps)
  {
    CountdownLeft(k, m);
    PassesTimes(Count(m.val), k);
    EnterLoop(ToLeft(k), rest, m, Count(m.val), fuel);
    assert "[" + ToLeft(k) + "]" + rest == "[" + (ToLeft(k) + "]" + rest);
  }

  /** `[>` `+`*k `<-]` with counter `v`: the mirror image, adding to the right neighbour. */
  lemma TransferRight(k: nat, rest: Program, m: Machine<Program>, fuel: nat, p: Byte, steps: nat)
    requires p == (Head(m.right) + Times(Count(m.val), k)) % 256 && steps == 1 + Times(Count(m.val), k) + 4 * Count(m.val)
    requires fuel >= steps
    ensures Run("[" + ToRight(k) + "]" + rest, m, fuel) == Run(rest, m.(right := [p] + Tail(m.right), val := 0), fuel - steps)
  {
    CountdownRight(k, m);
    PassesTimes(Count(m.val), k);
    EnterLoop(ToRight(k), rest, m, Count(m.val), fuel);
    assert "[" + ToRight(k) + "]" + rest == "[" + (ToRight(k) + "]" + rest);
  }

  /**
   * A transfer loop on a zero counter: `[` does not test the cell, so the
   * counter wraps round to 255 and the loop makes 256 passes, adding `256 * k`
   * to the neighbour, which leaves it as it was.
   */
  lemma TransferLeftZero(k: nat, rest: Program, m: Machine<Program>, fuel: nat)
    requires m.val == 0 && fuel >= 1 + 256 * (k + 4)
    ensures Run("[" + ToLeft(k) + "]" + rest, m, fuel) == Run(rest, m.(left := [Head(m.left)] + Tail(m.left)), fuel - 1 - 256 * (k + 4))
  {
    TimesProduct(Count(m.val), k);
    assert (Head(m.left) + 256 * k) % 256 == Head(m.left);
    TransferLeft(k, rest, m, fuel, Head(m.left), 1 + 256 * k + 4 * 256);
  }
}
