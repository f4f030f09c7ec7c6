/**
 * The structural invariant behind continuation capture: the program cursor
 * is always a suffix of the program being run, and every saved continuation
 * is the part of the program right after one of its `[` commands.
 */
module Continuations {
  import opened Machines
  import opened Evaluator

  /** `s` is what remains of `p` after dropping some prefix. */
  predicate IsSuffix(s: Program, p: Program)
  {
    |s| <= |p| && p[|p| - |s|..] == s
  }

  /** `s` is the part of `p` after some `[` of `p`. */
  predicate AfterOpen(s: Program, p: Program)
  {
    IsSuffix(s, p) && |s| < |p| && p[|p| - |s| - 1] == '['
  }

  /** The invariant of a run of `p`: cursor and stack only point into `p`. */
  predicate Resumable(p: Program, code: Program, m: Machine<Program>)
  {
    && IsSuffix(code, p)
    && forall i :: 0 <= i < |m.stack| ==> AfterOpen(m.stack[i], p)
  }

  /** The tail of a suffix is a suffix. */
  lemma SuffixTail(s: Program, p: Program)
    requires IsSuffix(s, p) && |s| > 0
    ensures IsSuffix(s[1..], p)
    ensures s[0] == '[' ==> AfterOpen(s[1..], p)
  {
    assert p[|p| - |s|..][1..] == p[|p| - |s| + 1..];
  }

  /** A run starts in a resumable state. */
  lemma InitialResumable(p: Program, input: seq<Bytes.Byte>)
    ensures Resumable(p, p, Initial(input))
  {
  }

  /** Every step keeps the invariant: cursors only become tails or the top of the stack, and only tails after `[` are pushed. */
  lemma StepResumable(p: Program, code: Program, m: Machine<Program>)
    requires Resumable(p, code, m)
    ensures Step(code, m).Next? ==> Resumable(p, Step(code, m).code, Step(code, m).m)
  {
    if code != [] {
      SuffixTail(code, p);
    }
  }

  /** The invariant holds wherever a run stops. */
  lemma {:induction false} RunResumable(p: Program, code: Program, m: Machine<Program>, fuel: nat)
    requires Resumable(p, code, m)
    ensures Resumable(p, Run(code, m, fuel).code, Run(code, m, fuel).m)
    decreases fuel
  {
    StepResumable(p, code, m);
    match Step(code, m)
    case Halt =>
    case Stuck(_) =>
    case Next(code', m') =>
      if fuel > 0 {
        RunResumable(p, code', m', fuel - 1);
      }
  }

  /** Evaluating `p` from a fresh machine only ever reaches resumable states. */
  lemma EvalResumable(p: Program, input: seq<Bytes.Byte>, fuel: nat)
    ensures Resumable(p, Run(p, Initial(input), fuel).code, Run(p, Initial(input), fuel).m)
  {
    InitialResumable(p, input);
    RunResumable(p, p, Initial(input), fuel);
  }
}
