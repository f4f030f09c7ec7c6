/**
 * The machine state the evaluator threads from instruction to instruction:
 * a zipper tape (`left`, `val`, `right`), the input bytes, the output bytes
 * and a stack of saved continuations.  The continuation type is a parameter:
 * the evaluator saves program suffixes, the index-based reference saves
 * positions.
 */
module Machines {
  import opened Bytes
  import opened Lists

  /**
   * `left` and `right` list the cells beside the current one, nearest first;
   * cells never visited are not stored and read as 0.
   */
  datatype Machine<K> = Machine(
    output: seq<Byte>,
    input: seq<Byte>,
    left: seq<Byte>,
    val: Byte,
    right: seq<Byte>,
    stack: seq<K>)

  /** The cell at offset `i` from the current one, on the infinite tape the zipper stands for. */
  function Cell<K>(m: Machine<K>, i: int): Byte
  {
    if i == 0 then m.val
    else if i > 0 then (if i - 1 < |m.right| then m.right[i - 1] else 0)
    else (if -i - 1 < |m.left| then m.left[-i - 1] else 0)
  }

  /** Same input, output and stack: only the tape may differ. */
  predicate SameButTape<K(==)>(m: Machine<K>, m': Machine<K>)
  {
    m'.output == m.output && m'.input == m.input && m'.stack == m.stack
  }

  /** The fresh machine for a given input: blank tape, no output, empty stack. */
  function Initial<K(==)>(input: seq<Byte>): (m: Machine<K>)
    ensures m.input == input
    ensures m.output == [] && m.stack == []
    ensures forall i :: Cell(m, i) == 0
  {
    Machine([], input, [], 0, [], [])
  }

  /** `>`: the current cell joins the left side and the nearest right cell (0 if none) becomes current. */
  function MoveRight<K(==)>(m: Machine<K>): (r: Machine<K>)
    ensures forall i :: Cell(r, i) == Cell(m, i + 1)
    ensures r.left == Prepend(m.val, m.left)
    ensures SameButTape(m, r)
  {
    m.(left := Prepend(m.val, m.left),
       val := Head(m.right),
       right := if |m.right| == 0 then [] else Tail(m.right))
  }

  /** `<`: the mirror image of `>`. */
  function MoveLeft<K(==)>(m: Machine<K>): (r: Machine<K>)
    ensures forall i :: Cell(r, i) == Cell(m, i - 1)
    ensures r.right == Prepend(m.val, m.right)
    ensures SameButTape(m, r)
  {
    m.(left := if |m.left| == 0 then [] else Tail(m.left),
       val := if |m.left| == 0 then 0 else Head(m.left),
       right := Prepend(m.val, m.right))
  }

  /** `+`: only the current cell changes, to its wrapped successor. */
  function Increment<K(==)>(m: Machine<K>): (r: Machine<K>)
    ensures Cell(r, 0) == Inc(Cell(m, 0))
    ensures forall i :: i != 0 ==> Cell(r, i) == Cell(m, i)
    ensures r.left == m.left && r.right == m.right
    ensures SameButTape(m, r)
  {
    m.(val := Inc(m.val))
  }

  /** `-`: only the current cell changes, to its wrapped predecessor. */
  function Decrement<K(==)>(m: Machine<K>): (r: Machine<K>)
    ensures Cell(r, 0) == Dec(Cell(m, 0))
    ensures forall i :: i != 0 ==> Cell(r, i) == Cell(m, i)
    ensures r.left == m.left && r.right == m.right
    ensures SameButTape(m, r)
  {
    m.(val := Dec(m.val))
  }

  /** `.`: the current cell is added at the end of the output; nothing else changes. */
  function Emit<K(==)>(m: Machine<K>): (r: Machine<K>)
    ensures |r.output| == |m.output| + 1
    ensures r.output[..|m.output|] == m.output
    ensures r.output[|m.output|] == Cell(m, 0)
    ensures r.(output := m.output) == m
  {
    m.(output := Append(m.val, m.output))
  }

  /** `,`: the current cell becomes the first input byte, or 0 on empty input; the input is kept whole. */
  function ReadInput<K(==)>(m: Machine<K>): (r: Machine<K>)
    ensures |m.input| > 0 ==> Cell(r, 0) == m.input[0]
    ensures |m.input| == 0 ==> Cell(r, 0) == 0
    ensures forall i :: i != 0 ==> Cell(r, i) == Cell(m, i)
    ensures r.left == m.left && r.right == m.right
    ensures SameButTape(m, r)
  {
    m.(val := Head(m.input))
  }

  /** `[`: saves a continuation on top of the stack; nothing else changes. */
  function Enter<K(==)>(m: Machine<K>, k: K): (r: Machine<K>)
    ensures |r.stack| == |m.stack| + 1
    ensures Top(r.stack) == k && Pop(r.stack) == m.stack
    ensures r.(stack := m.stack) == m
  {
    m.(stack := Push(k, m.stack))
  }

  /** `]` on a zero cell: drops the top continuation; nothing else changes. */
  function Leave<K(==)>(m: Machine<K>): (r: Machine<K>)
    requires |m.stack| > 0
    ensures |r.stack| == |m.stack| - 1
    ensures Enter(r, Top(m.stack)) == m
  {
    m.(stack := Pop(m.stack))
  }

  /** `>` then `<` gives back the left side and the current cell exactly; the right side gains a 0 only when it was empty. */
  lemma MoveRightLeft<K>(m: Machine<K>)
    ensures MoveLeft(MoveRight(m)).left == m.left
    ensures MoveLeft(MoveRight(m)).val == m.val
    ensures MoveLeft(MoveRight(m)).right == (if |m.right| == 0 then [0] else m.right)
    ensures forall i :: Cell(MoveLeft(MoveRight(m)), i) == Cell(m, i)
  {
  }

  /** `<` then `>`, the mirror image. */
  lemma MoveLeftRight<K>(m: Machine<K>)
    ensures MoveRight(MoveLeft(m)).right == m.right
    ensures MoveRight(MoveLeft(m)).val == m.val
    ensures MoveRight(MoveLeft(m)).left == (if |m.left| == 0 then [0] else m.left)
    ensures forall i :: Cell(MoveRight(MoveLeft(m)), i) == Cell(m, i)
  {
  }

  /** `+` and `-` undo each other on the whole machine. */
  lemma IncrementDecrement<K>(m: Machine<K>)
    ensures Decrement(Increment(m)) == m
    ensures Increment(Decrement(m)) == m
  {
    IncDecInverse(m.val);
  }
}
