/** Byte cells of the tape and the `+` / `-` updates on them. */
module Bytes {

  /** A tape cell, an input byte or an output byte: an unsigned 8-bit value. */
  type Byte = x: int | 0 <= x < 256

  /** The cell update of `+`: one more, wrapping 255 round to 0. */
  function Inc(v: Byte): (r: Byte)
    ensures v < 255 ==> r == v + 1
    ensures v == 255 ==> r == 0
  {
    (v + 1) % 256
  }

  /** The cell update of `-`, written as the evaluator writes it: add 255 and reduce modulo 256. */
  function Dec(v: Byte): (r: Byte)
    ensures v > 0 ==> r == v - 1
    ensures v == 0 ==> r == 255
  {
    (v + 255) % 256
  }

  /** `+` and `-` undo each other on every byte. */
  lemma IncDecInverse(v: Byte)
    ensures Dec(Inc(v)) == v
    ensures Inc(Dec(v)) == v
  {
  }
}
