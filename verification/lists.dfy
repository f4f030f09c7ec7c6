/**
 * The list helpers the evaluator is built from.  Byte lists (`list<char...>`)
 * hold the tape sides, the input and the output; the continuation stack is a
 * list of lists whose top is its FIRST element, because pushing puts the new
 * entry in front.
 */
module Lists {
  import opened Bytes

  /** First byte of a byte list; an empty list reads as 0. */
  function Head(l: seq<Byte>): (r: Byte)
    ensures |l| == 0 ==> r == 0
  {
    if |l| == 0 then 0 else l[0]
  }

  /** A byte list without its first byte; the empty list stays empty. */
  function Tail(l: seq<Byte>): (r: seq<Byte>)
    ensures |l| > 0 ==> [Head(l)] + r == l
    ensures |l| == 0 ==> r == []
  {
    if |l| == 0 then [] else l[1..]
  }

  /** Puts a byte in front of a list: Head and Tail take it apart again. */
  function Prepend(x: Byte, l: seq<Byte>): (r: seq<Byte>)
    ensures |r| == |l| + 1
    ensures Head(r) == x
    ensures Tail(r) == l
  {
    [x] + l
  }

  /** Puts a byte at the end of a list, keeping everything before it. */
  function Append(x: Byte, l: seq<Byte>): (r: seq<Byte>)
    ensures |r| == |l| + 1
    ensures r[..|l|] == l
    ensures r[|l|] == x
  {
    l + [x]
  }

  /** The top entry of a non-empty stack. */
  function Top<T>(s: seq<T>): T
    requires |s| > 0
  {
    s[0]
  }

  /** A non-empty stack without its top entry. */
  function Pop<T>(s: seq<T>): (r: seq<T>)
    requires |s| > 0
    ensures |r| == |s| - 1
    ensures forall i :: 0 <= i < |r| ==> r[i] == s[i + 1]
  {
    s[1..]
  }

  /** Pushes an entry: it becomes the top, and popping gives back the old stack. */
  function Push<T>(x: T, s: seq<T>): (r: seq<T>)
    ensures |r| == |s| + 1
    ensures Top(r) == x
    ensures Pop(r) == s
  {
    [x] + s
  }

  /** A non-empty stack is its top pushed onto the rest. */
  lemma PushTopPop<T>(s: seq<T>)
    requires |s| > 0
    ensures Push(Top(s), Pop(s)) == s
  {
  }
}
