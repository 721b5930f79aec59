/** Small shared vocabulary: optional values, results, Go's `error`, bytes and int64. */
module Basics {

  datatype Option<+T> = None | Some(value: T)

  /** The `(value, error)` pair a Go call returns, with exactly one side meaningful. */
  datatype Result<+T, +E> = Success(value: T) | Failure(error: E)

  /** A Go `error`; only the text of `err.Error()` is observable by the handler. */
  datatype Error = Error(text: string)

  type byte = b: int | 0 <= b < 256

  const Int64Min: int := -0x8000_0000_0000_0000
  const Int64Max: int := 0x7fff_ffff_ffff_ffff

  type int64 = x: int | Int64Min <= x <= Int64Max

  /** Where the parts of `x + [c] + y` sit. */
  lemma ConcatAt(x: string, c: char, y: string)
    ensures (x + [c] + y)[|x|] == c
    ensures forall i :: 0 <= i < |x| ==> (x + [c] + y)[i] == x[i]
  {
  }

  /** A separator that occurs in neither prefix splits two equal strings the same way. */
  lemma SplitAtFirst(x1: string, y1: string, x2: string, y2: string, c: char)
    requires c !in x1 && c !in x2
    requires x1 + [c] + y1 == x2 + [c] + y2
    ensures x1 == x2 && y1 == y2
  {
    var s := x1 + [c] + y1;
    ConcatAt(x1, c, y1);
    ConcatAt(x2, c, y2);
    if |x1| < |x2| {
      assert false;
    } else if |x2| < |x1| {
      assert false;
    }
    assert x1 == s[..|x1|] == x2;
    assert y1 == s[|x1| + 1..] == y2;
  }
}
