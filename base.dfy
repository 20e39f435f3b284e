/** Shared value types: Go's byte, an Option for nil-able values, and small sequence helpers. */
module Base {

  /** A Go `byte`: an integer in [0, 256). */
  type byte = b: int | 0 <= b < 256

  /** Stands for a Go value that may be nil (here: an `error`). */
  datatype Option<+T> = None | Some(value: T)

  function Min(a: int, b: int): int
  {
    if a <= b then a else b
  }

  function Max(a: int, b: int): int
  {
    if a <= b then b else a
  }

  /** `n` copies of `b`: what `make([]byte, n)` gives for `b == 0`. */
  function Repeat(b: byte, n: nat): (r: seq<byte>)
    ensures |r| == n
    ensures forall i :: 0 <= i < n ==> r[i] == b
  {
    seq(n, _ => b)
  }

  /** The bytes of an ASCII string literal, as Go's `[]byte("...")` conversion gives them. */
  function Ascii(s: string): (r: seq<byte>)
    ensures |r| == |s|
  {
    seq(|s|, i requires 0 <= i < |s| => (s[i] as int) % 256)
  }
}
