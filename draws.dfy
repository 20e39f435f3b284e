/**
 * The random source shared by the engine and every mutator (a `*rand.Rand` in the
 * original). The generator's algorithm is not modelled: a seeded source is an infinite
 * stream of draws `source(0), source(1), ...` and a position that advances as draws are
 * consumed. Equal streams and equal positions give equal results, so determinism for a
 * fixed seed holds by construction.
 */
module Draws {
  import opened Base

  /** `Intn(n)` at position `p`: one draw reduced to [0, n). */
  function Pick(src: nat -> nat, p: nat, n: nat): (v: nat)
    requires n > 0
    ensures v < n
  {
    src(p) % n
  }

  /** `Read` of a buffer of `k` bytes at position `p`: the draws `p .. p + k - 1`, one byte each. */
  function Bytes(src: nat -> nat, p: nat, k: nat): (bs: seq<byte>)
    ensures |bs| == k
  {
    seq(k, i requires 0 <= i < k => src(p + i) % 256)
  }

  class Rand {
    /** The stream the seed determines. */
    const source: nat -> nat
    /** How many draws have been consumed. */
    var pos: nat

    /** `rand.New(rand.NewSource(seed))`: a fresh stream at its start. */
    constructor (source: nat -> nat)
      ensures this.source == source && pos == 0
    {
      this.source := source;
      pos := 0;
    }

    /** math/rand's `Intn`, which panics unless `n > 0`. */
    method Intn(n: nat) returns (v: nat)
      requires n > 0
      modifies this
      ensures v < n
      ensures v == Pick(source, old(pos), n)
      ensures pos == old(pos) + 1
    {
      v := source(pos) % n;
      pos := pos + 1;
    }

    /** math/rand's `Read` into a buffer of `k` bytes. */
    method Read(k: nat) returns (bs: seq<byte>)
      modifies this
      ensures |bs| == k
      ensures bs == Bytes(source, old(pos), k)
      ensures pos == old(pos) + k
    {
      bs := Bytes(source, pos, k);
      pos := pos + k;
    }
  }
}
