/**
 * The four mutation strategies. Each one generates inputs from the shared random source
 * and sorts a target response into no verdict or one `FuzzResult`.
 *
 * Every generator is stated twice: a function of the stream (`RandomTxGen`, ...) that says
 * which draws it consumes and what it builds, and a class method that does the same step by
 * step and is proved equal to that function.
 */
module Mutators {
  import opened Base
  import opened Draws
  import opened Verdicts
  import opened Encoding

  /** Which of the four strategies a mutator is. */
  datatype Strategy = RandomTx | BoundaryValue | Stateful | SpecialCases

  /** What a generator built, and the stream position after its last draw. */
  datatype Gen = Gen(input: seq<byte>, next: nat)

  // ---------------------------------------------------------------------------
  // Validation
  // ---------------------------------------------------------------------------

  const InvalidArguments: string := "invalid arguments"
  const PermissionDenied: string := "permission denied"

  /** The two error texts every validator ignores. */
  predicate Benign(e: string)
  {
    e == InvalidArguments || e == PermissionDenied
  }

  /** A non-nil error whose text is not one of the benign two. */
  predicate Unexpected(err: Option<string>)
  {
    err.Some? && !Benign(err.value)
  }

  const StateInconsistentOutput: seq<byte> := Ascii("state_inconsistent")
  const ConsensusFailureOutput: seq<byte> := Ascii("consensus_failure")

  /** `output != nil && len(output) > 0 && string(output) == "state_inconsistent"`. */
  predicate SaysInconsistent(output: seq<byte>)
  {
    |output| > 0 && output == StateInconsistentOutput
  }

  /** `output != nil && len(output) > 0 && string(output) == "consensus_failure"`. */
  predicate SaysConsensusFailure(output: seq<byte>)
  {
    |output| > 0 && output == ConsensusFailureOutput
  }

  /** The common classification policy: an unexpected error wins over the output. */
  function ErrorFirst(output: seq<byte>, err: Option<string>): (r: Verdict)
    ensures r == Crash <==> Unexpected(err)
  {
    if Unexpected(err) then Crash
    else if SaysInconsistent(output) then Inconsistent
    else if SaysConsensusFailure(output) then ConsensusBroken
    else NoVerdict
  }

  /** The stateful mutator's policy: the output is looked at before the error. */
  function OutputFirst(output: seq<byte>, err: Option<string>): (r: Verdict)
    ensures r == Inconsistent <==> SaysInconsistent(output)
  {
    if SaysInconsistent(output) then Inconsistent
    else if SaysConsensusFailure(output) then ConsensusBroken
    else if Unexpected(err) then Crash
    else NoVerdict
  }

  /** The classification policy of the mutator of strategy `k`. */
  function Policy(k: Strategy, response: Response): Verdict
  {
    if k == Stateful then OutputFirst(response.output, response.err) else ErrorFirst(response.output, response.err)
  }

  /** The two policies differ exactly when an unexpected error comes with a flagged output. */
  lemma PoliciesDiffer(output: seq<byte>, err: Option<string>)
    ensures ErrorFirst(output, err) != OutputFirst(output, err)
        <==> Unexpected(err) && (SaysInconsistent(output) || SaysConsensusFailure(output))
  {
    assert StateInconsistentOutput != ConsensusFailureOutput by {
      assert |StateInconsistentOutput| == 18 && |ConsensusFailureOutput| == 17;
    }
  }

  function RandomTxValidate(output: seq<byte>, err: Option<string>, stamp: string): (r: Option<FuzzResult>)
    ensures KindOf(r) == ErrorFirst(output, err)
    ensures r.Some? ==> Reported(r.value) && r.value.id == "random_tx_" + stamp && r.value.input == []
    ensures r.Some? && r.value.crashed ==> r.value.errorMessage == err.value
  {
    if Unexpected(err) then
      Some(FuzzResult("random_tx_" + stamp, [], err.value, true, false, false, true))
    else if SaysInconsistent(output) then
      Some(FuzzResult("random_tx_" + stamp, [], "State inconsistency detected", true, true, false, false))
    else if SaysConsensusFailure(output) then
      Some(FuzzResult("random_tx_" + stamp, [], "Consensus failure detected", true, false, true, false))
    else
      None
  }

  function BoundaryValueValidate(output: seq<byte>, err: Option<string>, stamp: string): (r: Option<FuzzResult>)
    ensures KindOf(r) == ErrorFirst(output, err)
    ensures r.Some? ==> Reported(r.value) && r.value.id == "boundary_" + stamp && r.value.input == []
    ensures r.Some? && r.value.crashed ==> r.value.errorMessage == err.value
  {
    if Unexpected(err) then
      Some(FuzzResult("boundary_" + stamp, [], err.value, true, false, false, true))
    else if SaysInconsistent(output) then
      Some(FuzzResult("boundary_" + stamp, [], "State inconsistency detected with boundary value",
                      true, true, false, false))
    else if SaysConsensusFailure(output) then
      Some(FuzzResult("boundary_" + stamp, [], "Consensus failure detected with boundary value",
                      true, false, true, false))
    else
      None
  }

  /** The stateful validator; every verdict carries the mutator's history as its input. */
  function StatefulValidate(history: seq<byte>, output: seq<byte>, err: Option<string>, stamp: string)
    : (r: Option<FuzzResult>)
    ensures KindOf(r) == OutputFirst(output, err)
    ensures r.Some? ==> Reported(r.value) && r.value.id == "stateful_" + stamp && r.value.input == history
    ensures r.Some? && r.value.crashed ==>
              r.value.errorMessage == "Unexpected error in state sequence: " + err.value
  {
    if SaysInconsistent(output) then
      Some(FuzzResult("stateful_" + stamp, history, "State transition inconsistency detected",
                      true, true, false, false))
    else if SaysConsensusFailure(output) then
      Some(FuzzResult("stateful_" + stamp, history, "Consensus failure in state transition sequence",
                      true, false, true, false))
    else if Unexpected(err) then
      Some(FuzzResult("stateful_" + stamp, history, "Unexpected error in state sequence: " + err.value,
                      true, false, false, true))
    else
      None
  }

  function SpecialCasesValidate(output: seq<byte>, err: Option<string>, stamp: string): (r: Option<FuzzResult>)
    ensures KindOf(r) == ErrorFirst(output, err)
    ensures r.Some? ==> Reported(r.value) && r.value.id == "special_" + stamp && r.value.input == []
    ensures r.Some? && r.value.crashed ==>
              r.value.errorMessage == "Special case triggered error: " + err.value
  {
    if Unexpected(err) then
      Some(FuzzResult("special_" + stamp, [], "Special case triggered error: " + err.value,
                      true, false, false, true))
    else if SaysInconsistent(output) then
      Some(FuzzResult("special_" + stamp, [], "Special case triggered state inconsistency",
                      true, true, false, false))
    else if SaysConsensusFailure(output) then
      Some(FuzzResult("special_" + stamp, [], "Special case triggered consensus failure",
                      true, false, true, false))
    else
      None
  }

  /** `ValidateOutput` of whichever mutator `k` names; `history` is the stateful mutator's. */
  function Validate(k: Strategy, history: seq<byte>, resp: Response, stamp: string): (r: Option<FuzzResult>)
    ensures r.Some? ==> Reported(r.value)
    ensures KindOf(r) == Policy(k, resp)
    ensures r.Some? ==> r.value.input == if k == Stateful then history else []
  {
    match k
    case RandomTx => RandomTxValidate(resp.output, resp.err, stamp)
    case BoundaryValue => BoundaryValueValidate(resp.output, resp.err, stamp)
    case Stateful => StatefulValidate(history, resp.output, resp.err, stamp)
    case SpecialCases => SpecialCasesValidate(resp.output, resp.err, stamp)
  }

  /**
   * The laws every validator obeys: a plain success and an empty response give nothing, a
   * "state_inconsistent" output without error is an inconsistency, and an unexpected error
   * is a crash unless (for the stateful mutator only) the output is flagged as well.
   */
  lemma ValidatorLaws(k: Strategy, history: seq<byte>, output: seq<byte>, e: string, stamp: string)
    ensures Validate(k, history, Response(Ascii("success"), None), stamp) == None
    ensures Validate(k, history, Response([], None), stamp) == None
    ensures KindOf(Validate(k, history, Response(StateInconsistentOutput, None), stamp)) == Inconsistent
    ensures KindOf(Validate(k, history, Response(ConsensusFailureOutput, None), stamp)) == ConsensusBroken
    ensures !Benign(e) && (k != Stateful || !(SaysInconsistent(output) || SaysConsensusFailure(output)))
            ==> KindOf(Validate(k, history, Response(output, Some(e)), stamp)) == Crash
    ensures Benign(e) ==> Validate(k, history, Response(output, Some(e)), stamp)
                          == Validate(k, history, Response(output, None), stamp)
  {
    var success := Ascii("success");
    assert |success| == 7;
    assert success != StateInconsistentOutput && success != ConsensusFailureOutput;
    assert StateInconsistentOutput != ConsensusFailureOutput by {
      assert |StateInconsistentOutput| == 18 && |ConsensusFailureOutput| == 17;
    }
  }

  // ---------------------------------------------------------------------------
  // Random transactions
  // ---------------------------------------------------------------------------

  /** A length in [16, 4095] from one draw, then that many random bytes. */
  function RandomTxGen(src: nat -> nat, p: nat): (g: Gen)
    ensures 16 <= |g.input| <= 4095
    ensures g.input == Bytes(src, p + 1, |g.input|)
    ensures g.next == p + 1 + |g.input|
  {
    var length := 16 + Pick(src, p, 4080);
    Gen(Bytes(src, p + 1, length), p + 1 + length)
  }

  class RandomTxMutator {
    const rng: Rand
    const name: string

    constructor (r: Rand)
      ensures rng == r && name == "RandomTxMutator"
    {
      rng := r;
      name := "RandomTxMutator";
    }

    /** The validator is stateless; the stamp stands for the clock reading in the id. */
    function ValidateOutput(output: seq<byte>, err: Option<string>, stamp: string): (r: Option<FuzzResult>)
      ensures KindOf(r) == ErrorFirst(output, err)
      ensures r.Some? ==> Reported(r.value) && r.value.input == []
    {
      RandomTxValidate(output, err, stamp)
    }

    method GenerateFuzzInput() returns (input: seq<byte>)
      modifies rng
      ensures Gen(input, rng.pos) == RandomTxGen(rng.source, old(rng.pos))
      ensures 16 <= |input| <= 4095
    {
      var n := rng.Intn(4080);
      var length := 16 + n;
      input := rng.Read(length);
    }
  }

  // ---------------------------------------------------------------------------
  // Boundary values
  // ---------------------------------------------------------------------------

  const MaxUint64: nat := 0xFFFF_FFFF_FFFF_FFFF
  /** The two's-complement bit pattern of the least int64, -2^63. */
  const MinInt64Bits: nat := 0x8000_0000_0000_0000
  const MiB: nat := 1024 * 1024

  /** Shape `c` of the six boundary cases. */
  predicate IsShape(c: nat, input: seq<byte>)
  {
    if c == 0 then input == []
    else if c == 1 then |input| == 1
    else if c == 2 then input == Repeat(0xFF, 16)
    else if c == 3 then 16 <= |input| <= 115 && input == Repeat(0, |input|)
    else if c == 4 then input == Repeat(0, 7) + [0x80] + Repeat(0, 8)
    else if c == 5 then |input| % MiB == 0 && 1 <= |input| / MiB <= 5
    else false
  }

  /** One draw picks the case; cases 1, 3 and 5 draw again for a byte or a length. */
  function BoundaryGen(src: nat -> nat, p: nat): (g: Gen)
    ensures IsShape(Pick(src, p, 6), g.input)
  {
    var testCase := Pick(src, p, 6);
    if testCase == 0 then
      Gen([], p + 1)
    else if testCase == 1 then
      Gen([Pick(src, p + 1, 256)], p + 2)
    else if testCase == 2 then
      MaxUint64Bytes();
      var input := PutUint64(PutUint64(Repeat(0, 16), 0, MaxUint64), 8, MaxUint64);
      assert input == Repeat(0xFF, 16) by {
        assert input[..8] == Repeat(0xFF, 8) && input[8..] == Repeat(0xFF, 8);
        assert input == input[..8] + input[8..];
      }
      Gen(input, p + 1)
    else if testCase == 3 then
      Gen(Repeat(0, 16 + Pick(src, p + 1, 100)), p + 2)
    else if testCase == 4 then
      MinInt64Bytes();
      var input := PutUint64(Repeat(0, 16), 0, MinInt64Bits);
      assert input == Repeat(0, 7) + [0x80] + Repeat(0, 8) by {
        assert input[..8] == Repeat(0, 7) + [0x80];
        assert input[8..] == Repeat(0, 8);
        assert input == input[..8] + input[8..];
      }
      Gen(input, p + 1)
    else
      var length := MiB * (1 + Pick(src, p + 1, 5));
      Gen(Bytes(src, p + 2, length), p + 2 + length)
  }

  /** Reads the shape back off an input: its length, then its first and eighth bytes. */
  function ShapeOf(input: seq<byte>): nat
  {
    if |input| == 0 then 0
    else if |input| == 1 then 1
    else if |input| >= MiB then 5
    else if |input| < 8 then 6
    else if input[0] == 0xFF then 2
    else if input[7] == 0x80 then 4
    else 3
  }

  /** An input of shape `c` is read back as shape `c`. */
  lemma ShapeUnique(c: nat, input: seq<byte>)
    requires IsShape(c, input)
    ensures ShapeOf(input) == c
  {
    if c == 2 || c == 3 {
      assert input[0] == Repeat(input[0], |input|)[0];
      assert input[0] == (if c == 2 then 0xFF else 0);
      assert c == 3 ==> input[7] == 0;
    } else if c == 4 {
      var negative := Repeat(0, 7) + [0x80] + Repeat(0, 8);
      assert negative[0] == 0 && negative[7] == 0x80;
    }
  }

  /** The six shapes never overlap, so every boundary input has exactly one of them. */
  lemma {:induction false} BoundaryExactlyOneShape(src: nat -> nat, p: nat, c: nat)
    requires c < 6
    ensures IsShape(c, BoundaryGen(src, p).input) <==> c == Pick(src, p, 6)
  {
    var input := BoundaryGen(src, p).input;
    ShapeUnique(Pick(src, p, 6), input);
    if IsShape(c, input) {
      ShapeUnique(c, input);
    }
  }

  predicate AllZeros(input: seq<byte>)
  {
    forall i :: 0 <= i < |input| ==> input[i] == 0
  }

  /** How the boundary test sorts an input into a case, or -1 for none (test/test.go). */
  function TestCaseType(input: seq<byte>): (r: int)
    ensures -1 <= r <= 5
    ensures r == 0 <==> |input| == 0
  {
    if |input| == 0 then 0
    else if |input| == 1 then 1
    else if |input| == 16 && input[..8] == Repeat(0xFF, 8) then 2
    else if |input| >= 16 && AllZeros(input) then 3
    else if |input| == 16 && input[..8] == Repeat(0, 7) + [0x80] then 4
    else if |input| >= MiB then 5
    else -1
  }

  /**
   * The test's classification accepts every boundary input, and names the drawn case except
   * when a large random buffer happens to be all zeros (then it says case 3).
   */
  lemma TestClassifiesBoundary(src: nat -> nat, p: nat)
    ensures TestCaseType(BoundaryGen(src, p).input) != -1
    ensures var input := BoundaryGen(src, p).input;
            TestCaseType(input) == if Pick(src, p, 6) == 5 && AllZeros(input) then 3 else Pick(src, p, 6)
  {
    TestClassifiesShape(Pick(src, p, 6), BoundaryGen(src, p).input);
  }

  /** The test's classification of an input of a known shape. */
  lemma TestClassifiesShape(c: nat, input: seq<byte>)
    requires IsShape(c, input)
    ensures TestCaseType(input) == if c == 5 && AllZeros(input) then 3 else c
  {
    if c == 2 {
      assert input[..8] == Repeat(0xFF, 8);
    } else if c == 3 {
      assert input[..8][0] == 0;
    } else if c == 4 {
      var negative := Repeat(0, 7) + [0x80] + Repeat(0, 8);
      assert input[..8] == Repeat(0, 7) + [0x80];
      assert input[..8][0] == 0 && input[7] == 0x80;
    }
  }

  class BoundaryValueMutator {
    const rng: Rand
    const name: string

    constructor (r: Rand)
      ensures rng == r && name == "BoundaryValueMutator"
    {
      rng := r;
      name := "BoundaryValueMutator";
    }

    /** The validator is stateless; the stamp stands for the clock reading in the id. */
    function ValidateOutput(output: seq<byte>, err: Option<string>, stamp: string): (r: Option<FuzzResult>)
      ensures KindOf(r) == ErrorFirst(output, err)
      ensures r.Some? ==> Reported(r.value) && r.value.input == []
    {
      BoundaryValueValidate(output, err, stamp)
    }

    method GenerateFuzzInput() returns (input: seq<byte>)
      modifies rng
      ensures Gen(input, rng.pos) == BoundaryGen(rng.source, old(rng.pos))
      ensures IsShape(Pick(rng.source, old(rng.pos), 6), input)
    {
      var testCase := rng.Intn(6);
      if testCase == 0 {
        input := [];
      } else if testCase == 1 {
        var b := rng.Intn(256);
        input := [b];
      } else if testCase == 2 {
        input := Repeat(0, 16);
        input := PutUint64(input, 0, MaxUint64);
        input := PutUint64(input, 8, MaxUint64);
      } else if testCase == 3 {
        var n := rng.Intn(100);
        input := Repeat(0, 16 + n);
      } else if testCase == 4 {
        input := Repeat(0, 16);
        input := PutUint64(input, 0, MinInt64Bits);
      } else {
        var k := rng.Intn(5);
        var length := 1024 * 1024 * (1 + k);
        input := rng.Read(length);
      }
    }
  }

  // ---------------------------------------------------------------------------
  // Stateful sequences
  // ---------------------------------------------------------------------------

  /** The history keeps at most this many bytes. */
  const HistoryCap: nat := 64

  /**
   * `[op] ++ header ++ history ++ extra`: an operation byte in 0..3, four random header
   * bytes, the current history and 8..99 random bytes.
   */
  function StatefulGen(src: nat -> nat, p: nat, history: seq<byte>): Gen
  {
    var op := Pick(src, p, 4);
    var header := Bytes(src, p + 1, 4);
    var extraLen := 8 + Pick(src, p + 5, 92);
    Gen([op] + header + history + Bytes(src, p + 6, extraLen), p + 6 + extraLen)
  }

  /**
   * A stateful input starts with its operation byte (0..3), then the four header bytes, then
   * the whole history; 8..99 random bytes follow, so its length is that of the history plus 13..104.
   */
  lemma StatefulInputShape(src: nat -> nat, p: nat, history: seq<byte>)
    ensures var g := StatefulGen(src, p, history);
            && 13 + |history| <= |g.input| <= 104 + |history|
            && g.input[0] == Pick(src, p, 4) && g.input[0] < 4
            && g.input[1..5] == Bytes(src, p + 1, 4)
            && g.input[5..5 + |history|] == history
            && g.input[5 + |history|..] == Bytes(src, p + 6, |g.input| - 5 - |history|)
            && g.next == p + 1 + |g.input| - |history|
  {
    var input := StatefulGen(src, p, history).input;
    var header := Bytes(src, p + 1, 4);
    var extra := Bytes(src, p + 6, 8 + Pick(src, p + 5, 92));
    assert input == [Pick(src, p, 4)] + header + history + extra;
    assert input[1..5] == header;
    assert input[5..5 + |history|] == history;
    assert input[5 + |history|..] == extra;
  }

  /** Append `b` to the history and keep only its newest `HistoryCap` bytes. */
  function Push(history: seq<byte>, b: byte): (r: seq<byte>)
    ensures |r| == Min(|history| + 1, HistoryCap)
    ensures r == (history + [b])[|history| + 1 - |r|..]
  {
    var h := history + [b];
    if |h| > HistoryCap then h[|h| - HistoryCap..] else h
  }

  /** The newest `HistoryCap` elements of `s` (all of `s` when it is shorter). */
  function Window(s: seq<byte>): seq<byte>
  {
    s[|s| - Min(|s|, HistoryCap)..]
  }

  /** The history after emitting the operation bytes `ops`, one `Push` each, from empty. */
  function Replay(ops: seq<byte>): seq<byte>
  {
    if ops == [] then [] else Push(Replay(ops[..|ops| - 1]), ops[|ops| - 1])
  }

  lemma PushWindow(s: seq<byte>, b: byte)
    ensures Push(Window(s), b) == Window(s + [b])
  {
    var w := Window(s);
    var t := s + [b];
    assert w + [b] == t[|s| - Min(|s|, HistoryCap)..];
  }

  /** The history is always the newest (at most 64) operation bytes. */
  lemma {:induction false} ReplayIsWindow(ops: seq<byte>)
    ensures Replay(ops) == Window(ops)
  {
    if ops != [] {
      var front := ops[..|ops| - 1];
      ReplayIsWindow(front);
      PushWindow(front, ops[|ops| - 1]);
      assert front + [ops[|ops| - 1]] == ops;
    }
  }

  /**
   * After `n` calls the history has `min(n, 64)` bytes, its last byte is the newest operation,
   * and each of its bytes is an operation byte, so in 0..3.
   */
  lemma HistoryFacts(ops: seq<byte>)
    ensures |Replay(ops)| == Min(|ops|, HistoryCap)
    ensures ops != [] ==> Replay(ops)[|Replay(ops)| - 1] == ops[|ops| - 1]
    ensures AllOps(ops) ==> AllOps(Replay(ops))
  {
    ReplayIsWindow(ops);
    var start := |ops| - Min(|ops|, HistoryCap);
    assert forall i :: 0 <= i < |Replay(ops)| ==> Replay(ops)[i] == ops[start + i];
  }

  /** Every byte is an operation byte, in 0..3. */
  predicate AllOps(s: seq<byte>)
  {
    forall i :: 0 <= i < |s| ==> s[i] < 4
  }

  lemma AllOpsAppend(s: seq<byte>, b: byte)
    requires AllOps(s) && b < 4
    ensures AllOps(s + [b])
  {
  }

  /** Pushing an operation byte keeps every history byte an operation byte. */
  lemma PushKeepsOps(history: seq<byte>, b: byte)
    requires AllOps(history) && b < 4
    ensures AllOps(Push(history, b))
  {
    var h := history + [b];
    assert forall i :: 0 <= i < |h| ==> h[i] < 4;
  }

  class StatefulMutator {
    const rng: Rand
    const name: string
    /** The bounded history (Go's `currentState`). */
    var currentState: seq<byte>
    /** Every operation byte emitted so far, oldest first. */
    ghost var emitted: seq<byte>

    ghost predicate Valid()
      reads this
    {
      && currentState == Replay(emitted)
      && AllOps(emitted)
    }

    constructor (r: Rand)
      ensures Valid()
      ensures rng == r && name == "StatefulMutator"
      ensures currentState == [] && emitted == []
    {
      rng := r;
      name := "StatefulMutator";
      currentState := [];
      emitted := [];
    }

    method GenerateFuzzInput() returns (input: seq<byte>)
      requires Valid()
      modifies this, rng
      ensures Valid()
      ensures Gen(input, rng.pos) == StatefulGen(rng.source, old(rng.pos), old(currentState))
      ensures emitted == old(emitted) + [input[0]]
      ensures currentState == Push(old(currentState), input[0])
    {
      var history := currentState;
      input := BuildInput(history);
      StatefulInputShape(rng.source, old(rng.pos), history);
      RecordOperation(input[0]);
    }

    /** Draw an operation byte, a 4-byte header, replay the history and append 8..99 filler bytes. */
    method BuildInput(history: seq<byte>) returns (input: seq<byte>)
      modifies rng
      ensures Gen(input, rng.pos) == StatefulGen(rng.source, old(rng.pos), history)
    {
      ghost var p0 := rng.pos;
      var opType: byte := rng.Intn(4);
      var header := rng.Read(4);
      input := [opType] + header;
      if |history| > 0 {
        input := input + history;
      }
      assert input == [opType] + header + history && rng.pos == p0 + 5;
      var n := rng.Intn(92);
      var extraLen := 8 + n;
      var extra := rng.Read(extraLen);
      input := input + extra;
    }

    /** Append the operation byte to the history, dropping the oldest bytes beyond the cap. */
    method RecordOperation(op: byte)
      requires Valid() && op < 4
      modifies this
      ensures Valid()
      ensures emitted == old(emitted) + [op]
      ensures currentState == Push(old(currentState), op)
    {
      currentState := currentState + [op];
      if |currentState| > HistoryCap {
        currentState := currentState[|currentState| - HistoryCap..];
      }
      emitted := emitted + [op];
      assert emitted[..|emitted| - 1] == old(emitted);
      AllOpsAppend(old(emitted), op);
    }

    /** The validator reads the history as it stands after the last generated input. */
    function ValidateOutput(output: seq<byte>, err: Option<string>, stamp: string): (r: Option<FuzzResult>)
      reads this
      ensures KindOf(r) == OutputFirst(output, err)
      ensures r.Some? ==> Reported(r.value) && r.value.input == currentState
    {
      StatefulValidate(currentState, output, err, stamp)
    }
  }

  // ---------------------------------------------------------------------------
  // Special cases (a fixed corpus)
  // ---------------------------------------------------------------------------

  /** The seven known exploit shapes, in order. */
  function Corpus(): (c: seq<seq<byte>>)
    ensures |c| == 7
    ensures forall i :: 0 <= i < 7 ==> |c[i]| == (if i < 2 then 8 else 9) && c[i][0] == i + 1
  {
    [ [0x1, 0x0, 0x0, 0x0, 0xAA, 0xBB, 0xCC, 0xDD],       // empty message with valid signature
      [0x2, 0xFF, 0xFF, 0xFF, 0xFF, 0x0, 0x0, 0x0],       // invalid account sequence
      [0x3, 0x1, 0x0, 0x0, 0x0, 0x1, 0x0, 0x0, 0x0],      // double spend attempt
      [0x4, 0xF0, 0xF0, 0xF0, 0xF0, 0x0, 0x0, 0x0, 0x0],  // state rollback attempt
      [0x5, 0x1, 0x0, 0x0, 0x0, 0xFF, 0xFF, 0xFF, 0xFF],  // governance proposal with bad parameters
      [0x6, 0xFF, 0xFF, 0xFF, 0xFF, 0xFF, 0xFF, 0xFF, 0xFF], // validator power overflow
      [0x7, 0xA, 0xB, 0xC, 0xD, 0x1, 0x0, 0x0, 0x0] ]     // module account misuse
  }

  /** A corpus the generator can draw from: not empty, and no entry empty. */
  predicate NonEmptyCorpus(cases: seq<seq<byte>>)
  {
    |cases| > 0 && forall i :: 0 <= i < |cases| ==> |cases[i]| > 0
  }

  /** `make([]byte, n)` followed by `copy(buf, src)`: the first `min(n, |src|)` bytes of `src`, then zeros. */
  function ZeroFilledCopy(n: nat, src: seq<byte>): (r: seq<byte>)
    ensures |r| == n
    ensures forall k :: 0 <= k < n ==> r[k] == if k < |src| then src[k] else 0
  {
    seq(n, k requires 0 <= k < n => if k < |src| then src[k] else 0)
  }

  /** The offsets the first `n` point mutations overwrite (two draws each: offset, value). */
  function MutatedPositions(len: nat, src: nat -> nat, p: nat, n: nat): (ps: set<nat>)
    requires len > 0
  {
    if n == 0 then {} else MutatedPositions(len, src, p, n - 1) + {Pick(src, p + 2 * (n - 1), len)}
  }

  /** `n` single-byte overwrites of `base`, mutation `t` drawing its offset at `p + 2t`. */
  function PointMutations(base: seq<byte>, src: nat -> nat, p: nat, n: nat): (r: seq<byte>)
    requires |base| > 0
    ensures |r| == |base|
  {
    if n == 0 then base
    else
      var prev := PointMutations(base, src, p, n - 1);
      prev[Pick(src, p + 2 * (n - 1), |base|) := Pick(src, p + 2 * (n - 1) + 1, 256)]
  }

  /**
   * At most `n` offsets are touched, all inside the buffer, and every other byte keeps
   * its value from `base`.
   */
  lemma {:induction false} PointMutationsFrame(base: seq<byte>, src: nat -> nat, p: nat, n: nat)
    requires |base| > 0
    ensures var ps := MutatedPositions(|base|, src, p, n);
            && |ps| <= n
            && (forall k :: k in ps ==> k < |base|)
            && forall k :: 0 <= k < |base| && k !in ps ==> PointMutations(base, src, p, n)[k] == base[k]
  {
    if n > 0 {
      PointMutationsFrame(base, src, p, n - 1);
      var prev := MutatedPositions(|base|, src, p, n - 1);
      var k := Pick(src, p + 2 * (n - 1), |base|);
      assert MutatedPositions(|base|, src, p, n) == prev + {k};
      assert |prev + {k}| <= |prev| + 1;
    }
  }

  /**
   * The mutated copy: entry `i` gives the length, an independently drawn entry `j` the
   * content, and 1..5 point mutations follow, starting at draw `p + 3`.
   */
  function MutatedCaseGen(cases: seq<seq<byte>>, src: nat -> nat, p: nat): (g: Gen)
    requires NonEmptyCorpus(cases)
    ensures |g.input| == |cases[Pick(src, p, |cases|)]|
  {
    var i := Pick(src, p, |cases|);
    var j := Pick(src, p + 1, |cases|);
    var mutations := 1 + Pick(src, p + 2, 5);
    Gen(PointMutations(ZeroFilledCopy(|cases[i]|, cases[j]), src, p + 3, mutations), p + 3 + 2 * mutations)
  }

  /** One draw (below 75 of 100) chooses between a corpus entry as it is and a mutated copy. */
  function BaseCaseGen(cases: seq<seq<byte>>, src: nat -> nat, p: nat): Gen
    requires NonEmptyCorpus(cases)
  {
    if Pick(src, p, 100) < 75 then Gen(cases[Pick(src, p + 1, |cases|)], p + 2)
    else MutatedCaseGen(cases, src, p + 1)
  }

  /** The base case, then 0..99 random padding bytes. */
  function SpecialCasesGen(cases: seq<seq<byte>>, src: nat -> nat, p: nat): (g: Gen)
    requires NonEmptyCorpus(cases)
  {
    var b := BaseCaseGen(cases, src, p);
    var paddingLen := Pick(src, b.next, 100);
    Gen(b.input + Bytes(src, b.next + 1, paddingLen), b.next + 1 + paddingLen)
  }

  /** The input is entry `i`'s length plus 0..99 bytes, and a raw entry is copied verbatim. */
  lemma SpecialCasesShape(cases: seq<seq<byte>>, src: nat -> nat, p: nat)
    requires NonEmptyCorpus(cases)
    ensures var i := Pick(src, p + 1, |cases|);
            var input := SpecialCasesGen(cases, src, p).input;
            && |cases[i]| <= |input| < |cases[i]| + 100
            && (Pick(src, p, 100) < 75 ==> input[..|cases[i]|] == cases[i])
  {
    var i := Pick(src, p + 1, |cases|);
    var input := SpecialCasesGen(cases, src, p).input;
    if Pick(src, p, 100) < 75 {
      assert input == cases[i] + Bytes(src, p + 3, Pick(src, p + 2, 100));
      assert input[..|cases[i]|] == cases[i];
    }
  }

  /**
   * The mutated branch: the first `len(cases[i])` bytes agree with the zero-filled copy of
   * entry `j` everywhere except at most five mutated offsets, and padding follows.
   */
  lemma SpecialCasesMutatedBranch(cases: seq<seq<byte>>, src: nat -> nat, p: nat)
    requires NonEmptyCorpus(cases)
    requires Pick(src, p, 100) >= 75
    ensures var i := Pick(src, p + 1, |cases|);
            var j := Pick(src, p + 2, |cases|);
            var base := ZeroFilledCopy(|cases[i]|, cases[j]);
            var mutations := 1 + Pick(src, p + 3, 5);
            var input := SpecialCasesGen(cases, src, p).input;
            && 1 <= mutations <= 5
            && |MutatedPositions(|base|, src, p + 4, mutations)| <= 5
            && forall k :: 0 <= k < |base| && k !in MutatedPositions(|base|, src, p + 4, mutations)
                 ==> input[k] == base[k]
  {
    var i := Pick(src, p + 1, |cases|);
    var j := Pick(src, p + 2, |cases|);
    var base := ZeroFilledCopy(|cases[i]|, cases[j]);
    var mutations := 1 + Pick(src, p + 3, 5);
    var input := SpecialCasesGen(cases, src, p).input;
    var mutated := PointMutations(base, src, p + 4, mutations);
    PointMutationsFrame(base, src, p + 4, mutations);
    assert input[..|base|] == mutated;
  }

  /** With the built-in corpus: 8..108 bytes, and a raw entry starts with its tag 0x1..0x7. */
  lemma CorpusInputBounds(src: nat -> nat, p: nat)
    ensures NonEmptyCorpus(Corpus())
    ensures 8 <= |SpecialCasesGen(Corpus(), src, p).input| <= 108
    ensures Pick(src, p, 100) < 75 ==>
              SpecialCasesGen(Corpus(), src, p).input[0] == Pick(src, p + 1, 7) + 1
  {
    var c := Corpus();
    var i := Pick(src, p + 1, 7);
    SpecialCasesShape(c, src, p);
    assert |c[i]| == (if i < 2 then 8 else 9) && c[i][0] == i + 1;
    if Pick(src, p, 100) < 75 {
      var input := SpecialCasesGen(c, src, p).input;
      assert input[..|c[i]|] == c[i];
      assert input[0] == input[..|c[i]|][0];
    }
  }

  class SpecialCasesMutator {
    const rng: Rand
    const name: string
    /** The corpus; a constant, so it is never modified. */
    const cases: seq<seq<byte>>

    constructor (r: Rand)
      ensures rng == r && name == "SpecialCasesMutator" && cases == Corpus()
    {
      rng := r;
      name := "SpecialCasesMutator";
      cases := Corpus();
    }

    /** The validator is stateless; the stamp stands for the clock reading in the id. */
    function ValidateOutput(output: seq<byte>, err: Option<string>, stamp: string): (r: Option<FuzzResult>)
      ensures KindOf(r) == ErrorFirst(output, err)
      ensures r.Some? ==> Reported(r.value) && r.value.input == []
    {
      SpecialCasesValidate(output, err, stamp)
    }

    method GenerateFuzzInput() returns (input: seq<byte>)
      requires NonEmptyCorpus(cases)
      modifies rng
      ensures Gen(input, rng.pos) == SpecialCasesGen(cases, rng.source, old(rng.pos))
    {
      var baseCase := BaseCase();
      var paddingLen := rng.Intn(100);
      var padding := rng.Read(paddingLen);
      input := baseCase + padding;
    }

    /** Three times in four an entry as it is, otherwise a mutated copy. */
    method BaseCase() returns (baseCase: seq<byte>)
      requires NonEmptyCorpus(cases)
      modifies rng
      ensures Gen(baseCase, rng.pos) == BaseCaseGen(cases, rng.source, old(rng.pos))
    {
      var draw := rng.Intn(100);
      if draw < 75 {
        var i := rng.Intn(|cases|);
        baseCase := cases[i];
      } else {
        baseCase := MutatedCase();
      }
    }

    /** The mutated branch: a zero-filled copy of entry `j` sized like entry `i`, then 1..5 overwrites. */
    method MutatedCase() returns (baseCase: seq<byte>)
      requires NonEmptyCorpus(cases)
      modifies rng
      ensures Gen(baseCase, rng.pos) == MutatedCaseGen(cases, rng.source, old(rng.pos))
    {
      var i := rng.Intn(|cases|);
      var j := rng.Intn(|cases|);
      var buf := CopyOf(|cases[i]|, cases[j]);
      var n := rng.Intn(5);
      MutateInPlace(buf, 1 + n);
      baseCase := buf[..];
    }

    /** Go's `make([]byte, n)` followed by `copy(buf, entry)`. */
    static method CopyOf(n: nat, entry: seq<byte>) returns (buf: array<byte>)
      ensures fresh(buf)
      ensures buf[..] == ZeroFilledCopy(n, entry)
    {
      buf := new byte[n](_ => 0);
      forall k | 0 <= k < Min(n, |entry|) {
        buf[k] := entry[k];
      }
    }

    /** `mutations` overwrites, each drawing an offset in the buffer and then a byte value. */
    method MutateInPlace(buf: array<byte>, mutations: nat)
      requires buf.Length > 0
      modifies buf, rng
      ensures rng.pos == old(rng.pos) + 2 * mutations
      ensures buf[..] == PointMutations(old(buf[..]), rng.source, old(rng.pos), mutations)
    {
      ghost var base := buf[..];
      ghost var p0 := rng.pos;
      for t := 0 to mutations
        invariant rng.pos == p0 + 2 * t
        invariant buf[..] == PointMutations(base, rng.source, p0, t)
      {
        ghost var prev := buf[..];
        var pos := rng.Intn(buf.Length);
        var b := rng.Intn(256);
        buf[pos] := b;
        assert buf[..] == prev[pos := b];
        assert PointMutations(base, rng.source, p0, t + 1) == prev[pos := b];
      }
    }
  }

  // ---------------------------------------------------------------------------
  // Dispatch over the four strategies
  // ---------------------------------------------------------------------------

  /** `GenerateFuzzInput` of whichever mutator `k` names; `history` is the stateful mutator's. */
  function Generate(k: Strategy, src: nat -> nat, p: nat, history: seq<byte>): (g: Gen)
    ensures k == Stateful ==> |g.input| > 0 && g.input[0] < 4
  {
    match k
    case RandomTx => RandomTxGen(src, p)
    case BoundaryValue => BoundaryGen(src, p)
    case Stateful => StatefulInputShape(src, p, history); StatefulGen(src, p, history)
    case SpecialCases => CorpusInputBounds(src, p); SpecialCasesGen(Corpus(), src, p)
  }
}
