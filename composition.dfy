/**
 * The simulated Cosmos SDK target seen through the mutators' validators and the engine: which
 * verdict each input earns, and what whole runs against the target add to the summary.
 */
module Composition {
  import opened Base
  import opened Draws
  import opened Verdicts
  import opened Mutators
  import opened Cosmos
  import opened Engine

  /**
   * The verdict every validator gives `ExecuteFuzz(handlerCount, input)`: both simulated
   * errors are crashes, outcomes 0..2 give nothing, outcomes 3 and 4 the two state failures.
   */
  function ExpectedVerdict(handlerCount: nat, input: seq<byte>): Verdict
  {
    if |input| < 4 || !ValidHandler(handlerCount, input[0]) then Crash
    else
      var outcome := input[1] % 5;
      if outcome == 3 then Inconsistent
      else if outcome == 4 then ConsensusBroken
      else NoVerdict
  }

  /** The target's own error texts are none of the two the validators ignore. */
  lemma SimulatedErrorsUnexpected()
    ensures Unexpected(Some(InputTooShort))
    ensures Unexpected(Some(InvalidHandler))
  {
    assert |InputTooShort| == 15 && |InvalidHandler| == 32;
    assert |InvalidArguments| == 17 && |PermissionDenied| == 17;
  }

  /** On the target's responses, error-first and output-first classification agree. */
  lemma PoliciesAgreeOnTarget(handlerCount: nat, input: seq<byte>)
    ensures var r := ExecuteFuzz(handlerCount, input);
            ErrorFirst(r.output, r.err) == OutputFirst(r.output, r.err) == ExpectedVerdict(handlerCount, input)
  {
    var r := ExecuteFuzz(handlerCount, input);
    ExecuteFuzzCases(handlerCount, input);
    SimulatedErrorsUnexpected();
    assert |StateInconsistentOutput| == 18 && |ConsensusFailureOutput| == 17;
    if |input| >= 4 && ValidHandler(handlerCount, input[0]) {
      var o := OutcomeOf(input[1]);
      assert r == OutcomeResponse(o);
      if o == Success {
        assert |r.output| == 7;
      }
    }
  }

  /** Every mutator's validator classifies the target's response as `ExpectedVerdict` says. */
  lemma ValidatedTarget(k: Strategy, history: seq<byte>, handlerCount: nat, input: seq<byte>, stamp: string)
    ensures KindOf(Validate(k, history, ExecuteFuzz(handlerCount, input), stamp)) == ExpectedVerdict(handlerCount, input)
    ensures Policy(k, ExecuteFuzz(handlerCount, input)) == ExpectedVerdict(handlerCount, input)
  {
    PoliciesAgreeOnTarget(handlerCount, input);
  }

  /** An input shorter than four bytes always gives a failed, crashed result. */
  lemma ShortInputCrashes(k: Strategy, history: seq<byte>, handlerCount: nat, input: seq<byte>, stamp: string)
    requires |input| < 4
    ensures var r := Validate(k, history, ExecuteFuzz(handlerCount, input), stamp);
            r.Some? && r.value.failed && r.value.crashed
  {
    ValidatedTarget(k, history, handlerCount, input, stamp);
  }

  /** A round against the target counts the verdict `ExpectedVerdict` gives the generated input. */
  lemma RoundAgainstTarget(kinds: seq<Strategy>, src: nat -> nat, gen: Generator, handlerCount: nat, v: EngineView)
    requires |kinds| > 0 && EmitsOp(gen)
    ensures var k := kinds[Pick(src, v.pos, |kinds|)];
            var input := gen(k, v.pos + 1, v.history).input;
            PlayRound(kinds, src, gen, x => ExecuteFuzz(handlerCount, x), v).summary
              == Bump(v.summary, ExpectedVerdict(handlerCount, input))
  {
    var k := kinds[Pick(src, v.pos, |kinds|)];
    var input := gen(k, v.pos + 1, v.history).input;
    PoliciesAgreeOnTarget(handlerCount, input);
  }

  /** With no handlers every round is a crash: `n` rounds add `n` crashes and nothing else. */
  lemma NoHandlersEveryRoundCrashes(kinds: seq<Strategy>, src: nat -> nat, gen: Generator, v: EngineView, n: nat)
    requires |kinds| > 0 && EmitsOp(gen)
    ensures var t := Trace(kinds, src, gen, x => ExecuteFuzz(0, x), v, n).summary;
            && t.totalTests == v.summary.totalTests + n
            && t.failed == v.summary.failed + n
            && t.crashes == v.summary.crashes + n
            && t.stateInconsistencies == v.summary.stateInconsistencies
            && t.consensusFailures == v.summary.consensusFailures
  {
    var target := (x: seq<byte>) => ExecuteFuzz(0, x);
    forall x: seq<byte>
      ensures ErrorFirst(target(x).output, target(x).err) == Crash
      ensures OutputFirst(target(x).output, target(x).err) == Crash
    {
      PoliciesAgreeOnTarget(0, x);
    }
    UniformTarget(kinds, src, gen, target, v, n, Crash);
    BumpNCounts(v.summary, Crash, n);
  }
}
