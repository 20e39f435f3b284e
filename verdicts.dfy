/** The shapes a round produces: the target's response and the validators' verdict record. */
module Verdicts {
  import opened Base

  /** What a target returns for one input: `(output []byte, err error)`; a nil output is empty. */
  datatype Response = Response(output: seq<byte>, err: Option<string>)

  /** One noteworthy round (Go's `FuzzResult`); fields a validator leaves unset are zero. */
  datatype FuzzResult = FuzzResult(
    id: string,
    input: seq<byte>,
    errorMessage: string,
    failed: bool,
    stateInconsistency: bool,
    consensusFailure: bool,
    crashed: bool)

  /** The classification a validator's answer carries. */
  datatype Verdict = NoVerdict | Crash | Inconsistent | ConsensusBroken

  function Count(b: bool): nat
  {
    if b then 1 else 0
  }

  /** Exactly one of the three specific flags is set. */
  predicate OneFlag(r: FuzzResult)
  {
    Count(r.stateInconsistency) + Count(r.consensusFailure) + Count(r.crashed) == 1
  }

  /** The shape every verdict of the four mutators has. */
  predicate Reported(r: FuzzResult)
  {
    r.failed && OneFlag(r)
  }

  /** The classification of a validator's answer, read off its flags. */
  function KindOf(r: Option<FuzzResult>): Verdict
  {
    match r
    case None => NoVerdict
    case Some(v) =>
      if v.crashed then Crash
      else if v.stateInconsistency then Inconsistent
      else if v.consensusFailure then ConsensusBroken
      else NoVerdict
  }
}
