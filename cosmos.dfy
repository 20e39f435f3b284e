/**
 * The simulated Cosmos SDK target. A loaded module is reduced to its number of discovered
 * message handlers; executing an input is a table lookup on its length and first two bytes.
 */
module Cosmos {
  import opened Base
  import opened Verdicts

  /** The five results the second input byte selects. */
  datatype Outcome = Success | InvalidArgs | Denied | StateInconsistent | ConsensusFailure

  const InputTooShort: string := "input too short"
  const InvalidHandler: string := "simulated error: invalid handler"

  /** `input[1] % 5`, read as an outcome. */
  function OutcomeOf(b: byte): (o: Outcome)
    ensures o == Success <==> b % 5 == 0
    ensures o == InvalidArgs <==> b % 5 == 1
    ensures o == Denied <==> b % 5 == 2
    ensures o == StateInconsistent <==> b % 5 == 3
    ensures o == ConsensusFailure <==> b % 5 == 4
  {
    var outcome := b % 5;
    if outcome == 0 then Success
    else if outcome == 1 then InvalidArgs
    else if outcome == 2 then Denied
    else if outcome == 3 then StateInconsistent
    else ConsensusFailure
  }

  /** What the target returns for each outcome. */
  function OutcomeResponse(o: Outcome): (r: Response)
    ensures r.err.None? <==> o in {Success, StateInconsistent, ConsensusFailure}
  {
    match o
    case Success => Response(Ascii("success"), None)
    case InvalidArgs => Response([], Some("invalid arguments"))
    case Denied => Response([], Some("permission denied"))
    case StateInconsistent => Response(Ascii("state_inconsistent"), None)
    case ConsensusFailure => Response(Ascii("consensus_failure"), None)
  }

  /**
   * `CosmosModule.ExecuteFuzz` for a module with `handlerCount` handlers. The first byte picks
   * a handler index in `0..handlerCount`, the last of which stands for an invalid handler.
   * The `"unknown"` fallback after the switch cannot be reached, and is not modelled.
   */
  function ExecuteFuzz(handlerCount: nat, input: seq<byte>): (r: Response)
    ensures r.err.None? <==> |r.output| > 0
  {
    if |input| < 4 then Response([], Some(InputTooShort))
    else
      var handlerIndex := input[0] % (handlerCount + 1);
      if handlerIndex == handlerCount then Response([], Some(InvalidHandler))
      else OutcomeResponse(OutcomeOf(input[1]))
  }

  /** Whether the first byte selects one of the module's handlers. */
  predicate ValidHandler(handlerCount: nat, b: byte): (r: bool)
    ensures r ==> handlerCount > 0
    ensures b < handlerCount ==> r
  {
    b % (handlerCount + 1) != handlerCount
  }

  /** The three ways `ExecuteFuzz` can end, as a partition of all inputs. */
  lemma ExecuteFuzzCases(handlerCount: nat, input: seq<byte>)
    ensures |input| < 4 ==> ExecuteFuzz(handlerCount, input) == Response([], Some(InputTooShort))
    ensures |input| >= 4 && !ValidHandler(handlerCount, input[0]) ==>
              ExecuteFuzz(handlerCount, input) == Response([], Some(InvalidHandler))
    ensures |input| >= 4 && ValidHandler(handlerCount, input[0]) ==>
              ExecuteFuzz(handlerCount, input) == OutcomeResponse(OutcomeOf(input[1]))
  {
  }

  /** The error is nil exactly for a long enough input, a valid handler and outcome 0, 3 or 4. */
  lemma ExecuteFuzzSucceeds(handlerCount: nat, input: seq<byte>)
    ensures ExecuteFuzz(handlerCount, input).err.None? <==>
              && |input| >= 4
              && ValidHandler(handlerCount, input[0])
              && input[1] % 5 in {0, 3, 4}
  {
    if |input| >= 4 && ValidHandler(handlerCount, input[0]) {
      var o := OutcomeOf(input[1]);
      assert ExecuteFuzz(handlerCount, input) == OutcomeResponse(o);
    }
  }

  /** Only the length guard and the first two bytes matter; bytes from index 2 on never do. */
  lemma ExecuteFuzzReadsHeader(handlerCount: nat, a: seq<byte>, b: seq<byte>)
    requires (|a| < 4) == (|b| < 4)
    requires |a| >= 4 ==> a[0] == b[0] && a[1] == b[1]
    ensures ExecuteFuzz(handlerCount, a) == ExecuteFuzz(handlerCount, b)
  {
  }

  /** A module without handlers errors on every input. */
  lemma NoHandlersAlwaysErrs(input: seq<byte>)
    ensures ExecuteFuzz(0, input).err.Some?
    ensures |input| >= 4 ==> ExecuteFuzz(0, input).err == Some(InvalidHandler)
  {
  }

  /** With at least one handler, every outcome is reachable from a four-byte input. */
  lemma EveryOutcomeReachable(handlerCount: nat, o: Outcome)
    requires handlerCount > 0
    ensures var b := match o
                     case Success => 0
                     case InvalidArgs => 1
                     case Denied => 2
                     case StateInconsistent => 3
                     case ConsensusFailure => 4;
            ExecuteFuzz(handlerCount, [0, b, 0, 0]) == OutcomeResponse(o)
  {
  }
}
