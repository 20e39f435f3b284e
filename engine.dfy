/**
 * The fuzzing engine: it registers the default mutators over one shared random source, and
 * each round picks a mutator, sends its input to the target, validates the response with
 * the same mutator and accounts for the verdict in the run summary.
 *
 * `PlayRound` and `Trace` say what rounds do to the engine's observable state (the stream
 * position, the stateful mutator's history and the summary); `FuzzEngine.Run` is proved to
 * follow them, and the lemmas below are about them.
 */
module Engine {
  import opened Base
  import opened Draws
  import opened Verdicts
  import opened Mutators

  /** The engine's settings; the seed is represented by the draw stream it selects. */
  datatype Config = Config(
    targetPath: string,
    moduleName: string,
    fuzzCount: int,
    seed: int,
    outputDir: string,
    verbose: bool,
    specialCases: bool)

  /** Aggregate counters of a run (Go's `FuzzSummary`). */
  datatype FuzzSummary = FuzzSummary(
    totalTests: nat,
    failed: nat,
    stateInconsistencies: nat,
    consensusFailures: nat,
    crashes: nat)

  const EmptySummary := FuzzSummary(0, 0, 0, 0, 0)

  /** `trackResult`: a failed result counts once, and once more under each flag it carries. */
  function Track(s: FuzzSummary, r: FuzzResult): (t: FuzzSummary)
    ensures t.totalTests == s.totalTests
    ensures t.failed == s.failed + Count(r.failed)
    ensures t.stateInconsistencies == s.stateInconsistencies + Count(r.failed && r.stateInconsistency)
    ensures t.consensusFailures == s.consensusFailures + Count(r.failed && r.consensusFailure)
    ensures t.crashes == s.crashes + Count(r.failed && r.crashed)
  {
    if !r.failed then s
    else
      var s1 := s.(failed := s.failed + 1);
      var s2 := if r.stateInconsistency then s1.(stateInconsistencies := s1.stateInconsistencies + 1) else s1;
      var s3 := if r.consensusFailure then s2.(consensusFailures := s2.consensusFailures + 1) else s2;
      if r.crashed then s3.(crashes := s3.crashes + 1) else s3
  }

  /** No counter of `t` is below its value in `s`. */
  predicate Monotone(s: FuzzSummary, t: FuzzSummary)
  {
    && s.totalTests <= t.totalTests
    && s.failed <= t.failed
    && s.stateInconsistencies <= t.stateInconsistencies
    && s.consensusFailures <= t.consensusFailures
    && s.crashes <= t.crashes
  }

  /** Every failure carries exactly one flag, and no more tests failed than ran. */
  predicate Consistent(s: FuzzSummary)
  {
    && s.stateInconsistencies + s.consensusFailures + s.crashes == s.failed
    && s.failed <= s.totalTests
  }

  /** The four failure counters agree. */
  predicate SameFailures(s: FuzzSummary, t: FuzzSummary)
  {
    && s.failed == t.failed
    && s.stateInconsistencies == t.stateInconsistencies
    && s.consensusFailures == t.consensusFailures
    && s.crashes == t.crashes
  }

  /** A result of the shape all four validators produce keeps the flags summing to `failed`. */
  lemma TrackKeepsFlagSum(s: FuzzSummary, r: FuzzResult)
    requires Reported(r)
    ensures var t := Track(s, r);
            t.stateInconsistencies + t.consensusFailures + t.crashes
              == s.stateInconsistencies + s.consensusFailures + s.crashes + 1
    ensures Track(s, r).failed == s.failed + 1
  {
  }

  /** The strategies `registerDefaultMutators` registers, in order. */
  function DefaultKinds(specialCases: bool): (ks: seq<Strategy>)
    ensures |ks| == if specialCases then 4 else 3
    ensures ks[..3] == [RandomTx, BoundaryValue, Stateful]
    ensures SpecialCases in ks <==> specialCases
    ensures forall i :: 0 <= i < |ks| && ks[i] == Stateful ==> i == 2
  {
    [RandomTx, BoundaryValue, Stateful] + if specialCases then [SpecialCases] else []
  }

  // ---------------------------------------------------------------------------
  // Accounting by verdict
  // ---------------------------------------------------------------------------

  /** The summary after one more test whose validator answered with `verdict`. */
  function Bump(s: FuzzSummary, verdict: Verdict): (t: FuzzSummary)
    ensures t.totalTests == s.totalTests + 1
    ensures t.failed == s.failed + Count(verdict != NoVerdict)
    ensures t.stateInconsistencies == s.stateInconsistencies + Count(verdict == Inconsistent)
    ensures t.consensusFailures == s.consensusFailures + Count(verdict == ConsensusBroken)
    ensures t.crashes == s.crashes + Count(verdict == Crash)
  {
    var counted := s.(totalTests := s.totalTests + 1);
    match verdict
    case NoVerdict => counted
    case Crash => counted.(failed := s.failed + 1, crashes := s.crashes + 1)
    case Inconsistent => counted.(failed := s.failed + 1, stateInconsistencies := s.stateInconsistencies + 1)
    case ConsensusBroken => counted.(failed := s.failed + 1, consensusFailures := s.consensusFailures + 1)
  }

  /** `n` tests that all got `verdict`. */
  function BumpN(s: FuzzSummary, verdict: Verdict, n: nat): FuzzSummary
  {
    if n == 0 then s else Bump(BumpN(s, verdict, n - 1), verdict)
  }

  /** Every counter moves by `n` or by nothing, according to the verdict. */
  lemma {:induction false} BumpNCounts(s: FuzzSummary, verdict: Verdict, n: nat)
    ensures var t := BumpN(s, verdict, n);
            && t.totalTests == s.totalTests + n
            && t.failed == s.failed + (if verdict != NoVerdict then n else 0)
            && t.stateInconsistencies == s.stateInconsistencies + (if verdict == Inconsistent then n else 0)
            && t.consensusFailures == s.consensusFailures + (if verdict == ConsensusBroken then n else 0)
            && t.crashes == s.crashes + (if verdict == Crash then n else 0)
  {
    if n > 0 {
      BumpNCounts(s, verdict, n - 1);
    }
  }

  /** A summary stays consistent and never decreases under `Bump`. */
  lemma BumpAccounting(s: FuzzSummary, verdict: Verdict)
    ensures Monotone(s, Bump(s, verdict))
    ensures Consistent(s) ==> Consistent(Bump(s, verdict))
  {
  }

  /** Tracking what a validator returned is `Bump` with that validator's policy. */
  lemma TrackValidated(k: Strategy, history: seq<byte>, response: Response, stamp: string, s: FuzzSummary)
    ensures var result := Validate(k, history, response, stamp);
            var tracked := if result.Some? then Track(s, result.value) else s;
            tracked.(totalTests := tracked.totalTests + 1) == Bump(s, Policy(k, response))
  {
    var result := Validate(k, history, response, stamp);
    if result.Some? {
      assert Reported(result.value);
    }
  }

  // ---------------------------------------------------------------------------
  // Rounds as functions of the engine's observable state
  // ---------------------------------------------------------------------------

  /** Stream position, stateful history and summary: everything a round reads or writes. */
  datatype EngineView = EngineView(pos: nat, history: seq<byte>, summary: FuzzSummary)

  /** What the mutator of a strategy generates at a stream position, given the stateful history. */
  type Generator = (Strategy, nat, seq<byte>) -> Gen

  /** The stateful mutator's inputs start with an operation byte. */
  ghost predicate EmitsOp(gen: Generator)
  {
    forall p: nat, h: seq<byte> :: |gen(Stateful, p, h).input| > 0 && gen(Stateful, p, h).input[0] < 4
  }

  /** The four mutators of this model, drawing from `src`. */
  function Generators(src: nat -> nat): (gen: Generator)
    ensures EmitsOp(gen)
    ensures forall k, p, h :: gen(k, p, h) == Generate(k, src, p, h)
  {
    (k: Strategy, p: nat, h: seq<byte>) => Generate(k, src, p, h)
  }

  /** The stateful mutator records the operation byte of its input; the others keep no history. */
  function Record(k: Strategy, history: seq<byte>, input: seq<byte>): seq<byte>
    requires k == Stateful ==> |input| > 0
  {
    if k == Stateful then Push(history, input[0]) else history
  }

  /**
   * One iteration of the loop in `Run`: draw the mutator index, generate with that mutator,
   * run the target on the input, and count the test under the verdict that mutator's policy
   * gives the response. Result ids do not enter: they never influence the counters.
   */
  function PlayRound(kinds: seq<Strategy>, src: nat -> nat, gen: Generator, target: seq<byte> -> Response,
                     v: EngineView): EngineView
    requires |kinds| > 0 && EmitsOp(gen)
  {
    var k := kinds[Pick(src, v.pos, |kinds|)];
    var g := gen(k, v.pos + 1, v.history);
    EngineView(g.next, Record(k, v.history, g.input), Bump(v.summary, Policy(k, target(g.input))))
  }

  /** `n` rounds from `v`. */
  function Trace(kinds: seq<Strategy>, src: nat -> nat, gen: Generator, target: seq<byte> -> Response,
                 v: EngineView, n: nat): EngineView
    requires |kinds| > 0 && EmitsOp(gen)
  {
    if n == 0 then v
    else PlayRound(kinds, src, gen, target, Trace(kinds, src, gen, target, v, n - 1))
  }

  /** The verdict of the round played from `u`. */
  function RoundVerdict(kinds: seq<Strategy>, src: nat -> nat, gen: Generator, target: seq<byte> -> Response,
                        u: EngineView): Verdict
    requires |kinds| > 0
  {
    var k := kinds[Pick(src, u.pos, |kinds|)];
    Policy(k, target(gen(k, u.pos + 1, u.history).input))
  }

  /** `n` rounds add exactly `n` to `TotalTests`; no counter decreases; consistency is kept. */
  lemma {:induction false} TraceAccounting(kinds: seq<Strategy>, src: nat -> nat, gen: Generator,
                                           target: seq<byte> -> Response, v: EngineView, n: nat)
    requires |kinds| > 0 && EmitsOp(gen)
    ensures var t := Trace(kinds, src, gen, target, v, n).summary;
            && t.totalTests == v.summary.totalTests + n
            && Monotone(v.summary, t)
            && (Consistent(v.summary) ==> Consistent(t))
  {
    if n > 0 {
      TraceAccounting(kinds, src, gen, target, v, n - 1);
      var u := Trace(kinds, src, gen, target, v, n - 1);
      var verdict := RoundVerdict(kinds, src, gen, target, u);
      assert Trace(kinds, src, gen, target, v, n).summary == Bump(u.summary, verdict);
      BumpAccounting(u.summary, verdict);
    }
  }

  /** The stateful history stays within the cap and holds operation bytes only. */
  lemma {:induction false} TraceHistory(kinds: seq<Strategy>, src: nat -> nat, gen: Generator,
                                        target: seq<byte> -> Response, v: EngineView, n: nat)
    requires |kinds| > 0 && EmitsOp(gen)
    requires |v.history| <= HistoryCap && AllOps(v.history)
    ensures var w := Trace(kinds, src, gen, target, v, n);
            |w.history| <= HistoryCap && AllOps(w.history)
  {
    if n > 0 {
      TraceHistory(kinds, src, gen, target, v, n - 1);
      var u := Trace(kinds, src, gen, target, v, n - 1);
      assert Trace(kinds, src, gen, target, v, n) == PlayRound(kinds, src, gen, target, u);
      RoundKeepsOps(kinds, src, gen, target, u);
    }
  }

  /** One round keeps the history within the cap and made of operation bytes. */
  lemma RoundKeepsOps(kinds: seq<Strategy>, src: nat -> nat, gen: Generator, target: seq<byte> -> Response,
                      u: EngineView)
    requires |kinds| > 0 && EmitsOp(gen)
    requires |u.history| <= HistoryCap && AllOps(u.history)
    ensures var w := PlayRound(kinds, src, gen, target, u);
            |w.history| <= HistoryCap && AllOps(w.history)
  {
    var k := kinds[Pick(src, u.pos, |kinds|)];
    var input := gen(k, u.pos + 1, u.history).input;
    if k == Stateful {
      assert |input| > 0 && input[0] < 4;
      PushKeepsOps(u.history, input[0]);
    }
  }

  /** A target whose every response gets `verdict` from both policies adds `n` such verdicts. */
  lemma {:induction false} UniformTarget(kinds: seq<Strategy>, src: nat -> nat, gen: Generator,
                                         target: seq<byte> -> Response, v: EngineView, n: nat, verdict: Verdict)
    requires |kinds| > 0 && EmitsOp(gen)
    requires forall x :: ErrorFirst(target(x).output, target(x).err) == verdict
    requires forall x :: OutputFirst(target(x).output, target(x).err) == verdict
    ensures Trace(kinds, src, gen, target, v, n).summary == BumpN(v.summary, verdict, n)
  {
    if n > 0 {
      UniformTarget(kinds, src, gen, target, v, n - 1, verdict);
      var u := Trace(kinds, src, gen, target, v, n - 1);
      var k := kinds[Pick(src, u.pos, |kinds|)];
      var input := gen(k, u.pos + 1, u.history).input;
      assert Policy(k, target(input)) == verdict;
      assert Trace(kinds, src, gen, target, v, n).summary == Bump(u.summary, verdict);
    }
  }

  /** A response no validator reports: no unexpected error and no flagged output. */
  predicate Quiet(response: Response)
  {
    !Unexpected(response.err) && !SaysInconsistent(response.output) && !SaysConsensusFailure(response.output)
  }

  lemma SuccessIsQuiet()
    ensures Quiet(Response(Ascii("success"), None))
    ensures Quiet(Response([], None))
  {
    var success := Ascii("success");
    assert |success| == 7;
    assert success != StateInconsistentOutput && success != ConsensusFailureOutput;
  }

  /** Against a target that only ever answers quietly (such as `("success", nil)`), nothing fails. */
  lemma QuietTargetNoFailures(kinds: seq<Strategy>, src: nat -> nat, gen: Generator,
                              target: seq<byte> -> Response, v: EngineView, n: nat)
    requires |kinds| > 0 && EmitsOp(gen)
    requires forall x :: Quiet(target(x))
    ensures var t := Trace(kinds, src, gen, target, v, n).summary;
            SameFailures(v.summary, t) && t.totalTests == v.summary.totalTests + n
  {
    UniformTarget(kinds, src, gen, target, v, n, NoVerdict);
    BumpNCounts(v.summary, NoVerdict, n);
  }

  /** Against a target that always answers `("state_inconsistent", nil)`, every round is one such failure. */
  lemma InconsistentTargetCountsRounds(kinds: seq<Strategy>, src: nat -> nat, gen: Generator,
                                       target: seq<byte> -> Response, v: EngineView, n: nat)
    requires |kinds| > 0 && EmitsOp(gen)
    requires forall x :: target(x) == Response(StateInconsistentOutput, None)
    ensures var t := Trace(kinds, src, gen, target, v, n).summary;
            && t.failed == v.summary.failed + n
            && t.stateInconsistencies == v.summary.stateInconsistencies + n
            && t.consensusFailures == v.summary.consensusFailures
            && t.crashes == v.summary.crashes
  {
    UniformTarget(kinds, src, gen, target, v, n, Inconsistent);
    BumpNCounts(v.summary, Inconsistent, n);
  }

  /** A round with the model's own mutators plays what `Generate` built at the drawn strategy. */
  lemma RoundOfGenerated(kinds: seq<Strategy>, src: nat -> nat, target: seq<byte> -> Response,
                         p: nat, h: seq<byte>, s: FuzzSummary, index: nat, g: Gen, history: seq<byte>,
                         summary: FuzzSummary)
    requires index < |kinds| && index == Pick(src, p, |kinds|)
    requires g == Generate(kinds[index], src, p + 1, h)
    requires history == Record(kinds[index], h, g.input)
    requires summary == Bump(s, Policy(kinds[index], target(g.input)))
    ensures PlayRound(kinds, src, Generators(src), target, EngineView(p, h, s)) == EngineView(g.next, history, summary)
  {
    var gen := Generators(src);
    assert gen(kinds[index], p + 1, h) == g;
  }

  // ---------------------------------------------------------------------------
  // The engine object
  // ---------------------------------------------------------------------------

  /** The mutators behind the engine's `[]StateMutator`, one constructor per implementation. */
  datatype StateMutator =
    | RandomTxM(randomTx: RandomTxMutator)
    | BoundaryValueM(boundary: BoundaryValueMutator)
    | StatefulM(stateful: StatefulMutator)
    | SpecialCasesM(special: SpecialCasesMutator)

  function StrategyOf(m: StateMutator): Strategy
  {
    match m
    case RandomTxM(_) => RandomTx
    case BoundaryValueM(_) => BoundaryValue
    case StatefulM(_) => Stateful
    case SpecialCasesM(_) => SpecialCases
  }

  /** `Name()` of the interface. */
  function Name(m: StateMutator): string
  {
    match m
    case RandomTxM(x) => x.name
    case BoundaryValueM(x) => x.name
    case StatefulM(x) => x.name
    case SpecialCasesM(x) => x.name
  }

  /** The mutator draws from `rng`, and a special-cases mutator holds the built-in corpus. */
  predicate Wired(m: StateMutator, rng: Rand)
  {
    match m
    case RandomTxM(x) => x.rng == rng
    case BoundaryValueM(x) => x.rng == rng
    case StatefulM(x) => x.rng == rng
    case SpecialCasesM(x) => x.rng == rng && x.cases == Corpus()
  }

  /** `ms` are the default mutators, in `registerDefaultMutators`' order, all drawing from `rng`. */
  predicate Registers(ms: seq<StateMutator>, rng: Rand, specialCases: bool)
  {
    && |ms| == |DefaultKinds(specialCases)|
    && forall i :: 0 <= i < |ms| ==> StrategyOf(ms[i]) == DefaultKinds(specialCases)[i] && Wired(ms[i], rng)
  }

  /** Checking `Registers` entry by entry. */
  lemma RegistersAll(ms: seq<StateMutator>, rng: Rand, specialCases: bool)
    requires |ms| == |DefaultKinds(specialCases)|
    requires forall i :: 0 <= i < |ms| ==> Wired(ms[i], rng)
    requires |ms| > 2 && ms[0].RandomTxM? && ms[1].BoundaryValueM? && ms[2].StatefulM?
    requires |ms| > 3 ==> ms[3].SpecialCasesM?
    ensures Registers(ms, rng, specialCases)
  {
  }

  class FuzzEngine {
    const config: Config
    const rng: Rand
    var mutators: seq<StateMutator>
    var summary: FuzzSummary
    /** The registered stateful mutator, the only mutator with state of its own. */
    ghost var stateful: StatefulMutator

    ghost predicate Valid()
      reads this, stateful
    {
      && Registers(mutators, rng, config.specialCases)
      && mutators[2] == StatefulM(stateful)
      && stateful.Valid()
    }

    ghost function View(): EngineView
      reads this, rng, stateful
    {
      EngineView(rng.pos, stateful.currentState, summary)
    }

    /** `NewFuzzerEngine` with the draw stream the seed selects. */
    constructor (config: Config, source: nat -> nat)
      ensures Valid()
      ensures this.config == config && rng.source == source && fresh(rng) && fresh(stateful)
      ensures View() == EngineView(0, [], EmptySummary)
    {
      this.config := config;
      var r := new Rand(source);
      rng := r;
      var registered: seq<StateMutator>;
      ghost var s: StatefulMutator;
      registered, s := RegisterDefaultMutators(r, config.specialCases, []);
      mutators := registered;
      stateful := s;
      summary := EmptySummary;
    }

    /**
     * `registerDefaultMutators`: appends the random, boundary and stateful mutators to
     * `mutators`, then the special cases one if enabled, all drawing from `rng`.
     */
    static method RegisterDefaultMutators(rng: Rand, specialCases: bool, mutators: seq<StateMutator>)
      returns (registered: seq<StateMutator>, ghost stateful: StatefulMutator)
      ensures fresh(stateful) && stateful.Valid() && stateful.currentState == []
      ensures |mutators| <= |registered| && registered[..|mutators|] == mutators
      ensures Registers(registered[|mutators|..], rng, specialCases)
      ensures registered[|mutators|..][2] == StatefulM(stateful)
    {
      registered := mutators;
      var r := new RandomTxMutator(rng);
      registered := registered + [RandomTxM(r)];
      var b := new BoundaryValueMutator(rng);
      registered := registered + [BoundaryValueM(b)];
      var s := new StatefulMutator(rng);
      registered := registered + [StatefulM(s)];
      stateful := s;
      ghost var added := [RandomTxM(r), BoundaryValueM(b), StatefulM(s)];
      if specialCases {
        var c := new SpecialCasesMutator(rng);
        registered := registered + [SpecialCasesM(c)];
        added := added + [SpecialCasesM(c)];
      }
      assert registered == mutators + added;
      assert registered[|mutators|..] == added;
      RegistersAll(added, rng, specialCases);
    }

    /**
     * Runs `config.fuzzCount` rounds against `target`, round `i` stamping its verdict with
     * `clock(i)`; the summary is never reset.
     */
    method Run(target: seq<byte> -> Response, clock: nat -> string) returns (s: FuzzSummary)
      requires Valid()
      modifies this, rng, stateful
      ensures Valid() && mutators == old(mutators) && stateful == old(stateful)
      ensures View() == Trace(DefaultKinds(config.specialCases), rng.source, Generators(rng.source), target,
                              old(View()), Max(config.fuzzCount, 0))
      ensures s == summary
      ensures s.totalTests == old(summary.totalTests) + Max(config.fuzzCount, 0)
      ensures Monotone(old(summary), s) && (Consistent(old(summary)) ==> Consistent(s))
    {
      ghost var v0 := View();
      ghost var kinds, gen := DefaultKinds(config.specialCases), Generators(rng.source);
      var i := 0;
      while i < config.fuzzCount
        invariant 0 <= i <= Max(config.fuzzCount, 0)
        invariant Valid() && mutators == old(mutators) && stateful == old(stateful)
        invariant View() == Trace(kinds, rng.source, gen, target, v0, i)
      {
        ghost var before := View();
        Round(target, clock(i));
        assert Trace(kinds, rng.source, gen, target, v0, i + 1) == PlayRound(kinds, rng.source, gen, target, before);
        i := i + 1;
      }
      assert i == Max(config.fuzzCount, 0) && v0 == old(View());
      TraceAccounting(kinds, rng.source, gen, target, v0, i);
      s := summary;
    }

    /** One iteration of the loop in `Run`. */
    method Round(target: seq<byte> -> Response, stamp: string)
      requires Valid()
      modifies this, rng, stateful
      ensures Valid() && mutators == old(mutators) && stateful == old(stateful)
      ensures View() == PlayRound(DefaultKinds(config.specialCases), rng.source, Generators(rng.source), target,
                                  old(View()))
    {
      var index, input := Draw();
      ghost var g, history := Gen(input, rng.pos), stateful.currentState;
      var response := target(input);
      Account(index, response, stamp);
      RoundOfGenerated(DefaultKinds(config.specialCases), rng.source, target, old(rng.pos), old(stateful.currentState),
                       old(summary), index, g, history, summary);
    }

    /** The first half of a round: pick a mutator and let it generate. */
    method Draw() returns (index: nat, input: seq<byte>)
      requires Valid()
      modifies rng, stateful
      ensures Valid()
      ensures var kinds := DefaultKinds(config.specialCases);
              && index < |kinds|
              && index == Pick(rng.source, old(rng.pos), |kinds|)
              && Gen(input, rng.pos) == Generate(kinds[index], rng.source, old(rng.pos) + 1, old(stateful.currentState))
              && (kinds[index] == Stateful ==> |input| > 0)
              && stateful.currentState == Record(kinds[index], old(stateful.currentState), input)
    {
      ghost var p0, h0 := rng.pos, stateful.currentState;
      index := rng.Intn(|mutators|);
      assert rng.pos == p0 + 1 && stateful.currentState == h0;
      input := GenerateWith(index, p0 + 1, h0);
    }

    /** The second half: validate with the same mutator, track the verdict, count the test. */
    method Account(index: nat, response: Response, stamp: string)
      requires Valid() && index < |mutators|
      modifies this
      ensures Valid() && mutators == old(mutators) && stateful == old(stateful)
      ensures summary == Bump(old(summary), Policy(DefaultKinds(config.specialCases)[index], response))
    {
      var result := ValidateWith(index, response, stamp);
      if result.Some? {
        TrackResult(result.value);
      }
      summary := summary.(totalTests := summary.totalTests + 1);
      TrackValidated(DefaultKinds(config.specialCases)[index], stateful.currentState, response, stamp, old(summary));
    }

    /** `mutators[index].GenerateFuzzInput()`. */
    method GenerateWith(index: nat, ghost p: nat, ghost history: seq<byte>) returns (input: seq<byte>)
      requires Valid() && index < |mutators|
      requires rng.pos == p && stateful.currentState == history
      modifies rng, stateful
      ensures Valid()
      ensures var k := DefaultKinds(config.specialCases)[index];
              && Gen(input, rng.pos) == Generate(k, rng.source, p, history)
              && (k == Stateful ==> |input| > 0)
              && stateful.currentState == Record(k, history, input)
    {
      assert Wired(mutators[index], rng);
      match mutators[index]
      case RandomTxM(x) =>
        input := x.GenerateFuzzInput();
      case BoundaryValueM(x) =>
        input := x.GenerateFuzzInput();
      case StatefulM(x) =>
        input := x.GenerateFuzzInput();
      case SpecialCasesM(x) =>
        CorpusInputBounds(rng.source, rng.pos);
        input := x.GenerateFuzzInput();
    }

    /** `mutators[index].ValidateOutput(output, err)`. */
    function ValidateWith(index: nat, response: Response, stamp: string): (r: Option<FuzzResult>)
      requires Valid() && index < |mutators|
      reads this, stateful
      ensures r == Validate(DefaultKinds(config.specialCases)[index], stateful.currentState, response, stamp)
    {
      match mutators[index]
      case RandomTxM(x) => x.ValidateOutput(response.output, response.err, stamp)
      case BoundaryValueM(x) => x.ValidateOutput(response.output, response.err, stamp)
      case StatefulM(x) => x.ValidateOutput(response.output, response.err, stamp)
      case SpecialCasesM(x) => x.ValidateOutput(response.output, response.err, stamp)
    }

    /** `trackResult`; saving the failure to a file is left out. */
    method TrackResult(result: FuzzResult)
      modifies this
      ensures summary == Track(old(summary), result)
      ensures mutators == old(mutators) && stateful == old(stateful)
    {
      if result.failed {
        summary := summary.(failed := summary.failed + 1);
        if result.stateInconsistency {
          summary := summary.(stateInconsistencies := summary.stateInconsistencies + 1);
        }
        if result.consensusFailure {
          summary := summary.(consensusFailures := summary.consensusFailures + 1);
        }
        if result.crashed {
          summary := summary.(crashes := summary.crashes + 1);
        }
      }
    }
  }
}
