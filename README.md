# StateStinger in Dafny

StateStinger is a fuzzer for Cosmos SDK modules. A `FuzzEngine` registers mutation strategies that all share one
seeded random source. Each round it:

- picks a strategy at random;
- lets that strategy generate a byte input;
- runs the input against the target module;
- asks the same strategy to validate the `(output, err)` response;
- counts the verdict in a `FuzzSummary`.

This project models that core and proves properties about it.

- **The random source** (`draws.dfy`, module `Draws`). A seeded `*rand.Rand` is an infinite stream of draws plus a
  position. `Intn(n)` consumes one draw, reduced modulo `n`. `Read` of `k` bytes consumes `k` draws. The generator's
  algorithm itself is a parameter (`source`). So equal seeds give equal runs by construction.
- **The four mutators** (`mutators.dfy`, module `Mutators`). Each mutator is a class with its `rng` and `name`.
  - `GenerateFuzzInput` is a method. Its contract ties its result and the new stream position to a function of the
    stream: `RandomTxGen`, `BoundaryGen`, `StatefulGen` and `SpecialCasesGen`. Lemmas about those functions state the
    promised shapes.
  - The stateful mutator updates its `currentState` history field in place, capped at 64 bytes.
  - The special-cases mutator copies a corpus entry into a fresh array and overwrites bytes of it in a loop.
  - The validators are stateless functions, one decision table each, sharing the exact error and output strings.
- **Little-endian encoding** (`encoding.dfy`, module `Encoding`): `binary.LittleEndian.PutUint64`, as the boundary
  mutator uses it.
- **Verdict shapes** (`verdicts.dfy`, module `Verdicts`): `FuzzResult`, a target `Response`, and the classification
  a result carries.
- **The engine** (`engine.dfy`, module `Engine`).
  - `FuzzSummary` accounting: `trackResult` is `Track`. `Bump` counts one test under a verdict.
  - Rounds are the functions `PlayRound` and `Trace` over the observable state: stream position, stateful history and
    summary.
  - The class `FuzzEngine` has `Run`, one round at a time. It is proved to follow `Trace`.
  - Lemmas about `Trace` give the run-level properties:
    - `TotalTests` grows by exactly the iteration count;
    - no counter ever decreases;
    - flag counters sum to `Failed`;
    - the history stays bounded.
- **The simulated Cosmos target** (`cosmos.dfy`, module `Cosmos`). `ExecuteFuzz` runs on a module with
  `len(Handlers)` handlers. It is a pure table over the input's length and first two bytes.
- **Target and validators together** (`composition.dfy`, module `Composition`):
  - the verdict every validator gives each target response;
  - what whole runs against the target count.

Behaviours of the code worth knowing (the model follows the code in each):

- A random transaction has at most 4095 bytes, since `16 + Intn(4080)` (engine/mutators.go:35). The comment at
  engine/mutators.go:34 and the bound at test/test.go:25 say 4096, which is looser.
- The stateful validator looks at the output before the error (engine/mutators.go:222-242). So an unexpected error
  that comes with a `"state_inconsistent"` output is reported as an inconsistency, not a crash.
- The mutated special case takes its length from one drawn corpus entry and its content from a second, independent
  draw: the two separate `Intn` calls at engine/mutators.go:307-308.
- The stateful mutator records the operation byte in its history when it generates (engine/mutators.go:211-215).
  The validator then reports that updated history as the result's input (engine/mutators.go:229).

## Model

| member | source | states |
|---|---|---|
| Draws.Rand.constructor | engine/fuzzer.go:60 | a new source starts at position 0 of the stream the seed selects |
| Draws.Pick | engine/fuzzer.go:108 | `Intn(n)` at position p as a value: always below n; `Draws.Rand.Intn` is proved to return it |
| Draws.Bytes | engine/mutators.go:39-40 | a `Read` into k bytes as a value: exactly k bytes; `Draws.Rand.Read` is proved to return it |
| Draws.Rand.Intn | engine/fuzzer.go:108 | the result is in [0, n), is the next draw reduced modulo n, and exactly one draw is consumed |
| Draws.Rand.Read | engine/mutators.go:40 | exactly k bytes, the next k draws each reduced to a byte, and k draws consumed |
| Encoding.PutUint64 | engine/mutators.go:110-111 | the length is unchanged, the eight bytes at the offset are the little-endian encoding of the value, every other byte is kept |
| Encoding.LittleEndian | engine/mutators.go:110-120 | the n-byte little-endian encoding has exactly n bytes; `DecodeEncode` and `EncodeDecode` make it the inverse of decoding |
| Encoding.DecodeEncode | engine/mutators.go:110-120 | decoding the n-byte little-endian encoding of any value below 256^n gives that value back |
| Encoding.EncodeDecode | engine/mutators.go:110-120 | re-encoding the value of any byte string at its own length gives the string back |
| Encoding.MaxUint64Bytes | engine/mutators.go:110-111 | 0xFFFFFFFFFFFFFFFF encodes as eight 0xFF bytes |
| Encoding.MinInt64Bytes | engine/mutators.go:120 | 0x8000000000000000 encodes as seven zero bytes followed by 0x80 |
| Mutators.PoliciesDiffer | engine/mutators.go:220-253 | the stateful precedence (output first) and the others' (error first) disagree exactly when an unexpected error comes with a flagged output |
| Mutators.ErrorFirst | engine/mutators.go:58-77 | the error-first precedence: the verdict is a crash exactly when the error is unexpected; `PoliciesDiffer` gives where it departs from output-first |
| Mutators.OutputFirst | engine/mutators.go:222-242 | the output-first precedence: the verdict is an inconsistency exactly when the output says "state_inconsistent"; `PoliciesDiffer` gives where it departs from error-first |
| Mutators.Policy | engine/fuzzer.go:117 | the precedence of the mutator of a strategy, output-first for the stateful one only; `Validate` is proved to follow it and `PoliciesDiffer` says where the two disagree |
| Mutators.RandomTxValidate | engine/mutators.go:45-78 | the verdict is error-first; every result is failed with exactly one flag, id prefix "random_tx_" and no input; a crash carries the error text |
| Mutators.BoundaryValueValidate | engine/mutators.go:131-163 | the verdict is error-first; every result is failed with exactly one flag and id prefix "boundary_"; a crash carries the error text |
| Mutators.StatefulValidate | engine/mutators.go:220-253 | the verdict is output-first; every result is failed with exactly one flag, id prefix "stateful_" and the current history as its input; a crash message wraps the error text |
| Mutators.SpecialCasesValidate | engine/mutators.go:326-359 | the verdict is error-first; every result is failed with exactly one flag and id prefix "special_"; a crash message wraps the error text |
| Mutators.Validate | engine/fuzzer.go:117 | every non-nil result of any of the four validators is failed with exactly one flag; the verdict follows that mutator's precedence; only the stateful one attaches an input, the history |
| Mutators.ValidatorLaws | engine/mutators.go:45-359 | for every mutator: ("success", nil) and (nil, nil) give nil; "state_inconsistent" and "consensus_failure" without error give those verdicts; a non-benign error is a crash unless it is the stateful mutator and the output is flagged; a benign error is ignored |
| Mutators.RandomTxGen | engine/mutators.go:36-40 | the length is in [16, 4095] and the bytes are the draws right after the length draw |
| Mutators.RandomTxMutator.constructor | engine/mutators.go:25-32 | the mutator keeps the given source and is named "RandomTxMutator" |
| Mutators.RandomTxMutator.ValidateOutput | engine/mutators.go:45-78 | the verdict is error-first and every result is failed with exactly one flag and no input, as `RandomTxValidate` states in full |
| Mutators.RandomTxMutator.GenerateFuzzInput | engine/mutators.go:34-43 | the input and the new position are what `RandomTxGen` gives at the old position, so 16..4095 bytes |
| Mutators.BoundaryGen | engine/mutators.go:94-129 | the input has the shape the first draw selects: empty, one byte, 16 bytes of 0xFF, 16..115 zeros, the 16-byte little-endian -2^63, or 1..5 MiB |
| Mutators.ShapeUnique | engine/mutators.go:100-125 | an input of a given shape is classified as that shape, so no two shapes overlap |
| Mutators.BoundaryExactlyOneShape | engine/mutators.go:96-125 | a boundary input has shape c if and only if c is the drawn case |
| Mutators.TestClassifiesShape | test/test.go:61-77 | the test's case switch names the shape of any input of a known shape, except that an all-zero large buffer reads as case 3 |
| Mutators.TestClassifiesBoundary | test/test.go:61-77 | every boundary input is accepted by the test's switch, as the drawn case or, for an all-zero large buffer, case 3 |
| Mutators.TestCaseType | test/test.go:61-77 | the case number is -1 or 0..5, and 0 exactly for the empty input; `TestClassifiesShape` and `TestClassifiesBoundary` state which case each shape gets |
| Mutators.AllZeros | test/test.go:91-98 | the test's all-zero check; `TestClassifiesShape` states it is what makes a large zero buffer read as case 3 |
| Mutators.BoundaryValueMutator.constructor | engine/mutators.go:85-92 | the mutator keeps the given source and is named "BoundaryValueMutator" |
| Mutators.BoundaryValueMutator.ValidateOutput | engine/mutators.go:131-163 | the verdict is error-first and every result is failed with exactly one flag and no input, as `BoundaryValueValidate` states in full |
| Mutators.BoundaryValueMutator.GenerateFuzzInput | engine/mutators.go:94-129 | the input and the new position are what `BoundaryGen` gives at the old position, and the input has the drawn shape |
| Mutators.StatefulGen | engine/mutators.go:181-206 | the stateful input as a function of the stream and history; its shape is stated by `StatefulInputShape` |
| Mutators.StatefulInputShape | engine/mutators.go:184-206 | the input is the operation byte (the first draw, in 0..3), four header bytes, the whole old history, then 8..99 draws; the length is the history's plus 13..104 |
| Mutators.Push | engine/mutators.go:211-215 | the new history has min(old length + 1, 64) bytes and is the newest end of the old history followed by the byte |
| Mutators.PushWindow | engine/mutators.go:211-215 | pushing onto the newest 64 elements of a sequence gives the newest 64 of the extended sequence |
| Mutators.ReplayIsWindow | engine/mutators.go:211-215 | the history after any sequence of generated inputs is the newest (at most 64) of their operation bytes |
| Mutators.HistoryFacts | engine/mutators.go:211-215 | after n inputs the history has min(n, 64) bytes, its last byte is the newest operation, and all its bytes are in 0..3 |
| Mutators.AllOpsAppend | engine/mutators.go:211 | appending an operation byte keeps every byte an operation byte |
| Mutators.PushKeepsOps | engine/mutators.go:211-215 | pushing an operation byte keeps every history byte in 0..3 |
| Mutators.StatefulMutator.constructor | engine/mutators.go:171-179 | the mutator keeps the given source, is named "StatefulMutator", and starts with an empty history |
| Mutators.StatefulMutator.GenerateFuzzInput | engine/mutators.go:181-218 | the input and the new position are what `StatefulGen` gives for the old history, and the new history is the old one with the operation byte pushed |
| Mutators.StatefulMutator.BuildInput | engine/mutators.go:184-206 | the successive appends build exactly `StatefulGen`'s input and advance the stream to its end |
| Mutators.StatefulMutator.RecordOperation | engine/mutators.go:211-215 | the append-then-reslice leaves `Push` of the old history, and keeps it the window of all operations emitted |
| Mutators.StatefulMutator.ValidateOutput | engine/mutators.go:220-253 | the verdict is output-first and every result is failed with exactly one flag and carries the current history, as `StatefulValidate` states in full |
| Mutators.Corpus | engine/mutators.go:264-285 | seven entries, of lengths 8, 8, 9, 9, 9, 9, 9, whose first bytes are 0x1..0x7 |
| Mutators.ZeroFilledCopy | engine/mutators.go:307-308 | n bytes: the source's bytes where it has them, zero beyond |
| Mutators.PointMutations | engine/mutators.go:311-315 | the overwrites never change the buffer's length |
| Mutators.PointMutationsFrame | engine/mutators.go:311-315 | at most n distinct offsets are overwritten, all inside the buffer, and every other byte is unchanged |
| Mutators.MutatedCaseGen | engine/mutators.go:306-315 | the mutated copy is as long as the entry the first index draw picks |
| Mutators.BaseCaseGen | engine/mutators.go:299-316 | the raw-or-mutated base case as a function of the stream; its length and, in the raw branch, its prefix are stated by `SpecialCasesShape`, its mutated bytes by `SpecialCasesMutatedBranch` |
| Mutators.SpecialCasesGen | engine/mutators.go:297-324 | the padded special case as a function of the stream; its shape is stated by `SpecialCasesShape`, `SpecialCasesMutatedBranch` and `CorpusInputBounds` |
| Mutators.SpecialCasesShape | engine/mutators.go:299-323 | the input is the chosen entry's length plus 0..99 padding bytes, and in the raw branch it starts with that entry verbatim |
| Mutators.SpecialCasesMutatedBranch | engine/mutators.go:305-323 | in the mutated branch 1..5 mutations touch at most five offsets, and every other byte of the copy is the zero-filled copy of the second drawn entry |
| Mutators.CorpusInputBounds | engine/mutators.go:264-323 | with the built-in corpus every input has 8..108 bytes, and a raw one starts with its entry's tag |
| Mutators.SpecialCasesMutator.constructor | engine/mutators.go:262-295 | the mutator keeps the given source, is named "SpecialCasesMutator", and holds the corpus |
| Mutators.SpecialCasesMutator.ValidateOutput | engine/mutators.go:326-359 | the verdict is error-first and every result is failed with exactly one flag and no input, as `SpecialCasesValidate` states in full |
| Mutators.SpecialCasesMutator.GenerateFuzzInput | engine/mutators.go:297-324 | the input and the new position are what `SpecialCasesGen` gives at the old position |
| Mutators.SpecialCasesMutator.BaseCase | engine/mutators.go:299-316 | the choice between a raw entry and a mutated copy consumes and builds exactly what `BaseCaseGen` says |
| Mutators.SpecialCasesMutator.MutatedCase | engine/mutators.go:306-315 | the copy-then-overwrite steps build `MutatedCaseGen`'s buffer and consume its draws |
| Mutators.SpecialCasesMutator.CopyOf | engine/mutators.go:307-308 | a fresh array holding the zero-filled copy |
| Mutators.SpecialCasesMutator.MutateInPlace | engine/mutators.go:311-315 | the loop leaves the array equal to `PointMutations` of its old contents and consumes two draws per mutation |
| Mutators.Generate | engine/fuzzer.go:111 | a stateful input is never empty and starts with an operation byte |
| Cosmos.OutcomeOf | utils/target/cosmossdk/cosmos.go:135-153 | each of the five outcomes is selected exactly by its residue of the second byte modulo 5 |
| Cosmos.OutcomeResponse | utils/target/cosmossdk/cosmos.go:137-153 | the error is nil exactly for success, state inconsistency and consensus failure |
| Cosmos.ExecuteFuzz | utils/target/cosmossdk/cosmos.go:117-156 | on every path exactly one of the output and the error is non-empty |
| Cosmos.ValidHandler | utils/target/cosmossdk/cosmos.go:127-130 | the handler check: never met with no handlers, always met by a byte below the handler count; `ExecuteFuzzCases` and `ExecuteFuzzSucceeds` state its effect |
| Cosmos.ExecuteFuzzCases | utils/target/cosmossdk/cosmos.go:122-153 | a short input gives "input too short", the last handler index gives "simulated error: invalid handler", and otherwise the outcome table answers |
| Cosmos.ExecuteFuzzSucceeds | utils/target/cosmossdk/cosmos.go:122-153 | the error is nil if and only if the input has 4+ bytes, selects a real handler, and its second byte is 0, 3 or 4 modulo 5 |
| Cosmos.ExecuteFuzzReadsHeader | utils/target/cosmossdk/cosmos.go:122-135 | two inputs on the same side of the length guard with equal first two bytes get equal responses |
| Cosmos.NoHandlersAlwaysErrs | utils/target/cosmossdk/cosmos.go:127-132 | with no handlers every input errors, and every long enough one with the invalid-handler error |
| Cosmos.EveryOutcomeReachable | utils/target/cosmossdk/cosmos.go:135-153 | with at least one handler each outcome is produced by some four-byte input |
| Engine.Track | engine/fuzzer.go:131-146 | a failed result adds one to `Failed` and one to each counter whose flag is set; an unfailed one changes nothing; `TotalTests` never changes |
| Engine.TrackKeepsFlagSum | engine/fuzzer.go:131-146 | tracking a validator's result adds one to `Failed` and one to the sum of the flag counters |
| Engine.DefaultKinds | engine/fuzzer.go:78-85 | random, boundary and stateful in that order, then special cases if and only if enabled; stateful only at index 2 |
| Engine.Bump | engine/fuzzer.go:117-124 | one more test, plus one to `Failed` and to the matching counter for a verdict |
| Engine.BumpNCounts | engine/fuzzer.go:102-125 | n tests of one verdict move the total and that verdict's counters by exactly n and the rest by nothing |
| Engine.BumpAccounting | engine/fuzzer.go:120-124 | a round never decreases a counter and keeps flag counters summing to `Failed` with `Failed` at most `TotalTests` |
| Engine.TrackValidated | engine/fuzzer.go:117-124 | validating, tracking a non-nil result and counting the test is `Bump` with that mutator's verdict |
| Engine.Generators | engine/fuzzer.go:111 | the model's generator dispatch, whose stateful inputs start with an operation byte |
| Engine.Record | engine/mutators.go:211-215 | the history after one generated input: only the stateful mutator `Push`es its operation byte; `RoundKeepsOps` and `TraceHistory` state that it stays bounded and made of operation bytes |
| Engine.PlayRound | engine/fuzzer.go:107-124 | one round as a function of the observable state; `RoundOfGenerated` states it plays the drawn mutator's input and counts its verdict, `BumpAccounting` and `RoundKeepsOps` what it preserves |
| Engine.Trace | engine/fuzzer.go:102-125 | n rounds; `TraceAccounting` and `TraceHistory` state what they add and preserve |
| Engine.TraceAccounting | engine/fuzzer.go:102-125 | n rounds add exactly n to `TotalTests`, decrease no counter, and keep a consistent summary consistent |
| Engine.TraceHistory | engine/fuzzer.go:102-125 | across any number of rounds the stateful history stays at most 64 bytes, all operation bytes |
| Engine.RoundKeepsOps | engine/fuzzer.go:107-111 | one round keeps the history bounded and made of operation bytes |
| Engine.UniformTarget | engine/fuzzer.go:102-125 | a target that every policy classifies the same way adds n tests of that verdict |
| Engine.SuccessIsQuiet | engine/mutators.go:58-77 | ("success", nil) and (nil, nil) are responses no validator reports |
| Engine.QuietTargetNoFailures | engine/fuzzer.go:114-124 | against a target that only answers quietly, such as ("success", nil), n rounds change no failure counter and add n tests |
| Engine.InconsistentTargetCountsRounds | engine/fuzzer.go:114-124 | against a target always answering "state_inconsistent", every round is one failure and one inconsistency |
| Engine.RoundOfGenerated | engine/fuzzer.go:107-124 | a round with the model's own mutators plays what the drawn mutator generated and counts that mutator's verdict |
| Engine.RegistersAll | engine/fuzzer.go:78-85 | entries in the registration order that all draw from the engine's source are the default registration |
| Engine.Name | engine/mutators.go:16-18 | the embedded `Name()` of each mutator; the four constructors state the names it returns |
| Engine.FuzzEngine.constructor | engine/fuzzer.go:52-75 | a fresh engine on the seed's stream at position 0, with the default mutators registered, an empty history and an empty summary |
| Engine.FuzzEngine.RegisterDefaultMutators | engine/fuzzer.go:78-88 | the existing entries are kept, then random, boundary and stateful follow, then special cases if enabled, all sharing the engine's source |
| Engine.FuzzEngine.Run | engine/fuzzer.go:91-128 | the new state is `Trace` of max(FuzzCount, 0) rounds from the old one, so `TotalTests` grows by exactly that much, no counter decreases, a consistent summary stays consistent, and the summary is returned, never reset |
| Engine.FuzzEngine.Round | engine/fuzzer.go:107-124 | one loop iteration moves the engine exactly as `PlayRound` says |
| Engine.FuzzEngine.Draw | engine/fuzzer.go:107-111 | the mutator index is the next draw modulo the mutator count, and the input is what that mutator generates |
| Engine.FuzzEngine.Account | engine/fuzzer.go:116-124 | validation by the same mutator, tracking and the test count leave `Bump` of the summary with that mutator's verdict |
| Engine.FuzzEngine.GenerateWith | engine/fuzzer.go:111 | the chosen mutator's input is `Generate` of its strategy, and only the stateful one records history |
| Engine.FuzzEngine.ValidateWith | engine/fuzzer.go:117 | the chosen mutator's validator is `Validate` of its strategy with the current history |
| Engine.FuzzEngine.TrackResult | engine/fuzzer.go:131-146 | the in-place counter increments leave `Track` of the old summary |
| Composition.SimulatedErrorsUnexpected | utils/target/cosmossdk/cosmos.go:122-132 | "input too short" and "simulated error: invalid handler" are neither of the two errors the validators ignore |
| Composition.PoliciesAgreeOnTarget | utils/target/cosmossdk/cosmos.go:117-156 | on any target response both precedences give the expected verdict: crash for either simulated error, nothing for outcomes 0..2, the two failures for 3 and 4 |
| Composition.ValidatedTarget | utils/target/cosmossdk/cosmos.go:117-156 | every mutator's validator classifies every target response as the expected verdict |
| Composition.ShortInputCrashes | utils/target/cosmossdk/cosmos.go:122-124 | an input shorter than 4 bytes always gets a failed, crashed result, from any mutator |
| Composition.RoundAgainstTarget | engine/fuzzer.go:107-124 | a round against the target counts the expected verdict of the generated input |
| Composition.NoHandlersEveryRoundCrashes | utils/target/cosmossdk/cosmos.go:127-132 | against a module with no handlers, n rounds add n tests, n failures and n crashes and nothing else |

## Left out

- `recordFailure`: creating the JSON file and logging a failure are I/O. `trackResult` is modelled without them.
- `LoadCosmosModule` and handler and state-type discovery call `os.Stat` and run `grep` in a subprocess. A loaded
  module is its number of handlers. `Run` takes the target as a function, and the `log.Fatalf` abort on a failed
  load is process termination.
- Clock readings: a result id's timestamp is the `stamp` parameter of each validator, and `Run` takes a `clock`. The
  time-based seed used when `Seed == 0` is replaced by the draw stream given to the constructor.
- math/rand's generator algorithm: the stream is a parameter. `Intn` is modelled as one draw reduced modulo `n`, while
  the real `Intn` uses rejection sampling and may consume several source values for one result. `Read` is modelled
  as one draw per byte, while the real one takes seven bytes from each 63-bit value. Neither loses a behaviour: every
  sequence of in-range results is produced by some `source`, and each property here holds for every `source`.
- Progress and verbose logging.
- The command line (`engine/command.go`, `cmd/statestinger/main.go`): flag parsing, output directory creation,
  printing and `os.Exit`.
- Fields the code never reads: `FuzzEngine.results`, `SpecialCasesMutator.index` and `Config.StateMutator`.
- The `"unknown"` return after the switch in `ExecuteFuzz`: a value modulo 5 always matches a case, so it cannot be
  reached.
- Counter width: the `FuzzSummary` counters are unbounded naturals. Go's `int` wrap-around after 2^63 increments is
  not modelled.
- The statistical expectations of test/test.go, for example that several distinct boundary cases appear in 100 draws.
  They depend on the generator's algorithm.
- The mutator interface is a datatype over the four classes, not an open interface. Only those four mutators are
  ever registered.
