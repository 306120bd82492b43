# chatgpt-request-builder — a Dafny model of the request builder

This project models the core of `chatgpt-request-builder`: a builder that
assembles one chat-completion request for a language-model service through
chained calls, checking its rules at each call, and the validation
primitives and error table those checks use.

- **Session gate** (`SessionGate`): `initialize` stores an API key; the
  builder constructor (`request(model)`) refuses to run without one. The
  program keeps the key in a process-wide variable; here it is an explicit
  `Session` value.
- **Request record** (`Requests`): the model, the ordered messages, the
  optional sampling and penalty numbers, the function registry, the token
  bias map and the function-call policy.
- **Builder methods** (`Builder`): each method is a pure function from the
  record before the call to an `Outcome` — `Returned(state)`, or
  `Threw(error, state)` carrying the record *as the throw left it*, because
  `setBias` and `describeFunction` change the record before they throw.
  Methods that cannot throw (the three plain prompts, `stopFunctionCalls`)
  return the record. `go` is modelled by its checks and the request it
  hands to the client.
- **Validation** (`Validation`, `Errors`, `Text`): the inclusive range
  check, the function-name check (length first, then the pattern
  `^[A-Za-z_][A-Za-z0-9_]*$`), and the error table with its lower-cased
  detail clauses.
- **Call sequences** (`Chains`): a `Call` per builder method, `Apply`,
  `Run` (one chained expression, which stops at the first throw) and
  `RunCatching` (a caller who catches each throw and keeps calling on the
  same builder), which methods return the builder (and so can be chained on), and
  the invariants every reachable record satisfies.
- **Scenarios** (`Scenarios`): end-to-end examples and the edge cases
  of the builder's checks, stated over all inputs where possible.

The tokenizer's `encode` and `JSON.stringify` are external collaborators.
They appear as function-valued parameters (`encode: string -> seq<int>`,
`stringify: Json -> string`) and nothing is assumed about them.

Points where the program's behaviour is easy to misread:

- The error text at `src/index.ts:53` and `:63` says one sampling field
  cannot be set once the other is, but the guard tests the *truthiness* of
  the other field (`src/index.ts:51`, `:61`), so a stored 0 blocks nothing
  and both fields can be present (`Scenarios.ZeroTemperatureLetsTopPThrough`).
  The invariant that holds is that they are never both non-zero
  (`Invariants.SamplingExclusive`).
- The exclusivity check comes before the range check, so an out-of-range
  value on a blocked builder reports incorrect use.
- `setBias` and `describeFunction` change the record before they throw:
  `setBias` creates the bias map before validating the weight and writes the
  ids of earlier terms before it throws on an empty one; `describeFunction`
  creates the registry before it validates a structured definition.
- `initialize` takes only the API key. An organisation id passed to it is
  ignored.

## Model

| member | source | states |
|---|---|---|
| Text.Lower | src/errorHandlingAndValidation.ts:3-11 | lower-casing keeps the length and maps each character to its lower-case form |
| Text.LowerIdempotent | src/errorHandlingAndValidation.ts:3-11 | lower-casing an already lower-cased detail changes nothing |
| Text.LowerFixesExactlyLowerStrings | src/errorHandlingAndValidation.ts:3-11 | a detail is left unchanged by `msg` exactly when it has no upper-case letter |
| Text.NatString | src/errorHandlingAndValidation.ts:34 | a bound is written as digits with no leading zero |
| Text.IntStringRoundTrip | src/errorHandlingAndValidation.ts:34 | the bound written into a range error can be read back as the same integer |
| Errors.Describe | src/errorHandlingAndValidation.ts:3-11 | an Error object's message or a string comes back with the same length, no upper-case letter and equal to it up to case; any other value gives the fixed placeholder |
| Errors.Message | src/errorHandlingAndValidation.ts:13-23 | every message starts with its kind's fixed text; a client-creation or server failure continues with the cause as `msg` describes it; an incorrect-use or invalid-parameter message ends with the caller's reason, equal to it up to case and with no upper-case letter |
| Errors.MessageIdentifiesKind | src/errorHandlingAndValidation.ts:13-23 | the fixed prefixes keep the six error kinds apart: the kind can be read back from the message text |
| Errors.IncorrectUseMessage | src/errorHandlingAndValidation.ts:19 | an incorrect-use message is "Incorrect use: " then the reason, equal to it up to case and with no upper-case letter |
| Errors.InvalidParameterMessage | src/errorHandlingAndValidation.ts:20-21 | an invalid-parameter message embeds the parameter name verbatim, case kept; only the reason after it is lower-cased |
| Validation.ValidateNumericInputRange | src/errorHandlingAndValidation.ts:25-37 | fails, with an invalid-parameter error naming the parameter, exactly when the value is below the lower or above the upper bound; otherwise yields nothing |
| Validation.RangeBoundsInclusive | src/errorHandlingAndValidation.ts:31 | both ends of a range pass and any value beyond either end fails |
| Validation.ScanNameChars | src/errorHandlingAndValidation.ts:47 | the scan accepts exactly the suffixes made only of letters, digits and underscores |
| Validation.MatchIdentifier | src/errorHandlingAndValidation.ts:46-48 | matches exactly the identifier language; a match is the two-element array of whole match and group |
| Validation.ValidateFunctionDefinition | src/errorHandlingAndValidation.ts:39-59 | passes exactly for names of length 1..64 in the identifier language; a bad length gets the length error even when the pattern also fails; the match-length test never rejects a match |
| Validation.AcceptedFunctionNames | src/errorHandlingAndValidation.ts:39-59 | "a_1", "_x" and a 64-letter name pass the definition check |
| Validation.LengthRejectedFunctionNames | src/errorHandlingAndValidation.ts:40-45 | the empty name and a 65-letter name get the length error |
| Validation.PatternRejectedFunctionNames | src/errorHandlingAndValidation.ts:46-58 | a name with a leading digit or an inner space gets the pattern error |
| Requests.FirstIndexNamed | src/index.ts:88 | the lookup stops at the first entry carrying the name |
| Requests.FindFunction | src/index.ts:88 | `find` by name succeeds exactly when some entry has the name, and yields the first such entry |
| Builder.TuneByTemperature | src/index.ts:50-59 | a non-zero top_p blocks with incorrect use before the range is looked at; otherwise values outside [0,2] fail; success changes only the temperature, to the value given |
| Builder.TuneByProbabilityMass | src/index.ts:60-69 | a non-zero temperature blocks with incorrect use first; otherwise values outside [0,2] fail; success changes only top_p |
| Builder.SystemPrompt | src/index.ts:70-76 | appends exactly one system message with the text unchanged; earlier messages and every other field are kept |
| Builder.AssistantPrompt | src/index.ts:77-83 | appends exactly one assistant message with the text unchanged; nothing else changes |
| Builder.UserPrompt | src/index.ts:107-113 | appends exactly one user message with the text unchanged; nothing else changes |
| Builder.PayloadText | src/index.ts:100-103 | a string payload is passed through unchanged; any other payload becomes its serialization |
| Builder.AssistantCallFunctionPrompt | src/index.ts:84-106 | succeeds exactly when the registry exists and holds an entry with that name; otherwise throws invalid parameter and changes nothing; success appends one assistant call carrying the payload text |
| Builder.FunctionResponsePrompt | src/index.ts:114-134 | same registry condition; success appends one function-role message carrying the name and the payload text |
| Builder.FirstEmpty | src/index.ts:145-148 | finds the first empty term: all terms before it are non-empty |
| Builder.AssignTokens | src/index.ts:149-152 | every id of the token sequence maps to the weight; every other id keeps its presence and value |
| Builder.AssignTerms | src/index.ts:145-153 | every id produced by some term maps to the weight; ids produced by no term keep their presence and value |
| Builder.SetBias | src/index.ts:137-155 | the bias map exists afterwards even on failure; a weight outside [-100,100] fails leaving only the (possibly new, empty) map; an empty term fails with incorrect use after the earlier terms were applied; success exactly when the weight is in range and no term is empty, with every produced id mapped to the weight and all other ids unchanged; only the bias map changes |
| Builder.LimitOutput | src/index.ts:156-160 | fails exactly for negative counts, with no upper bound; success changes only max_tokens |
| Builder.SetPresencePenalty | src/index.ts:161-165 | fails exactly outside [-2,2]; success changes only the presence penalty |
| Builder.SetFrequencyPenalty | src/index.ts:166-170 | fails exactly outside [-2,2]; success changes only the frequency penalty |
| Builder.CreateRegistry | src/index.ts:182-184 | an absent registry becomes an empty one; a present one is kept; nothing else changes |
| Builder.Register | src/index.ts:186-199 | the registry gains exactly one entry, at its end, and keeps the earlier ones; nothing else changes |
| Builder.DescribeFunction | src/index.ts:177-202 | the registry exists afterwards; only a structured definition can fail, exactly when its name is invalid, with the error `validateFunctionDefinition` raises and the registry left as it was; success lengthens the registry by one entry at the end and keeps the earlier ones; only the registry changes |
| Builder.StopFunctionCalls | src/index.ts:203-205 | sets the function-call policy to 'none' and changes nothing else |
| Builder.Go | src/index.ts:206-212 | a choice count outside [1,100] fails with invalid parameter before the messages are looked at; no messages fails with incorrect use; otherwise the request is handed over unchanged, without the count |
| Builder.GoDefault | src/index.ts:206-212 | with the default count, finalization succeeds exactly when there is a message |
| SessionGate.Initialize | src/index.ts:27-32 | an empty key fails with invalid-api-key; any other key becomes the stored key whatever was stored before |
| SessionGate.NewRequest | src/index.ts:39-48 | refused with not-initialized exactly when no non-empty key is stored; otherwise a record with the model, no messages and no other field, which satisfies every invariant |
| SessionGate.GateOpensOnlyAfterInitialize | src/index.ts:25-42 | before initialization no builder can be made; after a successful initialization every model can be requested |
| SessionGate.InitializeOverwrites | src/index.ts:31 | re-initializing replaces the key: the earlier key leaves no trace |
| Chains.Apply | src/index.ts:50-205 | no method changes the model, removes or reorders messages, or removes registry entries; a throwing method other than setBias and describeFunction leaves the record unchanged |
| Chains.Run | src/index.ts:50-205 | along one chain of calls, stopping at the first throw, the model is kept and the messages and registry only grow at their ends |
| Chains.AppendPreservesWellFormed | src/index.ts:84-134 | appending a message that names only registered functions keeps every invariant |
| Chains.SetBiasPreservesWellFormed | src/index.ts:137-155 | every bias weight stays in [-100,100], also in the record a throw leaves behind |
| Chains.RegistryGrowthPreservesWellFormed | src/index.ts:182-199 | growing the registry at its end keeps every function message registered |
| Chains.DescribeFunctionPreservesWellFormed | src/index.ts:177-202 | registering functions never unregisters one that a message refers to |
| Chains.PromptPreservesWellFormed | src/index.ts:70-134 | the five prompt methods keep every invariant, whether they return or throw |
| Chains.SettingCallPreservesWellFormed | src/index.ts:156-205 | the tuning, limit, penalty and stop methods keep every invariant, whether they return or throw |
| Chains.ApplyPreservesWellFormed | src/index.ts:50-205 | every method, returning or throwing, keeps temperature and top_p from both being non-zero, keeps stored values in range and keeps function messages registered |
| Chains.RunPreservesWellFormed | src/index.ts:50-205 | the invariants hold after any single chain of calls, including the record its first throw leaves |
| Chains.RunCatching | src/index.ts:50-205 | a builder whose caller catches every throw and keeps calling: each call works on the record the previous one left; the model is kept and the messages and registry only grow at their ends |
| Chains.RunCatchingPreservesWellFormed | src/index.ts:50-205 | the invariants hold after any sequence of calls with caught throws, each later call working on the record a throw left |
| Chains.RunIsCaughtPrefix | src/index.ts:50-205 | the record a single chain ends in is also reached by the caught-throw run of the calls up to and including its first throw |
| Chains.ReachableRequestsWellFormed | src/index.ts:39-205 | every record reachable from a new builder, by any sequence of calls whose throws the caller catches before calling on, satisfies the invariants and keeps its model |
| Scenarios.SingleUserPromptReachesClient | src/index.ts:27-214 | after initialize("k"), request("gpt-4").userPrompt("hi").go() hands over exactly the model and the one user message |
| Scenarios.TemperatureBlocksTopP | src/index.ts:50-69 | after a non-zero temperature, top_p is refused with incorrect use and the temperature stays |
| Scenarios.TopPBlocksTemperature | src/index.ts:50-69 | after a non-zero top_p, temperature is refused with incorrect use and top_p stays |
| Scenarios.ZeroTemperatureLetsTopPThrough | src/index.ts:61 | a stored temperature of 0 does not block top_p, so both end up present |
| Scenarios.BiasOnOneTerm | src/index.ts:137-155 | a term tokenized to ids 12 and 345 with weight -100 yields exactly the map {12: -100, 345: -100} |
| Scenarios.RejectedWeightCreatesBiasMap | src/index.ts:138-141 | a rejected weight leaves an empty bias map behind where there was none |
| Scenarios.EmptyTermAfterPartialUpdate | src/index.ts:145-153 | with terms "air", "", "line" the first term's ids are written before the empty term throws, and the last term's are not |
| Scenarios.CallNeedsDescription | src/index.ts:84-134 | both function-call prompts fail on a new builder and succeed once the name is described |
| Scenarios.DuplicateNamesAccepted | src/index.ts:191-196 | the same name can be described twice and both entries are kept |
| Scenarios.RejectedDefinitionCreatesRegistry | src/index.ts:182-198 | a rejected structured definition leaves an empty registry behind where there was none |
| Scenarios.ChoiceCountChecks | src/index.ts:206-212 | counts 0 and 101 fail with invalid parameter whatever the messages; any valid count hands over the same request |
| Scenarios.StopEndsChain | src/index.ts:203-205 | a prompt can be chained before stopFunctionCalls but nothing can be chained after it |

## Left out

- The OpenAI client: `createClient`, the failed-to-create-client wrapping
  in the constructor (`src/index.ts:13-23`, `:43`), the awaited
  `createChatCompletion` and the OpenAI-failure wrapping
  (`src/index.ts:213-218`). These are network I/O in a foreign library; `go`
  is modelled up to the request it hands over. The two error kinds remain in
  the error table.
- The tokenizer's `encode` and `decode` (`src/index.ts:7`, `:225`): their
  source is not part of this model, so `encode` is a parameter about which
  nothing is assumed.
- `JSON.stringify` on non-string payloads: a parameter. JSON-Schema
  `parameters` are carried as a JSON value and never inspected, as in the
  program.
- JavaScript number edge cases: NaN (which passes both range comparisons and
  is falsy), negative zero, and `Infinity` as a value. Numbers are `real`.
- Text.Lower: lower-cases ASCII letters only, because `toLowerCase` on the
  rest of Unicode is not modelled; non-ASCII characters are left unchanged.
- Validation.ValidateNumericInputRange: bounds are integers, or an infinite
  upper bound, because every call site uses such bounds and the error text
  must render them.
- Name lengths are counted in characters, not UTF-16 code units.
- The chaining return values are modelled only as the predicate
  `Chains.ReturnsBuilder`: in a functional model every call yields the next
  record, so the difference affects which call sequences can be written as
  one expression, not what they compute.
- Builder.DescribeFunction: a structured definition is stored by reference
  (`src/index.ts:199`), so a caller who later changes that object changes
  the registry and can break `Invariants.CallsRegistered`; the model stores
  a value and assumes the caller does not change the object afterwards.
- Builder.Go: `go` is `async` (`src/index.ts:206`), so its invalid-parameter
  and incorrect-use refusals reach the caller as a rejected promise rather
  than a synchronous throw; the model's `Result` does not distinguish the
  two.
- `src/functions.ts` is folded into the `FunctionDefinition` datatype.
- The repository's own request and tokenizer test files exercise the live
  service and the external tokenizer; nothing from them is modelled beyond
  the construct-before-initialize refusal.
