/** The methods of a chat-completion request builder, each a function from
    the record before the call to what the call leaves behind. */
module Builder {
  import opened Wrappers
  import opened Errors
  import opened Validation
  import opened JsonValues
  import opened FunctionDefinitions
  import opened Requests

  const MaxChoices := 100

  const TemperatureBlocked := "cannot set 'temperature' if 'top_p' is already set."
  const TopPBlocked := "cannot set 'topP' if 'temperature' is already set."
  const UndescribedFunction := "must describe this function using describeFunction(...) first."
  const EmptyTerm := "'term' must not be empty."
  const NoPrompts := "no prompts have been supplied for the large language model (LLM) to use."

  // ---------------------------------------------------------------------
  // Sampling: temperature and top_p exclude each other.

  /** `tuneByTemperature`: refused while a non-zero top_p is stored (before
      the range is looked at), then range-checked against [0, 2]. */
  function TuneByTemperature(r: Request, t: real): (o: Outcome)
    ensures Truthy(r.topP) ==> o == Threw(IncorrectUse(TemperatureBlocked), r)
    ensures !Truthy(r.topP) && !InRange(t, 0, Finite(2)) ==>
      o == Threw(InvalidParameter("temperature", RangeReason(0, Finite(2))), r)
    ensures o.Returned? <==> !Truthy(r.topP) && 0.0 <= t <= 2.0
    ensures o.Returned? ==> o.state.temperature == Some(t) && SameExcept(r, o.state, Temperature)
  {
    if Truthy(r.topP) then Threw(IncorrectUse(TemperatureBlocked), r)
    else match ValidateNumericInputRange("temperature", t, 0, Finite(2))
      case Fail(e) => Threw(e, r)
      case Pass => Returned(r.(temperature := Some(t)))
  }

  /** `tuneByProbabilityMass`: the mirror image, guarded by a non-zero
      temperature and stored in top_p. */
  function TuneByProbabilityMass(r: Request, p: real): (o: Outcome)
    ensures Truthy(r.temperature) ==> o == Threw(IncorrectUse(TopPBlocked), r)
    ensures !Truthy(r.temperature) && !InRange(p, 0, Finite(2)) ==>
      o == Threw(InvalidParameter("topP", RangeReason(0, Finite(2))), r)
    ensures o.Returned? <==> !Truthy(r.temperature) && 0.0 <= p <= 2.0
    ensures o.Returned? ==> o.state.topP == Some(p) && SameExcept(r, o.state, TopP)
  {
    if Truthy(r.temperature) then Threw(IncorrectUse(TopPBlocked), r)
    else match ValidateNumericInputRange("topP", p, 0, Finite(2))
      case Fail(e) => Threw(e, r)
      case Pass => Returned(r.(topP := Some(p)))
  }

  // ---------------------------------------------------------------------
  // Plain prompts.

  function SystemPrompt(r: Request, text: string): (r': Request)
    ensures AppendsMessage(r, r', Plain(System, text))
  {
    r.(messages := r.messages + [Plain(System, text)])
  }

  function AssistantPrompt(r: Request, text: string): (r': Request)
    ensures AppendsMessage(r, r', Plain(Assistant, text))
  {
    r.(messages := r.messages + [Plain(Assistant, text)])
  }

  function UserPrompt(r: Request, text: string): (r': Request)
    ensures AppendsMessage(r, r', Plain(User, text))
  {
    r.(messages := r.messages + [Plain(User, text)])
  }

  // ---------------------------------------------------------------------
  // Function-call prompts.

  /** A payload as message text: a string as it is, anything else through
      the serializer. */
  function PayloadText(v: Json, stringify: Json -> string): (s: string)
    ensures v.JString? ==> s == v.s
    ensures !v.JString? ==> s == stringify(v)
  {
    if v.JString? then v.s else stringify(v)
  }

  /** The registry check both function-call prompts make first. */
  predicate IsRegistered(r: Request, name: string)
  {
    r.functions.Some? && FindFunction(r.functions.value, name).Some?
  }

  /** `assistantCallFunctionPrompt`: only for a function described earlier;
      appends an assistant call with the arguments as text. */
  function AssistantCallFunctionPrompt(r: Request, name: string, args: Json, stringify: Json -> string): (o: Outcome)
    ensures o.Returned? <==> r.functions.Some? && Declares(r.functions.value, name)
    ensures o.Threw? ==> o == Threw(InvalidParameter("functionName", UndescribedFunction), r)
    ensures o.Returned? ==>
      AppendsMessage(r, o.state, CallFunction(CallDirective(name, PayloadText(args, stringify))))
  {
    if !IsRegistered(r, name) then Threw(InvalidParameter("functionName", UndescribedFunction), r)
    else
      var m := CallFunction(CallDirective(name, PayloadText(args, stringify)));
      Returned(r.(messages := r.messages + [m]))
  }

  /** `functionResponsePrompt`: only for a function described earlier;
      appends a function-role message with the response as text. */
  function FunctionResponsePrompt(r: Request, name: string, response: Json, stringify: Json -> string): (o: Outcome)
    ensures o.Returned? <==> r.functions.Some? && Declares(r.functions.value, name)
    ensures o.Threw? ==> o == Threw(InvalidParameter("functionName", UndescribedFunction), r)
    ensures o.Returned? ==>
      AppendsMessage(r, o.state, FunctionResult(name, PayloadText(response, stringify)))
  {
    if !IsRegistered(r, name) then Threw(InvalidParameter("functionName", UndescribedFunction), r)
    else
      var m := FunctionResult(name, PayloadText(response, stringify));
      Returned(r.(messages := r.messages + [m]))
  }

  // ---------------------------------------------------------------------
  // Token bias.

  /** One term, or a list of terms. */
  datatype BiasTerms = OneTerm(term: string) | TermList(terms: seq<string>)
  {
    function AsList(): seq<string>
    {
      match this
      case OneTerm(t) => [t]
      case TermList(ts) => ts
    }
  }

  /** The bias map of `r`; an absent map counts as empty. */
  function BiasOf(r: Request): map<int, real>
  {
    if r.logitBias.Some? then r.logitBias.value else map[]
  }

  /** Some term among `terms` is tokenized to a sequence holding `id`. */
  ghost predicate Produces(encode: string -> seq<int>, terms: seq<string>, id: int)
  {
    exists k :: 0 <= k < |terms| && id in encode(terms[k])
  }

  /** `after` is `before` with every id that `terms` produce mapped to `w`,
      and every other id left as it was (present or absent). */
  ghost predicate BiasUpdated(before: map<int, real>, after: map<int, real>, terms: seq<string>,
                              w: real, encode: string -> seq<int>)
  {
    && (forall id :: Produces(encode, terms, id) ==> id in after && after[id] == w)
    && (forall id :: !Produces(encode, terms, id) ==>
          (id in after <==> id in before) && (id in before ==> after[id] == before[id]))
  }

  /** Position of the first empty term, or `|terms|` if there is none. */
  function FirstEmpty(terms: seq<string>): (k: nat)
    ensures k <= |terms|
    ensures forall j :: 0 <= j < k ==> terms[j] != ""
    ensures k < |terms| ==> terms[k] == ""
    decreases |terms|
  {
    if |terms| == 0 then 0
    else if terms[0] == "" then 0
    else 1 + FirstEmpty(terms[1..])
  }

  /** Writes `w` for each token id in turn. */
  function AssignTokens(bias: map<int, real>, tokens: seq<int>, w: real): (b: map<int, real>)
    ensures forall id :: id in tokens ==> id in b && b[id] == w
    ensures forall id :: id !in tokens ==> (id in b <==> id in bias) && (id in bias ==> b[id] == bias[id])
    decreases |tokens|
  {
    if |tokens| == 0 then bias
    else
      var b := AssignTokens(bias[tokens[0] := w], tokens[1..], w);
      assert forall id :: id in tokens <==> id == tokens[0] || id in tokens[1..];
      b
  }

  lemma ProducesCons(encode: string -> seq<int>, terms: seq<string>)
    requires |terms| > 0
    ensures forall id :: Produces(encode, terms, id) <==> id in encode(terms[0]) || Produces(encode, terms[1..], id)
  {
  }

  /** Tokenizes each term in order and writes `w` for every id produced. */
  function AssignTerms(bias: map<int, real>, terms: seq<string>, w: real, encode: string -> seq<int>): (b: map<int, real>)
    ensures BiasUpdated(bias, b, terms, w, encode)
    decreases |terms|
  {
    if |terms| == 0 then bias
    else
      ProducesCons(encode, terms);
      AssignTerms(AssignTokens(bias, encode(terms[0]), w), terms[1..], w, encode)
  }

  /** `setBias`: creates the bias map if absent (even when the call then
      throws), range-checks the weight against [-100, 100], then handles the
      terms in order, throwing at the first empty one with the earlier
      terms already applied. */
  function SetBias(r: Request, terms: BiasTerms, weight: real, encode: string -> seq<int>): (o: Outcome)
    ensures o.state.logitBias.Some?
    ensures SameExcept(r, o.state, LogitBias)
    ensures !InRange(weight, -100, Finite(100)) ==>
      o == Threw(InvalidParameter("weight", RangeReason(-100, Finite(100))), r.(logitBias := Some(BiasOf(r))))
    ensures o.Returned? <==>
      InRange(weight, -100, Finite(100)) && forall k :: 0 <= k < |terms.AsList()| ==> terms.AsList()[k] != ""
    ensures o.Threw? && InRange(weight, -100, Finite(100)) ==> o.error == IncorrectUse(EmptyTerm)
    ensures InRange(weight, -100, Finite(100)) ==>
      BiasUpdated(BiasOf(r), o.state.logitBias.value, terms.AsList()[..FirstEmpty(terms.AsList())], weight, encode)
    ensures o.Returned? ==> BiasUpdated(BiasOf(r), o.state.logitBias.value, terms.AsList(), weight, encode)
  {
    var start := BiasOf(r);
    match ValidateNumericInputRange("weight", weight, -100, Finite(100))
    case Fail(e) => Threw(e, r.(logitBias := Some(start)))
    case Pass =>
      var ts := terms.AsList();
      var k := FirstEmpty(ts);
      var applied := r.(logitBias := Some(AssignTerms(start, ts[..k], weight, encode)));
      if k < |ts| then Threw(IncorrectUse(EmptyTerm), applied)
      else
        assert ts[..k] == ts;
        Returned(applied)
  }

  // ---------------------------------------------------------------------
  // Independent numeric settings.

  /** `limitOutput`: any non-negative token count; there is no upper bound. */
  function LimitOutput(r: Request, n: real): (o: Outcome)
    ensures o.Returned? <==> 0.0 <= n
    ensures o.Threw? ==> o == Threw(InvalidParameter("nOfTokens", RangeReason(0, Infinity)), r)
    ensures o.Returned? ==> o.state.maxTokens == Some(n) && SameExcept(r, o.state, MaxTokens)
  {
    match ValidateNumericInputRange("nOfTokens", n, 0, Infinity)
    case Fail(e) => Threw(e, r)
    case Pass => Returned(r.(maxTokens := Some(n)))
  }

  function SetPresencePenalty(r: Request, p: real): (o: Outcome)
    ensures o.Returned? <==> -2.0 <= p <= 2.0
    ensures o.Threw? ==> o == Threw(InvalidParameter("presencePenalty", RangeReason(-2, Finite(2))), r)
    ensures o.Returned? ==> o.state.presencePenalty == Some(p) && SameExcept(r, o.state, PresencePenalty)
  {
    match ValidateNumericInputRange("presencePenalty", p, -2, Finite(2))
    case Fail(e) => Threw(e, r)
    case Pass => Returned(r.(presencePenalty := Some(p)))
  }

  function SetFrequencyPenalty(r: Request, f: real): (o: Outcome)
    ensures o.Returned? <==> -2.0 <= f <= 2.0
    ensures o.Threw? ==> o == Threw(InvalidParameter("frequencyPenalty", RangeReason(-2, Finite(2))), r)
    ensures o.Returned? ==> o.state.frequencyPenalty == Some(f) && SameExcept(r, o.state, FrequencyPenalty)
  {
    match ValidateNumericInputRange("frequencyPenalty", f, -2, Finite(2))
    case Fail(e) => Threw(e, r)
    case Pass => Returned(r.(frequencyPenalty := Some(f)))
  }

  // ---------------------------------------------------------------------
  // Function descriptions.

  /** The three accepted shapes: a structured definition, a reference to a
      function (carrying its name), or a bare name. */
  datatype FunctionSpec =
    | FromDefinition(definition: FunctionDefinition)
    | FromReference(functionName: string, description: Option<string>, parameters: Option<Json>)
    | FromName(name: string, description: Option<string>, parameters: Option<Json>)
  {
    /** The registry entry the shape is stored as. */
    function Definition(): FunctionDefinition
    {
      match this
      case FromDefinition(f) => f
      case FromReference(n, d, p) => FunctionDefinition(n, d, p)
      case FromName(n, d, p) => FunctionDefinition(n, d, p)
    }
  }

  /** The record with its registry created if absent, and otherwise as it was. */
  function CreateRegistry(r: Request): (r': Request)
    ensures r'.functions == Some(Registry(r))
    ensures Registry(r') == Registry(r)
    ensures SameExcept(r, r', Functions)
  {
    r.(functions := Some(Registry(r)))
  }

  /** The record with `f` appended to its registry (created if absent). */
  function Register(r: Request, f: FunctionDefinition): (r': Request)
    ensures r'.functions.Some?
    ensures |Registry(r')| == |Registry(r)| + 1
    ensures Registry(r')[..|Registry(r)|] == Registry(r)
    ensures Registry(r')[|Registry(r)|] == f
    ensures SameExcept(r, r', Functions)
  {
    var fs := Registry(r) + [f];
    assert fs[..|Registry(r)|] == Registry(r);
    r.(functions := Some(fs))
  }

  /** `describeFunction`: creates the registry if absent, then appends one
      entry; only a structured definition is validated, so the other shapes
      and repeated names are accepted as they come. */
  function DescribeFunction(r: Request, spec: FunctionSpec): (o: Outcome)
    ensures o.state.functions.Some?
    ensures SameExcept(r, o.state, Functions)
    ensures o.Returned? <==>
      !spec.FromDefinition? ||
      (MinNameLength <= |spec.definition.name| <= MaxNameLength && MatchesIdentifierPattern(spec.definition.name))
    ensures o.Threw? ==>
      && spec.FromDefinition?
      && ValidateFunctionDefinition(spec.definition) == Fail(o.error)
      && o.state.functions.value == Registry(r)
    ensures o.Returned? ==>
      var fs := o.state.functions.value;
      && |fs| == |Registry(r)| + 1
      && fs[..|Registry(r)|] == Registry(r)
      && fs[|Registry(r)|] == spec.Definition()
  {
    match spec
    case FromDefinition(f) =>
      (match ValidateFunctionDefinition(f)
       case Fail(e) => Threw(e, CreateRegistry(r))
       case Pass => Returned(Register(r, f)))
    case _ => Returned(Register(r, spec.Definition()))
  }

  /** `stopFunctionCalls`: the policy becomes 'none'. */
  function StopFunctionCalls(r: Request): (r': Request)
    ensures r'.functionCall == Some(NoCalls) && SameExcept(r, r', FunctionCall)
  {
    r.(functionCall := Some(NoCalls))
  }

  // ---------------------------------------------------------------------
  // Finalization.

  /** `go`: the checks made before the request is handed to the client, and
      the request handed over. The choice count is range-checked before the
      messages, and is not written into the request. */
  function Go(r: Request, nChoices: real): (res: Result<Request, Error>)
    ensures !InRange(nChoices, 1, Finite(MaxChoices)) ==>
      res == Err(InvalidParameter("nChoices", RangeReason(1, Finite(MaxChoices))))
    ensures InRange(nChoices, 1, Finite(MaxChoices)) && |r.messages| == 0 ==> res == Err(IncorrectUse(NoPrompts))
    ensures res.Ok? <==> 1.0 <= nChoices <= 100.0 && |r.messages| >= 1
    ensures res.Ok? ==> res.value == r
  {
    match ValidateNumericInputRange("nChoices", nChoices, 1, Finite(MaxChoices))
    case Fail(e) => Err(e)
    case Pass =>
      if |r.messages| < 1 then Err(IncorrectUse(NoPrompts)) else Ok(r)
  }

  /** `go()` without an argument asks for one choice. */
  function GoDefault(r: Request): (res: Result<Request, Error>)
    ensures res.Ok? <==> |r.messages| >= 1
  {
    Go(r, 1.0)
  }
}
