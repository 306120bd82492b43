/** A builder driven through a sequence of method calls, and the properties
    that hold along any such sequence. */
module Chains {
  import opened JsonValues
  import opened Requests
  import opened Invariants
  import opened SessionGate
  import Builder

  /** One call of a builder method, with its arguments. */
  datatype Call =
    | TuneByTemperature(t: real)
    | TuneByProbabilityMass(p: real)
    | SystemPrompt(text: string)
    | AssistantPrompt(text: string)
    | AssistantCallFunctionPrompt(name: string, args: Json)
    | UserPrompt(text: string)
    | FunctionResponsePrompt(name: string, response: Json)
    | SetBias(terms: Builder.BiasTerms, weight: real)
    | LimitOutput(n: real)
    | SetPresencePenalty(p: real)
    | SetFrequencyPenalty(f: real)
    | DescribeFunction(spec: Builder.FunctionSpec)
    | StopFunctionCalls

  /** Whether the method returns the builder, so that another call can be
      chained onto it; three methods return nothing. */
  predicate ReturnsBuilder(c: Call)
  {
    !(c.AssistantCallFunctionPrompt? || c.FunctionResponsePrompt? || c.StopFunctionCalls?)
  }

  /** The calls can be written as one chained expression on the builder. */
  predicate Chainable(calls: seq<Call>)
  {
    forall i :: 0 <= i < |calls| - 1 ==> ReturnsBuilder(calls[i])
  }

  /** One call. The tokenizer and the JSON serializer are parameters. */
  function Apply(r: Request, c: Call, encode: string -> seq<int>, stringify: Json -> string): (o: Outcome)
    ensures o.state.model == r.model
    ensures |r.messages| <= |o.state.messages| && o.state.messages[..|r.messages|] == r.messages
    ensures |Registry(r)| <= |Registry(o.state)| && Registry(o.state)[..|Registry(r)|] == Registry(r)
    ensures o.Threw? && !c.SetBias? && !c.DescribeFunction? ==> o.state == r
  {
    assert r.messages[..|r.messages|] == r.messages;
    assert Registry(r)[..|Registry(r)|] == Registry(r);
    match c
    case TuneByTemperature(t) => Builder.TuneByTemperature(r, t)
    case TuneByProbabilityMass(p) => Builder.TuneByProbabilityMass(r, p)
    case SystemPrompt(text) => Returned(Builder.SystemPrompt(r, text))
    case AssistantPrompt(text) => Returned(Builder.AssistantPrompt(r, text))
    case AssistantCallFunctionPrompt(name, args) => Builder.AssistantCallFunctionPrompt(r, name, args, stringify)
    case UserPrompt(text) => Returned(Builder.UserPrompt(r, text))
    case FunctionResponsePrompt(name, response) => Builder.FunctionResponsePrompt(r, name, response, stringify)
    case SetBias(terms, weight) => Builder.SetBias(r, terms, weight, encode)
    case LimitOutput(n) => Builder.LimitOutput(r, n)
    case SetPresencePenalty(p) => Builder.SetPresencePenalty(r, p)
    case SetFrequencyPenalty(f) => Builder.SetFrequencyPenalty(r, f)
    case DescribeFunction(spec) => Builder.DescribeFunction(r, spec)
    case StopFunctionCalls => Returned(Builder.StopFunctionCalls(r))
  }

  /** The calls in order, stopping at the first that throws. */
  function Run(r: Request, calls: seq<Call>, encode: string -> seq<int>, stringify: Json -> string): (o: Outcome)
    ensures o.state.model == r.model
    ensures |r.messages| <= |o.state.messages| && o.state.messages[..|r.messages|] == r.messages
    ensures |Registry(r)| <= |Registry(o.state)| && Registry(o.state)[..|Registry(r)|] == Registry(r)
    decreases |calls|
  {
    if |calls| == 0 then Returned(r)
    else
      var o := Apply(r, calls[0], encode, stringify);
      if o.Threw? then o else Run(o.state, calls[1..], encode, stringify)
  }

  /** The calls in order on one builder whose caller catches every throw and
      keeps calling: each call starts from the record the previous one left,
      whether it returned or threw. */
  function RunCatching(r: Request, calls: seq<Call>, encode: string -> seq<int>, stringify: Json -> string): (r': Request)
    ensures r'.model == r.model
    ensures |r.messages| <= |r'.messages| && r'.messages[..|r.messages|] == r.messages
    ensures |Registry(r)| <= |Registry(r')| && Registry(r')[..|Registry(r)|] == Registry(r)
    decreases |calls|
  {
    if |calls| == 0 then r
    else RunCatching(Apply(r, calls[0], encode, stringify).state, calls[1..], encode, stringify)
  }

  /** Appending a message that names only registered functions keeps a
      well-formed record well-formed. */
  lemma AppendPreservesWellFormed(r: Request, s: Request, m: Message)
    requires WellFormed(r) && AppendsMessage(r, s, m)
    requires MessageRegistered(m, Registry(r))
    ensures WellFormed(s)
  {
  }

  lemma SetBiasPreservesWellFormed(r: Request, terms: Builder.BiasTerms, weight: real, encode: string -> seq<int>)
    requires WellFormed(r)
    ensures WellFormed(Builder.SetBias(r, terms, weight, encode).state)
  {
  }

  /** Growing the registry at its end, with the messages left alone, keeps
      every function message registered. */
  lemma RegistryGrowthPreservesWellFormed(r: Request, s: Request)
    requires WellFormed(r)
    requires s.messages == r.messages && SamplingExclusive(s) && ValuesInRange(s)
    requires |Registry(r)| <= |Registry(s)| && Registry(s)[..|Registry(r)|] == Registry(r)
    ensures WellFormed(s)
  {
    forall i | 0 <= i < |s.messages|
      ensures MessageRegistered(s.messages[i], Registry(s))
    {
      MessageRegisteredExtend(r.messages[i], Registry(r), Registry(s));
    }
  }

  lemma DescribeFunctionPreservesWellFormed(r: Request, spec: Builder.FunctionSpec)
    requires WellFormed(r)
    ensures WellFormed(Builder.DescribeFunction(r, spec).state)
  {
    var o := Builder.DescribeFunction(r, spec);
    var fs := Registry(r);
    assert Registry(o.state) == o.state.functions.value;
    if o.Threw? {
      assert Registry(o.state)[..|fs|] == fs;
    }
    RegistryGrowthPreservesWellFormed(r, o.state);
  }

  /** A call that leaves the messages and the registry alone and keeps the
      numbers in range keeps the record well-formed. */
  lemma SettingPreservesWellFormed(r: Request, s: Request)
    requires WellFormed(r)
    requires s.messages == r.messages && s.functions == r.functions
    requires SamplingExclusive(s) && ValuesInRange(s)
    ensures WellFormed(s)
  {
  }

  /** The prompt methods keep a well-formed record well-formed. */
  lemma PromptPreservesWellFormed(r: Request, c: Call, stringify: Json -> string)
    requires WellFormed(r)
    requires c.SystemPrompt? || c.AssistantPrompt? || c.UserPrompt?
          || c.AssistantCallFunctionPrompt? || c.FunctionResponsePrompt?
    ensures WellFormed(Apply(r, c, x => [], stringify).state)
  {
    match c {
      case AssistantCallFunctionPrompt(name, args) =>
        var o := Builder.AssistantCallFunctionPrompt(r, name, args, stringify);
        if o.Returned? {
          AppendPreservesWellFormed(r, o.state, CallFunction(CallDirective(name, Builder.PayloadText(args, stringify))));
        }
      case FunctionResponsePrompt(name, response) =>
        var o := Builder.FunctionResponsePrompt(r, name, response, stringify);
        if o.Returned? {
          AppendPreservesWellFormed(r, o.state, FunctionResult(name, Builder.PayloadText(response, stringify)));
        }
      case SystemPrompt(text) =>
        AppendPreservesWellFormed(r, Builder.SystemPrompt(r, text), Plain(System, text));
      case AssistantPrompt(text) =>
        AppendPreservesWellFormed(r, Builder.AssistantPrompt(r, text), Plain(Assistant, text));
      case UserPrompt(text) =>
        AppendPreservesWellFormed(r, Builder.UserPrompt(r, text), Plain(User, text));
    }
  }

  /** The methods that set one number or the call policy keep a
      well-formed record well-formed. */
  lemma SettingCallPreservesWellFormed(r: Request, c: Call)
    requires WellFormed(r)
    requires c.TuneByTemperature? || c.TuneByProbabilityMass? || c.LimitOutput?
          || c.SetPresencePenalty? || c.SetFrequencyPenalty? || c.StopFunctionCalls?
    ensures WellFormed(Apply(r, c, x => [], x => "").state)
  {
    var s := Apply(r, c, x => [], x => "").state;
    assert s.messages == r.messages && s.functions == r.functions;
    SettingPreservesWellFormed(r, s);
  }

  /** Every method, whether it returns or throws, leaves a well-formed
      record well-formed. */
  lemma ApplyPreservesWellFormed(r: Request, c: Call, encode: string -> seq<int>, stringify: Json -> string)
    requires WellFormed(r)
    ensures WellFormed(Apply(r, c, encode, stringify).state)
  {
    if c.SetBias? {
      SetBiasPreservesWellFormed(r, c.terms, c.weight, encode);
    } else if c.DescribeFunction? {
      DescribeFunctionPreservesWellFormed(r, c.spec);
    } else if c.SystemPrompt? || c.AssistantPrompt? || c.UserPrompt?
           || c.AssistantCallFunctionPrompt? || c.FunctionResponsePrompt? {
      PromptPreservesWellFormed(r, c, stringify);
      assert Apply(r, c, encode, stringify) == Apply(r, c, x => [], stringify);
    } else {
      SettingCallPreservesWellFormed(r, c);
      assert Apply(r, c, encode, stringify) == Apply(r, c, x => [], x => "");
    }
  }

  /** Well-formedness holds after any sequence of calls, including the
      record a throw leaves behind. */
  lemma {:induction false} RunPreservesWellFormed(r: Request, calls: seq<Call>, encode: string -> seq<int>, stringify: Json -> string)
    requires WellFormed(r)
    ensures WellFormed(Run(r, calls, encode, stringify).state)
    decreases |calls|
  {
    if |calls| > 0 {
      var o := Apply(r, calls[0], encode, stringify);
      ApplyPreservesWellFormed(r, calls[0], encode, stringify);
      if o.Returned? {
        RunPreservesWellFormed(o.state, calls[1..], encode, stringify);
      }
    }
  }

  /** Well-formedness holds after any sequence of calls whose throws are
      caught, each later call working on the record a throw left behind. */
  lemma {:induction false} RunCatchingPreservesWellFormed(r: Request, calls: seq<Call>,
                                                          encode: string -> seq<int>, stringify: Json -> string)
    requires WellFormed(r)
    ensures WellFormed(RunCatching(r, calls, encode, stringify))
    decreases |calls|
  {
    if |calls| > 0 {
      ApplyPreservesWellFormed(r, calls[0], encode, stringify);
      RunCatchingPreservesWellFormed(Apply(r, calls[0], encode, stringify).state, calls[1..], encode, stringify);
    }
  }

  /** A single chain is one way of driving a builder: its final record is
      also reached when the caller catches throws, by the calls up to and
      including the first that throws. */
  lemma {:induction false} RunIsCaughtPrefix(r: Request, calls: seq<Call>, encode: string -> seq<int>, stringify: Json -> string)
    ensures exists k :: 0 <= k <= |calls| && Run(r, calls, encode, stringify).state == RunCatching(r, calls[..k], encode, stringify)
    decreases |calls|
  {
    if |calls| == 0 {
      assert Run(r, calls, encode, stringify).state == RunCatching(r, calls[..0], encode, stringify);
    } else {
      var o := Apply(r, calls[0], encode, stringify);
      assert calls[..1][1..] == [];
      if o.Threw? {
        assert Run(r, calls, encode, stringify).state == RunCatching(r, calls[..1], encode, stringify);
      } else {
        RunIsCaughtPrefix(o.state, calls[1..], encode, stringify);
        var k :| 0 <= k <= |calls[1..]| && Run(o.state, calls[1..], encode, stringify).state
                                         == RunCatching(o.state, calls[1..][..k], encode, stringify);
        assert calls[..k + 1][0] == calls[0] && calls[..k + 1][1..] == calls[1..][..k];
        assert Run(r, calls, encode, stringify).state == RunCatching(r, calls[..k + 1], encode, stringify);
      }
    }
  }

  /** Any record a builder can reach from `request(model)`: temperature and
      top_p are never both non-zero, every stored value lies in its range,
      and every function-call or function-response message names a
      registered function. */
  lemma ReachableRequestsWellFormed(s: Session, model: ChatModel, calls: seq<Call>,
                                    encode: string -> seq<int>, stringify: Json -> string)
    requires NewRequest(s, model).Ok?
    ensures var r := RunCatching(NewRequest(s, model).value, calls, encode, stringify);
      && SamplingExclusive(r)
      && ValuesInRange(r)
      && CallsRegistered(r)
      && r.model == model
  {
    RunCatchingPreservesWellFormed(NewRequest(s, model).value, calls, encode, stringify);
  }
}
