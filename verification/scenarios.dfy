/** Properties relating several builder calls: end-to-end examples and the
    edge cases of the builder's checks. */
module Scenarios {
  import opened Wrappers
  import opened Errors
  import opened Validation
  import opened JsonValues
  import opened Requests
  import opened SessionGate
  import opened Builder
  import Chains

  /** initialize("k"), request("gpt-4").userPrompt("hi").go(): the client
      receives the model and the single user message. */
  lemma SingleUserPromptReachesClient()
    ensures Initialize(Uninitialized, "k").Ok?
    ensures var s := Initialize(Uninitialized, "k").value;
      && NewRequest(s, Gpt4).Ok?
      && Go(UserPrompt(NewRequest(s, Gpt4).value, "hi"), 1.0)
         == Ok(Request(Gpt4, [Plain(User, "hi")], None, None, None, None, None, None, None, None))
  {
  }

  /** After a non-zero temperature, top_p is refused and the temperature
      stays as it was. */
  lemma TemperatureBlocksTopP(r: Request, t: real, p: real)
    requires !Truthy(r.topP) && 0.0 < t <= 2.0
    ensures TuneByTemperature(r, t).Returned?
    ensures var s := TuneByTemperature(r, t).state;
      && TuneByProbabilityMass(s, p) == Threw(IncorrectUse(TopPBlocked), s)
      && s.temperature == Some(t)
  {
  }

  /** After a non-zero top_p, temperature is refused and top_p stays. */
  lemma TopPBlocksTemperature(r: Request, p: real, t: real)
    requires !Truthy(r.temperature) && 0.0 < p <= 2.0
    ensures TuneByProbabilityMass(r, p).Returned?
    ensures var s := TuneByProbabilityMass(r, p).state;
      && TuneByTemperature(s, t) == Threw(IncorrectUse(TemperatureBlocked), s)
      && s.topP == Some(p)
  {
  }

  /** A stored temperature of 0 is falsy and blocks nothing: both fields end
      up present. */
  lemma ZeroTemperatureLetsTopPThrough(r: Request, p: real)
    requires !Truthy(r.topP) && 0.0 <= p <= 2.0
    ensures TuneByTemperature(r, 0.0).Returned?
    ensures var s := TuneByProbabilityMass(TuneByTemperature(r, 0.0).state, p);
      && s.Returned?
      && s.state.temperature == Some(0.0)
      && s.state.topP == Some(p)
  {
  }

  /** `setBias("airline", -100)` with a tokenizer that maps "airline" to
      the ids 12 and 345, on a record without a bias map. */
  lemma BiasOnOneTerm(r: Request, encode: string -> seq<int>)
    requires r.logitBias.None?
    requires encode("airline") == [12, 345]
    ensures SetBias(r, OneTerm("airline"), -100.0, encode).Returned?
    ensures SetBias(r, OneTerm("airline"), -100.0, encode).state.logitBias
      == Some(map[12 := -100.0, 345 := -100.0])
  {
    var o := SetBias(r, OneTerm("airline"), -100.0, encode);
    var b := o.state.logitBias.value;
    var ts := OneTerm("airline").AsList();
    assert Produces(encode, ts, 12) && Produces(encode, ts, 345) by {
      assert 12 in encode(ts[0]) && 345 in encode(ts[0]);
    }
    assert BiasOf(r) == map[];
    assert BiasUpdated(map[], b, ts, -100.0, encode);
    forall id | id != 12 && id != 345
      ensures id !in b
    {
      assert !Produces(encode, ts, id);
    }
    assert b.Keys == {12, 345};
    assert b[12] == -100.0 && b[345] == -100.0;
    assert b == map[12 := -100.0, 345 := -100.0];
  }

  /** A weight out of range still leaves an (empty) bias map behind. */
  lemma RejectedWeightCreatesBiasMap(r: Request, terms: BiasTerms, encode: string -> seq<int>)
    requires r.logitBias.None?
    ensures SetBias(r, terms, 101.0, encode).Threw?
    ensures SetBias(r, terms, 101.0, encode).state == r.(logitBias := Some(map[]))
  {
  }

  /** An empty term throws, but the terms before it have already been
      written and the ones after it have not. */
  lemma EmptyTermAfterPartialUpdate(r: Request, encode: string -> seq<int>)
    requires r.logitBias.None?
    requires encode("air") == [7] && encode("line") == [9]
    ensures var o := SetBias(r, TermList(["air", "", "line"]), 5.0, encode);
      && o.Threw? && o.error == IncorrectUse(EmptyTerm)
      && o.state.logitBias == Some(map[7 := 5.0])
  {
    var ts := ["air", "", "line"];
    assert FirstEmpty(ts) == 1 by {
      assert ts[0] != "" && ts[1] == "";
    }
    var applied := ts[..1];
    var o := SetBias(r, TermList(ts), 5.0, encode);
    var b := o.state.logitBias.value;
    assert Produces(encode, applied, 7) by {
      assert 7 in encode(applied[0]);
    }
    assert BiasOf(r) == map[];
    assert BiasUpdated(map[], b, applied, 5.0, encode);
    forall id | id != 7
      ensures id !in b
    {
      assert !Produces(encode, applied, id);
    }
    assert b.Keys == {7};
    assert b[7] == 5.0;
    assert b == map[7 := 5.0];
  }

  /** A function-call prompt is refused until the function is described,
      and accepted after describing it by name. */
  lemma CallNeedsDescription(model: ChatModel, name: string, args: Json, stringify: Json -> string)
    ensures AssistantCallFunctionPrompt(Fresh(model), name, args, stringify).Threw?
    ensures FunctionResponsePrompt(Fresh(model), name, args, stringify).Threw?
    ensures var s := DescribeFunction(Fresh(model), FromName(name, None, None)).state;
      && AssistantCallFunctionPrompt(s, name, args, stringify).Returned?
      && FunctionResponsePrompt(s, name, args, stringify).Returned?
  {
  }

  /** Describing the same name twice is accepted: the registry holds both
      entries. */
  lemma DuplicateNamesAccepted(r: Request, name: string)
    ensures var o1 := DescribeFunction(r, FromName(name, None, None));
      var o2 := DescribeFunction(o1.state, FromName(name, None, None));
      && o1.Returned? && o2.Returned?
      && |Registry(o2.state)| == |Registry(r)| + 2
      && Registry(o2.state)[|Registry(r)|] == Registry(o2.state)[|Registry(r)| + 1]
  {
  }

  /** A rejected structured definition still leaves an (empty) registry. */
  lemma RejectedDefinitionCreatesRegistry(model: ChatModel)
    ensures var o := DescribeFunction(Fresh(model), FromDefinition(Named("1abc")));
      && o.Threw?
      && o.state.functions == Some([])
  {
  }

  /** The choice count is checked before the messages, and any valid count
      hands over the same request. */
  lemma ChoiceCountChecks(r: Request, n1: real, n2: real)
    ensures Go(r, 0.0).Err? && Go(r, 0.0).error.InvalidParameter?
    ensures Go(r, 101.0).Err? && Go(r, 101.0).error.InvalidParameter?
    ensures 1.0 <= n1 <= 100.0 && 1.0 <= n2 <= 100.0 ==> Go(r, n1) == Go(r, n2)
    ensures |r.messages| == 0 && 1.0 <= n1 <= 100.0 ==> Go(r, n1) == Err(IncorrectUse(NoPrompts))
  {
  }

  /** `stopFunctionCalls()` ends a chain: a prompt can be chained before it
      but not after it. */
  lemma StopEndsChain(text: string)
    ensures Chains.Chainable([Chains.SystemPrompt(text), Chains.StopFunctionCalls])
    ensures !Chains.Chainable([Chains.StopFunctionCalls, Chains.SystemPrompt(text)])
  {
    assert !Chains.ReturnsBuilder([Chains.StopFunctionCalls, Chains.SystemPrompt(text)][0]);
  }
}
