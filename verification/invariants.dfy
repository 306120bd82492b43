/** Properties of a request record that every builder method keeps. */
module Invariants {
  import opened FunctionDefinitions
  import opened Requests

  /** Temperature and top_p are never both truthy. (Both may be present
      when the one stored first is 0.) */
  predicate SamplingExclusive(r: Request)
  {
    !(Truthy(r.temperature) && Truthy(r.topP))
  }

  predicate BiasInRange(b: map<int, real>)
  {
    forall id :: id in b ==> -100.0 <= b[id] <= 100.0
  }

  /** Every stored number lies in the range its setter checks. */
  predicate ValuesInRange(r: Request)
  {
    && (r.temperature.Some? ==> 0.0 <= r.temperature.value <= 2.0)
    && (r.topP.Some? ==> 0.0 <= r.topP.value <= 2.0)
    && (r.maxTokens.Some? ==> 0.0 <= r.maxTokens.value)
    && (r.presencePenalty.Some? ==> -2.0 <= r.presencePenalty.value <= 2.0)
    && (r.frequencyPenalty.Some? ==> -2.0 <= r.frequencyPenalty.value <= 2.0)
    && (r.logitBias.Some? ==> BiasInRange(r.logitBias.value))
  }

  /** A message that refers to a function names a registered one. */
  ghost predicate MessageRegistered(m: Message, fs: seq<FunctionDefinition>)
  {
    match m
    case Plain(_, _) => true
    case CallFunction(c) => Declares(fs, c.name)
    case FunctionResult(n, _) => Declares(fs, n)
  }

  ghost predicate CallsRegistered(r: Request)
  {
    forall i :: 0 <= i < |r.messages| ==> MessageRegistered(r.messages[i], Registry(r))
  }

  ghost predicate WellFormed(r: Request)
  {
    SamplingExclusive(r) && ValuesInRange(r) && CallsRegistered(r)
  }

  /** A message that was registered stays registered when the registry
      grows at its end. */
  lemma MessageRegisteredExtend(m: Message, fs: seq<FunctionDefinition>, gs: seq<FunctionDefinition>)
    requires MessageRegistered(m, fs)
    requires |fs| <= |gs| && gs[..|fs|] == fs
    ensures MessageRegistered(m, gs)
  {
  }
}
