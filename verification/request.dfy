/** The request record a builder accumulates, and the vocabulary its
    operations are stated in. */
module Requests {
  import opened Wrappers
  import opened Errors
  import opened FunctionDefinitions

  /** The two supported models, 'gpt-3.5-turbo' and 'gpt-4'. */
  datatype ChatModel = Gpt35Turbo | Gpt4

  datatype Role = System | User | Assistant | Function

  /** An assistant's request to call a function, with its arguments as text. */
  datatype CallDirective = CallDirective(name: string, arguments: string)

  /** One entry of the conversation. */
  datatype Message =
    | Plain(role: Role, content: string)
    | CallFunction(call: CallDirective)
    | FunctionResult(name: string, content: string)

  /** The `function_call` field: 'none', 'auto', or one named function. */
  datatype CallPolicy = NoCalls | AutoCalls | ForceCall(name: string)

  datatype Request = Request(
    model: ChatModel,
    messages: seq<Message>,
    temperature: Option<real>,
    topP: Option<real>,
    maxTokens: Option<real>,
    presencePenalty: Option<real>,
    frequencyPenalty: Option<real>,
    functions: Option<seq<FunctionDefinition>>,
    logitBias: Option<map<int, real>>,
    functionCall: Option<CallPolicy>)

  /** The record a new builder starts from: the model and no messages. */
  function Fresh(model: ChatModel): Request
  {
    Request(model, [], None, None, None, None, None, None, None, None)
  }

  /** No optional field of the record is present. */
  predicate NothingSet(r: Request)
  {
    && r.temperature.None? && r.topP.None? && r.maxTokens.None?
    && r.presencePenalty.None? && r.frequencyPenalty.None?
    && r.functions.None? && r.logitBias.None? && r.functionCall.None?
  }

  /** JavaScript truthiness of an optional number: present and non-zero. */
  predicate Truthy(v: Option<real>)
  {
    v.Some? && v.value != 0.0
  }

  datatype Field =
    | Model | Messages | Temperature | TopP | MaxTokens
    | PresencePenalty | FrequencyPenalty | Functions | LogitBias | FunctionCall

  /** `a` and `b` agree on every field except possibly `f`. */
  predicate SameExcept(a: Request, b: Request, f: Field)
  {
    && (f != Model ==> a.model == b.model)
    && (f != Messages ==> a.messages == b.messages)
    && (f != Temperature ==> a.temperature == b.temperature)
    && (f != TopP ==> a.topP == b.topP)
    && (f != MaxTokens ==> a.maxTokens == b.maxTokens)
    && (f != PresencePenalty ==> a.presencePenalty == b.presencePenalty)
    && (f != FrequencyPenalty ==> a.frequencyPenalty == b.frequencyPenalty)
    && (f != Functions ==> a.functions == b.functions)
    && (f != LogitBias ==> a.logitBias == b.logitBias)
    && (f != FunctionCall ==> a.functionCall == b.functionCall)
  }

  /** `b` is `a` with exactly `m` appended to the conversation. */
  predicate AppendsMessage(a: Request, b: Request, m: Message)
  {
    && |b.messages| == |a.messages| + 1
    && b.messages[..|a.messages|] == a.messages
    && b.messages[|a.messages|] == m
    && SameExcept(a, b, Messages)
  }

  /** What a builder method leaves behind: the record after a normal
      return, or the error it threw together with the record as the throw
      left it. */
  datatype Outcome = Returned(state: Request) | Threw(error: Error, state: Request)

  /** The registered functions; an absent list holds none. */
  function Registry(r: Request): seq<FunctionDefinition>
  {
    if r.functions.Some? then r.functions.value else []
  }

  /** Some entry of `fs` carries the name `name`. */
  ghost predicate Declares(fs: seq<FunctionDefinition>, name: string)
  {
    exists i :: 0 <= i < |fs| && fs[i].name == name
  }

  /** Position of the first entry named `name`, or `|fs|` if none is. */
  function FirstIndexNamed(fs: seq<FunctionDefinition>, name: string): (i: nat)
    ensures i <= |fs|
    ensures forall j :: 0 <= j < i ==> fs[j].name != name
    ensures i < |fs| ==> fs[i].name == name
    decreases |fs|
  {
    if |fs| == 0 then 0
    else if fs[0].name == name then 0
    else 1 + FirstIndexNamed(fs[1..], name)
  }

  /** `Array.prototype.find` by name: the first entry with that name. */
  function FindFunction(fs: seq<FunctionDefinition>, name: string): (r: Option<FunctionDefinition>)
    ensures r.Some? <==> Declares(fs, name)
    ensures r.Some? ==> r.value.name == name
    ensures r.Some? ==> exists i :: 0 <= i < |fs| && fs[i] == r.value && forall j :: 0 <= j < i ==> fs[j].name != name
  {
    var i := FirstIndexNamed(fs, name);
    if i < |fs| then Some(fs[i]) else None
  }
}
