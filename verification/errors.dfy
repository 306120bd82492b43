/** The error table of the request builder: six kinds of error, each with a
    fixed message prefix followed, for the kinds that carry one, by a
    lower-cased detail clause. */
module Errors {
  import opened Wrappers
  import opened Text

  /** What a caller passed as the cause of an error: an Error object, a
      string, or any other value. */
  datatype Detail = ErrorObject(message: string) | PlainText(text: string) | OtherValue

  const UnavailableDescription := "< Error description not available. >"

  /** `msg`: the lower-cased text of an Error object or a string, and a fixed
      placeholder (not lower-cased) for anything else. */
  function Describe(d: Detail): (s: string)
    ensures d.OtherValue? ==> s == UnavailableDescription
    ensures d.ErrorObject? ==> |s| == |d.message| && HasNoUpper(s) && Lower(s) == Lower(d.message)
    ensures d.PlainText? ==> |s| == |d.text| && HasNoUpper(s) && Lower(s) == Lower(d.text)
  {
    match d
    case ErrorObject(m) => Lower(m)
    case PlainText(t) => Lower(t)
    case OtherValue => UnavailableDescription
  }

  datatype Error =
    | FailedToCreateClient(cause: Detail)
    | NotInitialized
    | InvalidApiKey
    | IncorrectUse(why: string)
    | InvalidParameter(name: string, why: string)
    | OpenAiFailure(cause: Detail)
  {
    function Kind(): Kind
    {
      match this
      case FailedToCreateClient(_) => ClientCreation
      case NotInitialized => ModuleNotInitialized
      case InvalidApiKey => BadApiKey
      case IncorrectUse(_) => Misuse
      case InvalidParameter(_, _) => BadParameter
      case OpenAiFailure(_) => ServerFailure
    }
  }

  /** The six entries of the error table, without their payloads. */
  datatype Kind = ClientCreation | ModuleNotInitialized | BadApiKey | Misuse | BadParameter | ServerFailure

  const FailedToCreateClientPrefix := "Failed to create client: "
  const NotInitializedText := "Module not initialized. " + "You must call the initialize(...) function first."
  const InvalidApiKeyText := "API key used for initialization is invalid."
  const IncorrectUsePrefix := "Incorrect use: "
  const InvalidParameterPrefix := "Invalid parameter '"
  const InvalidParameterSeparator := "': "
  const OpenAiFailurePrefix := "OpenAI server error: "

  /** The fixed text every message of a kind starts with. */
  function Lead(k: Kind): string
  {
    match k
    case ClientCreation => FailedToCreateClientPrefix
    case ModuleNotInitialized => NotInitializedText
    case BadApiKey => InvalidApiKeyText
    case Misuse => IncorrectUsePrefix
    case BadParameter => InvalidParameterPrefix
    case ServerFailure => OpenAiFailurePrefix
  }

  /** The caller-facing text of an error: its kind's fixed text, then the
      described cause, or the caller's reason lower-cased at the end. */
  function Message(e: Error): (m: string)
    ensures StartsWith(m, Lead(e.Kind()))
    ensures e.FailedToCreateClient? || e.OpenAiFailure? ==> m[|Lead(e.Kind())|..] == Describe(e.cause)
    ensures e.IncorrectUse? || e.InvalidParameter? ==>
      var k := |m| - |e.why|;
      && 0 <= k
      && HasNoUpper(m[k..])
      && Lower(m[k..]) == Lower(e.why)
  {
    match e
    case FailedToCreateClient(c) => FailedToCreateClientPrefix + Describe(c)
    case NotInitialized => NotInitializedText
    case InvalidApiKey => InvalidApiKeyText
    case IncorrectUse(why) => IncorrectUsePrefix + Lower(why)
    case InvalidParameter(name, why) => InvalidParameterPrefix + name + InvalidParameterSeparator + Lower(why)
    case OpenAiFailure(c) => OpenAiFailurePrefix + Describe(c)
  }

  predicate StartsWith(s: string, prefix: string) {
    |prefix| <= |s| && s[..|prefix|] == prefix
  }

  /** Reads the kind of an error back from its message text alone. */
  function Classify(m: string): Option<Kind>
  {
    if StartsWith(m, FailedToCreateClientPrefix) then Some(ClientCreation)
    else if m == NotInitializedText then Some(ModuleNotInitialized)
    else if m == InvalidApiKeyText then Some(BadApiKey)
    else if StartsWith(m, IncorrectUsePrefix) then Some(Misuse)
    else if StartsWith(m, InvalidParameterPrefix) then Some(BadParameter)
    else if StartsWith(m, OpenAiFailurePrefix) then Some(ServerFailure)
    else None
  }

  /** A string whose character at `i` differs from the prefix's does not
      start with it. */
  lemma DiffersAt(m: string, prefix: string, i: nat)
    requires i < |m| && i < |prefix| && m[i] != prefix[i]
    ensures !StartsWith(m, prefix)
  {
  }

  lemma PrefixedMessage(prefix: string, rest: string)
    ensures StartsWith(prefix + rest, prefix)
    ensures |prefix| > 0 ==> (prefix + rest)[0] == prefix[0]
  {
    assert (prefix + rest)[..|prefix|] == prefix;
  }

  lemma ClassifyClientCreation(c: Detail)
    ensures Classify(Message(FailedToCreateClient(c))) == Some(ClientCreation)
  {
    var m := Message(FailedToCreateClient(c));
    assert m == FailedToCreateClientPrefix + Describe(c);
    PrefixedMessage(FailedToCreateClientPrefix, Describe(c));
  }

  lemma ClassifyFixedTexts()
    ensures Classify(Message(NotInitialized)) == Some(ModuleNotInitialized)
    ensures Classify(Message(InvalidApiKey)) == Some(BadApiKey)
  {
    assert FailedToCreateClientPrefix[0] == 'F';
    assert NotInitializedText[0] == 'M' && InvalidApiKeyText[0] == 'A';
    DiffersAt(NotInitializedText, FailedToCreateClientPrefix, 0);
    DiffersAt(InvalidApiKeyText, FailedToCreateClientPrefix, 0);
  }

  lemma ClassifyMisuse(why: string)
    ensures Classify(Message(IncorrectUse(why))) == Some(Misuse)
  {
    var m := Message(IncorrectUse(why));
    assert m == IncorrectUsePrefix + Lower(why);
    PrefixedMessage(IncorrectUsePrefix, Lower(why));
    assert FailedToCreateClientPrefix[0] == 'F' && m[0] == 'I';
    assert NotInitializedText[0] == 'M' && InvalidApiKeyText[0] == 'A';
    DiffersAt(m, FailedToCreateClientPrefix, 0);
  }

  /** Any text after the invalid-parameter prefix reads as that kind. */
  lemma ClassifyParameterText(m: string, d: string)
    requires m == InvalidParameterPrefix + d
    ensures Classify(m) == Some(BadParameter)
  {
    PrefixedMessage(InvalidParameterPrefix, d);
    assert FailedToCreateClientPrefix[0] == 'F' && m[0] == 'I';
    assert NotInitializedText[0] == 'M' && InvalidApiKeyText[0] == 'A';
    DiffersAt(m, FailedToCreateClientPrefix, 0);
    assert m[2] == 'v' && IncorrectUsePrefix[2] == 'c';
    DiffersAt(m, IncorrectUsePrefix, 2);
  }

  lemma ClassifyBadParameter(name: string, why: string)
    ensures Classify(Message(InvalidParameter(name, why))) == Some(BadParameter)
  {
    var d := name + InvalidParameterSeparator + Lower(why);
    assert Message(InvalidParameter(name, why)) == InvalidParameterPrefix + d;
    ClassifyParameterText(Message(InvalidParameter(name, why)), d);
  }

  lemma ClassifyServerFailure(c: Detail)
    ensures Classify(Message(OpenAiFailure(c))) == Some(ServerFailure)
  {
    var m := Message(OpenAiFailure(c));
    assert m == OpenAiFailurePrefix + Describe(c);
    PrefixedMessage(OpenAiFailurePrefix, Describe(c));
    assert FailedToCreateClientPrefix[0] == 'F' && m[0] == 'O';
    assert IncorrectUsePrefix[0] == 'I' && InvalidParameterPrefix[0] == 'I';
    assert NotInitializedText[0] == 'M' && InvalidApiKeyText[0] == 'A';
    DiffersAt(m, FailedToCreateClientPrefix, 0);
    DiffersAt(m, IncorrectUsePrefix, 0);
    DiffersAt(m, InvalidParameterPrefix, 0);
  }

  /** The fixed prefixes keep the kinds apart: the message of every error
      tells which entry of the table produced it. */
  lemma MessageIdentifiesKind(e: Error)
    ensures Classify(Message(e)) == Some(e.Kind())
  {
    match e
    case FailedToCreateClient(c) => ClassifyClientCreation(c);
    case NotInitialized => ClassifyFixedTexts();
    case InvalidApiKey => ClassifyFixedTexts();
    case IncorrectUse(why) => ClassifyMisuse(why);
    case InvalidParameter(name, why) => ClassifyBadParameter(name, why);
    case OpenAiFailure(c) => ClassifyServerFailure(c);
  }

  /** An incorrect-use message is the fixed prefix followed by the reason,
      equal to it up to case and holding no upper-case letter. */
  lemma IncorrectUseMessage(why: string)
    ensures var m := Message(IncorrectUse(why));
      && |m| == |IncorrectUsePrefix| + |why|
      && StartsWith(m, IncorrectUsePrefix)
      && HasNoUpper(m[|IncorrectUsePrefix|..])
      && Lower(m[|IncorrectUsePrefix|..]) == Lower(why)
  {
  }

  /** An invalid-parameter message carries the parameter name verbatim, with
      its case kept, and only the reason after it is lower-cased. */
  lemma InvalidParameterMessage(name: string, why: string)
    ensures var m := Message(InvalidParameter(name, why));
      var n := |InvalidParameterPrefix|;
      var k := n + |name| + |InvalidParameterSeparator|;
      && |m| == k + |why|
      && StartsWith(m, InvalidParameterPrefix)
      && m[n..n + |name|] == name
      && m[n + |name|..k] == InvalidParameterSeparator
      && HasNoUpper(m[k..])
      && Lower(m[k..]) == Lower(why)
  {
  }
}
