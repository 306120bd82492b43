/** The validation primitives: an inclusive numeric range check and the
    name check applied to structured function definitions. */
module Validation {
  import opened Wrappers
  import opened Text
  import opened Errors
  import opened FunctionDefinitions

  /** An inclusive upper bound; `Infinity` bounds nothing. */
  datatype Bound = Finite(value: int) | Infinity

  function BoundString(b: Bound): string
  {
    match b
    case Finite(v) => IntString(v)
    case Infinity => "Infinity"
  }

  /** The reason a range error gives, naming both bounds. */
  function RangeReason(lo: int, hi: Bound): string
  {
    "number is out of range, it must be between " + IntString(lo) + " and " + BoundString(hi)
      + " (both inclusive)."
  }

  /** `n` lies in [lo, hi], both ends included. */
  predicate InRange(n: real, lo: int, hi: Bound)
  {
    lo as real <= n && (hi.Finite? ==> n <= hi.value as real)
  }

  /** `validateNumericInputRange`: returns nothing when `n` is within the
      bounds, and an invalid-parameter error naming `name` otherwise. */
  function ValidateNumericInputRange(name: string, n: real, lo: int, hi: Bound): (c: Check<Error>)
    ensures c.Pass? <==> InRange(n, lo, hi)
    ensures c.Fail? ==> c.error == InvalidParameter(name, RangeReason(lo, hi))
  {
    if n < lo as real || (hi.Finite? && n > hi.value as real) then
      Fail(InvalidParameter(name, RangeReason(lo, hi)))
    else
      Pass
  }

  /** The bounds are inclusive: each end of a finite range passes, and a
      value beyond either end fails. */
  lemma RangeBoundsInclusive(name: string, lo: int, hi: int, eps: real)
    requires lo <= hi && eps > 0.0
    ensures ValidateNumericInputRange(name, lo as real, lo, Finite(hi)).Pass?
    ensures ValidateNumericInputRange(name, hi as real, lo, Finite(hi)).Pass?
    ensures ValidateNumericInputRange(name, lo as real - eps, lo, Finite(hi)).Fail?
    ensures ValidateNumericInputRange(name, hi as real + eps, lo, Finite(hi)).Fail?
  {
  }

  // ---------------------------------------------------------------------
  // Function names.

  const NameParameter := "<functionDefinition>.name"
  const MinNameLength := 1
  const MaxNameLength := 64

  function NameLengthReason(name: string): string
  {
    "(=\"" + name + "\") must have a minimum length of 1 and maximum length of 64."
  }

  function NamePatternReason(name: string): string
  {
    "(=\"" + name + "\") must (1) begin with a letter or underscore and (2) contain only letters, numbers, or underscores."
  }

  /** `[a-zA-Z_]` */
  predicate IsLeadingNameChar(c: char) { IsAsciiUpper(c) || IsAsciiLower(c) || c == '_' }

  /** `[a-zA-Z0-9_]` */
  predicate IsNameChar(c: char) { IsLeadingNameChar(c) || IsAsciiDigit(c) }

  /** The language of `^[A-Za-z_][A-Za-z0-9_]*$`. */
  predicate MatchesIdentifierPattern(s: string)
  {
    && 1 <= |s|
    && IsLeadingNameChar(s[0])
    && forall i :: 1 <= i < |s| ==> IsNameChar(s[i])
  }

  /** Scans `s` from position `i` to the end, accepting name characters. */
  function ScanNameChars(s: string, i: nat): (ok: bool)
    requires i <= |s|
    ensures ok <==> forall j :: i <= j < |s| ==> IsNameChar(s[j])
    decreases |s| - i
  {
    if i == |s| then true else IsNameChar(s[i]) && ScanNameChars(s, i + 1)
  }

  /** `String.prototype.match` with the anchored identifier pattern: null
      when there is no match, and otherwise the array of the whole match and
      its single capture group. */
  function MatchIdentifier(s: string): (m: Option<seq<string>>)
    ensures m.Some? <==> MatchesIdentifierPattern(s)
    ensures m.Some? ==> |m.value| == 2 && m.value[0] == s && m.value[1] == s
  {
    if 1 <= |s| && IsLeadingNameChar(s[0]) && ScanNameChars(s, 1) then Some([s, s]) else None
  }

  /** `validateFunctionDefinition`: the length check comes first, then the
      pattern; the match array's length test never rejects a match. */
  function ValidateFunctionDefinition(f: FunctionDefinition): (c: Check<Error>)
    ensures c.Pass? <==> MinNameLength <= |f.name| <= MaxNameLength && MatchesIdentifierPattern(f.name)
    ensures (|f.name| < MinNameLength || |f.name| > MaxNameLength) ==>
      c == Fail(InvalidParameter(NameParameter, NameLengthReason(f.name)))
    ensures MinNameLength <= |f.name| <= MaxNameLength && !MatchesIdentifierPattern(f.name) ==>
      c == Fail(InvalidParameter(NameParameter, NamePatternReason(f.name)))
  {
    if |f.name| < MinNameLength || |f.name| > MaxNameLength then
      Fail(InvalidParameter(NameParameter, NameLengthReason(f.name)))
    else
      var m := MatchIdentifier(f.name);
      if m.None? || |m.value| < 1 || |m.value| > 2 then
        Fail(InvalidParameter(NameParameter, NamePatternReason(f.name)))
      else
        Pass
  }

  function Named(name: string): FunctionDefinition
  {
    FunctionDefinition(name, None, None)
  }

  /** Names the definition check accepts, the longest allowed included. */
  lemma AcceptedFunctionNames()
    ensures ValidateFunctionDefinition(Named("a_1")).Pass?
    ensures ValidateFunctionDefinition(Named("_x")).Pass?
    ensures ValidateFunctionDefinition(Named(seq(64, _ => 'a'))).Pass?
  {
  }

  /** Names of length 0 and 65 get the length error. */
  lemma LengthRejectedFunctionNames()
    ensures ValidateFunctionDefinition(Named(""))
      == Fail(InvalidParameter(NameParameter, NameLengthReason("")))
    ensures ValidateFunctionDefinition(Named(seq(65, _ => 'a')))
      == Fail(InvalidParameter(NameParameter, NameLengthReason(seq(65, _ => 'a'))))
  {
  }

  /** A leading digit or an inner space gets the pattern error. */
  lemma PatternRejectedFunctionNames()
    ensures ValidateFunctionDefinition(Named("1abc"))
      == Fail(InvalidParameter(NameParameter, NamePatternReason("1abc")))
    ensures ValidateFunctionDefinition(Named("a b"))
      == Fail(InvalidParameter(NameParameter, NamePatternReason("a b")))
  {
    assert !IsLeadingNameChar("1abc"[0]);
    assert !IsNameChar("a b"[1]);
  }
}
