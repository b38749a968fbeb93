/**
 * The exception taxonomy of app/core/exceptions.py: `SentimentAPIException`,
 * whose code defaults to `UNKNOWN_ERROR`, and four subclasses that differ only
 * in the fixed code, the message and the details they pass to the base
 * constructor.  Request validation raises `ValueError` and pydantic's own
 * errors instead; those are `ValidationError` values in the schemas.  A raised exception is an `ApiError` value whose `kind` says
 * which class was instantiated, so a handler for the base class sees all of
 * them.
 */
module Errors {
  import opened Wrappers

  /** The concrete class of a raised exception. */
  datatype ErrorKind = BaseKind | ModelNotLoadedKind | TextTooLongKind | EmptyTextKind | PredictionKind

  /** A value of the `details` dictionary: the source stores integers and strings. */
  datatype DetailValue = IntValue(i: int) | StrValue(s: string)

  /** The attributes every `SentimentAPIException` carries. */
  datatype ApiError = ApiError(kind: ErrorKind, message: string, errorCode: string, details: map<string, DetailValue>)

  const UnknownErrorCode := "UNKNOWN_ERROR"
  const ModelNotLoadedCode := "MODEL_NOT_LOADED"
  const TextTooLongCode := "TXT_TOO_LONG"
  const EmptyTextCode := "EMPTY_TEXT"
  const PredictionErrorCode := "PREDICTION_ERROR"

  /** The code a subclass always passes up; the base class takes its code as an argument. */
  function FixedCode(kind: ErrorKind): Option<string> {
    match kind
    case BaseKind => None
    case ModelNotLoadedKind => Some(ModelNotLoadedCode)
    case TextTooLongKind => Some(TextTooLongCode)
    case EmptyTextKind => Some(EmptyTextCode)
    case PredictionKind => Some(PredictionErrorCode)
  }

  /** Which subclass, if any, owns an error code. */
  function KindOfCode(code: string): (k: ErrorKind)
    ensures k == BaseKind || FixedCode(k) == Some(code)
  {
    if code == ModelNotLoadedCode then ModelNotLoadedKind
    else if code == TextTooLongCode then TextTooLongKind
    else if code == EmptyTextCode then EmptyTextKind
    else if code == PredictionErrorCode then PredictionKind
    else BaseKind
  }

  /** The subclass codes are pairwise distinct, so a code names its class. */
  lemma FixedCodeRoundTrip(k: ErrorKind)
    requires k != BaseKind
    ensures FixedCode(k).Some? && KindOfCode(FixedCode(k).value) == k
  {
  }

  lemma FixedCodesDistinct(k1: ErrorKind, k2: ErrorKind)
    requires FixedCode(k1).Some? && FixedCode(k1) == FixedCode(k2)
    ensures k1 == k2
  {
    FixedCodeRoundTrip(k1);
    FixedCodeRoundTrip(k2);
  }

  // ---------------------------------------------------------------------
  // Decimal rendering of integers, as in an f-string
  // ---------------------------------------------------------------------

  function DigitChar(d: nat): (c: char)
    requires d < 10
    ensures '0' <= c <= '9'
  {
    ('0' as int + d) as char
  }

  function DigitValue(c: char): nat {
    if '0' <= c <= '9' then (c as int) - ('0' as int) else 0
  }

  /** `str(n)` for a natural number: its decimal digits, most significant first. */
  function NatToString(n: nat): (s: string)
    ensures |s| > 0
    ensures forall i :: 0 <= i < |s| ==> '0' <= s[i] <= '9'
    ensures |s| > 1 ==> s[0] != '0'
    decreases n
  {
    if n < 10 then [DigitChar(n)] else NatToString(n / 10) + [DigitChar(n % 10)]
  }

  /** Reading decimal digits back. */
  function ParseNat(s: string): nat
    decreases |s|
  {
    if s == [] then 0 else 10 * ParseNat(s[..|s| - 1]) + DigitValue(s[|s| - 1])
  }

  lemma {:induction false} ParseNatToString(n: nat)
    ensures ParseNat(NatToString(n)) == n
    decreases n
  {
    var s := NatToString(n);
    if n < 10 {
      assert s[..|s| - 1] == [];
    } else {
      ParseNatToString(n / 10);
      assert s[..|s| - 1] == NatToString(n / 10);
    }
  }

  /** `str(n)` for any integer: a minus sign before the digits of a negative number. */
  function IntToString(n: int): (s: string)
    ensures n < 0 <==> (|s| > 0 && s[0] == '-')
  {
    if n < 0 then "-" + NatToString(-n) else NatToString(n)
  }

  lemma NatToStringInjective(a: nat, b: nat)
    requires NatToString(a) == NatToString(b)
    ensures a == b
  {
    ParseNatToString(a);
    ParseNatToString(b);
  }

  /** Distinct integers print differently, so the rendered limit identifies it. */
  lemma IntToStringInjective(a: int, b: int)
    requires IntToString(a) == IntToString(b)
    ensures a == b
  {
    if a < 0 {
      assert ("-" + NatToString(-a))[1..] == NatToString(-a);
      assert ("-" + NatToString(-b))[1..] == NatToString(-b);
      NatToStringInjective(-a, -b);
    } else {
      NatToStringInjective(a, b);
    }
  }

  // ---------------------------------------------------------------------
  // The five constructors
  // ---------------------------------------------------------------------

  /** `SentimentAPIException(message, error_code="UNKNOWN_ERROR", details=None)`. */
  function SentimentAPIException(message: string, errorCode: string := UnknownErrorCode,
                                 details: Option<map<string, DetailValue>> := None): (e: ApiError)
    ensures e.kind == BaseKind && e.message == message && e.errorCode == errorCode
    ensures details.None? ==> e.details == map[]
    ensures details.Some? ==> e.details == details.value
  {
    ApiError(BaseKind, message, errorCode, details.GetOr(map[]))
  }

  const ModelNotLoadedDefault := "El modelo no esta disponible"

  /** `ModelNotLoadedError(message="El modelo no esta disponible")`. */
  function ModelNotLoadedError(message: string := ModelNotLoadedDefault): (e: ApiError)
    ensures e.kind == ModelNotLoadedKind && Some(e.errorCode) == FixedCode(e.kind)
    ensures e.message == message && e.details == map[]
  {
    var b := SentimentAPIException(message, ModelNotLoadedCode);
    b.(kind := ModelNotLoadedKind)
  }

  const TextTooLongPrefix := "El texto excede el limite de "
  const TextTooLongSuffix := " caracteres"

  /** `TextTooLongError(max_length, actual_length)`. */
  function TextTooLongError(maxLength: int, actualLength: int): (e: ApiError)
    ensures e.kind == TextTooLongKind && Some(e.errorCode) == FixedCode(e.kind)
    ensures e.message == TextTooLongPrefix + IntToString(maxLength) + TextTooLongSuffix
    ensures e.details.Keys == {"max_length", "actual_length"}
    ensures e.details["max_length"] == IntValue(maxLength) && e.details["actual_length"] == IntValue(actualLength)
  {
    var b := SentimentAPIException(
      TextTooLongPrefix + IntToString(maxLength) + TextTooLongSuffix, TextTooLongCode,
      Some(map["max_length" := IntValue(maxLength), "actual_length" := IntValue(actualLength)]));
    b.(kind := TextTooLongKind)
  }

  /** The limit in a `TextTooLongError` message can be read back. */
  lemma TextTooLongMessageNamesLimit(m1: int, a1: int, m2: int, a2: int)
    requires TextTooLongError(m1, a1).message == TextTooLongError(m2, a2).message
    ensures m1 == m2
  {
    var p := TextTooLongPrefix;
    var x := TextTooLongError(m1, a1).message;
    var y := TextTooLongError(m2, a2).message;
    var s1 := IntToString(m1);
    var s2 := IntToString(m2);
    assert |s1| == |s2| by {
      assert |x| == |p| + |s1| + |TextTooLongSuffix|;
      assert |y| == |p| + |s2| + |TextTooLongSuffix|;
    }
    assert x[|p|..|p| + |s1|] == s1;
    assert y[|p|..|p| + |s2|] == s2;
    IntToStringInjective(m1, m2);
  }

  const EmptyTextMessage := "El texto no puede estar vacio"

  /** `EmptyTextError()`. */
  function EmptyTextError(): (e: ApiError)
    ensures e.kind == EmptyTextKind && Some(e.errorCode) == FixedCode(e.kind)
    ensures e.message == EmptyTextMessage && e.details == map[]
  {
    SentimentAPIException(EmptyTextMessage, EmptyTextCode).(kind := EmptyTextKind)
  }

  /**
   * `PredictionError(message, original_error=None)`.  The cause is given as
   * its `str()`; an exception object is always truthy, so the detail is
   * present exactly when a cause is.
   */
  function PredictionError(message: string, originalError: Option<string> := None): (e: ApiError)
    ensures e.kind == PredictionKind && Some(e.errorCode) == FixedCode(e.kind)
    ensures e.message == message
    ensures "original_error" in e.details <==> originalError.Some?
    ensures originalError.Some? ==> e.details == map["original_error" := StrValue(originalError.value)]
    ensures originalError.None? ==> e.details == map[]
  {
    var details := if originalError.Some? then Some(map["original_error" := StrValue(originalError.value)]) else None;
    SentimentAPIException(message, PredictionErrorCode, details).(kind := PredictionKind)
  }

  /** Whatever arguments were given, the code of a subclass instance is its own fixed code. */
  lemma SubclassCodesFixed(message: string, cause: Option<string>, m: int, a: int)
    ensures KindOfCode(ModelNotLoadedError(message).errorCode) == ModelNotLoadedKind
    ensures KindOfCode(TextTooLongError(m, a).errorCode) == TextTooLongKind
    ensures KindOfCode(EmptyTextError().errorCode) == EmptyTextKind
    ensures KindOfCode(PredictionError(message, cause).errorCode) == PredictionKind
  {
    FixedCodeRoundTrip(ModelNotLoadedKind);
    FixedCodeRoundTrip(TextTooLongKind);
    FixedCodeRoundTrip(EmptyTextKind);
    FixedCodeRoundTrip(PredictionKind);
  }
}
