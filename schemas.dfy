/**
 * The request and response schemas of app/schemas/sentiment.py: the label
 * enumeration, the validation a request undergoes before the service sees it,
 * and the range checks on the scores of a response.  A pydantic model whose
 * construction can fail becomes a `Validate…`/`Make…` operation returning a
 * `Result`; the value inside a `Success` is the validated model.
 */
module Schemas {
  import opened Wrappers
  import opened Text
  import Errors

  // ---------------------------------------------------------------------
  // SentimentLabel (lines 15-20)
  // ---------------------------------------------------------------------

  datatype SentimentLabel = Positive | Negative | Neutral
  {
    /** The string value of the enumeration member. */
    function Value(): string {
      match this
      case Positive => "positive"
      case Negative => "negative"
      case Neutral => "neutral"
    }
  }

  /** `SentimentLabel(v)`: look a member up by its value. */
  function LabelFromValue(v: string): (r: Option<SentimentLabel>)
    ensures r.Some? <==> v == "positive" || v == "negative" || v == "neutral"
    ensures r.Some? ==> r.value.Value() == v
  {
    if v == "positive" then Some(Positive)
    else if v == "negative" then Some(Negative)
    else if v == "neutral" then Some(Neutral)
    else None
  }

  /** Every member is found again from its value, so the three values are distinct. */
  lemma LabelValueRoundTrip(l: SentimentLabel)
    ensures LabelFromValue(l.Value()) == Some(l)
  {
  }

  // ---------------------------------------------------------------------
  // What validation can reject
  // ---------------------------------------------------------------------

  const MaxTextLength := 5000
  const MinBatchSize := 1
  const MaxBatchSize := 100

  // Kept as two literals so that the verifier can read the characters of each.
  const BlankTextMessage := "El texto no puede estar vacio" + " o contener solo espacios"
  const IndexedPrefix := "El texto en posicion "

  datatype ValidationError =
    | TextTooShort             // min_length=1 on the raw text
    | TextTooLong              // max_length=5000 on the raw text
    | TextBlank                // text_must_not_be_empty
    | TooFewTexts              // min_length=1 on the list
    | TooManyTexts             // max_length=100 on the list
    | BlankTextAt(index: nat)  // validate_texts, blank check
    | LongTextAt(index: nat)   // validate_texts, length check
    | ScoreOutOfRange          // SentimentScore.score outside [0, 1]
    | ConfidenceOutOfRange     // SentimentResponse.confidence outside [0, 1]
  {
    /** The `ValueError` text the service's own validators raise; pydantic's built-in messages are not modelled. */
    function Message(): (r: Option<string>)
      ensures r.Some? <==> this.TextBlank? || this.BlankTextAt? || this.LongTextAt?
      ensures r.Some? ==> |r.value| > 0
    {
      match this
      case TextBlank => Some(BlankTextMessage)
      case BlankTextAt(i) => Some(IndexedPrefix + Errors.NatToString(i) + " esta vacio")
      case LongTextAt(i) => Some(IndexedPrefix + Errors.NatToString(i) + " excede 5000 caracteres")
      case _ => None
    }
  }

  /**
   * A batch message is the position in decimal between a fixed prefix and a
   * space, followed by a text whose second character tells blank from too long.
   */
  lemma IndexedMessageShape(e: ValidationError)
    requires e.BlankTextAt? || e.LongTextAt?
    ensures var d := Errors.NatToString(e.index);
            var x := e.Message().value;
            && |x| > |IndexedPrefix| + |d| + 2
            && x[9] == 'e'
            && x[|IndexedPrefix|..|IndexedPrefix| + |d|] == d
            && x[|IndexedPrefix| + |d|] == ' '
            && x[|IndexedPrefix| + |d| + 2] == (if e.BlankTextAt? then 's' else 'x')
  {
    var d := Errors.NatToString(e.index);
    var tail := if e.BlankTextAt? then " esta vacio" else " excede 5000 caracteres";
    var x := IndexedPrefix + d + tail;
    assert e.Message().value == x;
    assert x[9] == IndexedPrefix[9];
    assert x[|IndexedPrefix|..|IndexedPrefix| + |d|] == d;
    assert x[|IndexedPrefix| + |d|] == tail[0];
    assert x[|IndexedPrefix| + |d| + 2] == tail[2];
  }

  /**
   * A validator's message identifies the violation: the single-text and the
   * batch messages differ, the two batch messages differ, and a batch message
   * names the offending position.
   */
  lemma MessageIdentifiesError(e1: ValidationError, e2: ValidationError)
    requires e1.Message().Some? && e1.Message() == e2.Message()
    ensures e1 == e2
  {
    if e1.TextBlank? || e2.TextBlank? {
      assert BlankTextMessage[9] == 'n';
      if !e1.TextBlank? {
        IndexedMessageShape(e1);
      } else if !e2.TextBlank? {
        IndexedMessageShape(e2);
      }
    } else {
      IndexedMessageShape(e1);
      IndexedMessageShape(e2);
      var d1 := Errors.NatToString(e1.index);
      var d2 := Errors.NatToString(e2.index);
      assert |d1| == |d2|;
      Errors.NatToStringInjective(e1.index, e2.index);
    }
  }

  // ---------------------------------------------------------------------
  // SentimentRequest (lines 26-50)
  // ---------------------------------------------------------------------

  datatype SentimentRequest = SentimentRequest(text: string, language: string)

  /**
   * `SentimentRequest(text=…, language=…)`: pydantic checks the raw length
   * against 1..5000 first, then the validator rejects a blank text and stores
   * the text stripped.
   */
  function ValidateRequest(text: string, language: string := "en"): (r: Result<SentimentRequest, ValidationError>)
    ensures r.Success? <==> 1 <= |text| <= MaxTextLength && !IsBlank(text)
    ensures r.Success? ==> r.value.text == Strip(text) && r.value.language == language
    ensures |text| < 1 ==> r == Failure(TextTooShort)
    ensures |text| > MaxTextLength ==> r == Failure(TextTooLong)
    ensures 1 <= |text| <= MaxTextLength && IsBlank(text) ==> r == Failure(TextBlank)
  {
    if |text| < 1 then Failure(TextTooShort)
    else if |text| > MaxTextLength then Failure(TextTooLong)
    else if Strip(text) == [] then Failure(TextBlank)
    else Success(SentimentRequest(Strip(text), language))
  }

  /** A text that is already stripped, not empty and within the limit passes unchanged. */
  lemma StrippedTextRevalidates(text: string, language: string)
    requires text != [] && Strip(text) == text && |text| <= MaxTextLength
    ensures ValidateRequest(text, language) == Success(SentimentRequest(text, language))
  {
  }

  /** Validating the text of a validated request again gives the same request. */
  lemma ValidateRequestFixpoint(text: string, language: string)
    requires ValidateRequest(text, language).Success?
    ensures ValidateRequest(ValidateRequest(text, language).value.text, language) == ValidateRequest(text, language)
  {
    StripIdempotent(text);
    StrippedTextRevalidates(Strip(text), language);
  }

  // ---------------------------------------------------------------------
  // BatchSentimentRequest (lines 126-150)
  // ---------------------------------------------------------------------

  /** What `validate_texts` accepts of one element: not blank, at most 5000 raw characters. */
  ghost predicate BatchTextOk(t: string) {
    !IsBlank(t) && |t| <= MaxTextLength
  }

  /** `e` names the first element of `v` that `validate_texts` rejects, and why. */
  ghost predicate FirstRejected(v: seq<string>, e: ValidationError) {
    && (e.BlankTextAt? || e.LongTextAt?)
    && e.index < |v|
    && (forall j :: 0 <= j < e.index ==> BatchTextOk(v[j]))
    && !BatchTextOk(v[e.index])
    && (e.BlankTextAt? <==> IsBlank(v[e.index]))
  }

  /**
   * `validate_texts`: scan in index order, reject the first blank text and
   * then the first text over 5000 raw characters, and return every text stripped.
   */
  method ValidateTexts(v: seq<string>) returns (r: Result<seq<string>, ValidationError>)
    ensures r.Success? <==> forall i :: 0 <= i < |v| ==> BatchTextOk(v[i])
    ensures r.Success? ==> |r.value| == |v| && forall i :: 0 <= i < |v| ==> r.value[i] == Strip(v[i])
    ensures r.Failure? ==> FirstRejected(v, r.error)
  {
    var validated: seq<string> := [];
    for i := 0 to |v|
      invariant |validated| == i
      invariant forall j :: 0 <= j < i ==> BatchTextOk(v[j]) && validated[j] == Strip(v[j])
    {
      var stripped := Strip(v[i]);
      if stripped == [] {
        return Failure(BlankTextAt(i));
      }
      if |v[i]| > MaxTextLength {
        return Failure(LongTextAt(i));
      }
      validated := validated + [stripped];
    }
    return Success(validated);
  }

  /** The rejected index is unique: it is the first element that fails. */
  lemma FirstRejectedUnique(v: seq<string>, e1: ValidationError, e2: ValidationError)
    requires FirstRejected(v, e1) && FirstRejected(v, e2)
    ensures e1 == e2
  {
  }

  datatype BatchSentimentRequest = BatchSentimentRequest(texts: seq<string>, language: string)
  {
    /** What every validated batch satisfies: 1..100 stripped, non-empty texts within the limit. */
    ghost predicate Valid() {
      && MinBatchSize <= |texts| <= MaxBatchSize
      && forall i :: 0 <= i < |texts| ==> texts[i] != [] && Strip(texts[i]) == texts[i] && |texts[i]| <= MaxTextLength
    }
  }

  /** `BatchSentimentRequest(texts=…, language=…)`: the list bounds first, then `validate_texts`. */
  method ValidateBatchRequest(texts: seq<string>, language: string := "en") returns (r: Result<BatchSentimentRequest, ValidationError>)
    ensures |texts| < MinBatchSize ==> r == Failure(TooFewTexts)
    ensures |texts| > MaxBatchSize ==> r == Failure(TooManyTexts)
    ensures MinBatchSize <= |texts| <= MaxBatchSize ==>
              (r.Success? <==> forall i :: 0 <= i < |texts| ==> BatchTextOk(texts[i]))
    ensures MinBatchSize <= |texts| <= MaxBatchSize && r.Failure? ==> FirstRejected(texts, r.error)
    ensures r.Success? ==> r.value.Valid() && r.value.language == language
    ensures r.Success? ==> |r.value.texts| == |texts| && forall i :: 0 <= i < |texts| ==> r.value.texts[i] == Strip(texts[i])
  {
    if |texts| < MinBatchSize {
      return Failure(TooFewTexts);
    }
    if |texts| > MaxBatchSize {
      return Failure(TooManyTexts);
    }
    var v := ValidateTexts(texts);
    if v.Failure? {
      return Failure(v.error);
    }
    forall i | 0 <= i < |texts| ensures Strip(v.value[i]) == v.value[i] {
      StripIdempotent(texts[i]);
    }
    return Success(BatchSentimentRequest(v.value, language));
  }

  /** Each text of a validated batch passes the single-text validation unchanged. */
  lemma BatchTextRevalidates(b: BatchSentimentRequest, i: nat)
    requires b.Valid() && i < |b.texts|
    ensures ValidateRequest(b.texts[i], b.language) == Success(SentimentRequest(b.texts[i], b.language))
  {
    StrippedTextRevalidates(b.texts[i], b.language);
  }

  // ---------------------------------------------------------------------
  // SentimentScore and SentimentResponse (lines 65-102)
  // ---------------------------------------------------------------------

  /** `ge=0.0, le=1.0`. */
  predicate InUnitRange(x: real) {
    0.0 <= x <= 1.0
  }

  /** One per-label score; the schema's `label` field is `sentiment` here, since `label` is a reserved word in Dafny. */
  datatype SentimentScore = SentimentScore(sentiment: SentimentLabel, score: real)

  /** `SentimentScore(label=…, score=…)`: accepted exactly when the score lies in [0, 1]. */
  function MakeScore(sentiment: SentimentLabel, score: real): (r: Result<SentimentScore, ValidationError>)
    ensures r.Success? <==> InUnitRange(score)
    ensures r.Success? ==> r.value.sentiment == sentiment && r.value.score == score
    ensures r.Failure? ==> r.error == ScoreOutOfRange
  {
    if InUnitRange(score) then Success(SentimentScore(sentiment, score)) else Failure(ScoreOutOfRange)
  }

  /** The timestamp field is not modelled. */
  datatype SentimentResponse = SentimentResponse(
    text: string,
    sentiment: SentimentLabel,
    confidence: real,
    scores: seq<SentimentScore>,
    processingTimeMs: real,
    modelVersion: string)
  {
    /** Every score and the confidence lie in [0, 1]. */
    ghost predicate Valid() {
      InUnitRange(confidence) && forall i :: 0 <= i < |scores| ==> InUnitRange(scores[i].score)
    }
  }

  /**
   * `SentimentResponse(…)`: accepted exactly when the confidence lies in
   * [0, 1]; scores that are `SentimentScore` instances are already in range.
   */
  function MakeResponse(text: string, sentiment: SentimentLabel, confidence: real, scores: seq<SentimentScore>,
                        processingTimeMs: real, modelVersion: string): (r: Result<SentimentResponse, ValidationError>)
    ensures r.Success? <==> InUnitRange(confidence)
    ensures r.Failure? ==> r.error == ConfidenceOutOfRange
    ensures r.Success? ==> r.value.text == text && r.value.sentiment == sentiment && r.value.confidence == confidence
    ensures r.Success? ==> r.value.scores == scores && r.value.processingTimeMs == processingTimeMs && r.value.modelVersion == modelVersion
    ensures r.Success? && (forall i :: 0 <= i < |scores| ==> InUnitRange(scores[i].score)) ==> r.value.Valid()
  {
    if InUnitRange(confidence)
    then Success(SentimentResponse(text, sentiment, confidence, scores, processingTimeMs, modelVersion))
    else Failure(ConfidenceOutOfRange)
  }

  /** The timestamp field is not modelled. */
  datatype BatchSentimentResponse = BatchSentimentResponse(
    results: seq<SentimentResponse>,
    totalProcessingTimeMs: real,
    textsAnalyzed: int)
}
