/**
 * The orchestrator of app/ml/pipeline.py: preprocess the request's text, ask
 * the model for a prediction, and shape the response, for one text or for a
 * batch.  Clock readings are parameters.
 */
module Pipeline {
  import opened Wrappers
  import opened Errors
  import opened Schemas
  import opened Preprocessor
  import opened Model
  import opened Batch

  /** Why an analysis stops: an exception of the service, or a schema that refused a value. */
  datatype Fault = Raised(error: ApiError) | Invalid(violation: ValidationError)

  /** The clock readings of one `analyze` call: the model's inference time and the total. */
  datatype Timing = Timing(predictMs: Millis, totalMs: Millis)

  /** `[SentimentScore(label=s["label"], score=s["score"]) for s in prediction["scores"]]` (line 61). */
  function MakeScores(entries: seq<ScoreEntry>): (r: Result<seq<SentimentScore>, ValidationError>)
    ensures r.Success? <==> forall i :: 0 <= i < |entries| ==> InUnitRange(entries[i].score)
    ensures r.Success? ==> |r.value| == |entries|
    ensures r.Success? ==> forall i :: 0 <= i < |entries| ==>
              r.value[i] == SentimentScore(entries[i].sentiment, entries[i].score)
    ensures r.Failure? ==> r.error == ScoreOutOfRange
    decreases |entries|
  {
    if entries == [] then Success([])
    else
      match MakeScore(entries[0].sentiment, entries[0].score)
      case Failure(e) => Failure(e)
      case Success(first) =>
        match MakeScores(entries[1..])
        case Failure(e) => Failure(e)
        case Success(rest) => Success([first] + rest)
  }

  /**
   * Lines 61-71: turn the model's answer into a `SentimentResponse` that keeps
   * the original text, the model's sentiment, confidence and scores, the
   * total time and the model's name.
   */
  function Respond(text: string, prediction: Result<Prediction, ApiError>, totalMs: Millis, modelVersion: string)
    : (r: Result<SentimentResponse, Fault>)
    ensures prediction.Failure? ==> r == Failure(Raised(prediction.error))
    ensures r.Success? ==> prediction.Success?
    ensures r.Success? ==>
              && r.value.text == text
              && r.value.sentiment == prediction.value.sentiment
              && r.value.confidence == prediction.value.confidence
              && r.value.processingTimeMs == totalMs
              && r.value.modelVersion == modelVersion
              && |r.value.scores| == |prediction.value.scores|
              && (forall i :: 0 <= i < |r.value.scores| ==>
                    && r.value.scores[i].sentiment == prediction.value.scores[i].sentiment
                    && r.value.scores[i].score == prediction.value.scores[i].score)
    ensures r.Success? ==> r.value.Valid()
  {
    match prediction
    case Failure(e) => Failure(Raised(e))
    case Success(p) =>
      match MakeScores(p.scores)
      case Failure(v) => Failure(Invalid(v))
      case Success(scores) =>
        match MakeResponse(text, p.sentiment, p.confidence, scores, totalMs, modelVersion)
        case Failure(v) => Failure(Invalid(v))
        case Success(response) => Success(response)
  }

  /**
   * The confidence check of `SentimentResponse` never fires on a prediction:
   * the confidence is one of the scores, which were checked first.  With every
   * classifier score in [0, 1] the response is always built.
   */
  lemma RespondChecksScoresOnly(text: string, items: seq<RawScore>, ms: Millis, totalMs: Millis, modelVersion: string)
    requires items != []
    ensures Respond(text, Postprocess(Scores(items), ms), totalMs, modelVersion) != Failure(Invalid(ConfidenceOutOfRange))
    ensures (forall i :: 0 <= i < |items| ==> InUnitRange(items[i].score)) ==>
              Respond(text, Postprocess(Scores(items), ms), totalMs, modelVersion).Success?
  {
    var p := Postprocess(Scores(items), ms).value;
    ConfidenceIsBestScore(p, items, ms);
    var k :| 0 <= k < |p.scores| && p.scores[k].score == p.confidence && p.scores[k].sentiment == p.sentiment;
    if MakeScores(p.scores).Success? {
      assert InUnitRange(p.scores[k].score);
    }
    if forall i :: 0 <= i < |items| ==> InUnitRange(items[i].score) {
      assert forall i :: 0 <= i < |p.scores| ==> p.scores[i].score == items[i].score;
    }
  }

  class SentimentPipeline {
    const model: SentimentModel
    const preprocessor: TextPreprocessor

    /**
     * `SentimentPipeline(model=None, preprocessor=None)`: an omitted model is
     * the shared `globalModel`, an omitted preprocessor is `TextPreprocessor()`.
     */
    constructor(model: SentimentModel?, preprocessor: Option<TextPreprocessor>, globalModel: SentimentModel)
      ensures this.model == (if model == null then globalModel else model)
      ensures this.preprocessor == preprocessor.GetOr(TextPreprocessor())
    {
      this.model := if model == null then globalModel else model;
      this.preprocessor := preprocessor.GetOr(TextPreprocessor());
    }

    /** What `analyze(request)` gives on a model in the given state: the model sees the preprocessed text, the response keeps the original. */
    function AnalyzeIn(loaded: bool, classifier: Option<Classifier>, request: SentimentRequest, t: Timing): Result<SentimentResponse, Fault> {
      Respond(request.text, PredictIn(loaded, classifier, Preprocess(preprocessor, request.text), t.predictMs), t.totalMs, model.modelName)
    }

    /** `analyze(request)` (lines 42-79). */
    method Analyze(request: SentimentRequest, t: Timing) returns (r: Result<SentimentResponse, Fault>)
      ensures r == AnalyzeIn(model.loadedFlag, model.pipeline, request, t)
    {
      var processed := Preprocess(preprocessor, request.text);
      var prediction := model.Predict(processed, t.predictMs);
      if prediction.Failure? {
        return Failure(Raised(prediction.error));
      }
      var scores := MakeScores(prediction.value.scores);
      if scores.Failure? {
        return Failure(Invalid(scores.error));
      }
      var response := MakeResponse(request.text, prediction.value.sentiment, prediction.value.confidence,
                                   scores.value, t.totalMs, model.modelName);
      if response.Failure? {
        return Failure(Invalid(response.error));
      }
      return Success(response.value);
    }

    /** What the loop of `analyze_batch` does with the `i`-th text: rebuild a `SentimentRequest`, then analyze it. */
    function ItemIn(loaded: bool, classifier: Option<Classifier>, request: BatchSentimentRequest, timing: nat -> Timing, i: nat)
      : Result<SentimentResponse, Fault>
      requires i < |request.texts|
    {
      match ValidateRequest(request.texts[i], request.language)
      case Failure(v) => Failure(Invalid(v))
      case Success(single) => AnalyzeIn(loaded, classifier, single, timing(i))
    }

    /** One pass of the loop of `analyze_batch` (lines 89-91). */
    method AnalyzeItem(request: BatchSentimentRequest, timing: nat -> Timing, i: nat) returns (r: Result<SentimentResponse, Fault>)
      requires i < |request.texts|
      ensures r == ItemAt(model.loadedFlag, model.pipeline, request, timing)(i)
    {
      var single := ValidateRequest(request.texts[i], request.language);
      if single.Failure? {
        return Failure(Invalid(single.error));
      }
      r := Analyze(single.value, timing(i));
    }

    /** Item `i` of `analyze_batch(request)`, on a model in the given state. */
    function ItemAt(loaded: bool, classifier: Option<Classifier>, request: BatchSentimentRequest, timing: nat -> Timing)
      : nat --> Result<SentimentResponse, Fault>
    {
      (i: nat) requires i < |request.texts| => ItemIn(loaded, classifier, request, timing, i)
    }

    /**
     * `analyze_batch(request)` (lines 81-101): the loop stops at the first
     * fault and propagates it, so no batch response is built; otherwise there
     * is one result per text, in order, and `texts_analyzed` is the number of
     * texts.  `timing(i)` is the clock readings of the `i`-th `analyze`.
     */
    method AnalyzeBatch(request: BatchSentimentRequest, timing: nat -> Timing, totalMs: Millis)
      returns (r: Result<BatchSentimentResponse, Fault>)
      ensures var outcomes := Outcomes(ItemAt(model.loadedFlag, model.pipeline, request, timing), |request.texts|);
              && (r.Success? <==> forall i :: 0 <= i < |outcomes| ==> outcomes[i].Success?)
              && (r.Success? ==>
                    && r.value.textsAnalyzed == |r.value.results| == |request.texts|
                    && r.value.totalProcessingTimeMs == totalMs
                    && forall i :: 0 <= i < |outcomes| ==> outcomes[i] == Success(r.value.results[i]))
              && (r.Failure? ==>
                    exists i :: 0 <= i < |outcomes| && outcomes[i] == Failure(r.error)
                                && forall j :: 0 <= j < i ==> outcomes[j].Success?)
    {
      ghost var f := ItemAt(model.loadedFlag, model.pipeline, request, timing);
      var results: seq<SentimentResponse> := [];
      for i := 0 to |request.texts|
        invariant |results| == i
        invariant forall j :: 0 <= j < i ==> Outcomes(f, i)[j] == Success(results[j])
      {
        var result := AnalyzeItem(request, timing, i);
        if result.Failure? {
          FirstFailure(f, |request.texts|, i);
          return Failure(result.error);
        }
        OutcomesExtend(f, i, results, result.value);
        results := results + [result.value];
      }
      return Success(BatchSentimentResponse(results, totalMs, |request.texts|));
    }
  }

  /**
   * In a validated batch the rebuilt request is the text itself, so the only
   * faults left are the model's: the `i`-th result answers the `i`-th text.
   */
  lemma ValidBatchItem(p: SentimentPipeline, request: BatchSentimentRequest, timing: nat -> Timing, i: nat)
    requires request.Valid() && i < |request.texts|
    ensures var r := p.ItemIn(p.model.loadedFlag, p.model.pipeline, request, timing, i);
            && r == p.AnalyzeIn(p.model.loadedFlag, p.model.pipeline, SentimentRequest(request.texts[i], request.language), timing(i))
            && (r.Success? ==> r.value.text == request.texts[i])
  {
    BatchTextRevalidates(request, i);
  }

  /** Without a loaded model every analysis fails with `ModelNotLoadedError`. */
  lemma UnloadedAnalyzeFails(p: SentimentPipeline, request: SentimentRequest, t: Timing)
    requires !p.model.IsLoaded()
    ensures p.AnalyzeIn(p.model.loadedFlag, p.model.pipeline, request, t) == Failure(Raised(ModelNotLoadedError()))
  {
  }
}
