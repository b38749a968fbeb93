/**
 * The classifier adapter of app/ml/model.py.  `SentimentModel` holds the load
 * state (`_is_loaded`, `_pipeline`); `predict` asks the loaded classifier for
 * every label's score, picks the first highest score, maps the classifier's
 * label names onto `SentimentLabel` and copies the scores in order.  The
 * classifier itself is a function value supplied at load time.
 */
module Model {
  import opened Wrappers
  import opened Text
  import opened Errors
  import opened Schemas
  import opened Batch

  /** One `{"label": …, "score": …}` entry of the classifier output. */
  datatype RawScore = RawScore(name: string, score: real)

  /** One call of the classifier: its score list, or the text of the exception it raised. */
  datatype InferenceOutcome = Scores(items: seq<RawScore>) | Crash(cause: string)

  type Classifier = string -> InferenceOutcome

  /** A duration read off the clock, in milliseconds. */
  type Millis = r: real | 0.0 <= r witness 0.0

  /** One element of `normalized_scores`. */
  datatype ScoreEntry = ScoreEntry(sentiment: SentimentLabel, score: real)

  /** The dictionary `predict` returns. */
  datatype Prediction = Prediction(sentiment: SentimentLabel, confidence: real, scores: seq<ScoreEntry>, processingTimeMs: real)

  // ---------------------------------------------------------------------
  // Arg-max (line 101)
  // ---------------------------------------------------------------------

  /** `k` is the first index holding the highest score. */
  ghost predicate FirstMax(items: seq<RawScore>, k: int) {
    && 0 <= k < |items|
    && (forall j :: 0 <= j < |items| ==> items[j].score <= items[k].score)
    && (forall j :: 0 <= j < k ==> items[j].score < items[k].score)
  }

  /** `max(scores, key=lambda x: x["score"])`: a later element replaces the best only when strictly greater. */
  function ArgMax(items: seq<RawScore>): (k: nat)
    requires |items| > 0
    ensures FirstMax(items, k)
    decreases |items|
  {
    if |items| == 1 then 0
    else
      var init := items[..|items| - 1];
      var k := ArgMax(init);
      assert forall j :: 0 <= j < |init| ==> init[j] == items[j];
      if items[|items| - 1].score > items[k].score then |items| - 1 else k
  }

  lemma FirstMaxUnique(items: seq<RawScore>, k1: int, k2: int)
    requires FirstMax(items, k1) && FirstMax(items, k2)
    ensures k1 == k2
  {
    assert items[k1].score <= items[k2].score && items[k2].score <= items[k1].score;
  }

  // ---------------------------------------------------------------------
  // Label mapping (lines 104-116)
  // ---------------------------------------------------------------------

  const LabelMapping: map<string, SentimentLabel> := map[
    "POSITIVE" := Positive,
    "NEGATIVE" := Negative,
    "NEUTRAL" := Neutral,
    "LABEL_0" := Negative,
    "LABEL_1" := Positive]

  /**
   * `label_mapping.get(name.upper(), SentimentLabel.NEUTRAL)`: which upper-cased
   * classifier label names give which sentiment; every other name is neutral.
   */
  function MapLabel(name: string): (l: SentimentLabel)
    ensures l == Positive <==> Upper(name) == "POSITIVE" || Upper(name) == "LABEL_1"
    ensures l == Negative <==> Upper(name) == "NEGATIVE" || Upper(name) == "LABEL_0"
    ensures l == Neutral <==> Upper(name) !in {"POSITIVE", "LABEL_1", "NEGATIVE", "LABEL_0"}
  {
    var key := Upper(name);
    if key in LabelMapping then LabelMapping[key] else Neutral
  }

  /** The mapping does not depend on the case of the classifier's label name. */
  lemma MapLabelIgnoresCase(name: string)
    ensures MapLabel(Lower(name)) == MapLabel(name)
  {
    UpperOfLower(name);
  }

  /** The service's own label values map back to themselves. */
  lemma MapLabelOfValue(l: SentimentLabel)
    ensures MapLabel(l.Value()) == l
  {
    match l
    case Positive => assert Upper("positive") == "POSITIVE";
    case Negative => assert Upper("negative") == "NEGATIVE";
    case Neutral => assert Upper("neutral") == "NEUTRAL";
  }

  // ---------------------------------------------------------------------
  // Post-processing (lines 88-139)
  // ---------------------------------------------------------------------

  const PredictionFailurePrefix := "Error durante la prediccion: "

  /** What `max()` raises on an empty sequence (the wording differs between interpreter versions). */
  const EmptyMaxMessage := "max() arg is an empty sequence"

  /** `p` is what `predict` builds from the score list `items` and the measured time `ms`. */
  ghost predicate FaithfulPrediction(p: Prediction, items: seq<RawScore>, ms: real) {
    && |p.scores| == |items|
    && (forall i :: 0 <= i < |items| ==> p.scores[i] == ScoreEntry(MapLabel(items[i].name), items[i].score))
    && (exists k :: FirstMax(items, k) && p.sentiment == MapLabel(items[k].name) && p.confidence == items[k].score)
    && p.processingTimeMs == ms
  }

  /** The error `predict` raises for an exception with text `cause` inside its `try`. */
  function FailedPrediction(cause: string): (e: ApiError)
    ensures e.kind == PredictionKind && e.message == PredictionFailurePrefix + cause
    ensures e.details == map["original_error" := StrValue(cause)]
  {
    PredictionError(PredictionFailurePrefix + cause, Some(cause))
  }

  /**
   * The body of the `try` in `predict`: a crash of the classifier and an
   * empty score list both become a `PredictionError`; otherwise the result is
   * the first arg-max's mapped label and score plus every score, mapped, in order.
   */
  function Postprocess(outcome: InferenceOutcome, ms: Millis): (r: Result<Prediction, ApiError>)
    ensures outcome.Crash? ==> r == Failure(FailedPrediction(outcome.cause))
    ensures outcome.Scores? && outcome.items == [] ==> r == Failure(FailedPrediction(EmptyMaxMessage))
    ensures outcome.Scores? && outcome.items != [] ==> r.Success? && FaithfulPrediction(r.value, outcome.items, ms)
  {
    match outcome
    case Crash(cause) => Failure(FailedPrediction(cause))
    case Scores(items) =>
      if items == [] then Failure(FailedPrediction(EmptyMaxMessage))
      else
        var k := ArgMax(items);
        var normalized := seq(|items|, i requires 0 <= i < |items| => ScoreEntry(MapLabel(items[i].name), items[i].score));
        Success(Prediction(MapLabel(items[k].name), items[k].score, normalized, ms))
  }

  /** The confidence is at least every score, and it is the score of the entry carrying the sentiment. */
  lemma ConfidenceIsBestScore(p: Prediction, items: seq<RawScore>, ms: real)
    requires FaithfulPrediction(p, items, ms)
    ensures forall i :: 0 <= i < |p.scores| ==> p.scores[i].score <= p.confidence
    ensures exists k :: 0 <= k < |p.scores| && p.scores[k].score == p.confidence && p.scores[k].sentiment == p.sentiment
  {
    var k :| FirstMax(items, k) && p.sentiment == MapLabel(items[k].name) && p.confidence == items[k].score;
    assert p.scores[k].score == p.confidence && p.scores[k].sentiment == p.sentiment;
  }

  /** Only one prediction is faithful to a score list and a time: `predict` is deterministic. */
  lemma FaithfulPredictionUnique(p: Prediction, q: Prediction, items: seq<RawScore>, ms: real)
    requires FaithfulPrediction(p, items, ms) && FaithfulPrediction(q, items, ms)
    ensures p == q
  {
    var k :| FirstMax(items, k) && p.sentiment == MapLabel(items[k].name) && p.confidence == items[k].score;
    var m :| FirstMax(items, m) && q.sentiment == MapLabel(items[m].name) && q.confidence == items[m].score;
    FirstMaxUnique(items, k, m);
    assert p.scores == q.scores;
  }

  // ---------------------------------------------------------------------
  // SentimentModel (lines 18-143)
  // ---------------------------------------------------------------------

  const LoadFailurePrefix := "No se pudo cargar el modelo: "

  /** What `predict(text)` gives on a model whose `_is_loaded` is `loaded` and whose `_pipeline` is `classifier`. */
  function PredictIn(loaded: bool, classifier: Option<Classifier>, text: string, ms: Millis): Result<Prediction, ApiError> {
    if loaded && classifier.Some? then Postprocess(classifier.value(text), ms) else Failure(ModelNotLoadedError())
  }

  class SentimentModel {
    /** `_is_loaded` */
    var loadedFlag: bool
    /** `_pipeline` */
    var pipeline: Option<Classifier>
    /** `settings.MODEL_NAME` */
    const modelName: string

    /** A fresh model: nothing loaded yet. */
    constructor(modelName: string)
      ensures this.modelName == modelName && !loadedFlag && pipeline.None?
    {
      this.modelName := modelName;
      loadedFlag := false;
      pipeline := None;
    }

    /** The flag is only ever set together with a classifier. */
    ghost predicate Valid()
      reads this
    {
      loadedFlag ==> pipeline.Some?
    }

    /** `is_loaded`: the flag is set and a classifier is present. */
    function IsLoaded(): (b: bool)
      reads this
      ensures b ==> pipeline.Some?
      ensures Valid() ==> (b <==> loadedFlag)
    {
      loadedFlag && pipeline.Some?
    }

    /**
     * `load()`.  `acquire` is what building the HuggingFace pipeline gives:
     * the classifier, or the text of the exception it raised.  An already
     * loaded model returns at once; a failure raises `ModelNotLoadedError`
     * and leaves the state as it was.
     */
    method Load(acquire: Result<Classifier, string>) returns (err: Option<ApiError>)
      modifies this
      ensures old(loadedFlag) ==> err.None? && loadedFlag && pipeline == old(pipeline)
      ensures !old(loadedFlag) && acquire.Success? ==> err.None? && loadedFlag && pipeline == Some(acquire.value)
      ensures !old(loadedFlag) && acquire.Failure? ==>
                && err == Some(ModelNotLoadedError(LoadFailurePrefix + acquire.error))
                && !loadedFlag && pipeline == old(pipeline)
      ensures old(Valid()) ==> Valid()
      ensures old(Valid()) ==> (IsLoaded() <==> old(IsLoaded()) || acquire.Success?)
    {
      if loadedFlag {
        return None;
      }
      match acquire
      case Failure(cause) =>
        return Some(ModelNotLoadedError(LoadFailurePrefix + cause));
      case Success(classifier) =>
        pipeline := Some(classifier);
        loadedFlag := true;
        return None;
    }

    /** `predict(text)`: the arg-max and the label mapping, then the loop that builds `normalized_scores`. */
    method Predict(text: string, ms: Millis) returns (r: Result<Prediction, ApiError>)
      ensures r == PredictIn(loadedFlag, pipeline, text, ms)
      ensures !IsLoaded() ==> r == Failure(ModelNotLoadedError())
    {
      if !IsLoaded() {
        return Failure(ModelNotLoadedError());
      }
      var outcome := pipeline.value(text);
      if outcome.Crash? {
        return Failure(FailedPrediction(outcome.cause));
      }
      var items := outcome.items;
      if items == [] {
        return Failure(FailedPrediction(EmptyMaxMessage));
      }
      var best := items[ArgMax(items)];
      var sentiment := MapLabel(best.name);
      var normalized: seq<ScoreEntry> := [];
      for i := 0 to |items|
        invariant |normalized| == i
        invariant forall j :: 0 <= j < i ==> normalized[j] == ScoreEntry(MapLabel(items[j].name), items[j].score)
      {
        normalized := normalized + [ScoreEntry(MapLabel(items[i].name), items[i].score)];
      }
      assert normalized == seq(|items|, i requires 0 <= i < |items| => ScoreEntry(MapLabel(items[i].name), items[i].score));
      return Success(Prediction(sentiment, best.score, normalized, ms));
    }

    /**
     * `predict_batch(texts)`: `predict` on each text in order; the first
     * failure propagates and no list is returned.  `clock(i)` is the time
     * measured for the `i`-th text.
     */
    method PredictBatch(texts: seq<string>, clock: nat -> Millis) returns (r: Result<seq<Prediction>, ApiError>)
      ensures var outcomes := Outcomes(PredictionAt(loadedFlag, pipeline, texts, clock), |texts|);
              && (r.Success? <==> forall i :: 0 <= i < |texts| ==> outcomes[i].Success?)
              && (r.Success? ==> |r.value| == |texts| && forall i :: 0 <= i < |texts| ==> outcomes[i] == Success(r.value[i]))
              && (r.Failure? ==>
                    exists i :: 0 <= i < |texts| && outcomes[i] == Failure(r.error)
                                && forall j :: 0 <= j < i ==> outcomes[j].Success?)
    {
      ghost var f := PredictionAt(loadedFlag, pipeline, texts, clock);
      var results: seq<Prediction> := [];
      for i := 0 to |texts|
        invariant |results| == i
        invariant forall j :: 0 <= j < i ==> Outcomes(f, i)[j] == Success(results[j])
      {
        var p := Predict(texts[i], clock(i));
        assert p == f(i);
        if p.Failure? {
          FirstFailure(f, |texts|, i);
          return Failure(p.error);
        }
        OutcomesExtend(f, i, results, p.value);
        results := results + [p.value];
      }
      return Success(results);
    }
  }

  /** Item `i` of `predict_batch(texts)`: `predict` on text `i` by a model in the given state. */
  function PredictionAt(loaded: bool, classifier: Option<Classifier>, texts: seq<string>, clock: nat -> Millis)
    : nat --> Result<Prediction, ApiError>
  {
    (i: nat) requires i < |texts| => PredictIn(loaded, classifier, texts[i], clock(i))
  }

  /** On an unloaded model every text of a batch fails with `ModelNotLoadedError`, so a batch that is not empty fails with it. */
  lemma UnloadedBatchFails(m: SentimentModel, texts: seq<string>, clock: nat -> Millis)
    requires !m.IsLoaded()
    ensures forall i :: 0 <= i < |texts| ==>
              Outcomes(PredictionAt(m.loadedFlag, m.pipeline, texts, clock), |texts|)[i] == Failure(ModelNotLoadedError())
  {
    forall i | 0 <= i < |texts|
      ensures Outcomes(PredictionAt(m.loadedFlag, m.pipeline, texts, clock), |texts|)[i] == Failure(ModelNotLoadedError())
    {
      var f := PredictionAt(m.loadedFlag, m.pipeline, texts, clock);
      OutcomesIndex(f, |texts|, i);
      assert f(i) == PredictIn(m.loadedFlag, m.pipeline, texts[i], clock(i)) == Failure(ModelNotLoadedError());
    }
  }
}
