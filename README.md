# sentiment-api — a verified model of the analysis core

sentiment-api is a small HTTP service that classifies the sentiment of
short texts. A request carries one text, or a batch of up to 100 texts,
plus a language tag. The schemas validate it first: the text length is
1..5000 characters, the text is not blank, and it is stored stripped. The
pipeline then normalises the text: it removes URLs, e-mail addresses,
mentions and (optionally) hashtags, optionally lower-cases, collapses
whitespace, strips and truncates. It asks a HuggingFace classifier for
every label's score and answers with:
- the top label, mapped onto `positive` / `negative` / `neutral`;
- its score as the confidence;
- every score;
- the elapsed time;
- the model name.

The exceptions of app/core/exceptions.py are `SentimentAPIException` and
its subclasses. Each subclass carries a fixed error code; the base class
defaults to `UNKNOWN_ERROR`. Request validation fails differently: the
service's own validators raise `ValueError`, and pydantic raises its
`ValidationError`. The model keeps the two kinds apart as `Fault.Raised`
and `Fault.Invalid`.

The model is split into these Dafny modules:

- `Text` covers the string primitives the service relies on: Python's
  `isspace`, `strip`, `lower` and `upper`.
- `Preprocessor` is `TextPreprocessor`. Each regular expression is a
  matcher, `MatchLen`. `Sub` is `re.sub(pattern, " ", text)`: a scan from
  left to right that replaces each leftmost match by one space.
  `Preprocess` chains the steps in the source's order.
- `PreprocessorProps` holds what is proved about the normalisation:
  - the whitespace shape of the output;
  - the truncation bounds;
  - that every enabled removal leaves no match behind;
  - the strings that normalisation leaves unchanged;
  - two counterexamples to idempotence.
- `Errors` is the exception taxonomy, as values of `ApiError`.
- `Schemas` covers the pydantic models. Each construction that can fail
  is a `Validate…` or `Make…` operation returning a `Result`, and
  `validate_texts` is a loop.
- `Model` holds `SentimentModel`, a class over the load state:
  - `load` changes the fields;
  - `predict` is arg-max, label mapping and a loop that copies the scores;
  - `predict_batch` is a fail-fast loop.
- `Pipeline` holds `SentimentPipeline`: `analyze`, and `analyze_batch` as
  a fail-fast loop.
- `Batch` is the specification shared by both fail-fast loops.
  `Outcomes(f, n)` is what the first `n` items would give, and lemmas
  relate a loop's early exit to the first failing item.

The service code works in a few places where a plain reading of its design
would suggest otherwise. The model follows the code:

- **Normalisation is not idempotent.** Truncation can leave a trailing
  space that a second pass strips
  (`PreprocessorProps.TruncationBreaksIdempotence`). With `lowercase` on,
  lower-casing runs after URL removal, so `HTTP://X` comes out as the URL
  `http://x` (`PreprocessorProps.LowercaseRevivesUrl`). Idempotence holds
  when neither can happen (`PreprocessorProps.PreprocessIdempotentUncut`).
- **`analyze` itself never rejects a blank text.** Blank and over-long
  texts are refused only by the request schemas. `EmptyTextError` and
  `TextTooLongError` are defined but raised nowhere in the modelled code.
  A validated text can still normalise to `""` (a text that is only a
  URL), and that text reaches the classifier.
- **A failed `load` leaves the state unchanged.** It raises
  `ModelNotLoadedError` with the cause in the message. There is no
  separate "load failed" state.
- **Mentions are not delimited at word boundaries.** `@\w+` matches
  inside any run, for instance after a letter. The e-mail removal runs
  first, so an `@` inside a word has usually been removed with its word
  already.
- **A batch fails as a whole on the first failing text.** No partial
  results are returned.

## Model

| member | source | states |
|---|---|---|
| Text.Lower | app/ml/preprocessor.py:67-68 | `lower()` keeps the length of the text |
| Text.Upper | app/ml/model.py:114 | `upper()` keeps the length of the text |
| Text.Strip | app/schemas/sentiment.py:48-50 | `strip()` is empty exactly when the text is blank; otherwise it neither starts nor ends with whitespace |
| Text.StripIdempotent | app/schemas/sentiment.py:48-50 | stripping twice gives what stripping once gives |
| Text.LowerHasNoUpper | app/ml/preprocessor.py:67-68 | after `lower()` no capital letter is left |
| Text.LowerCharKeepsClasses | app/ml/preprocessor.py:67-68 | lower-casing changes no character's class: whitespace, word character, `@` and `#` stay what they are |
| Text.UpperOfLower | app/ml/model.py:113-116 | upper-casing ignores the case the text had |
| Preprocessor.MatchLen | app/ml/preprocessor.py:19-23 | a match of any pattern is non-empty and inside the text; URL, e-mail, mention and hashtag matches contain no whitespace, a whitespace match only whitespace |
| Preprocessor.Sub | app/ml/preprocessor.py:56-71 | `re.sub(pattern, " ", text)` never lengthens the text, since every match is non-empty |
| Preprocessor.Truncate | app/ml/preprocessor.py:75-76 | the result is a prefix of the text, at most `max_length` characters when the limit is positive, and shorter than the text only when `max_length` is truthy |
| Preprocessor.Preprocess | app/ml/preprocessor.py:46-79 | the output is never longer than the input nor than a positive `max_length`, and never starts with whitespace; its shape, length, removals and idempotence are stated by `PreprocessWhitespace`, `PreprocessLength`, `PreprocessRemoves` and `PreprocessIdempotentUncut` |
| Preprocessor.PreprocessBatch | app/ml/preprocessor.py:81-84 | one output per input, in order, each the single-text preprocessing of its input |
| PreprocessorProps.CollapseSingleSpaced | app/ml/preprocessor.py:71 | after the collapse, every whitespace character is a plain space and no two spaces are adjacent; the collapse is empty exactly when its input is, and keeps whether it starts with whitespace |
| PreprocessorProps.CollapseSingleSpacedFixpoint | app/ml/preprocessor.py:71 | a single-spaced text is left unchanged by the collapse |
| PreprocessorProps.CleanedShape | app/ml/preprocessor.py:71-72 | before truncation the text is single-spaced and has no whitespace at either end |
| PreprocessorProps.PreprocessWhitespace | app/ml/preprocessor.py:46-79 | the output is single-spaced and never starts with whitespace; it ends with whitespace only when truncation cut the cleaned text |
| PreprocessorProps.PreprocessLength | app/ml/preprocessor.py:74-76 | the output is a prefix of the cleaned text: all of it when `max_length` is falsy or not exceeded, exactly `max_length` characters when a positive limit is exceeded, and Python's negative-slice length for a negative limit |
| PreprocessorProps.CleanedOfEmpty | app/ml/preprocessor.py:49-50 | the cleaning steps already map `""` to `""`, so the early return agrees with them |
| PreprocessorProps.SubWithoutMatch | app/ml/preprocessor.py:56 | `re.sub` leaves a text without any match unchanged |
| PreprocessorProps.SubAppend | app/ml/preprocessor.py:56-65 | for every pattern but whitespace, `re.sub` of a text split just before a whitespace character is the concatenation of the two substitutions |
| PreprocessorProps.SubSplitAtSpace | app/ml/preprocessor.py:56-65 | a whitespace character separates two texts that `re.sub` treats independently |
| PreprocessorProps.SubReplacesWord | app/ml/preprocessor.py:56-59 | a URL or e-mail token with no whitespace in it becomes one space |
| PreprocessorProps.MatchMonotone | app/ml/preprocessor.py:19-22 | a pattern that matches at the head of a text still matches once the text is extended |
| PreprocessorProps.SubKeepsNoMatch | app/ml/preprocessor.py:55-65 | after `re.sub` with a pattern, that pattern no longer matches anywhere, and a later removal never creates a match of an earlier pattern |
| PreprocessorProps.RemovalsNoMatch | app/ml/preprocessor.py:55-65 | after the removal steps, no enabled pattern matches anywhere |
| PreprocessorProps.NoMatchLower | app/ml/preprocessor.py:67-68 | lower-casing creates no e-mail, mention or hashtag match |
| PreprocessorProps.StripKeepsNoMatch | app/ml/preprocessor.py:72 | stripping a text without matches leaves none |
| PreprocessorProps.CleanedRemoves | app/ml/preprocessor.py:55-72 | before truncation, no enabled pattern matches anywhere, except URLs when lower-casing is on |
| PreprocessorProps.PreprocessRemoves | app/ml/preprocessor.py:46-79 | the output contains no match of any enabled removal pattern, except URLs when lower-casing is on |
| PreprocessorProps.RemovalsFixpoint | app/ml/preprocessor.py:55-65 | the removal steps leave a text in which no enabled pattern matches unchanged |
| PreprocessorProps.PreprocessFixpoint | app/ml/preprocessor.py:46-79 | a canonical text is its own normalisation: single-spaced, trimmed, free of enabled matches, lower-case when lower-casing is on, within the limit |
| PreprocessorProps.PreprocessIdempotentUncut | app/ml/preprocessor.py:46-79 | normalising twice gives the same text when truncation did not cut and URL removal is not combined with lower-casing |
| PreprocessorProps.LowercaseRevivesUrl | app/ml/preprocessor.py:55-68 | with lower-casing on, `HTTP://X` normalises to `http://x`, which the URL pattern matches |
| PreprocessorProps.TruncationBreaksIdempotence | app/ml/preprocessor.py:74-76 | with `max_length=2`, `"a b"` normalises to `"a "`, which normalises to `"a"` |
| PreprocessorProps.CollapseAppend | app/ml/preprocessor.py:71 | the collapse of a text cut right after a non-space character is the collapse of each part, joined |
| PreprocessorProps.CollapseGap | app/ml/preprocessor.py:71 | the collapse turns the whitespace run between two plain texts into one space |
| PreprocessorProps.RemovalsKeepGap | app/ml/preprocessor.py:55-65 | with hashtags kept, the removals leave two plain texts joined by a whitespace run unchanged |
| PreprocessorProps.PreprocessClosesGap | tests/test_ml/test_pipeline.py:65-74 | with the default options, two plain texts (single-spaced, trimmed, free of URLs, e-mail addresses and mentions) joined by any whitespace run come out joined by one space; the input `"This   is    a   test."` holds three such runs, and the lemma settles one run between texts that are already single-spaced |
| PreprocessorProps.RemovalsDropToken | app/ml/preprocessor.py:55-65 | with the default options, a URL or e-mail token between two plain texts, one space on each side, becomes a space, leaving three spaces |
| PreprocessorProps.PreprocessRemovesToken | tests/test_ml/test_pipeline.py:19-36 | with the default options, a URL or an e-mail address between two plain texts disappears and the texts come out joined by one space, the shape of the URL and e-mail examples |
| PreprocessorProps.NoAtSignNoMatch | app/ml/preprocessor.py:20-21 | a text without `@` holds no e-mail and no mention |
| PreprocessorProps.NoUrlWithoutHOrW | app/ml/preprocessor.py:19 | a text without `h` and `w` holds no URL |
| Errors.SentimentAPIException | app/core/exceptions.py:11-20 | the base exception keeps the message and code; missing details become an empty mapping |
| Errors.ModelNotLoadedError | app/core/exceptions.py:22-29 | code `MODEL_NOT_LOADED`, the given or default message, no details |
| Errors.TextTooLongError | app/core/exceptions.py:31-42 | code `TXT_TOO_LONG`, a message naming the limit in decimal, details holding exactly the limit and the actual length |
| Errors.TextTooLongMessageNamesLimit | app/core/exceptions.py:39 | two such errors with the same message have the same limit |
| Errors.IntToString | app/core/exceptions.py:39 | the decimal rendering starts with `-` exactly when the number is negative |
| Errors.IntToStringInjective | app/core/exceptions.py:39 | distinct integers are rendered differently in the f-string |
| Errors.ParseNatToString | app/core/exceptions.py:39 | the decimal rendering of a natural number reads back as that number |
| Errors.EmptyTextError | app/core/exceptions.py:44-51 | code `EMPTY_TEXT`, its fixed message, no details |
| Errors.PredictionError | app/core/exceptions.py:53-64 | code `PREDICTION_ERROR`; the `original_error` detail is present exactly when a cause is given, and holds its text |
| Errors.KindOfCode | app/core/exceptions.py:23-64 | the class a code names is one whose fixed code it is, or the base class |
| Errors.FixedCodeRoundTrip | app/core/exceptions.py:23-64 | each subclass's code leads back to that subclass |
| Errors.FixedCodesDistinct | app/core/exceptions.py:23-64 | no two subclasses share a code |
| Errors.SubclassCodesFixed | app/core/exceptions.py:22-64 | whatever the arguments, a subclass instance carries its own code |
| Schemas.LabelFromValue | app/schemas/sentiment.py:15-20 | lookup by value succeeds exactly for `positive`, `negative`, `neutral`, and finds the member with that value |
| Schemas.LabelValueRoundTrip | app/schemas/sentiment.py:15-20 | every label is found again from its value |
| Schemas.ValidateRequest | app/schemas/sentiment.py:26-50 | a request is accepted exactly when the raw text has 1..5000 characters and is not blank, and then keeps the stripped text and the language; otherwise the error says which check failed, in the order length then blank |
| Schemas.ValidateRequestFixpoint | app/schemas/sentiment.py:44-50 | validating an accepted request's text again gives the same request |
| Schemas.StrippedTextRevalidates | app/schemas/sentiment.py:44-50 | a stripped, non-empty text within the limit is accepted unchanged |
| Schemas.ValidateTexts | app/schemas/sentiment.py:139-150 | accepts exactly when every text is non-blank and at most 5000 raw characters, and returns each stripped, in order; otherwise names the first offending index, reporting blankness before length |
| Schemas.FirstRejectedUnique | app/schemas/sentiment.py:144-148 | the rejected index and its reason are determined by the list |
| Schemas.ValidateBatchRequest | app/schemas/sentiment.py:126-150 | the list bounds 1..100 come first, then `validate_texts`; an accepted batch holds stripped, non-empty texts within the limit |
| Schemas.BatchTextRevalidates | app/schemas/sentiment.py:139-150 | each text of an accepted batch passes the single-text validation unchanged |
| Schemas.ValidationError.Message | app/schemas/sentiment.py:44-150 | the service's own validators give a non-empty `ValueError` text exactly for a blank single text, a blank batch text and an over-long batch text, and `MessageIdentifiesError` shows the text determines the violation and its position; pydantic's built-in checks have none here |
| Schemas.MessageIdentifiesError | app/schemas/sentiment.py:44-150 | two validator messages are equal only for the same violation: the single-text and batch messages differ, blank and too long differ, and a batch message names the offending position |
| Schemas.MakeScore | app/schemas/sentiment.py:65-74 | a score object exists exactly when the score is in [0, 1] |
| Schemas.MakeResponse | app/schemas/sentiment.py:80-102 | a response exists exactly when the confidence is in [0, 1], and it keeps every given field |
| Model.ArgMax | app/ml/model.py:101 | `max(key=score)` gives the first index holding the highest score |
| Model.FirstMaxUnique | app/ml/model.py:101 | there is only one such index |
| Model.MapLabel | app/ml/model.py:104-116 | `POSITIVE`/`LABEL_1` map to positive and `NEGATIVE`/`LABEL_0` to negative, in any case; every other name maps to neutral |
| Model.MapLabelIgnoresCase | app/ml/model.py:113-116 | the mapping does not depend on the case of the label name |
| Model.MapLabelOfValue | app/ml/model.py:104-116 | the service's own label values map to themselves |
| Model.FailedPrediction | app/ml/model.py:137-139 | a failure inside `predict` becomes a `PredictionError` whose message carries the cause and whose details keep it |
| Model.Postprocess | app/ml/model.py:88-139 | a classifier crash or an empty score list fails with `PredictionError`; otherwise the prediction has the first arg-max's mapped label and score, and every score mapped in order |
| Model.ConfidenceIsBestScore | app/ml/model.py:101-135 | the confidence is at least every score and is the score of an entry carrying the predicted sentiment |
| Model.FaithfulPredictionUnique | app/ml/model.py:98-135 | only one prediction is faithful to a score list and a time |
| Model.SentimentModel.IsLoaded | app/ml/model.py:38-41 | a loaded model has a classifier; in a consistent state the property is the loaded flag |
| Model.SentimentModel.constructor | app/ml/model.py:25-28 | a fresh model is not loaded and has no classifier |
| Model.SentimentModel.Load | app/ml/model.py:48-77 | an already loaded model is unchanged; otherwise success stores the classifier and sets the flag, and failure raises `ModelNotLoadedError` naming the cause and changes nothing; the model is loaded afterwards exactly when it was before or acquisition succeeded |
| Model.SentimentModel.Predict | app/ml/model.py:79-139 | an unloaded model raises `ModelNotLoadedError`; a loaded one gives the post-processed classifier output, with the scores copied by the loop |
| Model.SentimentModel.PredictBatch | app/ml/model.py:141-143 | succeeds exactly when every text's prediction succeeds, with one prediction per text in order; otherwise raises the first failing text's error |
| Model.UnloadedBatchFails | app/ml/model.py:141-143 | on an unloaded model every text of a batch fails with `ModelNotLoadedError` |
| Batch.OutcomesIndex | app/ml/model.py:143 | the `j`-th outcome of a run is the outcome of item `j` |
| Batch.FirstFailure | app/ml/pipeline.py:89-93 | an item that fails after successes is the first failure of the whole run |
| Pipeline.MakeScores | app/ml/pipeline.py:61 | the score list is built exactly when every score is in [0, 1], one entry per prediction score, in order |
| Pipeline.Respond | app/ml/pipeline.py:58-71 | a prediction failure propagates; a response keeps the original text, the model's sentiment, confidence and scores, the total time and the model name, and satisfies the range constraints |
| Pipeline.RespondChecksScoresOnly | app/ml/pipeline.py:61-71 | the confidence check never fails on a prediction, and with every classifier score in [0, 1] the response is always built |
| Pipeline.SentimentPipeline.constructor | app/ml/pipeline.py:29-38 | an omitted model is the shared global model; an omitted preprocessor is one with the default options |
| Pipeline.SentimentPipeline.Analyze | app/ml/pipeline.py:42-79 | the model sees the preprocessed text, and the response is built from the original text and the prediction |
| Pipeline.SentimentPipeline.AnalyzeItem | app/ml/pipeline.py:89-92 | one loop pass rebuilds and validates a single request, then analyzes it |
| Pipeline.SentimentPipeline.AnalyzeBatch | app/ml/pipeline.py:81-101 | succeeds exactly when every text's analysis succeeds, with one response per text in order, `texts_analyzed` equal to the input count and the measured total time; otherwise propagates the first failing text's fault |
| Pipeline.ValidBatchItem | app/ml/pipeline.py:89-92 | in a validated batch, rebuilding the single request changes nothing, so item `i` is the analysis of text `i` and keeps that text |
| Pipeline.UnloadedAnalyzeFails | app/ml/pipeline.py:55 | without a loaded model, every analysis fails with `ModelNotLoadedError` |

## Left out

- `\w`, `lower()` and `upper()` are limited to ASCII letters, digits and the underscore. Python's Unicode word characters and case mappings are not modelled. `\s` follows Python's `isspace` exactly.
- The HuggingFace classifier is a function value supplied to `Load`. Building it (downloading, tokenizer, device choice) is represented only by its outcome. Its output is a list of label names and real scores.
- Clocks: elapsed times are parameters (`Millis`, `Timing`, `clock`). The response timestamp is not modelled.
- `SentimentModel.__new__`, the class-level singleton, is not modelled. The shared global model is passed explicitly to the pipeline's constructor (`globalModel`). The module-level instances `sentiment_model` (app/ml/model.py:148) and `sentiment_pipeline` (app/ml/pipeline.py:106) have no counterpart.
- Scores are mathematical reals. Float rounding, NaN and infinities are not modelled, so neither is what `max` and the range checks do with them.
- Logging is not modelled. It has no effect on results.
- The FastAPI routes, dependencies, exception handlers, `ErrorResponse`, the health endpoint and the settings are not part of this model. Only `settings.MODEL_NAME` appears, as `modelName`.
- Model.Postprocess: the exact message `max()` raises on an empty list depends on the interpreter version; the model uses one fixed text.
- Schemas.ValidateRequest: pydantic's own error messages (for the length and list-size checks) are represented only by which check failed. The messages of the service's own validators are modelled (`ValidationError.Message`).
- Model.SentimentModel.Predict: a classifier that returns something other than a list of label/score entries is not modelled. Only a crash and the empty list reach the `except`.
