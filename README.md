# SpamGuard scoring engine in Dafny

This project models the spam scoring engine of SpamGuard, the class
`SpamDetectionModel` of `src/model.js`, together with the older, smaller
`SpamDetectionModel` of the root `model.js`.

The engine judges a message from two signals: its sender's phone number and
its text. It has five parts:

- **Phone normalisation** keeps the digits and `+` signs of a phone.
- **Area-code extraction** takes the three characters after an optional
  international marker (`+` or `00`).
- **The phone analyser** works as follows:
  - a blacklisted number scores 1 on its own;
  - otherwise six rules each add a weight when they fire: spam history,
    spam area code, three equal characters, a sequential run, a short code
    and a premium prefix;
  - the sum is clamped to 1.
- **The text analyser** adds a keyword share and five style weights (`!`,
  capitals, money, urgency words, link words), and clamps the sum to 1.
- **The trained/untrained state machine**:
  - `train` files per-phone spam/ham counters and a phone blacklist, and hands
    the texts to a Bayes classifier;
  - `predict` fuses the scores as `0.5·phone + 0.4·text + 0.1·classifier` and
    calls the message spam strictly above 0.3.

Modules:

| module | file | models |
|---|---|---|
| `Wrappers` | wrappers.dfy | `Option`, `Result` and `Outcome`, for null and thrown errors |
| `Strings` | strings.dfy | character classes, ASCII case folding, substring search, `join`, decimal digits |
| `Records` | records.dfy | training records, classifier documents, phone metrics, verdicts, errors |
| `Scoring` | scoring.dfy | the running `{score, reasons}` both analysers build, one rule at a time, and the final `Math.min(score, 1)` |
| `PhoneNormalizer` | phone_normalizer.dfy | `normalizePhone`, `extractAreaCode` |
| `PhoneRisk` | phone_risk.dfy | the rules of `analyzePhoneNumber`, each regular expression written out as a predicate |
| `TextRisk` | text_risk.dfy | the rules of `calculateTextSpamScore` |
| `Training` | training.dfy | what `train` builds, as a function of the records seen so far, and the invariant it keeps |
| `Fusion` | fusion.dfy | the weighted sum, the threshold and the reason text of `predict` |
| `SpamModel` | spam_model.dfy | the class of `src/model.js`, its methods proved against the functions above |
| `LegacyModel` | legacy_model.dfy | the class of the root `model.js` |

Mapping to Dafny:

- A JavaScript string that may be `null`, `undefined` or `""` is an
  `Option<string>`. `Present` is its truthiness: `Some` and not `""`.
- Both classes keep their mutable state as fields: the blacklist is a `set`,
  the metrics `Map` is a `map`, and the classifier's documents are a `seq`.
- The text preprocessor and the Bayes classifier are `const` function fields,
  given to the constructor.
- A `throw` becomes a `Failure` (or `Fail`) carrying an `Error`.
  - `NotTrained`, `MissingInput` and `InvalidDataset` stand for the three
    errors the source throws. The comment on each constructor gives the
    source's message.
  - `TextNotString` stands for the TypeError the JavaScript runtime raises
    when the older `predict` lower-cases a null text. The source has no
    message of its own for it.
- Each reason is a `Reason` value. Its `Text()` is the exact sentence the
  source pushes; the prediction's `reason` string is built from these
  sentences.

Behaviour of the code worth knowing:

- `train` clears nothing. Training twice adds the second dataset's counts to
  the first's (`SpamModel.SpamDetectionModel.Train`, `Training.RecordAllTally`).
- `normalizePhone` keeps a `+` wherever it stands, not only at the front.
- Any label other than exactly `"spam"` counts as ham.
- `normalizePhone` is idempotent only when its first result is not `""`.
  - A phone with no digit and no `+` gives `""`, and `""` gives `null`
    (`PhoneNormalizer.NormalizeNotIdempotentOnEmpty`).
- A blacklisted phone does not make the confidence 1.
  - The phone score of 1 is weighted by 0.5, so the confidence is
    `0.5 + 0.4·text + 0.1·classifier`.
  - What is guaranteed is a `spam` verdict with confidence at least 0.5
    (`SpamModel.BlacklistedPhoneIsSpam`).
- On state built by `train` alone, the spam-history rule never fires.
  - Every phone with a spam observation is blacklisted, and the blacklist
    check returns first (`Training.HistoryRuleSilent`).
- A keyword in the text can lower the text score.
  - Adding a keyword token while the raw text stays the same never lowers
    the score (`TextRisk.KeywordMonotone`).
  - But the keyword also lengthens the raw text, and the capitals test runs
    on that text.
  - "Ab cd" scores 0.5: one capital among four letters is above the 0.2
    threshold.
  - "Ab cd free" scores only 1/3: its keyword share is one token in three,
    and one capital among eight letters no longer counts
    (`TextRisk.KeywordCanLowerTextScore`).
  - Both scores assume a preprocessor that yields `["ab", "cd"]` and
    `["ab", "cd", "free"]` for these texts. The lemma states this as its
    precondition.

## Model

| member | source | states |
|---|---|---|
| `PhoneNormalizer.KeepPhoneChars` | src/model.js:36 | the filter's output is made only of digits and `+` and is never longer than the input |
| `PhoneNormalizer.KeepPhoneCharsSingle` | src/model.js:36 | on one character the filter keeps a digit or `+` and drops anything else; with `KeepPhoneCharsAppend` this fixes its output on every string |
| `PhoneNormalizer.KeepPhoneCharsAppend` | src/model.js:36 | the filter works character by character: filtering `a + b` is filtering `a` then `b`, so the output is the input's digits and `+` in their original order |
| `PhoneNormalizer.KeepPhoneCharsExact` | src/model.js:36 | the filter leaves a string unchanged iff it is made only of digits and `+` |
| `PhoneNormalizer.KeepPhoneCharsIdempotent` | src/model.js:36 | filtering twice is filtering once |
| `PhoneNormalizer.NormalizePhone` | src/model.js:34-37 | null exactly for a falsy phone; otherwise only digits and `+`, no longer than the input |
| `PhoneNormalizer.NormalizeIdempotent` | src/model.js:34-37 | normalising a normalised phone changes nothing when the first result is non-empty |
| `PhoneNormalizer.NormalizeNotIdempotentOnEmpty` | src/model.js:35-36 | `"n/a"` normalises to `""`, which normalises to null |
| `PhoneNormalizer.TrunkMarker` | src/model.js:96 | the stripped marker is a prefix of the phone: `+` when the phone starts with `+`, otherwise `00` when it starts with `00`, otherwise nothing |
| `PhoneNormalizer.ExtractAreaCode` | src/model.js:94-98 | at most three characters that directly follow the marker; fewer only when the phone ends there |
| `Scoring.Reason.Text` | src/model.js:49-137 | the exact sentence each rule pushes, the history reason carrying the percentage text and the keyword reason the matched keywords joined by ", " |
| `Scoring.StepExtends` | src/model.js:63-66 | one rule keeps the earlier reasons as a prefix, adds one reason iff it fires, and adds at least the given bound of score per new reason |
| `Scoring.Clamp` | src/model.js:88-91 | `Math.min(score, 1)` of a non-negative sum lies in [0, 1], is 1 iff the sum is at least 1, equals the sum otherwise, and keeps the reasons |
| `PhoneRisk.SpamRatio` | src/model.js:55 | the spam ratio is non-negative and at most 1 when the counts are consistent |
| `PhoneRisk.PercentText` | src/model.js:58 | the percentage text ends in a decimal point and one digit, and has no leading zero before a non-zero integer part, as `toFixed(1)` writes it |
| `PhoneRisk.PercentTextValue` | src/model.js:58 | the digits before the point, followed by the one after it, read as the decimal number `floor(ratio × 1000 + 0.5)`: the percentage rounded half up to one decimal |
| `PhoneRisk.HistoryRule` | src/model.js:53-60 | fires iff the phone has a history with spam ratio above 0.2; then it adds 1.5 × ratio (more than 0.3) and the single high-spam-history reason carrying the ratio's percentage text; otherwise it adds nothing |
| `PhoneRisk.IsSpamAreaCode` | src/model.js:62-63 | the area code taken from the normalised phone is one of the spam area codes |
| `PhoneRisk.HasRepeatedRun` | src/model.js:68 | `(.)\1{2,}` matches: three equal characters in a row, none a line terminator |
| `PhoneRisk.HasSequentialRun` | src/model.js:73 | one of the fifteen four-digit ascending or descending runs occurs in the phone |
| `PhoneRisk.IsShortCode` | src/model.js:78 | `^\d{4,6}$` matches: the whole phone is four to six digits |
| `PhoneRisk.HasPremiumPrefix` | src/model.js:83 | the premium-prefix pattern matches: the phone starts with one of the eight premium codes, after an optional `+` or `00` |
| `PhoneRisk.PatternRules` | src/model.js:62-86 | the five pattern rules keep the earlier reasons as a prefix, add at most five reasons, and each added reason brings at least 0.7 |
| `PhoneRisk.PatternRulesSum` | src/model.js:62-86 | the pattern rules add exactly the weights of the tests that hold, and append their reasons in the order area code, repeated, sequential, short code, premium |
| `PhoneRisk.PhoneScore` | src/model.js:53-86 | the unclamped phone score is non-negative, has at most six reasons, and extends the history rule's result |
| `PhoneRisk.PhoneAnalysis` | src/model.js:39-92 | the score lies in [0, 1]; a falsy phone gives score 0 with no reasons; a blacklisted normalised phone gives exactly score 1 with the single blacklist reason |
| `PhoneRisk.PhoneAnalysisSum` | src/model.js:39-92 | past the blacklist, the score is `min(history + Σ weights of the pattern tests that hold, 1)` and the reasons are the history reason then the pattern reasons in rule order |
| `PhoneRisk.AreaCodeMatchesPremiumPrefix` | src/model.js:62-86 | for the six codes in both lists, the area-code rule fires for that code iff the premium rule does |
| `PhoneRisk.MarkerBeforeCode` | src/model.js:96 | a phone that starts with `+`, `00` or nothing and then a code not starting with `+` or `0` has exactly that marker stripped, and the code follows it |
| `PhoneRisk.TwoRulesSaturate` | src/model.js:53-91 | when two or more phone rules fire, the clamped phone score is 1 |
| `TextRisk.SpamWords` | src/model.js:107 | the matched tokens are keywords, no more than the tokens, and none exactly when no token is a keyword |
| `TextRisk.SpamWordsAppend` | src/model.js:107 | the filter works token by token: the keywords of `a + b` are those of `a` followed by those of `b` |
| `TextRisk.SpamWordsSingle` | src/model.js:107 | on one token the filter keeps a keyword and drops anything else; with `SpamWordsAppend` this fixes its output on every token list |
| `TextRisk.KeywordRule` | src/model.js:107-112 | fires iff some token is a keyword; then it adds the keyword share (in (0, 1], with share × token count = match count, so never a division by zero) and the keyword reason; otherwise it adds nothing |
| `TextRisk.UpperCaseRatio` | src/model.js:119 | the capital share is in [0, 1] whenever the text has a letter |
| `TextRisk.ExcessiveCaps` | src/model.js:119-120 | the capitals test: capitals are more than 0.2 of the ASCII letters; a text without letters never passes |
| `TextRisk.StyleRules` | src/model.js:114-138 | the five style rules keep the earlier reasons as a prefix, add at most five reasons, and each added reason brings at least 0.4 |
| `TextRisk.StyleRulesSum` | src/model.js:114-138 | the style rules add exactly the weights of the tests that hold, and append their reasons in the order exclamation, capitals, money, urgency, links |
| `TextRisk.StyleRulesShift` | src/model.js:114-138 | the style rules add the same amount whatever score they start from |
| `TextRisk.TextScore` | src/model.js:103-138 | the unclamped text score is non-negative, has at most six reasons, and extends the keyword rule's result |
| `TextRisk.TextAnalysis` | src/model.js:100-144 | the score lies in [0, 1]; a falsy text gives score 0 with no reasons |
| `TextRisk.TextAnalysisSum` | src/model.js:100-144 | for a present text, the score is `min(keyword share + Σ weights of the style tests that hold, 1)` and the reasons follow in rule order |
| `TextRisk.NoLettersNoCaps` | src/model.js:119-123 | a text without ASCII letters never earns the capitalisation weight |
| `TextRisk.HasMoneyAmount` | src/model.js:125 | `[$£€]\d+` matches: a currency sign directly followed by a digit somewhere in the text |
| `TextRisk.ContainsAnyIgnoringCase` | src/model.js:130-135 | the `/…/i` tests: one of the words occurs in the text once ASCII letters are folded to lower case |
| `TextRisk.KeywordRuleGrows` | src/model.js:107-112 | one more keyword token never lowers the keyword share: k/n grows to at least (k+1)/(n+1) |
| `TextRisk.KeywordMonotone` | src/model.js:107-138 | adding one more keyword token while the raw text, and so the five style tests, stay the same never lowers the text score |
| `TextRisk.KeywordCanLowerTextScore` | src/model.js:103-143 | with the raw text not held fixed, appending a keyword can lower the score: "Ab cd" scores 0.5 and "Ab cd free" scores 1/3 |
| `Training.PhoneKey` | src/model.js:152-155 | a record is filed under a phone iff its phone is present and normalises to something non-empty |
| `Training.Record` | src/model.js:151-172 | one pass of the first loop over one record; the lemmas in the rows below state what it does |
| `Training.RecordAll` | src/model.js:151-172 | the first loop over all records, from a given state; the lemmas in the rows below state what it does |
| `Training.RecordConsistent` | src/model.js:151-172 | one record keeps the training invariant (see the next row) |
| `Training.RecordAllConsistent` | src/model.js:151-172 | the training invariant holds throughout: every history is keyed by a non-empty normalised phone, has `total == spamCount + hamCount > 0`, and a phone is blacklisted iff its history has a spam observation |
| `Training.RecordAllGrows` | src/model.js:151-172 | training never removes a history or a blacklisted phone |
| `Training.RecordAllBlacklist` | src/model.js:163-165 | the blacklist gains exactly the normalised phones of the records labelled `"spam"` |
| `Training.RecordAllTally` | src/model.js:157-171 | each history's spam and ham counters grow by exactly the number of spam and non-spam records filed under that phone |
| `Training.RecordSkipsPhoneless` | src/model.js:152-155 | a record without a usable phone changes neither the histories nor the blacklist |
| `Training.HistoryRuleSilent` | src/model.js:53-60 | on trained state, the spam-history rule adds nothing for a phone that is not blacklisted |
| `Training.DocumentsOf` | src/model.js:174-179 | the classifier gets at most one document per record |
| `Training.DocumentsOfAppend` | src/model.js:174-179 | the second loop works record by record: the documents of `a + b` are those of `a` followed by those of `b` |
| `Training.DocumentsOfSingle` | src/model.js:174-179 | one record gives the document (its preprocessed text and its label) exactly when its text is present, and nothing otherwise; with `DocumentsOfAppend` this fixes the documents of every record list |
| `Fusion.CombinedScore` | src/model.js:204-214 | the weighted sum lies in [0, 1] and is at least half the phone score and 0.4 × the text score |
| `Strings.Join` | src/model.js:227 | `Array.prototype.join` (also used for the keyword list at src/model.js:111): "" for no parts, the part itself for one, and otherwise the first part then the separator at the front |
| `Strings.JoinAppend` | src/model.js:227 | joining `a + b` is joining `a`, the separator, then joining `b` |
| `Fusion.ReasonText` | src/model.js:226-230 | with triggered reasons, the reason is all of them joined by the reason separator and starts with the first; otherwise it is the default sentence for the verdict |
| `Fusion.Fuse` | src/model.js:204-231 | the confidence is the weighted sum of the three scores and lies in [0, 1]; the verdict is spam iff the confidence is strictly above 0.3; a phone score of 1 alone gives spam; the reason is the phone reasons then the text reasons joined by the reason separator (or the default sentence), and leads with the first phone reason, or the first text reason when there is no phone reason |
| `Fusion.FusedReasonSplits` | src/model.js:216-227 | with reasons from both analysers, the reason is the joined phone reasons, the separator, then the joined text reasons |
| `Fusion.ThresholdIsStrict` | src/model.js:221 | a combined score of exactly 0.3 is ham |
| `SpamModel.ClassifierScore` | src/model.js:197-202 | the classifier's spam value for the preprocessed text when the text is present, and 0 otherwise |
| `SpamModel.PredictOutcome` | src/model.js:185-231 | fails with "Model not trained" before training; fails with the missing-input error when text and phone are both falsy; succeeds otherwise, with the confidence the weighted sum of the phone analysis, the text analysis and the classifier score, spam iff it is above 0.3, and the reason built from the two analyses' reasons |
| `SpamModel.BlacklistedPhoneIsSpam` | src/model.js:46-51 | a blacklisted phone gives spam with confidence at least 0.5, whatever the text, with the blacklist reason first |
| `SpamModel.TrainedSpamPhoneIsSpam` | src/model.js:163-165 | after training on a spam record with a usable phone, predicting with that phone gives spam whatever the text |
| `SpamModel.AddPatternScores` | src/model.js:62-86 | running the five pattern tests on the normalised phone, one at a time, gives exactly `PatternRules` of their outcomes |
| `SpamModel.AddStyleScores` | src/model.js:114-138 | running the five style tests on the text, one at a time, gives exactly `StyleRules` of their outcomes |
| `SpamModel.SpamDetectionModel.constructor` | src/model.js:5-32 | a new model is untrained, with no blacklist, histories or documents |
| `SpamModel.SpamDetectionModel.AnalyzePhoneNumber` | src/model.js:39-92 | the method's result is `PhoneAnalysis` of the current blacklist and histories |
| `SpamModel.SpamDetectionModel.CalculateTextSpamScore` | src/model.js:100-144 | the method's result is `TextAnalysis` of the text |
| `SpamModel.SpamDetectionModel.RecordPhone` | src/model.js:151-172 | one pass of the first loop of `train` updates the histories and blacklist exactly as `Training.Record` says, and leaves the documents and the trained flag alone |
| `SpamModel.SpamDetectionModel.Train` | src/model.js:146-183 | a non-array fails with "Dataset must be an array" and changes nothing; otherwise the histories and blacklist become `RecordAll` of the old ones over the records, the documents gain `DocumentsOf` the records, the model is trained, and the training invariant is kept |
| `SpamModel.SpamDetectionModel.Predict` | src/model.js:185-232 | the method's result is `PredictOutcome` of the current state, including the error cases, the threshold, and spam for a blacklisted phone |
| `LegacyModel.RawSpamPhonesSnoc` | model.js:16-19 | one more record adds its raw phone to the blacklist iff it is labelled `"spam"` and its phone is truthy |
| `LegacyModel.PredictOutcome` | model.js:29-51 | fails before training; a truthy phone found verbatim in the blacklist gives `spam`, confidence 1, "Phone number in blacklist"; past that, fails exactly when the text is null; otherwise the classifier's best label and its value, with a confidence in [0, 1] |
| `LegacyModel.SpamDetectionModel.constructor` | model.js:6-9 | a new model is untrained with an empty blacklist |
| `LegacyModel.SpamDetectionModel.Train` | model.js:15-27 | the blacklist becomes the old one plus exactly the raw phones of the spam records with a truthy phone (it never loses entries), the documents gain one per truthy text, and the model is trained |
| `LegacyModel.SpamDetectionModel.Predict` | model.js:29-51 | the method's result is `LegacyModel.PredictOutcome` of the current state |
| `LegacyModel.TrainedSpamPhoneIsBlacklisted` | model.js:34-40 | after training on a spam record with a truthy phone, that exact phone string gets the blacklist verdict whatever the text |
| `LegacyModel.RawPhoneIsNotNormalised` | model.js:17-18 | the blacklist holds raw strings: blacklisting `"555-0100"` does not catch `"5550100"` |

## Left out

- The Bayes classifier of the `natural` package is left out of both models.
  - In `src/model.js` it is an arbitrary function from the documents added
    so far and a token list to a spam value in [0, 1].
  - In `model.js` it is a function to a best label and its value in [0, 1].
  - Its training and scoring algorithm is not modelled.
- The text preprocessor (src/preprocessor.js) and the legacy `preprocessText`
  are arbitrary functions from a string to tokens, because their tokenizer,
  stop-word list and stemmer are library code.
- Scores are exact reals, not IEEE doubles.
  - `Number(combinedScore.toFixed(3))` is not applied to the confidence.
  - `PhoneRisk.PercentText`: `toFixed(1)` is modelled as rounding the exact
    ratio half up, not as formatting a double.
  - For a text with no ASCII letters, the source's `0/0` (NaN) is modelled as
    "no capitalisation contribution", which is all NaN does in the `> 0.2` test.
- `Fusion.Fuse`: the confidence is the exact weighted sum, and the verdict
  compares that exact sum with 0.3.
  - In doubles, `0.4 * 0.75` is `0.30000000000000004`, so a verdict right at
    the threshold can differ from the model's.
  - The program rounds only the reported confidence (src/model.js:225), after
    the verdict is taken. A combined score in (0.3, 0.3005) is reported as
    spam with confidence 0.3.
- `SpamModel.PredictOutcome`: the confidence is the exact weighted sum, not
  the double rounded to three decimals, for the reasons given under
  `Fusion.Fuse`.
- `Fusion.ThresholdIsStrict`: this holds of exact reals. Its input (text
  score 0.75, nothing else) gives `0.30000000000000004` in doubles, which the
  program calls spam.
- Case-insensitive matching of the urgency and link words folds ASCII letters
  only. That is exact for these ASCII patterns.
- `SpamModel.SpamDetectionModel.AnalyzePhoneNumber` requires every stored
  history to have a positive total. This holds on every state built by
  `train` (`Training.RecordAllConsistent`). The source would divide by zero on
  a hand-made history with total 0.
- The metrics objects are updated in place and put back into the `Map`. The
  model treats them as values, because no reference to them escapes `train`.
- The exported singletons (src/model.js:235, model.js:54) and the legacy
  module-level tokenizer and classifier (model.js:2-3) are not modelled. The
  classifier's state is modelled as the model's `documents`.
- `SpamModel.SpamDetectionModel.Train`: the TypeErrors `train` can raise
  partway through its first loop are not modelled. They come from a null
  dataset item (`item.phone`, src/model.js:152) or a truthy phone that is not
  a string (`phone.replace`, src/model.js:36). In the source the histories and
  the blacklist then already hold the earlier items and `trained` is
  unchanged. A `TrainingRecord` always exists and its phone is a string.
- The legacy `train` over a non-array (a TypeError from `forEach`) is not
  modelled. The legacy `train` takes a sequence of records.
- `LegacyModel.PredictOutcome`: the classifier is assumed always to return a
  label it knows. The source throws when `find` yields `undefined`.
- The HTTP server (index.js), the CSV training scripts (src/train.js,
  train.js) and the Python services (model.py, api.py, app.py) are I/O or
  wrappers over libraries, and are not part of this model.
