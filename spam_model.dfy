/**
 * `SpamDetectionModel` of src/model.js: the trained/untrained state machine
 * that owns the phone histories, the blacklist and the classifier, and fuses
 * the three signals into a verdict.
 *
 * The text preprocessor and the Bayes classifier are collaborators this model
 * does not look into: the preprocessor is any function from text to tokens,
 * and the classifier is any function from the documents it has been given and
 * a token list to a spam probability in [0, 1] (0 when it knows no spam label).
 */
module SpamModel {
  import opened Wrappers
  import opened Strings
  import opened Records
  import opened Scoring
  import opened PhoneNormalizer
  import opened PhoneRisk
  import opened TextRisk
  import opened Training
  import opened Fusion

  type Preprocessor = string -> seq<string>
  type SpamClassifier = (seq<Document>, seq<string>) -> Probability

  /** The classifier's spam value, consulted only when the text is present. */
  function ClassifierScore(classify: SpamClassifier, docs: seq<Document>, preprocess: Preprocessor, text: Option<string>): Probability {
    if Present(text) then classify(docs, preprocess(text.value)) else 0.0
  }

  /** What `predict` returns or throws, as a function of the model's state and the input. */
  function PredictOutcome(
    trained: bool, st: PhoneStats, docs: seq<Document>, preprocess: Preprocessor, classify: SpamClassifier,
    text: Option<string>, phone: Option<string>): (r: Result<Prediction, Error>)
    requires TotalsPositive(st.metrics)
    ensures !trained ==> r == Failure(NotTrained)
    ensures trained && !Present(text) && !Present(phone) ==> r == Failure(MissingInput)
    ensures trained && (Present(text) || Present(phone)) ==> r.Success?
    ensures r.Success? ==> InUnitRange(r.value.confidence) && (r.value.prediction == Spam <==> r.value.confidence > SPAM_THRESHOLD)
    ensures r.Success? ==>
      var phoneAnalysis, textAnalysis := PhoneAnalysis(st.blacklist, st.metrics, phone), TextAnalysis(preprocess, text);
      && r.value.confidence == CombinedScore(phoneAnalysis.score, textAnalysis.score, ClassifierScore(classify, docs, preprocess, text))
      && r.value.reason == ReasonText(Texts(phoneAnalysis.reasons + textAnalysis.reasons), r.value.prediction)
  {
    if !trained then Failure(NotTrained)
    else if !Present(text) && !Present(phone) then Failure(MissingInput)
    else
      Success(Fuse(PhoneAnalysis(st.blacklist, st.metrics, phone), TextAnalysis(preprocess, text),
                   ClassifierScore(classify, docs, preprocess, text)))
  }

  /** A blacklisted phone makes the prediction spam whatever the text, with the blacklist reason first. */
  lemma BlacklistedPhoneIsSpam(
    st: PhoneStats, docs: seq<Document>, preprocess: Preprocessor, classify: SpamClassifier,
    text: Option<string>, phone: Option<string>)
    requires TotalsPositive(st.metrics)
    requires Present(phone) && NormalizePhone(phone).value in st.blacklist
    ensures var r := PredictOutcome(true, st, docs, preprocess, classify, text, phone);
      && r.Success? && r.value.prediction == Spam && r.value.confidence >= PHONE_WEIGHT
      && StartsWith(r.value.reason, Blacklisted.Text())
  {
  }

  /**
   * After training on records that include a spam-labelled record with a usable
   * phone, predicting with that phone gives spam whatever the text.
   */
  lemma TrainedSpamPhoneIsSpam(
    st: PhoneStats, items: seq<TrainingRecord>, k: nat,
    docs: seq<Document>, preprocess: Preprocessor, classify: SpamClassifier, text: Option<string>)
    requires Consistent(st)
    requires k < |items| && IsSpamLabel(items[k]) && PhoneKey(items[k]).Some?
    ensures Consistent(RecordAll(st, items))
    ensures var r := PredictOutcome(true, RecordAll(st, items), docs, preprocess, classify, text, items[k].phone);
      r.Success? && r.value.prediction == Spam && r.value.confidence >= PHONE_WEIGHT
  {
    RecordAllConsistent(st, items);
    RecordAllBlacklist(st, items);
    assert PhoneKey(items[k]).value in SpamPhones(items);
    BlacklistedPhoneIsSpam(RecordAll(st, items), docs, preprocess, classify, text, items[k].phone);
  }

  /**
   * The five pattern tests of `analyzePhoneNumber` on the normalised phone, in
   * source order, each adding its weight to the running score and pushing its
   * reason when its test holds.
   */
  method AddPatternScores(normalizedPhone: string, acc: Analysis) returns (r: Analysis)
    ensures r == PatternRules(acc, IsSpamAreaCode(normalizedPhone), HasRepeatedRun(normalizedPhone),
      HasSequentialRun(normalizedPhone), IsShortCode(normalizedPhone), HasPremiumPrefix(normalizedPhone))
  {
    var score, reasons := acc.score, acc.reasons;
    ghost var steps := acc;

    var areaCode := ExtractAreaCode(normalizedPhone);
    var spamArea := areaCode in SPAM_AREA_CODES;
    if spamArea {
      score := score + SPAM_AREA_WEIGHT;
      reasons := reasons + [SpamAreaCode];
    }
    steps := Step(steps, spamArea, SPAM_AREA_WEIGHT, SpamAreaCode);
    assert Analysis(score, reasons) == steps;

    var repeated := HasRepeatedRun(normalizedPhone);
    if repeated {
      score := score + REPEATED_WEIGHT;
      reasons := reasons + [RepeatedDigits];
    }
    steps := Step(steps, repeated, REPEATED_WEIGHT, RepeatedDigits);
    assert Analysis(score, reasons) == steps;

    var sequential := HasSequentialRun(normalizedPhone);
    if sequential {
      score := score + SEQUENTIAL_WEIGHT;
      reasons := reasons + [SequentialPattern];
    }
    steps := Step(steps, sequential, SEQUENTIAL_WEIGHT, SequentialPattern);
    assert Analysis(score, reasons) == steps;

    var shortCode := IsShortCode(normalizedPhone);
    if shortCode {
      score := score + SHORT_CODE_WEIGHT;
      reasons := reasons + [ShortCodeFormat];
    }
    steps := Step(steps, shortCode, SHORT_CODE_WEIGHT, ShortCodeFormat);
    assert Analysis(score, reasons) == steps;

    var premium := HasPremiumPrefix(normalizedPhone);
    if premium {
      score := score + PREMIUM_WEIGHT;
      reasons := reasons + [PremiumPrefix];
    }
    steps := Step(steps, premium, PREMIUM_WEIGHT, PremiumPrefix);
    assert Analysis(score, reasons) == steps;

    assert spamArea == IsSpamAreaCode(normalizedPhone);
    r := Analysis(score, reasons);
  }

  /**
   * The five tests of `calculateTextSpamScore` on the raw text, in source
   * order, each adding its weight to the running score and pushing its reason
   * when its test holds.
   */
  method AddStyleScores(text: string, acc: Analysis) returns (r: Analysis)
    ensures r == StyleRules(acc, '!' in text, ExcessiveCaps(text), HasMoneyAmount(text),
      ContainsAnyIgnoringCase(text, URGENCY_WORDS), ContainsAnyIgnoringCase(text, LINK_WORDS))
  {
    var score, reasons := acc.score, acc.reasons;
    ghost var steps := acc;

    var exclamation := '!' in text;
    if exclamation {
      score := score + 0.4;
      reasons := reasons + [ExclamationMarks];
    }
    steps := Step(steps, exclamation, 0.4, ExclamationMarks);
    assert Analysis(score, reasons) == steps;

    var upperCaseRatio := UpperCaseRatio(text);
    var caps := upperCaseRatio.Some? && upperCaseRatio.value > CAPS_THRESHOLD;
    if caps {
      score := score + 0.5;
      reasons := reasons + [ExcessiveCapitalization];
    }
    steps := Step(steps, caps, 0.5, ExcessiveCapitalization);
    assert Analysis(score, reasons) == steps;

    var money := HasMoneyAmount(text);
    if money {
      score := score + 0.6;
      reasons := reasons + [MonetaryAmounts];
    }
    steps := Step(steps, money, 0.6, MonetaryAmounts);
    assert Analysis(score, reasons) == steps;

    var urgency := ContainsAnyIgnoringCase(text, URGENCY_WORDS);
    if urgency {
      score := score + 0.7;
      reasons := reasons + [UrgencyIndicators];
    }
    steps := Step(steps, urgency, 0.7, UrgencyIndicators);
    assert Analysis(score, reasons) == steps;

    var link := ContainsAnyIgnoringCase(text, LINK_WORDS);
    if link {
      score := score + 0.6;
      reasons := reasons + [LinkReferences];
    }
    steps := Step(steps, link, 0.6, LinkReferences);
    assert Analysis(score, reasons) == steps;

    assert caps == ExcessiveCaps(text);
    r := Analysis(score, reasons);
  }

  class SpamDetectionModel {
    var phoneBlacklist: set<string>
    var spamPhoneMetrics: map<string, PhoneMetrics>
    /** The documents added to the Bayes classifier so far; the classifier is a function of them. */
    var documents: seq<Document>
    var trained: bool
    const preprocess: Preprocessor
    const spamProbability: SpamClassifier

    function Stats(): PhoneStats
      reads this
    {
      PhoneStats(spamPhoneMetrics, phoneBlacklist)
    }

    ghost predicate Valid()
      reads this
    {
      Consistent(Stats())
    }

    constructor (preprocess: Preprocessor, spamProbability: SpamClassifier)
      ensures Valid() && !trained
      ensures phoneBlacklist == {} && spamPhoneMetrics == map[] && documents == []
      ensures this.preprocess == preprocess && this.spamProbability == spamProbability
    {
      this.preprocess := preprocess;
      this.spamProbability := spamProbability;
      phoneBlacklist := {};
      spamPhoneMetrics := map[];
      documents := [];
      trained := false;
    }

    /** `analyzePhoneNumber`, evaluated rule by rule as the source does. */
    method AnalyzePhoneNumber(phone: Option<string>) returns (a: Analysis)
      requires TotalsPositive(spamPhoneMetrics)
      ensures a == PhoneAnalysis(phoneBlacklist, spamPhoneMetrics, phone)
    {
      if !Present(phone) {
        return Analysis(0.0, []);
      }
      var normalizedPhone := NormalizePhone(phone).value;
      var score := 0.0;
      var reasons: seq<Reason> := [];

      if normalizedPhone in phoneBlacklist {
        return Analysis(BLACKLISTED_SCORE, [Blacklisted]);
      }

      if normalizedPhone in spamPhoneMetrics {
        var metrics := spamPhoneMetrics[normalizedPhone];
        var spamRatio := metrics.spamCount as real / metrics.total as real;
        if spamRatio > HISTORY_THRESHOLD {
          score := score + spamRatio * HISTORY_FACTOR;
          reasons := reasons + [HighSpamHistory(PercentText(spamRatio))];
        }
      }
      assert Analysis(score, reasons) == HistoryRule(spamPhoneMetrics, normalizedPhone);

      var patterns := AddPatternScores(normalizedPhone, Analysis(score, reasons));
      a := Analysis(Min(patterns.score, 1.0), patterns.reasons);
    }

    /** `calculateTextSpamScore`, evaluated rule by rule as the source does. */
    method CalculateTextSpamScore(text: Option<string>) returns (a: Analysis)
      ensures a == TextAnalysis(preprocess, text)
    {
      if !Present(text) {
        return Analysis(0.0, []);
      }
      var t := text.value;
      var tokens := preprocess(t);
      var reasons: seq<Reason> := [];
      var score := 0.0;

      var spamWords := SpamWords(tokens);
      if |spamWords| > 0 {
        var keywordRatio := |spamWords| as real / |tokens| as real;
        score := score + keywordRatio * 1.0;
        reasons := reasons + [SpamKeywords(spamWords)];
      }
      assert Analysis(score, reasons) == KeywordRule(tokens);

      var styled := AddStyleScores(t, Analysis(score, reasons));
      a := Analysis(Min(styled.score, 1.0), styled.reasons);
    }

    /** The callback of the first `forEach` of `train`: files one record's phone, if it has a usable one. */
    method RecordPhone(item: TrainingRecord)
      modifies this
      ensures Stats() == Record(old(Stats()), item)
      ensures documents == old(documents) && trained == old(trained)
    {
      if !Present(item.phone) {
        return;
      }
      var normalizedPhone := NormalizePhone(item.phone).value;
      if normalizedPhone == "" {
        return;
      }
      var metrics := if normalizedPhone in spamPhoneMetrics then spamPhoneMetrics[normalizedPhone] else PhoneMetrics(0, 0, 0);
      if item.labelName == "spam" {
        metrics := metrics.(spamCount := metrics.spamCount + 1);
        phoneBlacklist := phoneBlacklist + {normalizedPhone};
      } else {
        metrics := metrics.(hamCount := metrics.hamCount + 1);
      }
      metrics := metrics.(total := metrics.spamCount + metrics.hamCount);
      spamPhoneMetrics := spamPhoneMetrics[normalizedPhone := metrics];
    }

    /**
     * `train`: refuses anything but an array without touching the state;
     * otherwise files every usable phone, hands every present text to the
     * classifier, and marks the model trained. Nothing built before is cleared.
     */
    method Train(dataset: Dataset) returns (outcome: Outcome<Error>)
      requires Valid()
      modifies this
      ensures Valid()
      ensures dataset.NotAnArray? ==> outcome == Fail(InvalidDataset) && unchanged(this)
      ensures dataset.Records? ==>
        && outcome == Pass
        && trained
        && Stats() == RecordAll(old(Stats()), dataset.items)
        && documents == old(documents) + DocumentsOf(preprocess, dataset.items)
    {
      if dataset.NotAnArray? {
        return Fail(InvalidDataset);
      }
      var items := dataset.items;
      ghost var before := Stats();

      var i := 0;
      while i < |items|
        invariant 0 <= i <= |items|
        invariant Stats() == RecordAll(before, items[..i])
        invariant documents == old(documents) && trained == old(trained)
      {
        RecordPhone(items[i]);
        assert items[..i + 1][..i] == items[..i];
        i := i + 1;
      }
      assert items[..|items|] == items;

      i := 0;
      while i < |items|
        invariant 0 <= i <= |items|
        invariant documents == old(documents) + DocumentsOf(preprocess, items[..i])
        invariant Stats() == RecordAll(before, items) && trained == old(trained)
      {
        if Present(items[i].text) {
          var tokens := preprocess(items[i].text.value);
          documents := documents + [Document(tokens, items[i].labelName)];
        }
        assert items[..i + 1][..i] == items[..i];
        i := i + 1;
      }

      trained := true;
      RecordAllConsistent(before, items);
      outcome := Pass;
    }

    /**
     * `predict`: fails before training and when both inputs are absent;
     * otherwise fuses the phone score, the text score and the classifier's
     * spam probability (only consulted for a present text).
     */
    method Predict(text: Option<string>, phone: Option<string>) returns (r: Result<Prediction, Error>)
      requires Valid()
      ensures r == PredictOutcome(trained, Stats(), documents, preprocess, spamProbability, text, phone)
      ensures !trained ==> r == Failure(NotTrained)
      ensures trained && !Present(text) && !Present(phone) ==> r == Failure(MissingInput)
      ensures r.Success? ==> InUnitRange(r.value.confidence) && (r.value.prediction == Spam <==> r.value.confidence > SPAM_THRESHOLD)
      ensures trained && Present(phone) && NormalizePhone(phone).value in phoneBlacklist ==>
        r.Success? && r.value.prediction == Spam && StartsWith(r.value.reason, Blacklisted.Text())
    {
      if !trained {
        return Failure(NotTrained);
      }
      if !Present(text) && !Present(phone) {
        return Failure(MissingInput);
      }
      var phoneAnalysis := AnalyzePhoneNumber(phone);
      var textAnalysis := CalculateTextSpamScore(text);

      var classifierScore: Probability := 0.0;
      if Present(text) {
        var tokens := preprocess(text.value);
        classifierScore := spamProbability(documents, tokens);
      }

      r := Success(Fuse(phoneAnalysis, textAnalysis, classifierScore));
      if Present(phone) && NormalizePhone(phone).value in phoneBlacklist {
        BlacklistedPhoneIsSpam(Stats(), documents, preprocess, spamProbability, text, phone);
      }
    }
  }
}
