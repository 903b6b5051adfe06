/**
 * The fusion policy of `predict`: a fixed weighted sum of the phone score, the
 * text score and the classifier's spam probability, a strict threshold, and
 * the reason text.
 */
module Fusion {
  import opened Strings
  import opened Records
  import opened Scoring

  const PHONE_WEIGHT: real := 0.5
  const TEXT_WEIGHT: real := 0.4
  const CLASSIFIER_WEIGHT: real := 0.1
  /** A combined score strictly above this is spam; exactly this is ham. */
  const SPAM_THRESHOLD: real := 0.3

  const REASON_SEPARATOR := " | "
  const SPAM_DEFAULT_REASON := "[ANALYSIS] Multiple spam indicators detected"
  const HAM_DEFAULT_REASON := "[ANALYSIS] No spam indicators found"

  predicate InUnitRange(x: real) { 0.0 <= x <= 1.0 }

  function CombinedScore(phoneScore: real, textScore: real, classifierScore: real): (c: real)
    requires InUnitRange(phoneScore) && InUnitRange(textScore) && InUnitRange(classifierScore)
    ensures InUnitRange(c)
    ensures phoneScore == 1.0 ==> c >= PHONE_WEIGHT
    ensures c >= phoneScore * PHONE_WEIGHT && c >= textScore * TEXT_WEIGHT
  {
    phoneScore * PHONE_WEIGHT + textScore * TEXT_WEIGHT + classifierScore * CLASSIFIER_WEIGHT
  }

  /** The triggered reasons joined with " | ", or the default sentence for the verdict when none fired. */
  function ReasonText(reasons: seq<string>, verdict: Label): (s: string)
    ensures reasons != [] ==> s == Join(reasons, REASON_SEPARATOR) && StartsWith(s, reasons[0])
    ensures reasons == [] && verdict == Spam ==> s == SPAM_DEFAULT_REASON
    ensures reasons == [] && verdict == Ham ==> s == HAM_DEFAULT_REASON
  {
    if |reasons| > 0 then Join(reasons, REASON_SEPARATOR)
    else if verdict == Spam then SPAM_DEFAULT_REASON
    else HAM_DEFAULT_REASON
  }

  /**
   * The result of a prediction from the three scores: the confidence is the
   * combined score, the verdict is spam iff it is strictly above the threshold,
   * and a full phone score alone decides spam whatever the text says.
   */
  function Fuse(phone: Analysis, text: Analysis, classifierScore: Probability): (p: Prediction)
    requires InUnitRange(phone.score) && InUnitRange(text.score)
    ensures p.confidence == CombinedScore(phone.score, text.score, classifierScore) && InUnitRange(p.confidence)
    ensures p.prediction == Spam <==> p.confidence > SPAM_THRESHOLD
    ensures phone.score == 1.0 ==> p.prediction == Spam && p.confidence >= PHONE_WEIGHT
    ensures p.reason == ReasonText(Texts(phone.reasons + text.reasons), p.prediction)
    ensures phone.reasons != [] ==> StartsWith(p.reason, phone.reasons[0].Text())
    ensures phone.reasons == [] && text.reasons != [] ==> StartsWith(p.reason, text.reasons[0].Text())
  {
    var combined := CombinedScore(phone.score, text.score, classifierScore);
    var prediction := if combined > SPAM_THRESHOLD then Spam else Ham;
    var reasons := Texts(phone.reasons + text.reasons);
    assert phone.reasons != [] ==> reasons[0] == phone.reasons[0].Text();
    assert phone.reasons == [] && text.reasons != [] ==> reasons[0] == text.reasons[0].Text();
    Prediction(prediction, combined, ReasonText(reasons, prediction))
  }

  /**
   * With reasons on both sides, the reason is the phone reasons joined with
   * " | ", then " | ", then the text reasons joined with " | ".
   */
  lemma FusedReasonSplits(phone: Analysis, text: Analysis, classifierScore: Probability)
    requires InUnitRange(phone.score) && InUnitRange(text.score)
    requires phone.reasons != [] && text.reasons != []
    ensures Fuse(phone, text, classifierScore).reason
         == Join(Texts(phone.reasons), REASON_SEPARATOR) + REASON_SEPARATOR + Join(Texts(text.reasons), REASON_SEPARATOR)
  {
    TextsAppend(phone.reasons, text.reasons);
    JoinAppend(Texts(phone.reasons), Texts(text.reasons), REASON_SEPARATOR);
  }

  /** The threshold is strict: a combined score of exactly 0.3 is ham. */
  lemma ThresholdIsStrict()
    ensures Fuse(Analysis(0.0, []), Analysis(0.75, []), 0.0) == Prediction(Ham, SPAM_THRESHOLD, HAM_DEFAULT_REASON)
  {
  }
}
