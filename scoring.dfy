/**
 * The additive scoring scheme shared by the phone and text analysers: a
 * running `score` and `reasons` list, to which every heuristic that fires adds
 * its weight and pushes its reason, in evaluation order; the result clamps the
 * score with `Math.min(score, 1)`.
 */
module Scoring {
  import opened Strings

  /**
   * Why a heuristic fired. `Text()` is the sentence the source pushes onto
   * `reasons` for it; the two reasons that carry data keep the formatted
   * percentage and the matched keywords.
   */
  datatype Reason =
    | Blacklisted
    | HighSpamHistory(percent: string)
    | SpamAreaCode
    | RepeatedDigits
    | SequentialPattern
    | ShortCodeFormat
    | PremiumPrefix
    | SpamKeywords(words: seq<string>)
    | ExclamationMarks
    | ExcessiveCapitalization
    | MonetaryAmounts
    | UrgencyIndicators
    | LinkReferences
  {
    function Text(): string {
      match this
      case Blacklisted => "[PHONE] Blacklisted spam number"
      case HighSpamHistory(percent) => "[PHONE] High spam history (" + percent + "% spam rate)"
      case SpamAreaCode => "[PHONE] Known spam area code"
      case RepeatedDigits => "[PHONE] Suspicious repeated digits"
      case SequentialPattern => "[PHONE] Sequential number pattern"
      case ShortCodeFormat => "[PHONE] Short code format"
      case PremiumPrefix => "[PHONE] Premium or scam prefix"
      case SpamKeywords(words) => "[TEXT] Spam keywords detected: " + Join(words, ", ")
      case ExclamationMarks => "[STYLE] Multiple exclamation marks"
      case ExcessiveCapitalization => "[STYLE] Excessive capitalization"
      case MonetaryAmounts => "[TEXT] Contains monetary amounts"
      case UrgencyIndicators => "[TEXT] Urgency indicators"
      case LinkReferences => "[TEXT] Contains URLs or link references"
    }
  }

  /** The sentences of a list of reasons, in order. */
  function Texts(rs: seq<Reason>): (ts: seq<string>)
    ensures |ts| == |rs|
    ensures forall i :: 0 <= i < |rs| ==> ts[i] == rs[i].Text()
  {
    seq(|rs|, i requires 0 <= i < |rs| => rs[i].Text())
  }

  lemma TextsAppend(a: seq<Reason>, b: seq<Reason>)
    ensures Texts(a + b) == Texts(a) + Texts(b)
  {
    assert forall i :: 0 <= i < |a| ==> (a + b)[i] == a[i];
    assert forall i :: |a| <= i < |a| + |b| ==> (a + b)[i] == b[i - |a|];
  }

  /** The `{ score, reasons }` object both analysers build and return. */
  datatype Analysis = Analysis(score: real, reasons: seq<Reason>)

  /** The state before any heuristic ran: `let score = 0; const reasons = [];`. */
  const NOTHING := Analysis(0.0, [])

  /** `Math.min` on exact reals. */
  function Min(a: real, b: real): (m: real)
    ensures m <= a && m <= b
    ensures m == a || m == b
  {
    if a <= b then a else b
  }

  /** One heuristic: `if (fires) { score += weight; reasons.push(reason); }`. */
  function Step(acc: Analysis, fires: bool, weight: real, reason: Reason): Analysis {
    if fires then Analysis(acc.score + weight, acc.reasons + [reason]) else acc
  }

  /** What a heuristic contributes to the sum: its weight when it fires, nothing otherwise. */
  function Weight(fires: bool, weight: real): real {
    if fires then weight else 0.0
  }

  /** What a heuristic contributes to the reasons: its reason when it fires, nothing otherwise. */
  function Pushed(fires: bool, reason: Reason): seq<Reason> {
    if fires then [reason] else []
  }

  /**
   * The heuristics run after `acc` only ever add: the reasons of `acc` stay a
   * prefix, and each new reason brings at least `w` of score.
   */
  predicate Extends(acc: Analysis, r: Analysis, w: real) {
    && |acc.reasons| <= |r.reasons|
    && r.reasons[..|acc.reasons|] == acc.reasons
    && r.score >= acc.score + (|r.reasons| - |acc.reasons|) as real * w
  }

  /** A step of weight at least `w` extends its input by at most one reason. */
  lemma StepExtends(acc: Analysis, fires: bool, weight: real, reason: Reason, w: real)
    requires weight >= w
    ensures Extends(acc, Step(acc, fires, weight, reason), w)
    ensures |Step(acc, fires, weight, reason).reasons| == |acc.reasons| + (if fires then 1 else 0)
  {
    if fires {
      assert (acc.reasons + [reason])[..|acc.reasons|] == acc.reasons;
    }
  }

  /** Extending is transitive. */
  lemma ExtendsTrans(a: Analysis, b: Analysis, c: Analysis, w: real)
    requires w >= 0.0
    requires Extends(a, b, w) && Extends(b, c, w)
    ensures Extends(a, c, w)
  {
    assert c.reasons[..|a.reasons|] == c.reasons[..|b.reasons|][..|a.reasons|];
    assert (|c.reasons| - |a.reasons|) as real * w
        == (|c.reasons| - |b.reasons|) as real * w + (|b.reasons| - |a.reasons|) as real * w;
  }

  /**
   * `{ score: Math.min(score, 1), reasons }`: the score of a non-negative sum
   * lands in [0, 1] and is the sum itself whenever it is below 1.
   */
  function Clamp(acc: Analysis): (a: Analysis)
    requires acc.score >= 0.0
    ensures 0.0 <= a.score <= 1.0
    ensures a.score == 1.0 || a.score == acc.score
    ensures acc.score < 1.0 ==> a.score == acc.score
    ensures acc.score >= 1.0 ==> a.score == 1.0
    ensures a.reasons == acc.reasons
  {
    Analysis(Min(acc.score, 1.0), acc.reasons)
  }
}
