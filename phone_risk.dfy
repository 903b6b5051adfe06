/**
 * Phone risk heuristics (`analyzePhoneNumber`): a blacklist check that decides
 * on its own, then six additive rules evaluated in a fixed order, each one a
 * regular expression or a lookup written out as a predicate.
 */
module PhoneRisk {
  import opened Wrappers
  import opened Strings
  import opened Records
  import opened Scoring
  import opened PhoneNormalizer

  const SPAM_AREA_CODES: set<string> := {"419", "709", "900", "876", "284", "473", "268", "809"}

  /** The alternatives of `/(?:0123|1234|...|3210)/`. */
  const SEQUENTIAL_RUNS: set<string> := {
    "0123", "1234", "2345", "3456", "4567", "5678", "6789", "7890",
    "9876", "8765", "7654", "6543", "5432", "4321", "3210"
  }

  /** The codes of `/^(\+|00)?(900|976|809|284|473|268|876|649)/` and the optional markers before them. */
  const PREMIUM_PREFIXES: set<string> := {"900", "976", "809", "284", "473", "268", "876", "649"}
  const PREMIUM_MARKERS: set<string> := {"", "+", "00"}

  // phonePatternScores
  const SEQUENTIAL_WEIGHT: real := 0.7
  const REPEATED_WEIGHT: real := 0.7
  const PREMIUM_WEIGHT: real := 0.9
  const BLACKLISTED_SCORE: real := 1.0
  const SPAM_AREA_WEIGHT: real := 0.9
  const SHORT_CODE_WEIGHT: real := 0.8

  /** The history rule fires above this spam ratio and then adds the ratio times `HISTORY_FACTOR`. */
  const HISTORY_THRESHOLD: real := 0.2
  const HISTORY_FACTOR: real := 1.5

  /** Every stored history has at least one observation, so the spam ratio is defined. */
  predicate TotalsPositive(metrics: map<string, PhoneMetrics>) {
    forall p :: p in metrics ==> metrics[p].total > 0
  }

  function SpamRatio(m: PhoneMetrics): (r: real)
    requires m.total > 0
    ensures r >= 0.0
    ensures m.spamCount <= m.total ==> r <= 1.0
  {
    m.spamCount as real / m.total as real
  }

  /** `(ratio * 100).toFixed(1)`, rounding the exact ratio half up to one decimal. */
  function PercentText(ratio: real): (r: string)
    requires ratio >= 0.0
    ensures |r| >= 3 && r[|r| - 2] == '.'
    ensures r[0] == '0' ==> r[1] == '.'
  {
    var tenths: nat := (ratio * 1000.0 + 0.5).Floor;
    NatToString(tenths / 10) + "." + [DigitChar(tenths % 10)]
  }

  /** The percentage text reads back as the ratio in tenths of a percent, rounded half up: its digits before the point, then the one after it. */
  lemma PercentTextValue(ratio: real)
    requires ratio >= 0.0
    ensures var r := PercentText(ratio);
      && AllDigits(r[..|r| - 2]) && IsDigit(r[|r| - 1])
      && DecimalValue(r[..|r| - 2]) * 10 + DigitValue(r[|r| - 1]) == (ratio * 1000.0 + 0.5).Floor
  {
    var tenths: nat := (ratio * 1000.0 + 0.5).Floor;
    var r := PercentText(ratio);
    assert r[..|r| - 2] == NatToString(tenths / 10);
    NatToStringValue(tenths / 10);
  }

  /**
   * The spam-history rule, the first to run: it fires when the phone has a
   * training history whose spam ratio exceeds 0.2, and adds 1.5 times that ratio.
   */
  function HistoryRule(metrics: map<string, PhoneMetrics>, p: string): (h: Analysis)
    requires TotalsPositive(metrics)
    ensures |h.reasons| <= 1
    ensures h.reasons != [] <==> p in metrics && SpamRatio(metrics[p]) > HISTORY_THRESHOLD
    ensures h.reasons != [] ==> h.score == SpamRatio(metrics[p]) * HISTORY_FACTOR && h.score > 0.3
    ensures h.reasons != [] ==> h.reasons == [HighSpamHistory(PercentText(SpamRatio(metrics[p])))]
    ensures h.reasons == [] ==> h == NOTHING
  {
    if p in metrics then
      var ratio := SpamRatio(metrics[p]);
      Step(NOTHING, ratio > HISTORY_THRESHOLD, ratio * HISTORY_FACTOR, HighSpamHistory(PercentText(ratio)))
    else NOTHING
  }

  /** `(.)\1{2,}` matches at `i`: three equal characters that a `.` accepts. */
  predicate TripleAt(s: string, i: int) {
    0 <= i && i + 2 < |s| && !IsLineTerminator(s[i]) && s[i + 1] == s[i] && s[i + 2] == s[i]
  }

  /** `spamAreaCodes.has(extractAreaCode(p))`. */
  predicate IsSpamAreaCode(s: string) {
    ExtractAreaCode(s) in SPAM_AREA_CODES
  }

  /** `(.)\1{2,}` matches somewhere. */
  predicate HasRepeatedRun(s: string) {
    exists i | 0 <= i < |s| - 2 :: TripleAt(s, i)
  }

  /** One of the fifteen four-digit runs of the sequential pattern occurs in the phone. */
  predicate HasSequentialRun(s: string) {
    exists w | w in SEQUENTIAL_RUNS :: Contains(s, w)
  }

  /** `^\d{4,6}$`: the whole string is four to six digits. */
  predicate IsShortCode(s: string) {
    4 <= |s| <= 6 && forall i :: 0 <= i < |s| ==> IsDigit(s[i])
  }

  /** The phone starts with `code`, after an optional `+` or `00`. */
  predicate PremiumPrefixWith(s: string, code: string) {
    exists marker | marker in PREMIUM_MARKERS :: StartsWith(s, marker + code)
  }

  /** `^(\+|00)?(900|976|809|284|473|268|876|649)` matches. */
  predicate HasPremiumPrefix(s: string) {
    exists code | code in PREMIUM_PREFIXES :: PremiumPrefixWith(s, code)
  }

  /**
   * The five pattern rules, in source order, run after `acc` given which of
   * their tests hold: each adds at least 0.7 and one reason.
   */
  function PatternRules(acc: Analysis, spamArea: bool, repeated: bool, sequential: bool, shortCode: bool, premium: bool): (r: Analysis)
    ensures Extends(acc, r, 0.7)
    ensures |r.reasons| <= |acc.reasons| + 5
  {
    var area := Step(acc, spamArea, SPAM_AREA_WEIGHT, SpamAreaCode);
    var digits := Step(area, repeated, REPEATED_WEIGHT, RepeatedDigits);
    var run := Step(digits, sequential, SEQUENTIAL_WEIGHT, SequentialPattern);
    var short := Step(run, shortCode, SHORT_CODE_WEIGHT, ShortCodeFormat);
    var r := Step(short, premium, PREMIUM_WEIGHT, PremiumPrefix);
    StepExtends(acc, spamArea, SPAM_AREA_WEIGHT, SpamAreaCode, 0.7);
    StepExtends(area, repeated, REPEATED_WEIGHT, RepeatedDigits, 0.7);
    StepExtends(digits, sequential, SEQUENTIAL_WEIGHT, SequentialPattern, 0.7);
    StepExtends(run, shortCode, SHORT_CODE_WEIGHT, ShortCodeFormat, 0.7);
    StepExtends(short, premium, PREMIUM_WEIGHT, PremiumPrefix, 0.7);
    ExtendsTrans(acc, area, digits, 0.7);
    ExtendsTrans(acc, digits, run, 0.7);
    ExtendsTrans(acc, run, short, 0.7);
    ExtendsTrans(acc, short, r, 0.7);
    r
  }

  /**
   * The pattern rules in sum form: the score grows by the weight of every rule
   * that fires, and the reasons of the rules that fire follow in the fixed
   * order area code, repeated, sequential, short code, premium.
   */
  lemma PatternRulesSum(acc: Analysis, spamArea: bool, repeated: bool, sequential: bool, shortCode: bool, premium: bool)
    ensures var r := PatternRules(acc, spamArea, repeated, sequential, shortCode, premium);
      && r.score == acc.score + Weight(spamArea, SPAM_AREA_WEIGHT) + Weight(repeated, REPEATED_WEIGHT)
           + Weight(sequential, SEQUENTIAL_WEIGHT) + Weight(shortCode, SHORT_CODE_WEIGHT) + Weight(premium, PREMIUM_WEIGHT)
      && r.reasons == acc.reasons + Pushed(spamArea, SpamAreaCode) + Pushed(repeated, RepeatedDigits)
           + Pushed(sequential, SequentialPattern) + Pushed(shortCode, ShortCodeFormat) + Pushed(premium, PremiumPrefix)
  {
    var area := Step(acc, spamArea, SPAM_AREA_WEIGHT, SpamAreaCode);
    assert area.reasons == acc.reasons + Pushed(spamArea, SpamAreaCode);
    var digits := Step(area, repeated, REPEATED_WEIGHT, RepeatedDigits);
    assert digits.reasons == area.reasons + Pushed(repeated, RepeatedDigits);
    var run := Step(digits, sequential, SEQUENTIAL_WEIGHT, SequentialPattern);
    assert run.reasons == digits.reasons + Pushed(sequential, SequentialPattern);
    var short := Step(run, shortCode, SHORT_CODE_WEIGHT, ShortCodeFormat);
    assert short.reasons == run.reasons + Pushed(shortCode, ShortCodeFormat);
    var r := Step(short, premium, PREMIUM_WEIGHT, PremiumPrefix);
    assert r.reasons == short.reasons + Pushed(premium, PremiumPrefix);
    assert r == PatternRules(acc, spamArea, repeated, sequential, shortCode, premium);
  }

  /** The running score and reasons after all six additive rules on the normalised phone `p`. */
  function PhoneScore(metrics: map<string, PhoneMetrics>, p: string): (r: Analysis)
    requires TotalsPositive(metrics)
    ensures r.score >= 0.0
    ensures |r.reasons| <= 6
    ensures Extends(HistoryRule(metrics, p), r, 0.7)
  {
    PatternRules(HistoryRule(metrics, p), IsSpamAreaCode(p), HasRepeatedRun(p), HasSequentialRun(p), IsShortCode(p), HasPremiumPrefix(p))
  }

  /**
   * `analyzePhoneNumber`: nothing for a falsy phone; the blacklist verdict alone
   * for a blacklisted normalised phone; otherwise the clamped sum of the rules.
   */
  function PhoneAnalysis(blacklist: set<string>, metrics: map<string, PhoneMetrics>, phone: Option<string>): (a: Analysis)
    requires TotalsPositive(metrics)
    ensures 0.0 <= a.score <= 1.0
    ensures !Present(phone) ==> a == NOTHING
    ensures Present(phone) && NormalizePhone(phone).value in blacklist ==> a == Analysis(1.0, [Blacklisted])
  {
    if !Present(phone) then NOTHING
    else
      var p := NormalizePhone(phone).value;
      if p in blacklist then Analysis(BLACKLISTED_SCORE, [Blacklisted])
      else Clamp(PhoneScore(metrics, p))
  }

  /**
   * Past the blacklist, the phone score is `min(1, Σ)` over the history weight
   * and the weights of the pattern tests that hold on the normalised phone, and
   * the reasons are theirs in rule order.
   */
  lemma PhoneAnalysisSum(blacklist: set<string>, metrics: map<string, PhoneMetrics>, phone: Option<string>)
    requires TotalsPositive(metrics)
    requires Present(phone) && NormalizePhone(phone).value !in blacklist
    ensures var p, h, a := NormalizePhone(phone).value, HistoryRule(metrics, NormalizePhone(phone).value), PhoneAnalysis(blacklist, metrics, phone);
      && a.score == Min(h.score + Weight(IsSpamAreaCode(p), SPAM_AREA_WEIGHT) + Weight(HasRepeatedRun(p), REPEATED_WEIGHT)
           + Weight(HasSequentialRun(p), SEQUENTIAL_WEIGHT) + Weight(IsShortCode(p), SHORT_CODE_WEIGHT)
           + Weight(HasPremiumPrefix(p), PREMIUM_WEIGHT), 1.0)
      && a.reasons == h.reasons + Pushed(IsSpamAreaCode(p), SpamAreaCode) + Pushed(HasRepeatedRun(p), RepeatedDigits)
           + Pushed(HasSequentialRun(p), SequentialPattern) + Pushed(IsShortCode(p), ShortCodeFormat)
           + Pushed(HasPremiumPrefix(p), PremiumPrefix)
  {
    var p := NormalizePhone(phone).value;
    var sum := PhoneScore(metrics, p);
    assert PhoneAnalysis(blacklist, metrics, phone) == Analysis(Min(sum.score, 1.0), sum.reasons);
    PatternRulesSum(HistoryRule(metrics, p), IsSpamAreaCode(p), HasRepeatedRun(p), HasSequentialRun(p), IsShortCode(p), HasPremiumPrefix(p));
  }

  /**
   * For the six codes that are both spam area codes and premium prefixes, the
   * area-code rule and the premium rule agree exactly: each fires iff the other
   * does for that code.
   */
  lemma AreaCodeMatchesPremiumPrefix(p: string, code: string)
    requires code in SPAM_AREA_CODES && code in PREMIUM_PREFIXES
    ensures ExtractAreaCode(p) == code <==> PremiumPrefixWith(p, code)
  {
    assert |code| == 3 && code[0] != '+' && code[0] != '0';
    if ExtractAreaCode(p) == code {
      assert TrunkMarker(p) in PREMIUM_MARKERS;
      assert StartsWith(p, TrunkMarker(p) + code);
    }
    if PremiumPrefixWith(p, code) {
      var marker :| marker in PREMIUM_MARKERS && StartsWith(p, marker + code);
      MarkerBeforeCode(p, marker, code);
      var r := ExtractAreaCode(p);
      assert p[..|marker| + |r|] == marker + r;
      assert r == p[|marker|..|marker| + |r|];
    }
  }

  /** A phone that starts with a premium marker and then a code not starting with `+` or `0` has that marker as its trunk marker. */
  lemma MarkerBeforeCode(p: string, marker: string, code: string)
    requires marker in PREMIUM_MARKERS && |code| == 3 && code[0] != '+' && code[0] != '0'
    requires StartsWith(p, marker + code)
    ensures TrunkMarker(p) == marker
    ensures p[|marker|..|marker| + 3] == code
  {
    var mc := marker + code;
    assert p[..|mc|] == mc;
    assert p[|marker|] == mc[|marker|] == code[0];
    assert p[|marker|..|marker| + 3] == p[..|mc|][|marker|..] == code;
    if marker == "" {
      assert p[0] == code[0];
    } else if marker == "+" {
      assert p[..1] == mc[..1] == "+";
    } else {
      assert p[..2] == mc[..2] == "00";
      assert p[0] == '0';
    }
  }

  /** Any two phone rules together reach the cap: a score below 1 means at most one rule fired. */
  lemma TwoRulesSaturate(metrics: map<string, PhoneMetrics>, p: string)
    requires TotalsPositive(metrics)
    requires |PhoneScore(metrics, p).reasons| >= 2
    ensures Clamp(PhoneScore(metrics, p)).score == 1.0
  {
    var h, r := HistoryRule(metrics, p), PhoneScore(metrics, p);
    assert r.score >= h.score + (|r.reasons| - |h.reasons|) as real * 0.7;
  }
}
