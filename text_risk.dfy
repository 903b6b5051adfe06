/**
 * Text style heuristics (`calculateTextSpamScore`): keyword density over the
 * preprocessed tokens, then five tests on the raw text, each adding a fixed
 * weight; the sum is clamped to 1.
 */
module TextRisk {
  import opened Wrappers
  import opened Strings
  import opened Records
  import opened Scoring

  /** `spamKeywords` (a JavaScript Set: the repeated entries of its literal collapse). */
  const SPAM_KEYWORDS: set<string> := {
    "free", "win", "winner", "won", "prize", "urgent", "offer",
    "guaranteed", "instant", "casino", "bonus", "lucky", "$", "\U{00A3}",
    "prize", "winner", "selected", "urgent", "verify", "account",
    "suspended", "inheritance", "offer", "limited", "click",
    "opportunity", "investment", "discount", "guaranteed", "claim",
    "exclusive", "expires", "password", "verify", "action", "required"
  }

  /** The class `[$£€]`. */
  const CURRENCY_SIGNS: set<char> := {'$', '\U{00A3}', '\U{20AC}'}

  /** The alternatives of `/urgent|immediate|now|hurry|limited|act fast/i`. */
  const URGENCY_WORDS: set<string> := {"urgent", "immediate", "now", "hurry", "limited", "act fast"}

  /** The alternatives of `/http|www|\.com|\.net|\.org|click|link/i`. */
  const LINK_WORDS: set<string> := {"http", "www", ".com", ".net", ".org", "click", "link"}

  /** Uppercase letters above this share of all ASCII letters count as excessive capitalisation. */
  const CAPS_THRESHOLD: real := 0.2

  /** `tokens.filter(token => spamKeywords.has(token))`. */
  function SpamWords(tokens: seq<string>): (r: seq<string>)
    ensures |r| <= |tokens|
    ensures forall i :: 0 <= i < |r| ==> r[i] in SPAM_KEYWORDS
    ensures r == [] <==> forall j :: 0 <= j < |tokens| ==> tokens[j] !in SPAM_KEYWORDS
  {
    if tokens == [] then []
    else
      var last := tokens[|tokens| - 1];
      SpamWords(tokens[..|tokens| - 1]) + (if last in SPAM_KEYWORDS then [last] else [])
  }

  /** `filter` works token by token: the keywords of `a + b` are those of `a`, then those of `b`. */
  lemma {:induction false} SpamWordsAppend(a: seq<string>, b: seq<string>)
    ensures SpamWords(a + b) == SpamWords(a) + SpamWords(b)
  {
    if b != [] {
      assert (a + b)[..|a + b| - 1] == a + b[..|b| - 1];
      assert (a + b)[|a + b| - 1] == b[|b| - 1];
      SpamWordsAppend(a, b[..|b| - 1]);
    } else {
      assert a + b == a;
    }
  }

  /** On one token the filter keeps a keyword and drops anything else. */
  lemma SpamWordsSingle(t: string)
    ensures SpamWords([t]) == if t in SPAM_KEYWORDS then [t] else []
  {
    assert [t][..0] == [];
  }

  /** A share of k among n items, 0 < k <= n, lies in (0, 1] and gives back k when multiplied by n. */
  lemma ShareBounds(k: nat, n: nat)
    requires 0 < k <= n
    ensures 0.0 < k as real / n as real <= 1.0
    ensures (k as real / n as real) * n as real == k as real
  {
    var r := k as real / n as real;
    assert r * n as real == k as real;
    assert (r - 1.0) * n as real <= 0.0;
  }

  /**
   * The keyword rule, the first to run: it fires when some token is a keyword,
   * and adds the share of keyword tokens among all tokens.
   */
  function KeywordRule(tokens: seq<string>): (k: Analysis)
    ensures |k.reasons| <= 1
    ensures k.reasons != [] <==> exists j :: 0 <= j < |tokens| && tokens[j] in SPAM_KEYWORDS
    ensures k.reasons != [] ==> k.reasons == [SpamKeywords(SpamWords(tokens))]
    ensures k.reasons != [] ==> 0.0 < k.score <= 1.0 && k.score * |tokens| as real == |SpamWords(tokens)| as real
    ensures k.reasons == [] ==> k == NOTHING
  {
    var spamWords := SpamWords(tokens);
    if |spamWords| > 0 then
      var keywordRatio := |spamWords| as real / |tokens| as real;
      ShareBounds(|spamWords|, |tokens|);
      assert NOTHING.score + keywordRatio * 1.0 == keywordRatio;
      Step(NOTHING, true, keywordRatio * 1.0, SpamKeywords(spamWords))
    else NOTHING
  }

  function LetterCount(s: string): (n: nat)
    ensures n <= |s|
  {
    if s == [] then 0 else (if IsLetter(s[0]) then 1 else 0) + LetterCount(s[1..])
  }

  function UpperCount(s: string): (n: nat)
    ensures n <= LetterCount(s)
  {
    if s == [] then 0 else (if IsUpper(s[0]) then 1 else 0) + UpperCount(s[1..])
  }

  /**
   * The share of `[A-Z]` among `[A-Za-z]`; None where the source divides zero by
   * zero, a value no comparison accepts.
   */
  function UpperCaseRatio(text: string): (r: Option<real>)
    ensures r.Some? ==> 0.0 <= r.value <= 1.0
  {
    if LetterCount(text) == 0 then None
    else Some(UpperCount(text) as real / LetterCount(text) as real)
  }

  /** The capital share exceeds 0.2; a text without letters never does. */
  predicate ExcessiveCaps(text: string) {
    var ratio := UpperCaseRatio(text);
    ratio.Some? && ratio.value > CAPS_THRESHOLD
  }

  /** `[$£€]\d+` matches at `i`: a currency sign followed by a digit. */
  predicate MoneyAt(text: string, i: int) {
    0 <= i && i + 1 < |text| && text[i] in CURRENCY_SIGNS && IsDigit(text[i + 1])
  }

  /** `[$£€]\d+` matches somewhere. */
  predicate HasMoneyAmount(text: string) {
    exists i | 0 <= i < |text| - 1 :: MoneyAt(text, i)
  }

  /** One of `words` occurs in `text`, ignoring the case of ASCII letters. */
  predicate ContainsAnyIgnoringCase(text: string, words: set<string>) {
    exists w | w in words :: Contains(FoldCase(text), w)
  }

  /**
   * The five tests on the raw text, in source order, run after `acc` given
   * which of them hold: each adds at least 0.4 and one reason.
   */
  function StyleRules(acc: Analysis, exclamation: bool, caps: bool, money: bool, urgency: bool, link: bool): (r: Analysis)
    ensures Extends(acc, r, 0.4)
    ensures |r.reasons| <= |acc.reasons| + 5
  {
    var marks := Step(acc, exclamation, 0.4, ExclamationMarks);
    var upper := Step(marks, caps, 0.5, ExcessiveCapitalization);
    var amounts := Step(upper, money, 0.6, MonetaryAmounts);
    var urgent := Step(amounts, urgency, 0.7, UrgencyIndicators);
    var r := Step(urgent, link, 0.6, LinkReferences);
    StepExtends(acc, exclamation, 0.4, ExclamationMarks, 0.4);
    StepExtends(marks, caps, 0.5, ExcessiveCapitalization, 0.4);
    StepExtends(upper, money, 0.6, MonetaryAmounts, 0.4);
    StepExtends(amounts, urgency, 0.7, UrgencyIndicators, 0.4);
    StepExtends(urgent, link, 0.6, LinkReferences, 0.4);
    ExtendsTrans(acc, marks, upper, 0.4);
    ExtendsTrans(acc, upper, amounts, 0.4);
    ExtendsTrans(acc, amounts, urgent, 0.4);
    ExtendsTrans(acc, urgent, r, 0.4);
    r
  }

  /**
   * The style rules in sum form: the score grows by the weight of every test
   * that holds, and their reasons follow in the fixed order exclamation,
   * capitals, money, urgency, links.
   */
  lemma StyleRulesSum(acc: Analysis, exclamation: bool, caps: bool, money: bool, urgency: bool, link: bool)
    ensures var r := StyleRules(acc, exclamation, caps, money, urgency, link);
      && r.score == acc.score + Weight(exclamation, 0.4) + Weight(caps, 0.5) + Weight(money, 0.6)
           + Weight(urgency, 0.7) + Weight(link, 0.6)
      && r.reasons == acc.reasons + Pushed(exclamation, ExclamationMarks) + Pushed(caps, ExcessiveCapitalization)
           + Pushed(money, MonetaryAmounts) + Pushed(urgency, UrgencyIndicators) + Pushed(link, LinkReferences)
  {
    var marks := Step(acc, exclamation, 0.4, ExclamationMarks);
    assert marks.reasons == acc.reasons + Pushed(exclamation, ExclamationMarks);
    var upper := Step(marks, caps, 0.5, ExcessiveCapitalization);
    assert upper.reasons == marks.reasons + Pushed(caps, ExcessiveCapitalization);
    var amounts := Step(upper, money, 0.6, MonetaryAmounts);
    assert amounts.reasons == upper.reasons + Pushed(money, MonetaryAmounts);
    var urgent := Step(amounts, urgency, 0.7, UrgencyIndicators);
    assert urgent.reasons == amounts.reasons + Pushed(urgency, UrgencyIndicators);
    var r := Step(urgent, link, 0.6, LinkReferences);
    assert r.reasons == urgent.reasons + Pushed(link, LinkReferences);
    assert r == StyleRules(acc, exclamation, caps, money, urgency, link);
  }

  /** The style rules add the same score whatever ran before them. */
  lemma StyleRulesShift(a: Analysis, b: Analysis, exclamation: bool, caps: bool, money: bool, urgency: bool, link: bool)
    ensures StyleRules(b, exclamation, caps, money, urgency, link).score - b.score
         == StyleRules(a, exclamation, caps, money, urgency, link).score - a.score
  {
  }

  /** The running score and reasons after the keyword rule and the five tests on `text`. */
  function TextScore(tokens: seq<string>, text: string): (r: Analysis)
    ensures r.score >= 0.0
    ensures |r.reasons| <= 6
    ensures Extends(KeywordRule(tokens), r, 0.4)
  {
    StyleRules(KeywordRule(tokens), '!' in text, ExcessiveCaps(text), HasMoneyAmount(text),
      ContainsAnyIgnoringCase(text, URGENCY_WORDS), ContainsAnyIgnoringCase(text, LINK_WORDS))
  }

  /** `calculateTextSpamScore`: nothing for a falsy text, otherwise the clamped sum of the text rules. */
  function TextAnalysis(preprocess: string -> seq<string>, text: Option<string>): (a: Analysis)
    ensures 0.0 <= a.score <= 1.0
    ensures !Present(text) ==> a == NOTHING
  {
    if !Present(text) then NOTHING
    else Clamp(TextScore(preprocess(text.value), text.value))
  }

  /**
   * For a present text, the score is `min(1, Σ)` over the keyword share and the
   * weights of the five tests that hold, and the reasons are theirs in rule order.
   */
  lemma TextAnalysisSum(preprocess: string -> seq<string>, text: Option<string>)
    requires Present(text)
    ensures var t, k, a := text.value, KeywordRule(preprocess(text.value)), TextAnalysis(preprocess, text);
      && a.score == Min(k.score + Weight('!' in t, 0.4) + Weight(ExcessiveCaps(t), 0.5) + Weight(HasMoneyAmount(t), 0.6)
           + Weight(ContainsAnyIgnoringCase(t, URGENCY_WORDS), 0.7) + Weight(ContainsAnyIgnoringCase(t, LINK_WORDS), 0.6), 1.0)
      && a.reasons == k.reasons + Pushed('!' in t, ExclamationMarks) + Pushed(ExcessiveCaps(t), ExcessiveCapitalization)
           + Pushed(HasMoneyAmount(t), MonetaryAmounts) + Pushed(ContainsAnyIgnoringCase(t, URGENCY_WORDS), UrgencyIndicators)
           + Pushed(ContainsAnyIgnoringCase(t, LINK_WORDS), LinkReferences)
  {
    var t := text.value;
    StyleRulesSum(KeywordRule(preprocess(t)), '!' in t, ExcessiveCaps(t), HasMoneyAmount(t),
      ContainsAnyIgnoringCase(t, URGENCY_WORDS), ContainsAnyIgnoringCase(t, LINK_WORDS));
  }

  /** A text without ASCII letters never earns the capitalisation weight. */
  lemma {:induction false} NoLettersNoCaps(text: string)
    requires forall i :: 0 <= i < |text| ==> !IsLetter(text[i])
    ensures LetterCount(text) == 0
    ensures !ExcessiveCaps(text)
  {
    if text != [] {
      NoLettersNoCaps(text[1..]);
    }
  }

  lemma RatioGrows(k: nat, n: nat)
    requires 0 < n && k <= n
    ensures k as real / n as real <= (k + 1) as real / (n + 1) as real
  {
    var N := n as real;
    var M := N + 1.0;
    var a := k as real / N;
    var b := (k + 1) as real / M;
    assert a * N == k as real;
    assert b * M == k as real + 1.0;
    assert a <= 1.0;
    assert a * M == a * N + a;
    assert (b - a) * M == b * M - a * M;
    assert (b - a) * M >= 0.0;
  }

  /** One more keyword token never lowers the keyword share: k/n can only grow to (k+1)/(n+1). */
  lemma KeywordRuleGrows(tokens: seq<string>, keyword: string)
    requires keyword in SPAM_KEYWORDS
    ensures KeywordRule(tokens).score <= KeywordRule(tokens + [keyword]).score
  {
    var more := tokens + [keyword];
    assert more[..|more| - 1] == tokens;
    assert SpamWords(more) == SpamWords(tokens) + [keyword];
    var before, after := KeywordRule(tokens), KeywordRule(more);
    assert after.reasons != [];
    if before.reasons != [] {
      RatioGrows(|SpamWords(tokens)|, |tokens|);
    }
  }

  /**
   * Adding one more keyword token while the raw text, and so the five style
   * tests, stay as they are never lowers the text score.
   */
  lemma KeywordMonotone(tokens: seq<string>, keyword: string, text: string)
    requires keyword in SPAM_KEYWORDS
    ensures Clamp(TextScore(tokens, text)).score <= Clamp(TextScore(tokens + [keyword], text)).score
  {
    KeywordRuleGrows(tokens, keyword);
    StyleRulesShift(KeywordRule(tokens), KeywordRule(tokens + [keyword]), '!' in text, ExcessiveCaps(text),
      HasMoneyAmount(text), ContainsAnyIgnoringCase(text, URGENCY_WORDS), ContainsAnyIgnoringCase(text, LINK_WORDS));
  }

  /** A text whose folded form lacks these letters matches neither the urgency words nor the link words. */
  lemma NoUrgencyNoLinks(text: string)
    requires var f := FoldCase(text); 'u' !in f && 'i' !in f && 'n' !in f && 'h' !in f && 'l' !in f && 't' !in f && 'w' !in f && '.' !in f
    ensures !ContainsAnyIgnoringCase(text, URGENCY_WORDS)
    ensures !ContainsAnyIgnoringCase(text, LINK_WORDS)
  {
    var f := FoldCase(text);
    forall w | w in URGENCY_WORDS ensures !Contains(f, w) {
      if w == "urgent" { MissingCharNotContained(f, w, 0); }
      else if w == "immediate" { MissingCharNotContained(f, w, 0); }
      else if w == "now" { MissingCharNotContained(f, w, 0); }
      else if w == "hurry" { MissingCharNotContained(f, w, 0); }
      else if w == "limited" { MissingCharNotContained(f, w, 0); }
      else { MissingCharNotContained(f, w, 2); }
    }
    forall w | w in LINK_WORDS ensures !Contains(f, w) {
      if w == "http" { MissingCharNotContained(f, w, 0); }
      else if w == "www" { MissingCharNotContained(f, w, 0); }
      else if w == "click" { MissingCharNotContained(f, w, 1); }
      else if w == "link" { MissingCharNotContained(f, w, 0); }
      else { MissingCharNotContained(f, w, 0); }
    }
  }

  /** A text without currency signs has no monetary amount. */
  lemma NoCurrencyNoMoney(text: string)
    requires forall c | c in CURRENCY_SIGNS :: c !in text
    ensures !HasMoneyAmount(text)
  {
    forall i | 0 <= i < |text| - 1 ensures !MoneyAt(text, i) {
      assert text[i] in text;
    }
  }

  /** A character that none of the exclamation, money, urgency and link tests can use. */
  predicate QuietChar(c: char) {
    c != '!' && c !in CURRENCY_SIGNS && FoldChar(c) !in "uinhltw."
  }

  /** A text made of quiet characters fires none of the four tests but the capitals one. */
  lemma QuietText(text: string)
    requires forall i | 0 <= i < |text| :: QuietChar(text[i])
    ensures '!' !in text && !HasMoneyAmount(text)
    ensures !ContainsAnyIgnoringCase(text, URGENCY_WORDS) && !ContainsAnyIgnoringCase(text, LINK_WORDS)
  {
    NoCurrencyNoMoney(text);
    var f := FoldCase(text);
    forall i | 0 <= i < |f| ensures f[i] !in "uinhltw." {
      assert QuietChar(text[i]);
    }
    NoUrgencyNoLinks(text);
  }

  lemma {:induction false} LetterCountAppend(a: string, b: string)
    ensures LetterCount(a + b) == LetterCount(a) + LetterCount(b)
    ensures UpperCount(a + b) == UpperCount(a) + UpperCount(b)
  {
    if a != [] {
      assert (a + b)[0] == a[0] && (a + b)[1..] == a[1..] + b;
      LetterCountAppend(a[1..], b);
    } else {
      assert a + b == b;
    }
  }

  /** "Ab cd": one capital among four letters, and only quiet characters. */
  lemma AbCdFacts()
    ensures forall i | 0 <= i < 5 :: QuietChar("Ab cd"[i])
    ensures LetterCount("Ab cd") == 4 && UpperCount("Ab cd") == 1
  {
    assert LetterCount("d") == 1 && UpperCount("d") == 0;
    assert LetterCount("cd") == 2 && UpperCount("cd") == 0;
    assert LetterCount(" cd") == 2 && UpperCount(" cd") == 0;
  }

  /** " free": four lower-case letters, all quiet. */
  lemma FreeFacts()
    ensures forall i | 0 <= i < 5 :: QuietChar(" free"[i])
    ensures LetterCount(" free") == 4 && UpperCount(" free") == 0
  {
    assert LetterCount("e") == 1 && UpperCount("e") == 0;
    assert LetterCount("ee") == 2 && UpperCount("ee") == 0;
    assert LetterCount("ree") == 3 && UpperCount("ree") == 0;
  }

  /** "Ab cd free" has the quiet characters of its two halves and one capital among eight letters. */
  lemma AbCdFreeFacts()
    ensures forall i | 0 <= i < 10 :: QuietChar("Ab cd free"[i])
    ensures LetterCount("Ab cd free") == 8 && UpperCount("Ab cd free") == 1
  {
    var t := "Ab cd free";
    assert t == "Ab cd" + " free";
    AbCdFacts();
    FreeFacts();
    forall i | 0 <= i < 10 ensures QuietChar(t[i]) {
      if i >= 5 {
        assert t[i] == " free"[i - 5];
      }
    }
    LetterCountAppend("Ab cd", " free");
  }

  /** No keyword is two characters long. */
  lemma TwoCharTokenIsNoKeyword(t: string)
    requires |t| == 2
    ensures t !in SPAM_KEYWORDS
  {
  }

  /** No token of "ab cd" is a keyword. */
  lemma NoKeywordInAbCd()
    ensures SpamWords(["ab", "cd"]) == []
    ensures KeywordRule(["ab", "cd"]) == NOTHING
  {
    TwoCharTokenIsNoKeyword("ab");
    TwoCharTokenIsNoKeyword("cd");
  }

  /** One token of the three of "ab cd free" is a keyword. */
  lemma KeywordShareOfAbCdFree()
    ensures KeywordRule(["ab", "cd", "free"]).score == 1.0 / 3.0
  {
    var tokens := ["ab", "cd", "free"];
    NoKeywordInAbCd();
    assert tokens[..2] == ["ab", "cd"];
    assert "free" in SPAM_KEYWORDS;
    assert SpamWords(tokens) == ["free"];
  }

  /** "Ab cd" earns only the capitalisation weight. */
  lemma AbCdScore(preprocess: string -> seq<string>)
    requires preprocess("Ab cd") == ["ab", "cd"]
    ensures TextAnalysis(preprocess, Some("Ab cd")).score == 0.5
  {
    AbCdFacts();
    QuietText("Ab cd");
    assert ExcessiveCaps("Ab cd");
    NoKeywordInAbCd();
    TextAnalysisSum(preprocess, Some("Ab cd"));
  }

  /** "Ab cd free" earns only its keyword share. */
  lemma AbCdFreeScore(preprocess: string -> seq<string>)
    requires preprocess("Ab cd free") == ["ab", "cd", "free"]
    ensures TextAnalysis(preprocess, Some("Ab cd free")).score == 1.0 / 3.0
  {
    AbCdFreeFacts();
    QuietText("Ab cd free");
    assert !ExcessiveCaps("Ab cd free");
    KeywordShareOfAbCdFree();
    TextAnalysisSum(preprocess, Some("Ab cd free"));
  }

  /**
   * Appending a keyword to the text itself can lower its score: the extra
   * letters push the capital share of "Ab cd" (1/4) under the threshold, so
   * "Ab cd free" loses the 0.5 capitalisation weight and gains only a keyword
   * share of 1/3, given a preprocessor that yields these tokens.
   */
  lemma KeywordCanLowerTextScore(preprocess: string -> seq<string>)
    requires preprocess("Ab cd") == ["ab", "cd"]
    requires preprocess("Ab cd free") == ["ab", "cd", "free"]
    ensures TextAnalysis(preprocess, Some("Ab cd free")).score < TextAnalysis(preprocess, Some("Ab cd")).score
    ensures TextAnalysis(preprocess, Some("Ab cd")).score == 0.5
    ensures TextAnalysis(preprocess, Some("Ab cd free")).score == 1.0 / 3.0
  {
    AbCdScore(preprocess);
    AbCdFreeScore(preprocess);
  }
}
