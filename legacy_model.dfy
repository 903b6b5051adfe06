/**
 * The older `SpamDetectionModel` of model.js: a blacklist of raw phone strings
 * taken from spam-labelled records, a `trained` flag, and a prediction that is
 * either the blacklist verdict or the Bayes classifier's best label.
 *
 * The tokenizer (`preprocessText`, lower-casing then word tokenisation) is any
 * function from text to tokens; the classifier is any function from the
 * documents it has been given and a token list to its best label and that
 * label's value in [0, 1].
 */
module LegacyModel {
  import opened Wrappers
  import opened Records
  import opened Training

  type Tokenizer = string -> seq<string>

  /** The classifier's best label for a token list, with the value it gives that label. */
  datatype Classification = Classification(labelName: string, value: Probability)
  type BestLabel = (seq<Document>, seq<string>) -> Classification

  /** The object `predict` returns; the label is whatever string the training records used. */
  datatype Verdict = Verdict(prediction: string, confidence: real, reason: string)

  const BLACKLIST_VERDICT := Verdict("spam", 1.0, "Phone number in blacklist")
  const TEXT_REASON := "Text content analysis"

  /** The raw phone strings the blacklist gains from `items`: those of records labelled exactly "spam" whose phone is present. */
  function RawSpamPhones(items: seq<TrainingRecord>): set<string> {
    set k | 0 <= k < |items| && items[k].labelName == "spam" && Present(items[k].phone) :: items[k].phone.value
  }

  /** Extending the records by one adds that record's raw phone when it is a spam record with a present phone, and nothing else. */
  lemma RawSpamPhonesSnoc(items: seq<TrainingRecord>, i: nat)
    requires i < |items|
    ensures RawSpamPhones(items[..i + 1]) == RawSpamPhones(items[..i])
      + (if items[i].labelName == "spam" && Present(items[i].phone) then {items[i].phone.value} else {})
  {
    var init, more := items[..i], items[..i + 1];
    forall q | q in RawSpamPhones(more)
      ensures q in RawSpamPhones(init) || (items[i].labelName == "spam" && Present(items[i].phone) && q == items[i].phone.value)
    {
      var k :| 0 <= k < |more| && more[k].labelName == "spam" && Present(more[k].phone) && more[k].phone.value == q;
      if k < i {
        assert init[k] == more[k];
      }
    }
    forall q | q in RawSpamPhones(init) ensures q in RawSpamPhones(more) {
      var k :| 0 <= k < |init| && init[k].labelName == "spam" && Present(init[k].phone) && init[k].phone.value == q;
      assert more[k] == init[k];
    }
    if items[i].labelName == "spam" && Present(items[i].phone) {
      assert more[i] == items[i];
    }
  }

  /**
   * What `predict` returns or throws: nothing before training; the blacklist
   * verdict for a present phone found verbatim in the blacklist; a TypeError
   * when the text is null or undefined (it is lower-cased before tokenising);
   * otherwise the classifier's best label and its value.
   */
  function PredictOutcome(
    trained: bool, blacklist: set<string>, docs: seq<Document>, tokenize: Tokenizer, classify: BestLabel,
    text: Option<string>, phone: Option<string>): (r: Result<Verdict, Error>)
    ensures !trained ==> r == Failure(NotTrained)
    ensures trained && Present(phone) && phone.value in blacklist ==> r == Success(BLACKLIST_VERDICT)
    ensures trained && !(Present(phone) && phone.value in blacklist) ==> (r.Failure? <==> text.None?)
    ensures trained && !(Present(phone) && phone.value in blacklist) && text.None? ==> r == Failure(TextNotString)
    ensures r.Failure? ==> r.error in {NotTrained, TextNotString}
    ensures r.Success? ==> 0.0 <= r.value.confidence <= 1.0
    ensures trained && !(Present(phone) && phone.value in blacklist) && text.Some? ==>
      r == (var c := classify(docs, tokenize(text.value)); Success(Verdict(c.labelName, c.value, TEXT_REASON)))
  {
    if !trained then Failure(NotTrained)
    else if Present(phone) && phone.value in blacklist then Success(BLACKLIST_VERDICT)
    else if text.None? then Failure(TextNotString)
    else
      var c := classify(docs, tokenize(text.value));
      Success(Verdict(c.labelName, c.value, TEXT_REASON))
  }

  class SpamDetectionModel {
    var phoneBlacklist: set<string>
    /** The documents added to the shared Bayes classifier so far. */
    var documents: seq<Document>
    var trained: bool
    const tokenize: Tokenizer
    const classify: BestLabel

    constructor (tokenize: Tokenizer, classify: BestLabel)
      ensures phoneBlacklist == {} && documents == [] && !trained
      ensures this.tokenize == tokenize && this.classify == classify
    {
      this.tokenize := tokenize;
      this.classify := classify;
      phoneBlacklist := {};
      documents := [];
      trained := false;
    }

    /**
     * `train`: one pass over the records, adding the raw phone of every spam
     * record with a present phone to the blacklist and a document for every
     * present text; then the model is trained. Nothing is ever removed.
     */
    method Train(items: seq<TrainingRecord>)
      modifies this
      ensures trained
      ensures phoneBlacklist == old(phoneBlacklist) + RawSpamPhones(items)
      ensures documents == old(documents) + DocumentsOf(tokenize, items)
    {
      var i := 0;
      while i < |items|
        invariant 0 <= i <= |items|
        invariant phoneBlacklist == old(phoneBlacklist) + RawSpamPhones(items[..i])
        invariant documents == old(documents) + DocumentsOf(tokenize, items[..i])
      {
        var item := items[i];
        RawSpamPhonesSnoc(items, i);
        if item.labelName == "spam" && Present(item.phone) {
          phoneBlacklist := phoneBlacklist + {item.phone.value};
        }
        if Present(item.text) {
          documents := documents + [Document(tokenize(item.text.value), item.labelName)];
        }
        assert items[..i + 1][..i] == items[..i];
        i := i + 1;
      }
      assert items[..|items|] == items;
      trained := true;
    }

    method Predict(text: Option<string>, phone: Option<string>) returns (r: Result<Verdict, Error>)
      ensures r == PredictOutcome(trained, phoneBlacklist, documents, tokenize, classify, text, phone)
    {
      if !trained {
        return Failure(NotTrained);
      }
      if Present(phone) && phone.value in phoneBlacklist {
        return Success(BLACKLIST_VERDICT);
      }
      if text.None? {
        return Failure(TextNotString);
      }
      var classification := classify(documents, tokenize(text.value));
      r := Success(Verdict(classification.labelName, classification.value, TEXT_REASON));
    }
  }

  /**
   * After training on records that include a spam record with a present phone,
   * predicting with that same phone string gives the blacklist verdict
   * whatever the text.
   */
  lemma TrainedSpamPhoneIsBlacklisted(
    blacklist: set<string>, items: seq<TrainingRecord>, k: nat,
    docs: seq<Document>, tokenize: Tokenizer, classify: BestLabel, text: Option<string>)
    requires k < |items| && items[k].labelName == "spam" && Present(items[k].phone)
    ensures PredictOutcome(true, blacklist + RawSpamPhones(items), docs, tokenize, classify, text, items[k].phone)
         == Success(BLACKLIST_VERDICT)
  {
    assert items[k].phone.value in RawSpamPhones(items);
  }

  /**
   * The blacklist is keyed by the raw string: a spam record's phone written
   * with a dash does not blacklist the same number written without it.
   */
  lemma RawPhoneIsNotNormalised(docs: seq<Document>, tokenize: Tokenizer, classify: BestLabel)
    ensures var blacklist := RawSpamPhones([TrainingRecord(None, "spam", Some("555-0100"))]);
      && blacklist == {"555-0100"}
      && PredictOutcome(true, blacklist, docs, tokenize, classify, Some("hi"), Some("5550100"))
         == Success(Verdict(classify(docs, tokenize("hi")).labelName, classify(docs, tokenize("hi")).value, TEXT_REASON))
  {
    var items := [TrainingRecord(None, "spam", Some("555-0100"))];
    assert items[0].phone.value in RawSpamPhones(items);
    assert "5550100" != "555-0100" by { assert "5550100"[3] != "555-0100"[3]; }
  }
}
