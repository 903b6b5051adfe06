/**
 * What `train` builds, as functions of the records seen so far: the per-phone
 * spam/ham history (`spamPhoneMetrics`), the phone blacklist and the documents
 * handed to the Bayes classifier. Nothing is ever cleared, so a second call
 * adds to what the first one built.
 */
module Training {
  import opened Wrappers
  import opened Records
  import opened PhoneNormalizer
  import opened Scoring
  import opened PhoneRisk

  /** `spamPhoneMetrics` and `phoneBlacklist` together. */
  datatype PhoneStats = PhoneStats(metrics: map<string, PhoneMetrics>, blacklist: set<string>)

  const NO_HISTORY := PhoneMetrics(0, 0, 0)

  predicate IsSpamLabel(item: TrainingRecord) {
    item.labelName == "spam"
  }

  /** The key a record's phone is filed under: its normalised form, when the phone is present and that form is not "". */
  function PhoneKey(item: TrainingRecord): (k: Option<string>)
    ensures k.Some? ==> k.value != "" && IsNormalized(k.value)
    ensures k.Some? <==> Present(item.phone) && KeepPhoneChars(item.phone.value) != ""
  {
    if Present(item.phone) && NormalizePhone(item.phone).value != "" then NormalizePhone(item.phone) else None
  }

  function HistoryOf(st: PhoneStats, p: string): PhoneMetrics {
    if p in st.metrics then st.metrics[p] else NO_HISTORY
  }

  /** One pass of the first `forEach` of `train`. */
  function Record(st: PhoneStats, item: TrainingRecord): PhoneStats {
    match PhoneKey(item)
    case None => st
    case Some(p) =>
      var before := HistoryOf(st, p);
      var counted :=
        if IsSpamLabel(item) then before.(spamCount := before.spamCount + 1)
        else before.(hamCount := before.hamCount + 1);
      var metrics := counted.(total := counted.spamCount + counted.hamCount);
      PhoneStats(st.metrics[p := metrics], if IsSpamLabel(item) then st.blacklist + {p} else st.blacklist)
  }

  /** The first `forEach` of `train` over `items`, starting from `st`. */
  function RecordAll(st: PhoneStats, items: seq<TrainingRecord>): PhoneStats {
    if items == [] then st else Record(RecordAll(st, items[..|items| - 1]), items[|items| - 1])
  }

  /** The phones the blacklist gains from `items`. */
  function SpamPhones(items: seq<TrainingRecord>): set<string> {
    set k | 0 <= k < |items| && IsSpamLabel(items[k]) && PhoneKey(items[k]).Some? :: PhoneKey(items[k]).value
  }

  /** How many records of `items` file phone `p` with a spam label (`spam`) or any other label (`!spam`). */
  function Tally(items: seq<TrainingRecord>, p: string, spam: bool): nat {
    if items == [] then 0
    else
      var last := items[|items| - 1];
      Tally(items[..|items| - 1], p, spam) + (if PhoneKey(last) == Some(p) && IsSpamLabel(last) == spam then 1 else 0)
  }

  /**
   * The state `train` maintains: every history is keyed by a non-empty normalised
   * phone, has at least one observation and `total == spamCount + hamCount`; and
   * the blacklist is exactly the set of phones with some spam observation.
   */
  ghost predicate Consistent(st: PhoneStats) {
    && (forall p :: p in st.metrics ==>
          && p != "" && IsNormalized(p)
          && st.metrics[p].total == st.metrics[p].spamCount + st.metrics[p].hamCount
          && st.metrics[p].total > 0)
    && (forall p :: p in st.blacklist <==> p in st.metrics && st.metrics[p].spamCount > 0)
  }

  lemma RecordConsistent(st: PhoneStats, item: TrainingRecord)
    requires Consistent(st)
    ensures Consistent(Record(st, item))
  {
  }

  lemma {:induction false} RecordAllConsistent(st: PhoneStats, items: seq<TrainingRecord>)
    requires Consistent(st)
    ensures Consistent(RecordAll(st, items))
  {
    if items != [] {
      RecordAllConsistent(st, items[..|items| - 1]);
      RecordConsistent(RecordAll(st, items[..|items| - 1]), items[|items| - 1]);
    }
  }

  /** Training never removes a history or a blacklisted phone. */
  lemma {:induction false} RecordAllGrows(st: PhoneStats, items: seq<TrainingRecord>)
    ensures st.metrics.Keys <= RecordAll(st, items).metrics.Keys
    ensures st.blacklist <= RecordAll(st, items).blacklist
  {
    if items != [] {
      RecordAllGrows(st, items[..|items| - 1]);
    }
  }

  /** The blacklist gains exactly the normalised phones of the records labelled "spam". */
  lemma {:induction false} RecordAllBlacklist(st: PhoneStats, items: seq<TrainingRecord>)
    ensures RecordAll(st, items).blacklist == st.blacklist + SpamPhones(items)
  {
    if items != [] {
      var init, last := items[..|items| - 1], items[|items| - 1];
      RecordAllBlacklist(st, init);
      var extra := if IsSpamLabel(last) && PhoneKey(last).Some? then {PhoneKey(last).value} else {};
      assert SpamPhones(items) == SpamPhones(init) + extra by {
        forall q | q in SpamPhones(items) ensures q in SpamPhones(init) + extra {
          var k :| 0 <= k < |items| && IsSpamLabel(items[k]) && PhoneKey(items[k]).Some? && PhoneKey(items[k]).value == q;
          if k < |init| {
            assert items[k] == init[k];
          }
        }
        forall q | q in SpamPhones(init) ensures q in SpamPhones(items) {
          var k :| 0 <= k < |init| && IsSpamLabel(init[k]) && PhoneKey(init[k]).Some? && PhoneKey(init[k]).value == q;
          assert items[k] == init[k];
        }
      }
    }
  }

  /**
   * Each history counts exactly the records filed under its phone: the spam and
   * ham counters are what they were plus the tallies, and a history exists iff
   * it existed before or some record files the phone.
   */
  lemma {:induction false} RecordAllTally(st: PhoneStats, items: seq<TrainingRecord>, p: string)
    ensures p in RecordAll(st, items).metrics <==> p in st.metrics || Tally(items, p, true) + Tally(items, p, false) > 0
    ensures HistoryOf(RecordAll(st, items), p).spamCount == HistoryOf(st, p).spamCount + Tally(items, p, true)
    ensures HistoryOf(RecordAll(st, items), p).hamCount == HistoryOf(st, p).hamCount + Tally(items, p, false)
  {
    if items != [] {
      RecordAllTally(st, items[..|items| - 1], p);
    }
  }

  /** A record without a usable phone leaves the histories and the blacklist as they were. */
  lemma RecordSkipsPhoneless(st: PhoneStats, item: TrainingRecord)
    requires !Present(item.phone) || KeepPhoneChars(item.phone.value) == ""
    ensures Record(st, item) == st
  {
  }

  /**
   * On a state built by training, the spam-history rule never fires for a phone
   * that got past the blacklist: such a phone has no spam observation at all.
   */
  lemma HistoryRuleSilent(st: PhoneStats, p: string)
    requires Consistent(st)
    requires p !in st.blacklist
    ensures TotalsPositive(st.metrics)
    ensures HistoryRule(st.metrics, p) == NOTHING
  {
  }

  /** The second `forEach` of `train`: a document for every record whose text is present, in order. */
  function DocumentsOf(preprocess: string -> seq<string>, items: seq<TrainingRecord>): (docs: seq<Document>)
    ensures |docs| <= |items|
  {
    if items == [] then []
    else
      var last := items[|items| - 1];
      DocumentsOf(preprocess, items[..|items| - 1])
      + (if Present(last.text) then [Document(preprocess(last.text.value), last.labelName)] else [])
  }

  /** The documents of `a + b` are those of `a`, then those of `b`: one pass, in record order. */
  lemma {:induction false} DocumentsOfAppend(preprocess: string -> seq<string>, a: seq<TrainingRecord>, b: seq<TrainingRecord>)
    ensures DocumentsOf(preprocess, a + b) == DocumentsOf(preprocess, a) + DocumentsOf(preprocess, b)
  {
    if b != [] {
      assert (a + b)[..|a + b| - 1] == a + b[..|b| - 1];
      assert (a + b)[|a + b| - 1] == b[|b| - 1];
      DocumentsOfAppend(preprocess, a, b[..|b| - 1]);
    } else {
      assert a + b == a;
    }
  }

  /** One record gives the document of its preprocessed text and its label when the text is present, and nothing otherwise. */
  lemma DocumentsOfSingle(preprocess: string -> seq<string>, item: TrainingRecord)
    ensures DocumentsOf(preprocess, [item]) == if Present(item.text) then [Document(preprocess(item.text.value), item.labelName)] else []
  {
    assert [item][..0] == [];
  }
}
