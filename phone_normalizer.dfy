/** Phone canonicalisation: `normalizePhone` and `extractAreaCode` of the scoring engine. */
module PhoneNormalizer {
  import opened Wrappers
  import opened Strings
  import opened Records

  /** The characters `/[^0-9+]/g` leaves in place. */
  predicate IsPhoneChar(c: char) { IsDigit(c) || c == '+' }

  predicate IsNormalized(s: string) {
    forall i :: 0 <= i < |s| ==> IsPhoneChar(s[i])
  }

  /** `s.replace(/[^0-9+]/g, '')`: every digit and every `+`, wherever it stands, in order. */
  function KeepPhoneChars(s: string): (r: string)
    ensures |r| <= |s|
    ensures IsNormalized(r)
  {
    if s == [] then [] else (if IsPhoneChar(s[0]) then [s[0]] else []) + KeepPhoneChars(s[1..])
  }

  /** The filter distributes over concatenation: it keeps the kept characters of each part, in order. */
  lemma {:induction false} KeepPhoneCharsAppend(a: string, b: string)
    ensures KeepPhoneChars(a + b) == KeepPhoneChars(a) + KeepPhoneChars(b)
  {
    if a == [] {
      assert a + b == b;
    } else {
      assert (a + b)[0] == a[0] && (a + b)[1..] == a[1..] + b;
      KeepPhoneCharsAppend(a[1..], b);
    }
  }

  /** On one character the filter keeps a digit or `+` and drops anything else. */
  lemma KeepPhoneCharsSingle(c: char)
    ensures KeepPhoneChars([c]) == if IsPhoneChar(c) then [c] else []
  {
    assert [c][1..] == [];
  }

  /** A string made only of digits and `+` is left as it is; any other character is dropped. */
  lemma {:induction false} KeepPhoneCharsExact(s: string)
    ensures KeepPhoneChars(s) == s <==> IsNormalized(s)
  {
    if s != [] {
      KeepPhoneCharsExact(s[1..]);
      if !IsPhoneChar(s[0]) {
        assert |KeepPhoneChars(s)| <= |s[1..]| < |s|;
      }
    }
  }

  lemma KeepPhoneCharsIdempotent(s: string)
    ensures KeepPhoneChars(KeepPhoneChars(s)) == KeepPhoneChars(s)
  {
    KeepPhoneCharsExact(KeepPhoneChars(s));
  }

  /** `normalizePhone`: null for a falsy phone, the filtered string otherwise (possibly ""). */
  function NormalizePhone(phone: Option<string>): (r: Option<string>)
    ensures r.None? <==> !Present(phone)
    ensures r.Some? ==> IsNormalized(r.value) && |r.value| <= |phone.value|
  {
    if !Present(phone) then None else Some(KeepPhoneChars(phone.value))
  }

  /** Normalising twice changes nothing, as long as the first pass leaves some digit or `+`. */
  lemma NormalizeIdempotent(phone: Option<string>)
    requires Present(NormalizePhone(phone))
    ensures NormalizePhone(NormalizePhone(phone)) == NormalizePhone(phone)
  {
    KeepPhoneCharsIdempotent(phone.value);
  }

  /** A phone with no digit and no `+` normalises to "", and "" normalises to null: idempotence stops there. */
  lemma NormalizeNotIdempotentOnEmpty()
    ensures NormalizePhone(Some("n/a")) == Some("")
    ensures NormalizePhone(NormalizePhone(Some("n/a"))) == None
  {
    assert KeepPhoneChars("n/a") == KeepPhoneChars("/a");
    assert KeepPhoneChars("/a") == KeepPhoneChars("a");
    assert KeepPhoneChars("a") == KeepPhoneChars("");
  }

  /** The international marker `extractAreaCode` strips: one leading `+`, failing that one leading `00`. */
  function TrunkMarker(phone: string): (m: string)
    ensures StartsWith(phone, m)
    ensures StartsWith(phone, "+") ==> m == "+"
    ensures !StartsWith(phone, "+") && StartsWith(phone, "00") ==> m == "00"
    ensures !StartsWith(phone, "+") && !StartsWith(phone, "00") ==> m == ""
  {
    if StartsWith(phone, "+") then "+" else if StartsWith(phone, "00") then "00" else ""
  }

  /** `extractAreaCode`: the first three characters after the international marker, "" for "". */
  function ExtractAreaCode(phone: string): (r: string)
    ensures |r| <= 3
    ensures StartsWith(phone, TrunkMarker(phone) + r)
    ensures |r| == 3 || |TrunkMarker(phone)| + |r| == |phone|
  {
    if phone == "" then ""
    else
      var m := TrunkMarker(phone);
      var cleaned := phone[|m|..];
      var r := cleaned[..if |cleaned| < 3 then |cleaned| else 3];
      assert r == phone[|m|..|m| + |r|];
      assert phone[..|m| + |r|] == phone[..|m|] + phone[|m|..|m| + |r|];
      r
  }
}
