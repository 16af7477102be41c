/** The signup form's phone cleaner: strip, then match `^(\+9665\d{8}|05\d{8})$` with Python's `re`. */
module Signup {
  import opened Wrappers
  import opened Text

  /** Which characters the pattern's `\d` stands for. */
  datatype DigitClass = AsciiDigits | UnicodeDigits

  /** First code points of the 68 runs of ten decimal digits (general category Nd) in Unicode 15.0. */
  const NdZeros: set<int> := {
    0x0030, 0x0660, 0x06F0, 0x07C0, 0x0966, 0x09E6, 0x0A66, 0x0AE6, 0x0B66, 0x0BE6,
    0x0C66, 0x0CE6, 0x0D66, 0x0DE6, 0x0E50, 0x0ED0, 0x0F20, 0x1040, 0x1090, 0x17E0,
    0x1810, 0x1946, 0x19D0, 0x1A80, 0x1A90, 0x1B50, 0x1BB0, 0x1C40, 0x1C50, 0xA620,
    0xA8D0, 0xA900, 0xA9D0, 0xA9F0, 0xAA50, 0xABF0, 0xFF10, 0x104A0, 0x10D30, 0x11066,
    0x110F0, 0x11136, 0x111D0, 0x112F0, 0x11450, 0x114D0, 0x11650, 0x116C0, 0x11730, 0x118E0,
    0x11950, 0x11C50, 0x11D50, 0x11DA0, 0x11F50, 0x16A60, 0x16AC0, 0x16B50, 0x1D7CE, 0x1D7D8,
    0x1D7E2, 0x1D7EC, 0x1D7F6, 0x1E140, 0x1E2F0, 0x1E4F0, 0x1E950, 0x1FBF0
  }

  /** What `\d` matches in a `str` pattern: any Unicode decimal digit. */
  predicate IsUnicodeDigit(c: char) {
    exists z :: z in NdZeros && z <= c as int < z + 10
  }

  predicate IsDigitIn(cls: DigitClass, c: char) {
    match cls
    case AsciiDigits => IsAsciiDigit(c)
    case UnicodeDigits => IsUnicodeDigit(c)
  }

  predicate AllDigitsIn(cls: DigitClass, s: string) {
    forall i :: 0 <= i < |s| ==> IsDigitIn(cls, s[i])
  }

  /** The number shape the form asks for: "+9665" or "05", then exactly eight digits, and nothing else. */
  predicate IsSaudiMobile(cls: DigitClass, s: string) {
    || (|s| == 13 && s[..5] == "+9665" && AllDigitsIn(cls, s[5..]))
    || (|s| == 10 && s[..2] == "05" && AllDigitsIn(cls, s[2..]))
  }

  /** `\d{n}$`: n digits, then the end of the text or a single final newline (Python's `$` allows both). */
  function DigitsToEnd(cls: DigitClass, s: string, n: nat): bool {
    if n == 0 then s == [] || s == "\n"
    else |s| > 0 && IsDigitIn(cls, s[0]) && DigitsToEnd(cls, s[1..], n - 1)
  }

  /** re.match of the pattern; the two alternatives are tried in order. */
  function MatchesPhonePattern(cls: DigitClass, s: string): bool {
    || (|s| >= 5 && s[..5] == "+9665" && DigitsToEnd(cls, s[5..], 8))
    || (|s| >= 2 && s[..2] == "05" && DigitsToEnd(cls, s[2..], 8))
  }

  lemma {:induction false} DigitsToEndMeaning(cls: DigitClass, s: string, n: nat)
    ensures DigitsToEnd(cls, s, n) <==>
      (|s| == n && AllDigitsIn(cls, s)) || (|s| == n + 1 && s[n] == '\n' && AllDigitsIn(cls, s[..n]))
  {
    if n > 0 && |s| > 0 {
      DigitsToEndMeaning(cls, s[1..], n - 1);
      assert s == [s[0]] + s[1..];
      if |s| == n + 1 {
        assert s[1..][..n - 1] == s[..n][1..];
      }
    }
  }

  /** Once the value is stripped, `$` can no longer meet a final newline: the pattern accepts exactly the number shape. */
  lemma PatternOnStripped(cls: DigitClass, s: string)
    requires s == [] || !IsSpace(s[|s| - 1])
    ensures MatchesPhonePattern(cls, s) <==> IsSaudiMobile(cls, s)
  {
    if |s| >= 5 {
      DigitsToEndMeaning(cls, s[5..], 8);
    }
    if |s| >= 2 {
      DigitsToEndMeaning(cls, s[2..], 8);
    }
  }

  const PhoneError := "Enter a valid Saudi mobile number (e.g. +9665XXXXXXXX or 05XXXXXXXX)"

  /** clean_admin_phone with a chosen digit class: a missing value reads as "", the value is stripped, then matched. */
  function CleanPhone(cls: DigitClass, raw: Option<string>): (r: Result<string, string>)
    ensures r.Success? <==> IsSaudiMobile(cls, Strip(raw.GetOr("")))
    ensures r.Success? ==> r.value == Strip(raw.GetOr(""))
    ensures r.Failure? ==> r.error == PhoneError
  {
    var phone := Strip(raw.GetOr(""));
    PatternOnStripped(cls, phone);
    if MatchesPhonePattern(cls, phone) then Success(phone) else Failure(PhoneError)
  }

  /** clean_admin_phone as written: `\d` in a `str` pattern takes any Unicode decimal digit. */
  function CleanAdminPhoneAsWritten(raw: Option<string>): (r: Result<string, string>)
    ensures r.Success? <==> IsSaudiMobile(UnicodeDigits, Strip(raw.GetOr("")))
    ensures r.Success? ==> r.value == Strip(raw.GetOr(""))
    ensures r.Failure? ==> r.error == PhoneError
  {
    CleanPhone(UnicodeDigits, raw)
  }

  /** clean_admin_phone as intended: only the ASCII digits 0-9 after the prefix. */
  function CleanAdminPhone(raw: Option<string>): (r: Result<string, string>)
    ensures r.Success? <==> IsSaudiMobile(AsciiDigits, Strip(raw.GetOr("")))
    ensures r.Success? ==> r.value == Strip(raw.GetOr(""))
    ensures r.Failure? ==> r.error == PhoneError
  {
    CleanPhone(AsciiDigits, raw)
  }

  /** A missing field is cleaned as "" and refused. */
  lemma MissingPhoneRejected()
    ensures CleanAdminPhone(None) == Failure(PhoneError)
    ensures CleanAdminPhoneAsWritten(None) == Failure(PhoneError)
  {
  }

  /** Cleaning an accepted value again accepts it and returns it unchanged. */
  lemma CleanIdempotent(cls: DigitClass, raw: Option<string>)
    requires CleanPhone(cls, raw).Success?
    ensures CleanPhone(cls, Some(CleanPhone(cls, raw).value)) == CleanPhone(cls, raw)
  {
    StripIdempotent(raw.GetOr(""));
  }

  /** Every ASCII digit is a Unicode digit, so the intended cleaner never accepts what the written one refuses. */
  lemma {:induction false} IntendedWithinAsWritten(raw: Option<string>)
    ensures CleanAdminPhone(raw).Success? ==> CleanAdminPhoneAsWritten(raw) == CleanAdminPhone(raw)
  {
    var s := Strip(raw.GetOr(""));
    forall c: char | IsAsciiDigit(c) ensures IsUnicodeDigit(c) {
      assert 0x30 in NdZeros;
    }
    if CleanAdminPhone(raw).Success? {
      assert IsSaudiMobile(UnicodeDigits, s);
    }
  }

  /** Arabic-Indic digits (U+0660 to U+0669) are Unicode decimal digits. */
  lemma ArabicIndicIsDigit(c: char)
    requires '\U{0660}' <= c <= '\U{0669}'
    ensures IsUnicodeDigit(c) && !IsAsciiDigit(c)
  {
    assert 0x0660 in NdZeros;
  }

  const ArabicIndicSample := "05\U{0661}\U{0662}\U{0663}\U{0664}\U{0665}\U{0666}\U{0667}\U{0668}"

  lemma SampleIsStripped()
    ensures Strip(ArabicIndicSample) == ArabicIndicSample
  {
    var s := ArabicIndicSample;
    assert !IsSpace(s[0]) && !IsSpace(s[9]);
    StripFixed(s);
  }

  lemma SampleShape()
    ensures IsSaudiMobile(UnicodeDigits, ArabicIndicSample)
    ensures !IsSaudiMobile(AsciiDigits, ArabicIndicSample)
  {
    var s := ArabicIndicSample;
    forall i | 2 <= i < 10 ensures IsUnicodeDigit(s[i]) {
      ArabicIndicIsDigit(s[i]);
    }
    assert AllDigitsIn(UnicodeDigits, s[2..]);
    assert s[2..][0] == s[2];
    assert !IsAsciiDigit(s[2]);
  }

  /** "05" followed by eight Arabic-Indic digits passes the written pattern but is not an ASCII mobile number. */
  lemma AsWrittenAcceptsArabicIndicDigits()
    ensures CleanAdminPhoneAsWritten(Some(ArabicIndicSample)).Success?
    ensures CleanAdminPhone(Some(ArabicIndicSample)).Failure?
  {
    SampleIsStripped();
    SampleShape();
  }
}
