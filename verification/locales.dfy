/**
 * The supported-locale table and the digit localiser shared by all three
 * front-ends: the decimal point is replaced by the locale's separator,
 * then ASCII digits are shifted into the locale's native digit block.
 */
module Locales {
  import opened Wrappers
  import JsNumber

  /** `nativeZero` is the code point of the locale's zero digit. */
  datatype Locale = Locale(tag: string, flag: string, nativeZero: Option<int>, decimalSep: Option<string>) {

    /** `String.fromCodePoint(nativeZero + d)` yields a scalar value for every digit d. */
    predicate WellFormed() {
      nativeZero.Some? ==> ValidZero(nativeZero.value)
    }

    /** The separator is substituted when it is set, non-empty and not "." itself. */
    predicate SeparatorActive() {
      decimalSep.Some? && decimalSep.value != "" && decimalSep.value != "."
    }
  }

  predicate ValidZero(zero: int) {
    0 <= zero && (zero + 9 < 0xD800 || (0xE000 <= zero && zero + 9 < 0x11_0000))
  }

  /** The native digit block lies above the ASCII digits (and so above "."). */
  predicate AboveAsciiDigits(zero: int) {
    zero > '9' as int
  }

  const SupportedLocales: seq<Locale> := [
    Locale("mg", "\U{1F1F2}\U{1F1EC}", None, Some(",")),
    Locale("ar", "\U{1F1F8}\U{1F1E6}", Some(0x0660), Some("\U{066B}")),
    Locale("en", "\U{1F1EC}\U{1F1E7}", None, None),
    Locale("es", "\U{1F1EA}\U{1F1F8}", None, Some(",")),
    Locale("fr", "\U{1F1EB}\U{1F1F7}", None, Some(",")),
    Locale("hi", "\U{1F1EE}\U{1F1F3}", Some(0x0966), None),
    Locale("ne", "\U{1F1F3}\U{1F1F5}", Some(0x0966), None),
    Locale("zh", "\U{1F1E8}\U{1F1F3}", None, None)
  ]

  /** The properties every entry of the table has, which the lemmas below rely on. */
  predicate TableEntry(l: Locale) {
    l.WellFormed()
    && (l.nativeZero.Some? ==> AboveAsciiDigits(l.nativeZero.value))
    && (l.decimalSep.Some? ==> |l.decimalSep.value| == 1 && l.decimalSep.value != ".")
  }

  function Tags(ls: seq<Locale>): (tags: seq<string>)
    ensures |tags| == |ls| && forall i :: 0 <= i < |ls| ==> tags[i] == ls[i].tag
  {
    if |ls| == 0 then [] else [ls[0].tag] + Tags(ls[1..])
  }

  lemma SupportedLocalesTable()
    ensures Tags(SupportedLocales) == ["mg", "ar", "en", "es", "fr", "hi", "ne", "zh"]
    ensures forall i :: 0 <= i < |SupportedLocales| ==> TableEntry(SupportedLocales[i])
    ensures forall i, j :: 0 <= i < j < |SupportedLocales| ==> SupportedLocales[i].tag != SupportedLocales[j].tag
  {
    SupportedTags();
    SupportedEntries();
    SupportedTagsDistinct();
  }

  lemma SupportedTags()
    ensures Tags(SupportedLocales) == ["mg", "ar", "en", "es", "fr", "hi", "ne", "zh"]
  {
    var tags := Tags(SupportedLocales);
    assert tags[0] == "mg" && tags[1] == "ar" && tags[2] == "en" && tags[3] == "es";
    assert tags[4] == "fr" && tags[5] == "hi" && tags[6] == "ne" && tags[7] == "zh";
  }

  lemma SupportedEntries()
    ensures forall i :: 0 <= i < |SupportedLocales| ==> TableEntry(SupportedLocales[i])
  {
  }

  lemma SupportedTagsDistinct()
    ensures forall i, j :: 0 <= i < j < |SupportedLocales| ==> SupportedLocales[i].tag != SupportedLocales[j].tag
  {
  }

  /** `SUPPORTED_LOCALES.find(l => l.tag === tag)`. */
  function FindLocale(tag: string, ls: seq<Locale> := SupportedLocales): (r: Option<Locale>)
    ensures r.Some? ==> r.value in ls && r.value.tag == tag
    ensures r.None? <==> forall i :: 0 <= i < |ls| ==> ls[i].tag != tag
  {
    if |ls| == 0 then None
    else if ls[0].tag == tag then Some(ls[0])
    else FindLocale(tag, ls[1..])
  }

  // ----- the specification of localizeDigits -----

  /** `s.replace(/\./g, sep)`: every "." replaced by sep. */
  function ReplaceDots(s: string, sep: string): string {
    if |s| == 0 then ""
    else (if s[0] == '.' then sep else [s[0]]) + ReplaceDots(s[1..], sep)
  }

  /** An ASCII digit moves into the block starting at `zero`; anything else is kept. */
  function ShiftChar(c: char, zero: int): (r: char)
    requires ValidZero(zero)
    ensures JsNumber.IsDigit(c) ==> r as int == zero + JsNumber.DigitValue(c)
    ensures !JsNumber.IsDigit(c) ==> r == c
  {
    if JsNumber.IsDigit(c) then (zero + (c as int - '0' as int)) as char else c
  }

  function ShiftDigits(s: string, zero: int): string
    requires ValidZero(zero)
  {
    seq(|s|, i requires 0 <= i < |s| => ShiftChar(s[i], zero))
  }

  /** What `localizeDigits(s, locale)` returns: separator first, then the digit shift. */
  function Localized(s: string, locale: Locale): string
    requires locale.WellFormed()
  {
    var separated := if locale.SeparatorActive() then ReplaceDots(s, locale.decimalSep.value) else s;
    if locale.nativeZero.Some? then ShiftDigits(separated, locale.nativeZero.value) else separated
  }

  /** `localizeDigits`: the separator replacement, then a loop over the characters. */
  method LocalizeDigits(s: string, locale: Locale) returns (result: string)
    requires locale.WellFormed()
    ensures result == Localized(s, locale)
  {
    result := s;
    if locale.SeparatorActive() {
      result := ReplaceDots(result, locale.decimalSep.value);
    }
    if locale.nativeZero.Some? {
      var zero := locale.nativeZero.value;
      var out := "";
      var i := 0;
      while i < |result|
        invariant 0 <= i <= |result|
        invariant |out| == i
        invariant forall j :: 0 <= j < i ==> out[j] == ShiftChar(result[j], zero)
      {
        var c := result[i];
        if '0' <= c <= '9' {
          out := out + [(zero + (c as int - '0' as int)) as char];
        } else {
          out := out + [c];
        }
        i := i + 1;
      }
      result := out;
    }
  }

  // ----- properties -----

  lemma {:induction false} ReplaceDotsWithout(s: string, sep: string)
    requires '.' !in s
    ensures ReplaceDots(s, sep) == s
  {
    if |s| > 0 {
      assert '.' !in s[1..];
      ReplaceDotsWithout(s[1..], sep);
    }
  }

  /** With a one-character separator every "." is replaced in place and nothing else moves. */
  lemma {:induction false} ReplaceDotsSingle(s: string, sep: string)
    requires |sep| == 1
    ensures |ReplaceDots(s, sep)| == |s|
    ensures forall i :: 0 <= i < |s| ==> ReplaceDots(s, sep)[i] == if s[i] == '.' then sep[0] else s[i]
  {
    if |s| > 0 {
      ReplaceDotsSingle(s[1..], sep);
    }
  }

  /** When the separator has no ".", no "." survives the replacement. */
  lemma {:induction false} ReplaceDotsRemoves(s: string, sep: string)
    requires '.' !in sep
    ensures '.' !in ReplaceDots(s, sep)
  {
    if |s| > 0 {
      ReplaceDotsRemoves(s[1..], sep);
    }
  }

  /** After the shift no ASCII digit remains, provided the native block lies above them. */
  lemma ShiftRemovesAsciiDigits(s: string, zero: int)
    requires ValidZero(zero) && AboveAsciiDigits(zero)
    ensures forall i :: 0 <= i < |ShiftDigits(s, zero)| ==> !JsNumber.IsDigit(ShiftDigits(s, zero)[i])
  {
  }

  lemma ShiftWithoutDigits(s: string, zero: int)
    requires ValidZero(zero)
    requires forall i :: 0 <= i < |s| ==> !JsNumber.IsDigit(s[i])
    ensures ShiftDigits(s, zero) == s
  {
  }

  /** Locales with neither a separator nor a native zero leave every string unchanged. */
  lemma PlainLocaleUnchanged(s: string, locale: Locale)
    requires locale.nativeZero.None? && locale.decimalSep.None?
    ensures Localized(s, locale) == s
  {
  }

  /**
   * Character i of the output is the input character with the separator
   * substituted first and the digit shift applied after; so the output
   * has the input's length.
   */
  lemma LocalizedAt(s: string, locale: Locale)
    requires TableEntry(locale)
    ensures |Localized(s, locale)| == |s|
    ensures forall i :: 0 <= i < |s| ==>
      var c := if locale.SeparatorActive() && s[i] == '.' then locale.decimalSep.value[0] else s[i];
      Localized(s, locale)[i] == if locale.nativeZero.Some? then ShiftChar(c, locale.nativeZero.value) else c
  {
    if locale.SeparatorActive() {
      ReplaceDotsSingle(s, locale.decimalSep.value);
    }
  }

  /** With a native zero, no ASCII digit is left in the output. */
  lemma LocalizedHasNoAsciiDigits(s: string, locale: Locale)
    requires TableEntry(locale) && locale.nativeZero.Some?
    ensures forall i :: 0 <= i < |Localized(s, locale)| ==> !JsNumber.IsDigit(Localized(s, locale)[i])
  {
    var separated := if locale.SeparatorActive() then ReplaceDots(s, locale.decimalSep.value) else s;
    ShiftRemovesAsciiDigits(separated, locale.nativeZero.value);
  }

  /** Localising an already localised string changes nothing. */
  lemma LocalizedIdempotent(s: string, locale: Locale)
    requires TableEntry(locale)
    ensures Localized(Localized(s, locale), locale) == Localized(s, locale)
  {
    var once := Localized(s, locale);
    var separated := if locale.SeparatorActive() then ReplaceDots(s, locale.decimalSep.value) else s;
    if locale.SeparatorActive() {
      assert '.' !in locale.decimalSep.value;
      ReplaceDotsRemoves(s, locale.decimalSep.value);
      assert '.' !in separated;
      if locale.nativeZero.Some? {
        assert '.' !in once by {
          forall i | 0 <= i < |once| ensures once[i] != '.' {
            assert once[i] == ShiftChar(separated[i], locale.nativeZero.value);
            assert separated[i] in separated;
          }
        }
      }
      ReplaceDotsWithout(once, locale.decimalSep.value);
    }
    if locale.nativeZero.Some? {
      LocalizedHasNoAsciiDigits(s, locale);
      ShiftWithoutDigits(once, locale.nativeZero.value);
    }
  }

  /** Every supported locale preserves length and is idempotent. */
  lemma SupportedLocalesIdempotent(s: string, i: int)
    requires 0 <= i < |SupportedLocales|
    ensures SupportedLocales[i].WellFormed()
    ensures |Localized(s, SupportedLocales[i])| == |s|
    ensures Localized(Localized(s, SupportedLocales[i]), SupportedLocales[i]) == Localized(s, SupportedLocales[i])
  {
    SupportedLocalesTable();
    LocalizedAt(s, SupportedLocales[i]);
    LocalizedIdempotent(s, SupportedLocales[i]);
  }
}
