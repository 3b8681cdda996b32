/**
 * Locale selection and translation lookup around the digit localiser:
 * the initial locale of the Svelte front-end, the Angular translation
 * service (`t` with `{param}` substitution, `tArray`, `loc`,
 * `getLocaleStrings`) and the React saved-index start-up.
 */
module I18n {
  import opened Wrappers
  import opened Locales
  import opened Storage

  const FallbackTag: string := "mg"

  /** The tags `SUPPORTED_LOCALES.find` accepts. */
  predicate Supported(tag: string) {
    FindLocale(tag).Some?
  }

  lemma FallbackSupported()
    ensures Supported(FallbackTag)
  {
  }

  /** Every tag of the table is accepted by the lookup. */
  lemma TableTagsSupported(i: int)
    requires 0 <= i < |SupportedLocales|
    ensures Supported(SupportedLocales[i].tag)
  {
  }

  /** `s.split('-')[0]`: everything before the first "-". */
  function BeforeDash(s: string): (prefix: string)
    ensures prefix <= s && '-' !in prefix
    ensures |prefix| < |s| ==> s[|prefix|] == '-'
  {
    if |s| == 0 || s[0] == '-' then "" else [s[0]] + BeforeDash(s[1..])
  }

  /** A string operand of `||`: it counts only when present and non-empty. */
  predicate Truthy(s: Option<string>) {
    s.Some? && s.value != ""
  }

  /** `savedLocaleTag || navigatorLanguage?.split('-')[0] || fallback`. */
  function Candidate(saved: Option<string>, navigatorLanguage: Option<string>): (candidate: string)
    ensures candidate != ""
  {
    if Truthy(saved) then saved.value
    else if navigatorLanguage.Some? && BeforeDash(navigatorLanguage.value) != "" then BeforeDash(navigatorLanguage.value)
    else FallbackTag
  }

  /** The options handed to the i18n library. */
  datatype I18nConfig = I18nConfig(fallbackLocale: string, initialLocale: string)

  /** `initI18n`: the candidate when it is supported, "mg" otherwise; the fallback is always "mg". */
  function InitI18n(saved: Option<string>, navigatorLanguage: Option<string>): (config: I18nConfig)
    ensures config.fallbackLocale == FallbackTag
    ensures Supported(config.initialLocale)
    ensures var candidate := Candidate(saved, navigatorLanguage);
      config.initialLocale == if Supported(candidate) then candidate else FallbackTag
  {
    var candidate := Candidate(saved, navigatorLanguage);
    FallbackSupported();
    var supported := FindLocale(candidate);
    I18nConfig(FallbackTag, if supported.Some? then supported.value.tag else FallbackTag)
  }

  /** A non-empty saved tag wins over the browser language, and only a supported one is used. */
  lemma SavedTagPrecedence(saved: string, navigatorLanguage: Option<string>)
    requires saved != ""
    ensures InitI18n(Some(saved), navigatorLanguage).initialLocale == if Supported(saved) then saved else FallbackTag
  {
  }

  /** Without a saved tag the browser language is cut at its first "-" before the lookup. */
  lemma NavigatorTruncated(saved: Option<string>, language: string)
    requires !Truthy(saved)
    requires Supported(BeforeDash(language))
    ensures InitI18n(saved, Some(language)).initialLocale == BeforeDash(language)
    ensures BeforeDash(language) <= language
  {
  }

  // ----- translations -----

  /** A translation entry: a string, a list of strings, `null`, or any other JSON value. */
  datatype Entry = Text(text: string) | List(items: seq<string>) | Null | OtherValue

  type Table = map<string, Entry>

  /** `s` holds `p` starting at index `i`. */
  predicate OccursAt(s: string, p: string, i: int) {
    0 <= i && i + |p| <= |s| && s[i..i + |p|] == p
  }

  /** The first index at or after `from` where `p` occurs. */
  function IndexOf(s: string, p: string, from: nat := 0): (r: Option<nat>)
    ensures r.Some? ==> from <= r.value && OccursAt(s, p, r.value)
    ensures r.Some? ==> forall j :: from <= j < r.value ==> !OccursAt(s, p, j)
    ensures r.None? ==> forall j :: from <= j ==> !OccursAt(s, p, j)
    decreases |s| - from
  {
    if from + |p| > |s| then None
    else if s[from..from + |p|] == p then Some(from)
    else IndexOf(s, p, from + 1)
  }

  /** `s.replace(p, rep)` with a string pattern: only the first occurrence is replaced. */
  function ReplaceFirst(s: string, p: string, rep: string): (r: string)
    ensures (forall j :: 0 <= j ==> !OccursAt(s, p, j)) ==> r == s
    ensures forall i :: OccursAt(s, p, i) && (forall j :: 0 <= j < i ==> !OccursAt(s, p, j)) ==>
      r == s[..i] + rep + s[i + |p|..]
  {
    match IndexOf(s, p)
    case None => s
    case Some(i) =>
      assert forall k :: OccursAt(s, p, k) && (forall j :: 0 <= j < k ==> !OccursAt(s, p, j)) ==> k == i;
      s[..i] + rep + s[i + |p|..]
  }

  /** Replacing a pattern by itself changes nothing. */
  lemma ReplaceFirstSelf(s: string, p: string)
    ensures ReplaceFirst(s, p, p) == s
  {
    match IndexOf(s, p)
    case None =>
    case Some(i) =>
      assert s == s[..i] + s[i..i + |p|] + s[i + |p|..];
  }

  /** An occurrence after the first survives the replacement, shifted by the change in length. */
  lemma LaterOccurrenceKept(s: string, p: string, rep: string, i: int, j: int)
    requires OccursAt(s, p, i) && forall k :: 0 <= k < i ==> !OccursAt(s, p, k)
    requires OccursAt(s, p, j) && j >= i + |p|
    ensures OccursAt(ReplaceFirst(s, p, rep), p, j - |p| + |rep|)
  {
    ReplaceFirstAt(s, p, rep, i);
    OccursAfterSplice(s, p, rep, i, j, ReplaceFirst(s, p, rep));
  }

  /** Splicing `rep` over the occurrence at `i` keeps a later occurrence, shifted by the change in length. */
  lemma OccursAfterSplice(s: string, p: string, rep: string, i: int, j: int, r: string)
    requires 0 <= i && i + |p| <= j && OccursAt(s, p, j)
    requires r == s[..i] + rep + s[i + |p|..]
    ensures OccursAt(r, p, j - |p| + |rep|)
  {
    var front, back := s[..i], s[i + |p|..];
    var k := j - i - |p|;
    assert back[k..k + |p|] == s[j..j + |p|];
    SliceOfThird(front, rep, back, k, |p|);
  }

  lemma ReplaceFirstAt(s: string, p: string, rep: string, i: int)
    requires OccursAt(s, p, i) && forall k :: 0 <= k < i ==> !OccursAt(s, p, k)
    ensures ReplaceFirst(s, p, rep) == s[..i] + rep + s[i + |p|..]
  {
  }

  lemma SliceOfThird(a: string, b: string, c: string, k: int, n: int)
    requires 0 <= k && 0 <= n && k + n <= |c|
    ensures (a + b + c)[|a| + |b| + k..|a| + |b| + k + n] == c[k..k + n]
  {
  }

  /** The placeholder for parameter `k`. */
  function Placeholder(k: string): string {
    "{" + k + "}"
  }

  /** The parameters applied one after another, each to the text the previous one left. */
  function Interpolate(text: string, params: seq<(string, string)>): string
    decreases |params|
  {
    if |params| == 0 then text
    else Interpolate(ReplaceFirst(text, Placeholder(params[0].0), params[0].1), params[1..])
  }

  /** What `t(key, params)` returns for a translation table. */
  function Translate(table: Table, key: string, params: seq<(string, string)>): string {
    if key !in table then key
    else match table[key]
      case Text(text) => Interpolate(text, params)
      case _ => key
  }

  /** A missing, `null` or non-string entry yields the key itself. */
  lemma TranslateFallsBackToKey(table: Table, key: string, params: seq<(string, string)>)
    requires key !in table || !table[key].Text?
    ensures Translate(table, key, params) == key
  {
  }

  /** Without parameters a string entry is returned as stored. */
  lemma TranslateWithoutParams(table: Table, key: string)
    requires key in table && table[key].Text?
    ensures Translate(table, key, []) == table[key].text
  {
  }

  /** One parameter replaces the first "{k}" of the entry, and nothing else. */
  lemma TranslateOneParam(table: Table, key: string, k: string, v: string, i: int)
    requires key in table && table[key].Text?
    requires var text := table[key].text;
      OccursAt(text, Placeholder(k), i) && forall j :: 0 <= j < i ==> !OccursAt(text, Placeholder(k), j)
    ensures var text := table[key].text;
      Translate(table, key, [(k, v)]) == text[..i] + v + text[i + |Placeholder(k)|..]
  {
    var text := table[key].text;
    assert [(k, v)][1..] == [];
    assert Interpolate(text, [(k, v)]) == ReplaceFirst(text, Placeholder(k), v);
  }

  /** Parameters are applied in the order given: a list of them acts as its parts one after the other. */
  lemma {:induction false} InterpolateAppend(text: string, first: seq<(string, string)>, second: seq<(string, string)>)
    ensures Interpolate(text, first + second) == Interpolate(Interpolate(text, first), second)
    decreases |first|
  {
    if |first| == 0 {
      assert first + second == second;
    } else {
      assert (first + second)[1..] == first[1..] + second;
      InterpolateAppend(ReplaceFirst(text, Placeholder(first[0].0), first[0].1), first[1..], second);
    }
  }

  /** The table for a tag: its own, or the "mg" table when the tag is unknown. */
  function TableFor(catalog: map<string, Table>, tag: string): (table: Table)
    requires FallbackTag in catalog
    ensures tag in catalog ==> table == catalog[tag]
    ensures tag !in catalog ==> table == catalog[FallbackTag]
  {
    if tag in catalog then catalog[tag] else catalog[FallbackTag]
  }

  /** `getLocaleStrings`: the table of a known tag, absent otherwise. */
  function LocaleStrings(catalog: map<string, Table>, tag: string): (r: Option<Table>)
    ensures r.Some? <==> tag in catalog
    ensures r.Some? ==> r.value == catalog[tag]
  {
    if tag in catalog then Some(catalog[tag]) else None
  }

  /** The Angular translation service: the current tag and its table. */
  class I18nService {
    /** `allTranslations`: one table per supported tag. */
    const catalog: map<string, Table>
    var localeTag: string
    var translations: Table

    ghost predicate Valid()
      reads this
    {
      (forall tag :: tag in catalog <==> Supported(tag)) && FallbackTag in catalog
      && translations == TableFor(catalog, localeTag)
    }

    /** The service starts in "mg" with the "mg" table. */
    constructor(catalog: map<string, Table>)
      requires forall tag :: tag in catalog <==> Supported(tag)
      ensures Valid()
      ensures this.catalog == catalog && localeTag == FallbackTag && translations == catalog[FallbackTag]
    {
      FallbackSupported();
      this.catalog := catalog;
      localeTag := FallbackTag;
      translations := catalog[FallbackTag];
    }

    /** `setLocale`: the tag is kept as given, the table falls back to "mg". */
    method SetLocale(tag: string)
      requires Valid()
      modifies this
      ensures Valid()
      ensures localeTag == tag
      ensures translations == if Supported(tag) then catalog[tag] else catalog[FallbackTag]
    {
      localeTag := tag;
      translations := TableFor(catalog, tag);
    }

    /** `t`: the entry with each `{k}` replaced in turn, or the key itself. */
    method T(key: string, params: seq<(string, string)>) returns (s: string)
      ensures s == Translate(translations, key, params)
    {
      if key !in translations || translations[key].Null? {
        return key;
      }
      var val := translations[key];
      if val.Text? {
        var text := val.text;
        var i := 0;
        while i < |params|
          invariant 0 <= i <= |params|
          invariant Interpolate(text, params[i..]) == Interpolate(val.text, params)
        {
          assert params[i..][1..] == params[i + 1..];
          text := ReplaceFirst(text, Placeholder(params[i].0), params[i].1);
          i := i + 1;
        }
        val := Text(text);
      }
      s := if val.Text? then val.text else key;
    }

    /** `tArray`: the entry when it is a list, the empty list otherwise. */
    function TArray(key: string): (items: seq<string>)
      reads this
      ensures key in translations && translations[key].List? ==> items == translations[key].items
      ensures !(key in translations && translations[key].List?) ==> items == []
    {
      if key in translations && translations[key].List? then translations[key].items else []
    }

    /** `loc`: the digit localiser, unchanged. */
    method Loc(s: string, locale: Locale) returns (r: string)
      requires locale.WellFormed()
      ensures r == Localized(s, locale)
    {
      r := LocalizeDigits(s, locale);
    }

    /** `getLocaleStrings`: absent exactly for the tags without a table. */
    function GetLocaleStrings(tag: string): (r: Option<Table>)
      requires forall tag :: tag in catalog <==> Supported(tag)
      ensures r.Some? <==> Supported(tag)
      ensures r.Some? ==> r.value == catalog[tag]
    {
      LocaleStrings(catalog, tag)
    }
  }

  // ----- React start-up -----

  const LocaleIndexKey: string := "locale_index"

  /** `JSON.parse(localStorage.getItem('locale_index') ?? '0')`, with 0 when parsing throws. */
  function SavedIndex(storage: LocalStorage): (saved: Json)
    reads storage
    ensures storage.GetItem(LocaleIndexKey).None? ==> saved == JInt(0)
    ensures storage.GetItem(LocaleIndexKey) == Some(Unparseable) ==> saved == JInt(0)
    ensures forall v :: storage.GetItem(LocaleIndexKey) == Some(Parses(v)) ==> saved == v
  {
    match storage.GetItem(LocaleIndexKey)
    case None => JInt(0)
    case Some(Unparseable) => JInt(0)
    case Some(Parses(v)) => v
  }

  /** `SUPPORTED_LOCALES[savedIndex]?.tag ?? 'mg'`. */
  function ReactInitialLocale(saved: Json): (tag: string)
    ensures Supported(tag)
    ensures saved.JInt? && 0 <= saved.i < |SupportedLocales| ==> tag == SupportedLocales[saved.i].tag
    ensures !(saved.JInt? && 0 <= saved.i < |SupportedLocales|) ==> tag == FallbackTag
  {
    FallbackSupported();
    if saved.JInt? && 0 <= saved.i < |SupportedLocales| then
      TableTagsSupported(saved.i);
      SupportedLocales[saved.i].tag
    else FallbackTag
  }

  /** The React i18n options: the saved index's tag, and "mg" as the fallback language. */
  function ReactI18nInit(storage: LocalStorage): (config: I18nConfig)
    reads storage
    ensures config.fallbackLocale == FallbackTag
    ensures config.initialLocale == ReactInitialLocale(SavedIndex(storage))
  {
    I18nConfig(FallbackTag, ReactInitialLocale(SavedIndex(storage)))
  }

  /** A missing or unparseable saved index starts the app in "mg". */
  lemma ReactDefaultLocale(storage: LocalStorage)
    requires storage.GetItem(LocaleIndexKey).None? || storage.GetItem(LocaleIndexKey) == Some(Unparseable)
    ensures ReactI18nInit(storage).initialLocale == FallbackTag
  {
  }
}
