/**
 * The preferences store the three front-ends keep: whether metric units
 * come first, the font pairing and the locale, each loaded from
 * `localStorage` with a default and written back whenever it changes. A
 * valid locale index also switches the translation service and the
 * document's `dir` and `lang` attributes.
 */
module Preferences {
  import opened Wrappers
  import opened Storage
  import opened Locales
  import opened I18n
  import JsNumber

  const MetricKey: string := "metric_primary"
  const FontKey: string := "font_index"

  /** `fontPairings.length`. */
  const FontCount: int := 22

  /**
   * `loadPersisted(key, fallback)` for a flag: the stored flag, or the
   * default when the entry is missing, unparseable or not a flag.
   */
  function LoadFlag(storage: LocalStorage, key: string, fallback: bool): (r: bool)
    reads storage
    ensures storage.GetItem(key).None? || storage.GetItem(key) == Some(Unparseable) ==> r == fallback
    ensures forall b :: storage.GetItem(key) == Some(Parses(JBool(b))) ==> r == b
  {
    match storage.GetItem(key)
    case Some(Parses(JBool(b))) => b
    case _ => fallback
  }

  /**
   * `loadPersisted(key, fallback)` for an index: the stored number as it
   * is, with no range check, or the default when the entry is missing,
   * unparseable or not a number.
   */
  function LoadIndex(storage: LocalStorage, key: string, fallback: int): (r: int)
    reads storage
    ensures storage.GetItem(key).None? || storage.GetItem(key) == Some(Unparseable) ==> r == fallback
    ensures forall i :: storage.GetItem(key) == Some(Parses(JInt(i))) ==> r == i
  {
    match storage.GetItem(key)
    case Some(Parses(JInt(i))) => i
    case _ => fallback
  }

  /** `(i + 1) % length`, with the remainder of the `%` operator. */
  function NextIndex(i: int, length: int): (r: int)
    requires length > 0
    ensures 0 <= i ==> 0 <= r < length
    ensures 0 <= i < length ==> r == if i + 1 < length then i + 1 else 0
  {
    JsNumber.RemInt(i + 1, length)
  }

  /** The index after `k` cycles. */
  function Cycled(i: int, length: int, k: nat): int
    requires length > 0
  {
    if k == 0 then i else NextIndex(Cycled(i, length, k - 1), length)
  }

  /** While the end of the table is not reached, each cycle moves one place up. */
  lemma {:induction false} CycledUpward(i: int, length: int, k: nat)
    requires 0 <= i && i + k < length
    ensures Cycled(i, length, k) == i + k
  {
    if k > 0 {
      CycledUpward(i, length, k - 1);
    }
  }

  /** Cycling `a` times and then `b` times is cycling `a + b` times. */
  lemma {:induction false} CycledCompose(i: int, length: int, a: nat, b: nat)
    requires length > 0
    ensures Cycled(i, length, a + b) == Cycled(Cycled(i, length, a), length, b)
  {
    if b > 0 {
      CycledCompose(i, length, a, b - 1);
      assert a + b - 1 == a + (b - 1);
    }
  }

  /** After as many cycles as the table has entries, an index in range is back where it started. */
  lemma CycleReturns(i: int, length: int)
    requires 0 <= i < length
    ensures Cycled(i, length, length) == i
  {
    CycledUpward(i, length, length - i - 1);
    assert Cycled(i, length, length - i) == 0;
    CycledUpward(0, length, i);
    CycledCompose(i, length, length - i, i);
  }

  /** `SUPPORTED_LOCALES[idx]`: undefined outside the table. */
  function LocaleAt(idx: int): (r: Option<Locale>)
    ensures r.Some? <==> 0 <= idx < |SupportedLocales|
    ensures r.Some? ==> r.value == SupportedLocales[idx]
  {
    if 0 <= idx < |SupportedLocales| then Some(SupportedLocales[idx]) else None
  }

  /** `loc.tag === 'ar' ? 'rtl' : 'ltr'`. */
  function Direction(tag: string): (dir: string)
    ensures dir == "rtl" <==> tag == "ar"
    ensures dir == "ltr" <==> tag != "ar"
  {
    if tag == "ar" then "rtl" else "ltr"
  }

  /** Of the supported locales exactly the second, Arabic, is written right to left. */
  lemma OnlyArabicRightToLeft(idx: int)
    requires 0 <= idx < |SupportedLocales|
    ensures Direction(SupportedLocales[idx].tag) == "rtl" <==> idx == 1
  {
    SupportedLocalesTable();
    assert SupportedLocales[idx].tag == Tags(SupportedLocales)[idx];
  }

  /** The preferences with the storage they persist to, the translation service and the document element they drive. */
  class PreferencesStore {
    var metricPrimary: bool
    var fontIndex: int
    var localeIndex: int
    /** `document.documentElement.dir` and `.lang`. */
    var dir: string
    var lang: string
    const storage: LocalStorage
    const i18n: I18nService

    /**
     * Load the three values with defaults true, 0 and 0, write each back
     * under its key, and apply the loaded locale index.
     */
    constructor(storage: LocalStorage, i18n: I18nService, dir: string, lang: string)
      requires i18n.Valid()
      modifies storage, i18n
      ensures this.storage == storage && this.i18n == i18n && i18n.Valid()
      ensures metricPrimary == old(LoadFlag(storage, MetricKey, true))
      ensures fontIndex == old(LoadIndex(storage, FontKey, 0))
      ensures localeIndex == old(LoadIndex(storage, LocaleIndexKey, 0))
      ensures Persisted()
      ensures match LocaleAt(localeIndex)
        case Some(loc) => i18n.localeTag == loc.tag && this.dir == Direction(loc.tag) && this.lang == loc.tag
        case None => i18n.localeTag == old(i18n.localeTag) && this.dir == dir && this.lang == lang
    {
      this.storage := storage;
      this.i18n := i18n;
      this.dir := dir;
      this.lang := lang;
      metricPrimary := LoadFlag(storage, MetricKey, true);
      fontIndex := LoadIndex(storage, FontKey, 0);
      localeIndex := LoadIndex(storage, LocaleIndexKey, 0);
      new;
      storage.SetItem(MetricKey, JBool(metricPrimary));
      storage.SetItem(FontKey, JInt(fontIndex));
      storage.SetItem(LocaleIndexKey, JInt(localeIndex));
      ApplyLocale();
    }

    /** Reading the storage back gives every value the store holds (when there is storage at all). */
    ghost predicate Persisted()
      reads this, storage
    {
      storage.available ==>
        LoadFlag(storage, MetricKey, true) == metricPrimary
        && LoadIndex(storage, FontKey, 0) == fontIndex
        && LoadIndex(storage, LocaleIndexKey, 0) == localeIndex
    }

    /** The locale effect: switch the service and the document for an index inside the table. */
    method ApplyLocale()
      requires i18n.Valid()
      modifies this`dir, this`lang, i18n
      ensures i18n.Valid()
      ensures match LocaleAt(localeIndex)
        case Some(loc) => i18n.localeTag == loc.tag && dir == Direction(loc.tag) && lang == loc.tag
        case None => i18n.localeTag == old(i18n.localeTag) && i18n.translations == old(i18n.translations)
                     && dir == old(dir) && lang == old(lang)
    {
      var loc := LocaleAt(localeIndex);
      if loc.Some? {
        i18n.SetLocale(loc.value.tag);
        dir := Direction(loc.value.tag);
        lang := loc.value.tag;
      }
    }

    /** `toggleUnits`, then its persisting effect. */
    method ToggleUnits()
      requires Persisted()
      modifies this`metricPrimary, storage
      ensures metricPrimary == !old(metricPrimary)
      ensures Persisted()
      ensures forall k :: k != MetricKey ==> storage.GetItem(k) == old(storage.GetItem(k))
    {
      metricPrimary := !metricPrimary;
      storage.SetItem(MetricKey, JBool(metricPrimary));
    }

    /** `cycleFont`, then its persisting effect. */
    method CycleFont()
      requires Persisted()
      modifies this`fontIndex, storage
      ensures fontIndex == NextIndex(old(fontIndex), FontCount)
      ensures Persisted()
      ensures forall k :: k != FontKey ==> storage.GetItem(k) == old(storage.GetItem(k))
    {
      fontIndex := NextIndex(fontIndex, FontCount);
      storage.SetItem(FontKey, JInt(fontIndex));
    }

    /** `cycleLanguage`, then the locale effect: persist, and apply the new locale. */
    method CycleLanguage()
      requires Persisted() && i18n.Valid()
      modifies this`localeIndex, this`dir, this`lang, storage, i18n
      ensures localeIndex == NextIndex(old(localeIndex), |SupportedLocales|)
      ensures Persisted() && i18n.Valid()
      ensures forall k :: k != LocaleIndexKey ==> storage.GetItem(k) == old(storage.GetItem(k))
      ensures match LocaleAt(localeIndex)
        case Some(loc) => i18n.localeTag == loc.tag && dir == Direction(loc.tag) && lang == loc.tag
        case None => i18n.localeTag == old(i18n.localeTag) && dir == old(dir) && lang == old(lang)
    {
      AdvanceLocale();
      ApplyLocale();
    }

    /** The index update of `cycleLanguage` and the write of the persisting effect. */
    method AdvanceLocale()
      requires Persisted()
      modifies this`localeIndex, storage
      ensures localeIndex == NextIndex(old(localeIndex), |SupportedLocales|)
      ensures Persisted()
      ensures forall k :: k != LocaleIndexKey ==> storage.GetItem(k) == old(storage.GetItem(k))
    {
      localeIndex := NextIndex(localeIndex, |SupportedLocales|);
      storage.SetItem(LocaleIndexKey, JInt(localeIndex));
    }
  }
}
