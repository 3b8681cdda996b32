/**
 * The weather screen's own logic: the pull-to-refresh gesture, the
 * browser-language hint ("secondary" strings), and the views of the
 * weather state it renders. It starts one fetch when it opens and asks
 * for a stale-only refresh whenever the page becomes visible.
 */
module Screen {
  import opened Wrappers
  import opened Locales
  import opened I18n
  import opened Location
  import opened Mapper
  import opened Weather

  /** A pull longer than this, in pixels, refreshes. */
  const PullThreshold: real := 80.0
  /** The indicator never moves further than this. */
  const PullClamp: real := 100.0

  // ----- the weather state as the screen shows it -----

  /** `successData`: the forecast exactly when the state holds one. */
  function SuccessData(state: WeatherState): (data: Option<WeatherData>)
    ensures data.Some? <==> state.Success?
    ensures data.Some? ==> data.value == state.data
  {
    if state.Success? then Some(state.data) else None
  }

  /** `errorMessage`: the error's key, "" in every other state. */
  function ErrorMessage(state: WeatherState): (message: string)
    ensures state.Error? ==> message == state.message
    ensures !state.Error? ==> message == ""
  {
    if state.Error? then state.message else ""
  }

  // ----- the browser-language hint -----

  /** ASCII `toLowerCase`: upper-case ASCII letters lowered, everything else kept. */
  function LowerAscii(s: string): (lowered: string)
    ensures |lowered| == |s|
    ensures forall i :: 0 <= i < |s| ==> lowered[i] == if 'A' <= s[i] <= 'Z' then (s[i] as int + 32) as char else s[i]
  {
    seq(|s|, i requires 0 <= i < |s| => if 'A' <= s[i] <= 'Z' then (s[i] as int + 32) as char else s[i])
  }

  /**
   * `findBrowserLocaleTag`: the language before its first "-", lower-cased,
   * when the table lists it; absent without a navigator or for any other
   * language.
   */
  function BrowserLocaleTag(navigatorLanguage: Option<string>): (tag: Option<string>)
    ensures navigatorLanguage.None? ==> tag.None?
    ensures navigatorLanguage.Some? ==>
      var lang := LowerAscii(BeforeDash(navigatorLanguage.value));
      (tag.Some? <==> Supported(lang)) && (tag.Some? ==> tag.value == lang)
  {
    match navigatorLanguage
    case None => None
    case Some(language) =>
      var lang := LowerAscii(BeforeDash(language));
      match FindLocale(lang)
      case Some(l) => Some(l.tag)
      case None => None
  }

  /** The current locale's tag, `SUPPORTED_LOCALES[localeIndex]?.tag`. */
  function CurrentTag(localeIndex: int): (tag: Option<string>)
    ensures tag.Some? <==> 0 <= localeIndex < |SupportedLocales|
    ensures tag.Some? ==> tag.value == SupportedLocales[localeIndex].tag
  {
    if 0 <= localeIndex < |SupportedLocales| then Some(SupportedLocales[localeIndex].tag) else None
  }

  /** `showSecondary`: a supported browser language other than the current one, with strings to show. */
  function ShowSecondary(browserTag: Option<string>, currentTag: Option<string>, catalog: map<string, Table>): (show: bool)
    ensures show <==> browserTag.Some? && browserTag != currentTag && LocaleStrings(catalog, browserTag.value).Some?
  {
    match browserTag
    case None => false
    case Some(tag) => Some(tag) != currentTag && tag in catalog
  }

  /**
   * With a table for every supported language, the hint shows exactly when
   * the browser's language is supported and is not the one in use.
   */
  lemma ShowSecondaryWithFullCatalog(navigatorLanguage: Option<string>, localeIndex: int, catalog: map<string, Table>)
    requires forall tag :: tag in catalog <==> Supported(tag)
    ensures var browserTag := BrowserLocaleTag(navigatorLanguage);
      ShowSecondary(browserTag, CurrentTag(localeIndex), catalog)
      <==> browserTag.Some? && browserTag != CurrentTag(localeIndex)
  {
  }

  // ----- the screen -----

  /** The pull-gesture cells and the weather store the screen drives. */
  class WeatherScreen {
    var pullStartY: real
    var pullDelta: real
    var isPulling: bool
    const weather: WeatherStore

    /** The gesture's invariant: the pull is never negative, and only a pull in progress has length. */
    ghost predicate Valid()
      reads this
    {
      pullDelta >= 0.0 && (!isPulling ==> pullDelta == 0.0)
    }

    constructor(weather: WeatherStore)
      ensures Valid() && this.weather == weather
      ensures pullStartY == 0.0 && pullDelta == 0.0 && !isPulling
    {
      this.weather := weather;
      pullStartY := 0.0;
      pullDelta := 0.0;
      isPulling := false;
    }

    /** `pullDeltaClamped`: how far the indicator moves. */
    function PullDeltaClamped(): (offset: real)
      reads this
      ensures offset <= PullClamp && offset <= pullDelta
      ensures offset == pullDelta || offset == PullClamp
    {
      if pullDelta < PullClamp then pullDelta else PullClamp
    }

    /** The indicator's spinner turns active once a release would refresh. */
    predicate SpinnerActive()
      reads this
    {
      pullDelta > PullThreshold
    }

    /** `handleTouchStart`: arms the gesture only when the list is scrolled to the top. */
    method TouchStart(hasScroller: bool, scrollTop: real, clientY: real)
      requires Valid()
      modifies this`pullStartY, this`isPulling
      ensures Valid()
      ensures hasScroller && scrollTop <= 0.0 ==> pullStartY == clientY && isPulling
      ensures !(hasScroller && scrollTop <= 0.0) ==> pullStartY == old(pullStartY) && isPulling == old(isPulling)
    {
      if hasScroller && scrollTop <= 0.0 {
        pullStartY := clientY;
        isPulling := true;
      }
    }

    /** `handleTouchMove`: while pulling, the pull is the downward distance from the start, never negative. */
    method TouchMove(clientY: real)
      requires Valid()
      modifies this`pullDelta
      ensures Valid()
      ensures !isPulling ==> pullDelta == old(pullDelta)
      ensures isPulling ==> pullDelta >= 0.0 && pullDelta >= clientY - pullStartY
      ensures isPulling ==> pullDelta == 0.0 || pullDelta == clientY - pullStartY
    {
      if !isPulling {
        return;
      }
      pullDelta := if clientY - pullStartY > 0.0 then clientY - pullStartY else 0.0;
    }

    /** `handleTouchEnd`: refreshes when the pull went past the threshold, then always resets the gesture. */
    method TouchEnd(geolocationSupported: bool, device: DeviceReply, cachedFetch: FetchOutcome, freshFetch: FetchOutcome)
      returns (refreshed: bool, trace: seq<Step>)
      requires Valid() && cachedFetch.Valid() && freshFetch.Valid()
      modifies this`pullDelta, this`isPulling, weather, weather.storage
      ensures Valid() && pullDelta == 0.0 && !isPulling
      ensures refreshed <==> old(pullDelta) > PullThreshold
      ensures refreshed ==> old(isPulling)
      ensures refreshed ==> weather.Ran(geolocationSupported, device, cachedFetch, freshFetch, trace)
      ensures !refreshed ==> trace == [] && weather.state == old(weather.state) && weather.isRefreshing == old(weather.isRefreshing)
                             && weather.storage.entries == old(weather.storage.entries)
    {
      refreshed := pullDelta > PullThreshold;
      trace := [];
      if refreshed {
        trace := weather.DoFetchWeather(geolocationSupported, device, cachedFetch, freshFetch);
      }
      pullDelta := 0.0;
      isPulling := false;
    }

    /** `ngOnInit` and the React mount effect: exactly one fetch. */
    method Open(geolocationSupported: bool, device: DeviceReply, cachedFetch: FetchOutcome, freshFetch: FetchOutcome)
      returns (trace: seq<Step>)
      requires cachedFetch.Valid() && freshFetch.Valid()
      modifies weather, weather.storage
      ensures weather.Ran(geolocationSupported, device, cachedFetch, freshFetch, trace)
    {
      trace := weather.DoFetchWeather(geolocationSupported, device, cachedFetch, freshFetch);
    }

    /** The `visibilitychange` handler: a page that became visible refreshes only a stale forecast. */
    method VisibilityChanged(visible: bool, now: int, geolocationSupported: bool, device: DeviceReply,
                             cachedFetch: FetchOutcome, freshFetch: FetchOutcome)
      returns (refreshed: bool, trace: seq<Step>)
      requires cachedFetch.Valid() && freshFetch.Valid()
      modifies weather, weather.storage
      ensures refreshed <==> visible && old(weather.state).Success? && now - old(weather.state).data.timestamp > StaleMs
      ensures refreshed ==> weather.Ran(geolocationSupported, device, cachedFetch, freshFetch, trace)
      ensures !refreshed ==> trace == [] && weather.state == old(weather.state) && weather.isRefreshing == old(weather.isRefreshing)
                             && weather.storage.entries == old(weather.storage.entries)
    {
      refreshed, trace := false, [];
      if visible {
        refreshed, trace := weather.RefreshIfStale(now, geolocationSupported, device, cachedFetch, freshFetch);
      }
    }
  }
}
