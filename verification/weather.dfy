/**
 * The weather acquisition state machine that the Svelte store, the Angular
 * service and the React provider each implement: a fetch at the cached
 * location first, then the live position, which is always cached, then a
 * second fetch only when there was no cache or the device moved. A failure
 * is shown only while no forecast is on screen.
 *
 * The external calls are parameters: whether geolocation exists, the
 * device's answer, and the outcome of each of the (at most two) forecast
 * fetches. `DoFetchWeather` returns the sequence of observable steps it
 * took, and is proved to take exactly the steps `Plan` prescribes.
 */
module Weather {
  import opened Wrappers
  import opened Storage
  import opened Location
  import opened Mapper

  datatype WeatherState = Loading | Success(data: WeatherData) | Error(message: string)

  /** 30 minutes in milliseconds. */
  const StaleMs: int := 30 * 60 * 1000

  const ErrorGetLocation: string := "error_get_location"
  const ErrorFetchWeather: string := "error_fetch_weather"

  /** The outcome of one `fetchAtLocation`: the forecast (absent when the request failed), the geocoding reply and the clock during mapping. */
  datatype FetchOutcome = FetchOutcome(response: Option<Response>, geocode: GeocodeReply, now: int) {
    predicate Valid() {
      response.Some? ==> response.value.Aligned()
    }
  }

  /** `fetchAtLocation`: fails exactly when the forecast request fails; the place name never does. */
  function FetchAtLocation(at: Coordinates, outcome: FetchOutcome): (r: Option<WeatherData>)
    requires outcome.Valid()
    ensures r.Some? <==> outcome.response.Some?
    ensures r.Some? ==> r.value.locationName == ReverseGeocode(at.lat, at.lon, outcome.geocode)
    ensures r.Some? ==> r.value.timestamp == outcome.now
  {
    match outcome.response
    case None => None
    case Some(response) => Some(MapToWeatherData(response, ReverseGeocode(at.lat, at.lon, outcome.geocode), outcome.now))
  }

  /** `err instanceof GeolocationPositionError ? 'error_get_location' : 'error_fetch_weather'`. */
  function ErrorKey(failure: Failure): (key: string)
    ensures key == ErrorGetLocation <==> failure == GeolocationPositionError
    ensures key == ErrorFetchWeather <==> failure == PlainError
  {
    assert ErrorGetLocation != ErrorFetchWeather by {
      assert ErrorGetLocation[6] == 'g' && ErrorFetchWeather[6] == 'f';
    }
    match failure
    case GeolocationPositionError => ErrorGetLocation
    case PlainError => ErrorFetchWeather
  }

  /** An observable step of `doFetchWeather`. */
  datatype Step =
    | SetState(state: WeatherState)
    | SetRefreshing(on: bool)
    | FetchAt(at: Coordinates)
    | RequestPosition
    | CacheWrite(at: Coordinates)

  /**
   * What the outside world answers during one run: the forecast at the
   * cached location, the device position, and the forecast at the live
   * position. An answer the run never asks for is irrelevant.
   */
  datatype Answers = Answers(cachedData: Option<WeatherData>, position: PositionResult, liveData: Option<WeatherData>)

  /** The answers a run gets from the raw replies of geolocation and the two forecast requests. */
  function Ask(cached: Option<Coordinates>, geolocationSupported: bool, device: DeviceReply,
               cachedFetch: FetchOutcome, freshFetch: FetchOutcome): (r: Answers)
    requires cachedFetch.Valid() && freshFetch.Valid()
    ensures r.position == GetPosition(geolocationSupported, device)
    ensures r.cachedData.Some? <==> cached.Some? && cachedFetch.response.Some?
    ensures r.cachedData.Some? ==> r.cachedData.value.locationName == ReverseGeocode(cached.value.lat, cached.value.lon, cachedFetch.geocode)
    ensures r.liveData.Some? <==> r.position.Located? && freshFetch.response.Some?
    ensures r.liveData.Some? ==>
      r.liveData.value.locationName == ReverseGeocode(r.position.position.lat, r.position.position.lon, freshFetch.geocode)
  {
    var position := GetPosition(geolocationSupported, device);
    Answers(if cached.Some? then FetchAtLocation(cached.value, cachedFetch) else None,
            position,
            if position.Located? then FetchAtLocation(position.position, freshFetch) else None)
  }

  // ----- the specification -----

  /** The entry step: a spinner unless a forecast is already shown. */
  function Entry(start: WeatherState): Step {
    if start.Success? then SetRefreshing(true) else SetState(Loading)
  }

  /** The catch block: an error only while no forecast has been published. */
  function Fail(hasSuccess: bool, failure: Failure): seq<Step> {
    if hasSuccess then [] else [SetState(Error(ErrorKey(failure)))]
  }

  /** Whether the live position calls for a second fetch: no cache, or the device moved. */
  predicate Refetch(cached: Option<Coordinates>, live: Coordinates) {
    cached.None? || MovedSignificantly(cached.value, live)
  }

  /** The steps after the position request. */
  function LiveRest(hasSuccess: bool, cached: Option<Coordinates>, position: PositionResult, liveData: Option<WeatherData>): seq<Step> {
    match position
    case Rejected(failure) => Fail(hasSuccess, failure)
    case Located(live) =>
      [CacheWrite(live)] +
      if Refetch(cached, live) then
        [FetchAt(live)] +
        (match liveData
         case None => Fail(hasSuccess, PlainError)
         case Some(data) => [SetState(Success(data))])
      else []
  }

  /** The live part: request the position, cache it, and re-fetch when there was no cache or the device moved. */
  function Live(hasSuccess: bool, cached: Option<Coordinates>, position: PositionResult, liveData: Option<WeatherData>): seq<Step> {
    [RequestPosition] + LiveRest(hasSuccess, cached, position, liveData)
  }

  /** The middle of a run, between the entry step and the final clearing of the refresh flag. */
  function Body(start: WeatherState, cached: Option<Coordinates>, answers: Answers): seq<Step> {
    match cached
    case None => Live(start.Success?, cached, answers.position, answers.liveData)
    case Some(c) =>
      [FetchAt(c)] +
      (match answers.cachedData
       case None => Fail(start.Success?, PlainError)
       case Some(data) => [SetState(Success(data))] + Live(true, cached, answers.position, answers.liveData))
  }

  /** The whole run of `doFetchWeather` from state `start` with cached location `cached`. */
  function Plan(start: WeatherState, cached: Option<Coordinates>, answers: Answers): seq<Step> {
    [Entry(start)] + Body(start, cached, answers) + [SetRefreshing(false)]
  }

  /** The state after the catch block. */
  function Caught(current: WeatherState, failure: Failure): WeatherState {
    if current.Success? then current else Error(ErrorKey(failure))
  }

  /** The state the live part leaves, from the state `current` it starts in. */
  function LiveOutcome(current: WeatherState, cached: Option<Coordinates>, position: PositionResult,
                       liveData: Option<WeatherData>): WeatherState {
    match position
    case Rejected(failure) => Caught(current, failure)
    case Located(live) =>
      if Refetch(cached, live) then
        match liveData
        case None => Caught(current, PlainError)
        case Some(data) => Success(data)
      else current
  }

  /** The state `doFetchWeather` leaves. */
  function Outcome(start: WeatherState, cached: Option<Coordinates>, answers: Answers): WeatherState {
    var entered := if start.Success? then start else Loading;
    match cached
    case None => LiveOutcome(entered, cached, answers.position, answers.liveData)
    case Some(c) =>
      match answers.cachedData
      case None => Caught(entered, PlainError)
      case Some(data) => LiveOutcome(Success(data), cached, answers.position, answers.liveData)
  }

  /** The position written to the cache: the live one, whenever the run gets that far. */
  function CacheWritten(cached: Option<Coordinates>, answers: Answers): Option<Coordinates> {
    if cached.Some? && answers.cachedData.None? then None
    else match answers.position
      case Rejected(_) => None
      case Located(live) => Some(live)
  }

  // ----- properties of the specification -----

  /** The locations fetched, in order. */
  function FetchedAt(t: seq<Step>): seq<Coordinates> {
    if |t| == 0 then [] else (if t[0].FetchAt? then [t[0].at] else []) + FetchedAt(t[1..])
  }

  /** The states published, in order. */
  function Published(t: seq<Step>): seq<WeatherState> {
    if |t| == 0 then [] else (if t[0].SetState? then [t[0].state] else []) + Published(t[1..])
  }

  lemma {:induction false} FiltersAppend(a: seq<Step>, b: seq<Step>)
    ensures FetchedAt(a + b) == FetchedAt(a) + FetchedAt(b)
    ensures Published(a + b) == Published(a) + Published(b)
    decreases |a|
  {
    if |a| > 0 {
      assert (a + b)[1..] == a[1..] + b;
      FiltersAppend(a[1..], b);
    } else {
      assert a + b == b;
    }
  }

  lemma OneStep(x: Step)
    ensures FetchedAt([x]) == if x.FetchAt? then [x.at] else []
    ensures Published([x]) == if x.SetState? then [x.state] else []
  {
    assert [x][1..] == [];
  }

  /** The location the live part fetches at, if it fetches. */
  function LiveFetch(cached: Option<Coordinates>, position: PositionResult): seq<Coordinates> {
    match position
    case Rejected(_) => []
    case Located(live) => if Refetch(cached, live) then [live] else []
  }

  /** The live part never touches the refresh flag. */
  lemma LiveKeepsFlag(hasSuccess: bool, cached: Option<Coordinates>, position: PositionResult, liveData: Option<WeatherData>)
    ensures var l := Live(hasSuccess, cached, position, liveData);
      forall i :: 0 <= i < |l| ==> !l[i].SetRefreshing?
  {
  }

  /**
   * The live part fetches at most once, at the live position, and publishes
   * at most one state, a forecast whenever one was already shown.
   */
  lemma LiveFilters(hasSuccess: bool, cached: Option<Coordinates>, position: PositionResult, liveData: Option<WeatherData>)
    ensures var l := Live(hasSuccess, cached, position, liveData);
      FetchedAt(l) == LiveFetch(cached, position)
      && |Published(l)| <= 1 && (hasSuccess ==> forall i :: 0 <= i < |Published(l)| ==> Published(l)[i].Success?)
  {
    var rest := LiveRest(hasSuccess, cached, position, liveData);
    FiltersAppend([RequestPosition], rest);
    OneStep(RequestPosition);
    match position
    case Rejected(failure) =>
      if !hasSuccess {
        OneStep(SetState(Error(ErrorKey(failure))));
      }
    case Located(live) =>
      OneStep(CacheWrite(live));
      if Refetch(cached, live) {
        OneStep(FetchAt(live));
        var tail := match liveData
          case None => Fail(hasSuccess, PlainError)
          case Some(data) => [SetState(Success(data))];
        assert rest == [CacheWrite(live)] + ([FetchAt(live)] + tail);
        FiltersAppend([FetchAt(live)], tail);
        FiltersAppend([CacheWrite(live)], [FetchAt(live)] + tail);
        if tail != [] {
          OneStep(tail[0]);
          assert tail == [tail[0]];
        }
      } else {
        assert rest == [CacheWrite(live)];
      }
  }

  /** The run opens with the loading state or the refresh flag, and always closes by clearing the flag. */
  lemma PlanBrackets(start: WeatherState, cached: Option<Coordinates>, answers: Answers)
    ensures var t := Plan(start, cached, answers);
      |t| >= 3 && t[0] == (if start.Success? then SetRefreshing(true) else SetState(Loading))
      && t[|t| - 1] == SetRefreshing(false)
      && forall i :: 0 < i < |t| - 1 ==> !t[i].SetRefreshing?
  {
    var body := Body(start, cached, answers);
    var t := Plan(start, cached, answers);
    LiveKeepsFlag(start.Success?, cached, answers.position, answers.liveData);
    LiveKeepsFlag(true, cached, answers.position, answers.liveData);
    assert |body| >= 1;
    assert forall i :: 0 <= i < |body| ==> !body[i].SetRefreshing?;
    assert forall i :: 0 < i < |t| - 1 ==> t[i] == body[i - 1];
  }

  /** What the filters see of a whole run: the entry step and the middle. */
  lemma PlanFilters(start: WeatherState, cached: Option<Coordinates>, answers: Answers)
    ensures var t := Plan(start, cached, answers);
      var body := Body(start, cached, answers);
      FetchedAt(t) == FetchedAt(body)
      && Published(t) == (if start.Success? then [] else [Loading]) + Published(body)
  {
    var body := Body(start, cached, answers);
    FiltersAppend([Entry(start)], body);
    FiltersAppend([Entry(start)] + body, [SetRefreshing(false)]);
    OneStep(Entry(start));
    OneStep(SetRefreshing(false));
  }

  /** The fetches of a run: the cached location first, if any, then the live one when there was no cache or the device moved. */
  lemma FetchLocations(start: WeatherState, cached: Option<Coordinates>, answers: Answers)
    ensures FetchedAt(Plan(start, cached, answers)) ==
      match cached
      case None => LiveFetch(cached, answers.position)
      case Some(c) => [c] + if answers.cachedData.Some? then LiveFetch(cached, answers.position) else []
    ensures |FetchedAt(Plan(start, cached, answers))| <= 2
  {
    var body := Body(start, cached, answers);
    PlanFilters(start, cached, answers);
    match cached
    case None =>
      LiveFilters(start.Success?, cached, answers.position, answers.liveData);
    case Some(c) =>
      OneStep(FetchAt(c));
      match answers.cachedData
      case None =>
        var tail := Fail(start.Success?, PlainError);
        FiltersAppend([FetchAt(c)], tail);
        if !start.Success? {
          OneStep(SetState(Error(ErrorFetchWeather)));
        }
      case Some(data) =>
        var live := Live(true, cached, answers.position, answers.liveData);
        assert body == [FetchAt(c)] + ([SetState(Success(data))] + live);
        LiveFilters(true, cached, answers.position, answers.liveData);
        OneStep(SetState(Success(data)));
        FiltersAppend([SetState(Success(data))], live);
        FiltersAppend([FetchAt(c)], [SetState(Success(data))] + live);
  }

  /** Every state in `shown` is a forecast. */
  predicate AllForecasts(shown: seq<WeatherState>) {
    forall j :: 0 <= j < |shown| ==> shown[j].Success?
  }

  /** The middle of a run publishes at most one state, or only forecasts; only forecasts once one was shown. */
  lemma BodyPublished(start: WeatherState, cached: Option<Coordinates>, answers: Answers)
    ensures var shown := Published(Body(start, cached, answers));
      (|shown| <= 1 || AllForecasts(shown)) && (start.Success? ==> AllForecasts(shown))
  {
    match cached
    case None =>
      LiveFilters(start.Success?, cached, answers.position, answers.liveData);
    case Some(c) =>
      OneStep(FetchAt(c));
      match answers.cachedData
      case None =>
        var tail := Fail(start.Success?, PlainError);
        FiltersAppend([FetchAt(c)], tail);
        if !start.Success? {
          OneStep(SetState(Error(ErrorFetchWeather)));
        }
      case Some(data) =>
        var live := Live(true, cached, answers.position, answers.liveData);
        assert Body(start, cached, answers) == [FetchAt(c)] + ([SetState(Success(data))] + live);
        LiveFilters(true, cached, answers.position, answers.liveData);
        OneStep(SetState(Success(data)));
        FiltersAppend([SetState(Success(data))], live);
        FiltersAppend([FetchAt(c)], [SetState(Success(data))] + live);
  }

  /**
   * The states a run publishes: the spinner first unless a forecast was
   * shown, and after a forecast only forecasts.
   */
  lemma PublishedStatesNeverRegress(start: WeatherState, cached: Option<Coordinates>, answers: Answers)
    ensures var shown := Published(Plan(start, cached, answers));
      forall i, j :: 0 <= i < j < |shown| && shown[i].Success? ==> shown[j].Success?
    ensures var shown := Published(Plan(start, cached, answers));
      if start.Success? then forall j :: 0 <= j < |shown| ==> shown[j].Success?
      else |shown| >= 1 && shown[0] == Loading
  {
    var middle := Published(Body(start, cached, answers));
    PlanFilters(start, cached, answers);
    BodyPublished(start, cached, answers);
    if !start.Success? {
      var shown := [Loading] + middle;
      forall i, j | 0 <= i < j < |shown| && shown[i].Success?
        ensures shown[j].Success?
      {
        assert shown[i] == middle[i - 1] && shown[j] == middle[j - 1];
      }
    }
  }

  /** With a cached location the first fetch uses it, and its forecast is published before the position is requested. */
  lemma CachedForecastFirst(start: WeatherState, c: Coordinates, answers: Answers)
    requires answers.cachedData.Some?
    ensures var t := Plan(start, Some(c), answers);
      |t| > 3 && t[1] == FetchAt(c) && t[2] == SetState(Success(answers.cachedData.value)) && t[3] == RequestPosition
  {
  }

  /** When the fetch at the cached location fails, the position is never requested and nothing is cached. */
  lemma FailedCachedFetchStops(start: WeatherState, c: Coordinates, answers: Answers)
    requires answers.cachedData.None?
    ensures var t := Plan(start, Some(c), answers);
      forall i :: 0 <= i < |t| ==> t[i] != RequestPosition && !t[i].CacheWrite?
    ensures CacheWritten(Some(c), answers).None?
  {
  }

  /**
   * A live position is cached right after it arrives, and the forecast is
   * fetched there next exactly when there was no cache or the device moved.
   */
  lemma LivePositionCachedThenRefetched(start: WeatherState, cached: Option<Coordinates>, answers: Answers)
    requires cached.Some? ==> answers.cachedData.Some?
    requires answers.position.Located?
    ensures var t := Plan(start, cached, answers);
      var live := answers.position.position;
      var i := if cached.None? then 2 else 4;
      i + 1 < |t| && t[i - 1] == RequestPosition && t[i] == CacheWrite(live)
      && (t[i + 1] == FetchAt(live) <==> Refetch(cached, live))
    ensures CacheWritten(cached, answers) == Some(answers.position.position)
  {
    var t := Plan(start, cached, answers);
    var live := answers.position.position;
    var h := if cached.None? then start.Success? else true;
    var l := Live(h, cached, answers.position, answers.liveData);
    var prefix := if cached.None? then [Entry(start)]
                  else [Entry(start), FetchAt(cached.value), SetState(Success(answers.cachedData.value))];
    assert t == prefix + l + [SetRefreshing(false)];
    if Refetch(cached, live) {
      assert l[..3] == [RequestPosition, CacheWrite(live), FetchAt(live)];
    } else {
      assert l == [RequestPosition, CacheWrite(live)];
    }
  }

  /** Once the live part starts from a forecast, it leaves a forecast. */
  lemma LiveOutcomeKeepsForecast(current: WeatherState, cached: Option<Coordinates>, position: PositionResult,
                                 liveData: Option<WeatherData>)
    ensures current.Success? ==> LiveOutcome(current, cached, position, liveData).Success?
    ensures cached.None? ==> !LiveOutcome(current, cached, position, liveData).Loading?
  {
  }

  /** A shown forecast is never replaced by an error, and no run ends on the spinner. */
  lemma OutcomeNeverRegresses(start: WeatherState, cached: Option<Coordinates>, answers: Answers)
    ensures start.Success? ==> Outcome(start, cached, answers).Success?
    ensures !Outcome(start, cached, answers).Loading?
  {
    var entered := if start.Success? then start else Loading;
    LiveOutcomeKeepsForecast(entered, cached, answers.position, answers.liveData);
    if answers.cachedData.Some? {
      LiveOutcomeKeepsForecast(Success(answers.cachedData.value), cached, answers.position, answers.liveData);
    }
  }

  /** The location error appears exactly when the device refuses a position before any forecast was shown. */
  lemma LocationErrorExactly(start: WeatherState, cached: Option<Coordinates>, answers: Answers)
    ensures Outcome(start, cached, answers) == Error(ErrorGetLocation)
      <==> !start.Success? && cached.None? && answers.position == Rejected(GeolocationPositionError)
  {
  }

  /**
   * The fetch error appears exactly when no forecast was shown and the run
   * ended in a failed forecast request or a plain position failure.
   */
  lemma FetchErrorExactly(start: WeatherState, cached: Option<Coordinates>, answers: Answers)
    ensures Outcome(start, cached, answers) == Error(ErrorFetchWeather)
      <==> !start.Success? &&
           if cached.Some? then answers.cachedData.None?
           else answers.position == Rejected(PlainError) || (answers.position.Located? && answers.liveData.None?)
  {
  }

  /** Without a significant move the forecast fetched at the cached location stays on screen. */
  lemma UnmovedKeepsCachedForecast(start: WeatherState, c: Coordinates, answers: Answers)
    requires answers.cachedData.Some? && answers.position.Located?
    requires !MovedSignificantly(c, answers.position.position)
    ensures Outcome(start, Some(c), answers) == Success(answers.cachedData.value)
  {
  }

  /** A browser without geolocation fails with the fetch error, not the location error. */
  lemma NoGeolocationIsPlainFailure(device: DeviceReply)
    ensures GetPosition(false, device) == Rejected(PlainError)
  {
  }

  // ----- the store -----

  /** The `weatherState` and `isRefreshing` cells with the storage the location cache lives in. */
  class WeatherStore {
    var state: WeatherState
    var isRefreshing: bool
    const storage: LocalStorage

    /** Initially loading, not refreshing. */
    constructor(storage: LocalStorage)
      ensures state == Loading && !isRefreshing && this.storage == storage
    {
      state := Loading;
      isRefreshing := false;
      this.storage := storage;
    }

    /**
     * One completed `doFetchWeather` run, from the state before it: the trace
     * is `Plan`, the last published state is `Outcome`, the refresh flag is
     * cleared (the `finally` block), the location cache holds the live
     * position whenever the run got that far and is untouched otherwise, and
     * no other storage key changes.
     */
    twostate predicate Ran(geolocationSupported: bool, device: DeviceReply, cachedFetch: FetchOutcome, freshFetch: FetchOutcome,
                           trace: seq<Step>)
      requires cachedFetch.Valid() && freshFetch.Valid()
      reads this, storage
    {
      var cached := old(GetCachedLocation(storage));
      var answers := Ask(cached, geolocationSupported, device, cachedFetch, freshFetch);
      var written := CacheWritten(cached, answers);
      trace == Plan(old(state), cached, answers)
      && state == Outcome(old(state), cached, answers)
      && !isRefreshing
      && (written.None? ==> storage.entries == old(storage.entries))
      && (written.Some? && storage.available ==> GetCachedLocation(storage) == written)
      && (forall k :: k != LocationKey ==> storage.GetItem(k) == old(storage.GetItem(k)))
    }

    /** `doFetchWeather`, one invocation at a time. */
    method DoFetchWeather(geolocationSupported: bool, device: DeviceReply, cachedFetch: FetchOutcome, freshFetch: FetchOutcome)
      returns (trace: seq<Step>)
      requires cachedFetch.Valid() && freshFetch.Valid()
      modifies this, storage
      ensures var answers := Ask(old(GetCachedLocation(storage)), geolocationSupported, device, cachedFetch, freshFetch);
        trace == Plan(old(state), old(GetCachedLocation(storage)), answers)
        && state == Outcome(old(state), old(GetCachedLocation(storage)), answers)
      ensures !isRefreshing
      ensures var written := CacheWritten(old(GetCachedLocation(storage)),
                                          Ask(old(GetCachedLocation(storage)), geolocationSupported, device, cachedFetch, freshFetch));
        (written.None? ==> storage.entries == old(storage.entries))
        && (written.Some? && storage.available ==> GetCachedLocation(storage) == written)
      ensures forall k :: k != LocationKey ==> storage.GetItem(k) == old(storage.GetItem(k))
    {
      var start := state;
      if !state.Success? {
        state := Loading;
      } else {
        isRefreshing := true;
      }

      var cached := GetCachedLocation(storage);
      ghost var answers := Ask(cached, geolocationSupported, device, cachedFetch, freshFetch);
      var body: seq<Step> := [];
      if cached.Some? {
        var data := FetchAtLocation(cached.value, cachedFetch);
        if data.None? {
          var caught := CatchFailure(PlainError);
          body := [FetchAt(cached.value)] + caught;
        } else {
          state := Success(data.value);
          var live := FetchLive(cached, geolocationSupported, device, freshFetch);
          body := [FetchAt(cached.value)] + ([SetState(Success(data.value))] + live);
        }
      } else {
        body := FetchLive(cached, geolocationSupported, device, freshFetch);
      }
      assert body == Body(start, cached, answers);
      isRefreshing := false;
      trace := [Entry(start)] + body + [SetRefreshing(false)];
    }

    /** The catch block: an error replaces anything but a shown forecast. */
    method CatchFailure(failure: Failure) returns (steps: seq<Step>)
      modifies this
      ensures steps == Fail(old(state).Success?, failure)
      ensures state == Caught(old(state), failure)
      ensures isRefreshing == old(isRefreshing)
    {
      steps := [];
      if !state.Success? {
        state := Error(ErrorKey(failure));
        steps := [SetState(state)];
      }
    }

    /** From `getPosition` on: cache the live position and re-fetch when there was no cache or the device moved. */
    method FetchLive(cached: Option<Coordinates>, geolocationSupported: bool, device: DeviceReply, freshFetch: FetchOutcome)
      returns (steps: seq<Step>)
      requires freshFetch.Valid()
      modifies this, storage
      ensures var position := GetPosition(geolocationSupported, device);
        var liveData := if position.Located? then FetchAtLocation(position.position, freshFetch) else None;
        steps == Live(old(state).Success?, cached, position, liveData)
        && state == LiveOutcome(old(state), cached, position, liveData)
      ensures isRefreshing == old(isRefreshing)
      ensures GetPosition(geolocationSupported, device).Rejected? ==> storage.entries == old(storage.entries)
      ensures GetPosition(geolocationSupported, device).Located? && storage.available ==>
        GetCachedLocation(storage) == Some(GetPosition(geolocationSupported, device).position)
      ensures forall k :: k != LocationKey ==> storage.GetItem(k) == old(storage.GetItem(k))
    {
      var position := GetPosition(geolocationSupported, device);
      if position.Rejected? {
        var caught := CatchFailure(position.error);
        steps := [RequestPosition] + caught;
      } else {
        var live := position.position;
        CacheLocation(storage, live.lat, live.lon);
        var refetch: seq<Step> := [];
        if cached.None? || MovedSignificantly(cached.value, live) {
          var data := FetchAtLocation(live, freshFetch);
          if data.None? {
            var caught := CatchFailure(PlainError);
            refetch := [FetchAt(live)] + caught;
          } else {
            state := Success(data.value);
            refetch := [FetchAt(live)] + [SetState(state)];
          }
        }
        steps := [RequestPosition] + ([CacheWrite(live)] + refetch);
      }
    }

    /** `refreshIfStale`: a new fetch only for a forecast older than 30 minutes. */
    method RefreshIfStale(now: int, geolocationSupported: bool, device: DeviceReply, cachedFetch: FetchOutcome, freshFetch: FetchOutcome)
      returns (fired: bool, trace: seq<Step>)
      requires cachedFetch.Valid() && freshFetch.Valid()
      modifies this, storage
      ensures fired <==> old(state).Success? && now - old(state).data.timestamp > StaleMs
      ensures fired ==> Ran(geolocationSupported, device, cachedFetch, freshFetch, trace)
      ensures !fired ==> trace == [] && state == old(state) && isRefreshing == old(isRefreshing) && storage.entries == old(storage.entries)
    {
      fired := state.Success? && now - state.data.timestamp > StaleMs;
      trace := [];
      if fired {
        trace := DoFetchWeather(geolocationSupported, device, cachedFetch, freshFetch);
      }
    }

    /** The React `visibilitychange` handler: only a page that became visible checks for staleness. */
    method OnVisibilityChange(visible: bool, now: int, geolocationSupported: bool, device: DeviceReply,
                              cachedFetch: FetchOutcome, freshFetch: FetchOutcome)
      returns (fired: bool, trace: seq<Step>)
      requires cachedFetch.Valid() && freshFetch.Valid()
      modifies this, storage
      ensures fired <==> visible && old(state).Success? && now - old(state).data.timestamp > StaleMs
      ensures fired ==> Ran(geolocationSupported, device, cachedFetch, freshFetch, trace)
      ensures !fired ==> trace == [] && state == old(state) && isRefreshing == old(isRefreshing) && storage.entries == old(storage.entries)
    {
      fired, trace := false, [];
      if visible {
        fired, trace := RefreshIfStale(now, geolocationSupported, device, cachedFetch, freshFetch);
      }
    }
  }
}
