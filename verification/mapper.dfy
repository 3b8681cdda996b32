/**
 * The Open-Meteo response and the app's `WeatherData`, and the mapping
 * between them: the hourly forecast keeps the next 24 entries at or after
 * the mapping time, the daily forecast is mapped entry by entry, optional
 * quantities exist only when positive and sunrise/sunset become epoch
 * seconds.
 */
module Mapper {
  import opened Wrappers
  import opened Units
  import JsNumber

  /** The `current` block. Times elsewhere are already parsed epoch milliseconds. */
  datatype Current = Current(
    temperature: real, apparentTemperature: real, relativeHumidity: int, dewPoint: real,
    windSpeed: real, windDirection: real, windGusts: real, pressureMsl: real,
    precipitation: real, rain: real, snowfall: real, visibility: real,
    weatherCode: int, isDay: int, uvIndex: real, cloudCover: int)

  /** The `daily` block: parallel arrays indexed by day. */
  datatype Daily = Daily(
    date: seq<int>, temperatureMax: seq<real>, temperatureMin: seq<real>, weatherCode: seq<int>,
    precipitationProbabilityMax: seq<int>, sunrise: seq<int>, sunset: seq<int>)
  {
    /** Every per-day array has an entry for each day the provider lists. */
    predicate Aligned() {
      |temperatureMax| >= |date| && |temperatureMin| >= |date| && |weatherCode| >= |date|
      && |precipitationProbabilityMax| >= |date|
    }
  }

  /** The `hourly` block: parallel arrays indexed by hour. */
  datatype Hourly = Hourly(time: seq<int>, temperature: seq<real>, weatherCode: seq<int>, precipitationProbability: seq<int>)
  {
    predicate Aligned() {
      |temperature| >= |time| && |weatherCode| >= |time| && |precipitationProbability| >= |time|
    }
  }

  datatype Response = Response(current: Current, daily: Daily, hourly: Hourly) {
    predicate Aligned() {
      daily.Aligned() && hourly.Aligned()
    }
  }

  datatype HourlyForecast = HourlyForecast(time: int, temperature: Temperature, weatherCode: int, precipProbability: int)

  datatype DailyForecast = DailyForecast(date: int, tempMax: Temperature, tempMin: Temperature, weatherCode: int, precipProbability: int)

  datatype WeatherData = WeatherData(
    temperature: Temperature, feelsLike: Temperature, tempMin: Temperature, tempMax: Temperature,
    weatherCode: int, locationName: string, pressure: Pressure, humidity: int, dewPoint: Temperature,
    windSpeed: WindSpeed, windDeg: real, windGust: Option<WindSpeed>, rain: Option<Precipitation>,
    snow: Option<Precipitation>, uvIndex: real, cloudCover: int, visibility: int,
    sunrise: int, sunset: int, dailySunrise: seq<int>, dailySunset: seq<int>,
    hourlyForecast: seq<HourlyForecast>, dailyForecast: seq<DailyForecast>, timestamp: int)

  const HourlyLimit: nat := 24

  /** Hour i of the response as a forecast entry. */
  function HourAt(h: Hourly, i: nat): HourlyForecast
    requires h.Aligned() && i < |h.time|
  {
    HourlyForecast(h.time[i], FromCelsius(h.temperature[i]), h.weatherCode[i], h.precipitationProbability[i])
  }

  /** `h.time.map(...)`: one entry per listed hour. */
  function AllHours(h: Hourly): (hours: seq<HourlyForecast>)
    requires h.Aligned()
    ensures |hours| == |h.time|
    ensures forall i :: 0 <= i < |h.time| ==> hours[i] == HourAt(h, i)
  {
    seq(|h.time|, i requires 0 <= i < |h.time| => HourAt(h, i))
  }

  /** `.filter((f) => f.time >= nowMillis)`. */
  function Upcoming(hours: seq<HourlyForecast>, now: int): (kept: seq<HourlyForecast>)
    ensures |kept| <= |hours|
    ensures forall e :: e in kept ==> e in hours && e.time >= now
  {
    if |hours| == 0 then []
    else (if hours[0].time >= now then [hours[0]] else []) + Upcoming(hours[1..], now)
  }

  /** The filter keeps a single entry exactly when it is not in the past. */
  lemma UpcomingSingle(e: HourlyForecast, now: int)
    ensures Upcoming([e], now) == if e.time >= now then [e] else []
  {
  }

  /** The filter distributes over concatenation, so it keeps the input order. */
  lemma {:induction false} UpcomingAppend(a: seq<HourlyForecast>, b: seq<HourlyForecast>, now: int)
    ensures Upcoming(a + b, now) == Upcoming(a, now) + Upcoming(b, now)
    decreases |a|
  {
    if |a| == 0 {
      assert a + b == b;
    } else {
      assert (a + b)[1..] == a[1..] + b;
      UpcomingAppend(a[1..], b, now);
    }
  }

  /** Every entry that is not in the past is kept. */
  lemma {:induction false} UpcomingKeepsFuture(hours: seq<HourlyForecast>, now: int, e: HourlyForecast)
    requires e in hours && e.time >= now
    ensures e in Upcoming(hours, now)
    decreases |hours|
  {
    if hours[0] != e {
      assert e in hours[1..];
      UpcomingKeepsFuture(hours[1..], now, e);
    }
  }

  /** How many hours come before the first one that is not in the past. */
  function LeadingPast(hours: seq<HourlyForecast>, now: int): (k: nat)
    ensures k <= |hours|
    ensures forall i :: 0 <= i < k ==> hours[i].time < now
    ensures k < |hours| ==> hours[k].time >= now
  {
    if |hours| == 0 || hours[0].time >= now then 0 else 1 + LeadingPast(hours[1..], now)
  }

  /** With hours in increasing time order the filter drops exactly the leading run of past hours. */
  lemma {:induction false} UpcomingOfSorted(hours: seq<HourlyForecast>, now: int)
    requires forall i, j :: 0 <= i < j < |hours| ==> hours[i].time <= hours[j].time
    ensures Upcoming(hours, now) == hours[LeadingPast(hours, now)..]
    decreases |hours|
  {
    if |hours| > 0 {
      if hours[0].time >= now {
        UpcomingAllFuture(hours, now);
      } else {
        UpcomingOfSorted(hours[1..], now);
        assert hours[1..][LeadingPast(hours[1..], now)..] == hours[LeadingPast(hours, now)..];
      }
    }
  }

  /** When no hour is in the past the filter keeps everything. */
  lemma {:induction false} UpcomingAllFuture(hours: seq<HourlyForecast>, now: int)
    requires forall i :: 0 <= i < |hours| ==> hours[i].time >= now
    ensures Upcoming(hours, now) == hours
    decreases |hours|
  {
    if |hours| > 0 {
      UpcomingAllFuture(hours[1..], now);
    }
  }

  /** `.slice(0, 24)`. */
  function Take(s: seq<HourlyForecast>, n: nat): (prefix: seq<HourlyForecast>)
    ensures prefix <= s && |prefix| == if |s| < n then |s| else n
  {
    if |s| < n then s else s[..n]
  }

  /** Day i of the response as a forecast entry. */
  function DayAt(d: Daily, i: nat): DailyForecast
    requires d.Aligned() && i < |d.date|
  {
    DailyForecast(d.date[i], FromCelsius(d.temperatureMax[i]), FromCelsius(d.temperatureMin[i]),
                  d.weatherCode[i], d.precipitationProbabilityMax[i])
  }

  /** `Math.floor(ms / 1000)` of the first entry, or 0 without one. */
  function FirstInSeconds(millis: seq<int>): (seconds: int)
    ensures |millis| > 0 ==> seconds * 1000 <= millis[0] < seconds * 1000 + 1000
    ensures |millis| == 0 ==> seconds == 0
  {
    if |millis| > 0 then millis[0] / 1000 else 0
  }

  /** A quantity that is reported only when positive. */
  function Positive(x: real): (r: Option<real>)
    ensures r.Some? <==> x > 0.0
    ensures r.Some? ==> r.value == x
  {
    if x > 0.0 then Some(x) else None
  }

  /** `arr[0] ?? otherwise`. */
  function FirstOr(arr: seq<real>, otherwise: real): (r: real)
    ensures |arr| > 0 ==> r == arr[0]
    ensures |arr| == 0 ==> r == otherwise
  {
    if |arr| > 0 then arr[0] else otherwise
  }

  /** `mapToWeatherData`, with `now` the clock reading taken during the mapping. */
  function MapToWeatherData(response: Response, locationName: string, now: int): (data: WeatherData)
    requires response.Aligned()
    ensures |data.hourlyForecast| <= HourlyLimit
    ensures forall i :: 0 <= i < |data.hourlyForecast| ==> data.hourlyForecast[i].time >= now
    ensures data.hourlyForecast <= Upcoming(AllHours(response.hourly), now)
    ensures |data.hourlyForecast| < HourlyLimit ==> data.hourlyForecast == Upcoming(AllHours(response.hourly), now)
    ensures |data.dailyForecast| == |response.daily.date|
    ensures forall i :: 0 <= i < |data.dailyForecast| ==> data.dailyForecast[i] == DayAt(response.daily, i)
    ensures data.windGust.Some? <==> response.current.windGusts > 0.0
    ensures data.windGust.Some? ==> data.windGust.value.metersPerSecond == response.current.windGusts
    ensures data.rain.Some? <==> response.current.rain > 0.0
    ensures data.rain.Some? ==> data.rain.value.mm == response.current.rain
    ensures data.snow.Some? <==> response.current.snowfall > 0.0
    ensures data.snow.Some? ==> data.snow.value.mm == response.current.snowfall
    ensures |response.daily.sunrise| > 0 ==>
      data.sunrise * 1000 <= response.daily.sunrise[0] < data.sunrise * 1000 + 1000
    ensures |response.daily.sunset| > 0 ==>
      data.sunset * 1000 <= response.daily.sunset[0] < data.sunset * 1000 + 1000
    ensures |response.daily.sunrise| == 0 ==> data.sunrise == 0
    ensures |response.daily.sunset| == 0 ==> data.sunset == 0
    ensures data.dailySunrise == response.daily.sunrise && data.dailySunset == response.daily.sunset
    ensures data.tempMin.celsius == if |response.daily.temperatureMin| > 0 then response.daily.temperatureMin[0] else response.current.temperature
    ensures data.tempMax.celsius == if |response.daily.temperatureMax| > 0 then response.daily.temperatureMax[0] else response.current.temperature
    ensures data.visibility as real - 0.5 <= response.current.visibility < data.visibility as real + 0.5
    ensures data.timestamp == now && data.locationName == locationName
  {
    var c := response.current;
    var d := response.daily;
    var gust := Positive(c.windGusts);
    var rain := Positive(c.rain);
    var snow := Positive(c.snowfall);
    WeatherData(
      FromCelsius(c.temperature), FromCelsius(c.apparentTemperature),
      FromCelsius(FirstOr(d.temperatureMin, c.temperature)), FromCelsius(FirstOr(d.temperatureMax, c.temperature)),
      c.weatherCode, locationName, FromHPa(c.pressureMsl), c.relativeHumidity, FromCelsius(c.dewPoint),
      FromMetersPerSecond(c.windSpeed), c.windDirection,
      if gust.Some? then Some(FromMetersPerSecond(gust.value)) else None,
      if rain.Some? then Some(FromMm(rain.value)) else None,
      if snow.Some? then Some(FromMm(snow.value)) else None,
      c.uvIndex, c.cloudCover, JsNumber.MathRound(c.visibility),
      FirstInSeconds(d.sunrise), FirstInSeconds(d.sunset), d.sunrise, d.sunset,
      Take(Upcoming(AllHours(response.hourly), now), HourlyLimit),
      seq(|d.date|, i requires 0 <= i < |d.date| => DayAt(d, i)),
      now)
  }

  /** Every hour at or after the mapping time is listed, unless 24 earlier ones filled the forecast. */
  lemma HourlyForecastComplete(response: Response, locationName: string, now: int, i: nat)
    requires response.Aligned() && i < |response.hourly.time| && response.hourly.time[i] >= now
    ensures var data := MapToWeatherData(response, locationName, now);
      HourAt(response.hourly, i) in data.hourlyForecast || |data.hourlyForecast| == HourlyLimit
  {
    var hours := AllHours(response.hourly);
    assert hours[i] in hours;
    UpcomingKeepsFuture(hours, now, hours[i]);
  }

  /** With the hours in time order the forecast is a contiguous run of them starting at the first one not in the past. */
  lemma HourlyForecastContiguous(response: Response, locationName: string, now: int)
    requires response.Aligned()
    requires forall i, j :: 0 <= i < j < |response.hourly.time| ==> response.hourly.time[i] <= response.hourly.time[j]
    ensures exists k :: (0 <= k <= |response.hourly.time|
                         && (forall i :: 0 <= i < k ==> response.hourly.time[i] < now)
                         && MapToWeatherData(response, locationName, now).hourlyForecast
                            == Take(AllHours(response.hourly)[k..], HourlyLimit))
  {
    var hours := AllHours(response.hourly);
    UpcomingOfSorted(hours, now);
    var k := LeadingPast(hours, now);
    assert forall i :: 0 <= i < k ==> response.hourly.time[i] < now by {
      forall i | 0 <= i < k ensures response.hourly.time[i] < now {
        assert hours[i] == HourAt(response.hourly, i);
      }
    }
  }

}
