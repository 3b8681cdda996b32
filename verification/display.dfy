/**
 * The display rules of the forecast cards: the day/night choice per hour,
 * the hourly precipitation chance, the UV band, the compass direction of
 * the wind, the visibility pair, and which of snow, rain and gusts are
 * shown. Every shown string goes through the locale's digit localiser.
 */
module Display {
  import opened Wrappers
  import opened JsNumber
  import opened Units
  import opened Locales
  import Wmo
  import opened Mapper

  // ----- localised pairs -----

  /** `[loc(a), loc(b)]`. */
  function LocalizedPair(pair: (string, string), locale: Locale): (r: (string, string))
    requires locale.WellFormed()
    ensures r.0 == Localized(pair.0, locale) && r.1 == Localized(pair.1, locale)
  {
    (Localized(pair.0, locale), Localized(pair.1, locale))
  }

  /** Localising both halves commutes with swapping them, so the two orders stay reverses of each other. */
  lemma LocalizedPairSwap(pair: (string, string), locale: Locale)
    requires locale.WellFormed()
    ensures LocalizedPair(Swap(pair), locale) == Swap(LocalizedPair(pair, locale))
  {
  }

  // ----- hourly cards -----

  /** `s[i] ?? 0`. */
  function ValueOr(s: seq<int>, i: int): int {
    if 0 <= i < |s| then s[i] else 0
  }

  /** The last index below `k` whose sunrise is at or before `time`, or 0 when there is none. */
  function LastSunriseBefore(sunrise: seq<int>, time: int, k: nat): (idx: nat)
    requires k <= |sunrise|
    ensures k > 0 ==> idx < k
    ensures k == 0 ==> idx == 0
    ensures (exists i :: 0 <= i < k && sunrise[i] <= time) ==>
      sunrise[idx] <= time && forall j :: idx < j < k ==> sunrise[j] > time
    ensures (forall i :: 0 <= i < k ==> sunrise[i] > time) ==> idx == 0
  {
    if k == 0 then 0
    else if sunrise[k - 1] <= time then k - 1
    else LastSunriseBefore(sunrise, time, k - 1)
  }

  /** The day whose sun data applies to `time`: the latest day that has begun, else the first. */
  function DayIndex(time: int, sunrise: seq<int>): nat {
    LastSunriseBefore(sunrise, time, |sunrise|)
  }

  /** Night: strictly before that day's sunrise or strictly after its sunset, missing entries read as 0. */
  predicate IsNight(time: int, sunrise: seq<int>, sunset: seq<int>) {
    var idx := DayIndex(time, sunrise);
    time < ValueOr(sunrise, idx) || time > ValueOr(sunset, idx)
  }

  /** `isNightForHour`: a backward scan for the last sunrise at or before `time`. */
  method IsNightForHour(time: int, sunrise: seq<int>, sunset: seq<int>) returns (night: bool)
    ensures night == IsNight(time, sunrise, sunset)
  {
    var dayIdx := 0;
    var i := |sunrise| - 1;
    while i >= 0
      invariant -1 <= i < |sunrise|
      invariant dayIdx == 0
      invariant forall j :: i < j < |sunrise| ==> sunrise[j] > time
      decreases i
    {
      if sunrise[i] <= time {
        dayIdx := i;
        break;
      }
      i := i - 1;
    }
    var sr := if dayIdx < |sunrise| then sunrise[dayIdx] else 0;
    var ss := if dayIdx < |sunset| then sunset[dayIdx] else 0;
    night := time < sr || time > ss;
  }

  /** With sun data present, an hour before every sunrise is night. */
  lemma BeforeEverySunriseIsNight(time: int, sunrise: seq<int>, sunset: seq<int>)
    requires |sunrise| > 0
    requires forall i :: 0 <= i < |sunrise| ==> sunrise[i] > time
    ensures IsNight(time, sunrise, sunset)
  {
  }

  /**
   * Between a day's sunrise and sunset, both included, it is day, as long as
   * the next day has not begun.
   */
  lemma DaylightIncludesSunriseAndSunset(time: int, sunrise: seq<int>, sunset: seq<int>, day: int)
    requires 0 <= day < |sunrise| && day < |sunset|
    requires sunrise[day] <= time <= sunset[day]
    requires forall j :: day < j < |sunrise| ==> sunrise[j] > time
    ensures DayIndex(time, sunrise) == day
    ensures !IsNight(time, sunrise, sunset)
  {
  }

  /** Once a day has begun, night falls exactly after its sunset; a missing sunset reads as 0. */
  lemma NightAfterSunset(time: int, sunrise: seq<int>, sunset: seq<int>, day: int)
    requires 0 <= day < |sunrise| && sunrise[day] <= time
    requires forall j :: day < j < |sunrise| ==> sunrise[j] > time
    ensures IsNight(time, sunrise, sunset) <==> time > ValueOr(sunset, day)
  {
  }

  /** The hour's emoji: the code's emoji, in its night variant when the hour is at night. */
  function HourEmoji(item: Mapper.HourlyForecast, sunrise: seq<int>, sunset: seq<int>): (emoji: string)
    ensures IsNight(item.time, sunrise, sunset) ==> emoji == Wmo.Emoji(item.weatherCode, true)
    ensures !IsNight(item.time, sunrise, sunset) ==> emoji == Wmo.Emoji(item.weatherCode)
  {
    Wmo.Emoji(item.weatherCode, IsNight(item.time, sunrise, sunset))
  }

  /** Apart from clear and partly clouded skies, the hour's emoji ignores the sun data. */
  lemma HourEmojiIgnoresSunForOtherCodes(item: Mapper.HourlyForecast, sunrise: seq<int>, sunset: seq<int>)
    requires item.weatherCode != 0 && item.weatherCode != 1 && item.weatherCode != 2
    ensures HourEmoji(item, sunrise, sunset) == Wmo.Emoji(item.weatherCode)
  {
    Wmo.EmojiNightVariants(item.weatherCode);
  }

  /** `getTemp`: the hour's temperature in both units, the primary one first. */
  function HourTemperature(item: Mapper.HourlyForecast, metricPrimary: bool): (pair: (string, string))
    ensures pair == item.temperature.DisplayDual(metricPrimary)
    ensures metricPrimary ==> Shows(pair.0, item.temperature.celsius, 0, "°C")
    ensures !metricPrimary ==> Shows(pair.0, item.temperature.Fahrenheit(), 0, "°F")
  {
    item.temperature.DisplayDual(metricPrimary)
  }

  /** The precipitation chance: `loc(p + '%')` when positive, nothing otherwise. */
  function PrecipChance(probability: int, locale: Locale): (text: string)
    requires TableEntry(locale)
    ensures probability <= 0 ==> text == ""
    ensures probability > 0 ==> |text| == |IntToString(probability)| + 1 && text[|text| - 1] == '%'
    ensures probability > 0 ==> text == Localized(IntToString(probability) + "%", locale)
  {
    if probability > 0 then
      var s := IntToString(probability) + "%";
      LocalizedAt(s, locale);
      Localized(s, locale)
    else ""
  }

  // ----- UV index -----

  const UvThresholds: seq<real> := [3.0, 6.0, 8.0, 11.0]

  /** How many of the thresholds `uv` has reached. */
  function Reached(thresholds: seq<real>, uv: real): nat {
    if |thresholds| == 0 then 0 else (if thresholds[0] <= uv then 1 else 0) + Reached(thresholds[1..], uv)
  }

  /** The band of `uv`: 0 below 3, 1 below 6, 2 below 8, 3 below 11, 4 from 11 on. */
  function UvBand(uv: real): (band: int)
    ensures 0 <= band <= 4
    ensures band == Reached(UvThresholds, uv)
  {
    ReachedUvThresholds(uv);
    if uv < 3.0 then 0 else if uv < 6.0 then 1 else if uv < 8.0 then 2 else if uv < 11.0 then 3 else 4
  }

  lemma ReachedUvThresholds(uv: real)
    ensures Reached(UvThresholds, uv) ==
      (if 3.0 <= uv then 1 else 0) + (if 6.0 <= uv then 1 else 0) + (if 8.0 <= uv then 1 else 0) + (if 11.0 <= uv then 1 else 0)
  {
    var t := UvThresholds;
    assert t[1..] == [6.0, 8.0, 11.0];
    assert t[1..][1..] == [8.0, 11.0];
    assert t[1..][1..][1..] == [11.0];
    assert t[1..][1..][1..][1..] == [];
    assert Reached([11.0], uv) == if 11.0 <= uv then 1 else 0;
    assert Reached([8.0, 11.0], uv) == (if 8.0 <= uv then 1 else 0) + Reached([11.0], uv);
    assert Reached([6.0, 8.0, 11.0], uv) == (if 6.0 <= uv then 1 else 0) + Reached([8.0, 11.0], uv);
  }

  /** A stronger UV index never falls into a lower band. */
  lemma UvBandMonotone(u: real, v: real)
    requires u <= v
    ensures UvBand(u) <= UvBand(v)
  {
  }

  /** `labels[k]`: undefined outside the list. */
  function LabelAt(labels: seq<string>, k: int): (r: Option<string>)
    ensures r.Some? <==> 0 <= k < |labels|
    ensures r.Some? ==> r.value == labels[k]
  {
    if 0 <= k < |labels| then Some(labels[k]) else None
  }

  /** The Angular `uvLabel` over `tArray('uv_labels')`: "" for an empty list, else the band's label. */
  function UvLabel(labels: seq<string>, uv: real): (shown: Option<string>)
    ensures |labels| == 0 ==> shown == Some("")
    ensures |labels| > 0 ==> shown == LabelAt(labels, UvBand(uv))
    ensures |labels| >= 5 ==> shown.Some? && shown.value in labels
  {
    if |labels| == 0 then Some("") else LabelAt(labels, UvBand(uv))
  }

  /** The React `getUvLabel`: "" when the translation is not a list (`None`), else the band's label. */
  function ReactUvLabel(labels: Option<seq<string>>, uv: real): (shown: Option<string>)
    ensures labels.None? ==> shown == Some("")
    ensures labels.Some? ==> shown == LabelAt(labels.value, UvBand(uv))
    ensures labels.Some? && |labels.value| > 0 ==> shown == UvLabel(labels.value, uv)
  {
    if labels.None? then Some("") else LabelAt(labels.value, UvBand(uv))
  }

  // ----- wind direction -----

  predicate IsWhole(x: real) {
    x == x.Floor as real
  }

  lemma Rem360OfSmall(a: real)
    requires 0.0 <= a < 360.0
    ensures Rem(a, 360.0) == a
  {
    RemQuotient(a, 360.0);
  }

  lemma Rem360OfShifted(a: real)
    requires 0.0 <= a < 360.0
    ensures Rem(a + 360.0, 360.0) == a
  {
    RemQuotient(a + 360.0, 360.0);
  }

  lemma Rem16OfSmall(a: real)
    requires 0.0 <= a < 16.0
    ensures Rem(a, 16.0) == a
  {
    RemQuotient(a, 16.0);
  }

  /** `(deg % 360 + 360) % 360`: the same direction, as an angle in [0, 360). */
  function NormalizeDegrees(deg: real): (angle: real)
    ensures 0.0 <= angle < 360.0
    ensures IsWhole((deg - angle) / 360.0)
    ensures 0.0 <= deg < 360.0 ==> angle == deg
  {
    var inner := Rem(deg, 360.0);
    RemQuotient(deg, 360.0);
    RemQuotient(inner + 360.0, 360.0);
    var angle := Rem(inner + 360.0, 360.0);
    var turns := Trunc(deg / 360.0) + Trunc((inner + 360.0) / 360.0) - 1;
    assert deg - angle == turns as real * 360.0;
    if 0.0 <= deg < 360.0 then
      Rem360OfSmall(deg);
      Rem360OfShifted(deg);
      angle
    else angle
  }

  /** `… * 16 / 360 % 16`: the position on the 16-point compass, in [0, 16). */
  function SectorPosition(deg: real): (position: real)
    ensures 0.0 <= position < 16.0
    ensures position == NormalizeDegrees(deg) * 16.0 / 360.0
  {
    var p := NormalizeDegrees(deg) * 16.0 / 360.0;
    Rem16OfSmall(p);
    Rem(p, 16.0)
  }

  /** `Math.round(idx)` as the code indexes with it: 0 to 16 inclusive. */
  function CardinalIndexAsWritten(deg: real): (k: int)
    ensures 0 <= k <= 16
    ensures k as real - 0.5 <= SectorPosition(deg) < k as real + 0.5
  {
    MathRound(SectorPosition(deg))
  }

  /** `getCardinalDirection` as written: "" for an empty list or an index past its end. */
  function CardinalAsWritten(dirs: seq<string>, deg: real): (name: string)
    ensures |dirs| == 0 ==> name == ""
    ensures CardinalIndexAsWritten(deg) < |dirs| ==> name == dirs[CardinalIndexAsWritten(deg)]
    ensures CardinalIndexAsWritten(deg) >= |dirs| ==> name == ""
  {
    var k := CardinalIndexAsWritten(deg);
    if |dirs| == 0 then "" else if k < |dirs| then dirs[k] else ""
  }

  /** Just below 360 degrees the rounded index is 16, past the end of a 16-name list, so no direction is shown. */
  lemma CardinalOverrunsNearNorth(dirs: seq<string>, deg: real)
    requires |dirs| == 16
    requires 348.75 <= deg < 360.0
    ensures CardinalIndexAsWritten(deg) == 16
    ensures CardinalAsWritten(dirs, deg) == ""
  {
    assert SectorPosition(deg) == deg * 16.0 / 360.0;
  }

  /** The compass point nearest the wind direction, wrapping 16 back to 0 (north). */
  function CardinalIndex(deg: real): (k: int)
    ensures 0 <= k < 16
    ensures var p := SectorPosition(deg);
      (k as real - 0.5 <= p < k as real + 0.5) || (k == 0 && p >= 15.5)
  {
    var rounded := CardinalIndexAsWritten(deg);
    if rounded == 16 then 0 else rounded
  }

  /** The direction's name from a 16-name list; never past its end. */
  function CardinalDirection(dirs: seq<string>, deg: real): (name: string)
    ensures |dirs| == 0 ==> name == ""
    ensures |dirs| >= 16 ==> name == dirs[CardinalIndex(deg)]
  {
    var k := CardinalIndex(deg);
    if k < |dirs| then dirs[k] else ""
  }

  /** With a 16-name list the corrected rule names north just below 360 degrees. */
  lemma CardinalNorthNear360(dirs: seq<string>, deg: real)
    requires |dirs| == 16
    requires 348.75 <= deg < 360.0
    ensures CardinalDirection(dirs, deg) == dirs[0]
  {
    CardinalOverrunsNearNorth(dirs, deg);
  }

  // ----- visibility -----

  const MetresPerMile: real := 1609.34

  /** `visibilityDisplay`: kilometres with one decimal and miles with two, the primary unit first. */
  function VisibilityDual(meters: int, metricPrimary: bool): (pair: (string, string))
    ensures var m := meters as real;
      if metricPrimary then Shows(pair.0, m / 1000.0, 1, " km") && Shows(pair.1, m / MetresPerMile, 2, " mi")
      else Shows(pair.0, m / MetresPerMile, 2, " mi") && Shows(pair.1, m / 1000.0, 1, " km")
  {
    var km := Formatted(meters as real / 1000.0, 1, " km");
    var mi := Formatted(meters as real / MetresPerMile, 2, " mi");
    if metricPrimary then (km, mi) else (mi, km)
  }

  lemma VisibilityDualOrder(meters: int)
    ensures VisibilityDual(meters, false) == Swap(VisibilityDual(meters, true))
  {
  }

  // ----- optional quantities -----

  /** What the precipitation side of the card shows. */
  datatype PrecipitationView = SnowShown(snow: (string, string)) | RainShown(rain: (string, string)) | NoPrecip

  /** Snow in preference to rain; with neither, the "no_precip" text. */
  function PrecipitationShown(snow: Option<Precipitation>, rain: Option<Precipitation>, metricPrimary: bool,
                              locale: Locale): (view: PrecipitationView)
    requires locale.WellFormed()
    ensures view.SnowShown? <==> snow.Some?
    ensures view.RainShown? <==> snow.None? && rain.Some?
    ensures view.NoPrecip? <==> snow.None? && rain.None?
    ensures view.SnowShown? ==> view.snow == LocalizedPair(snow.value.DisplayDual(metricPrimary), locale)
    ensures view.RainShown? ==> view.rain == LocalizedPair(rain.value.DisplayDual(metricPrimary), locale)
  {
    match snow
    case Some(s) => SnowShown(LocalizedPair(s.DisplayDual(metricPrimary), locale))
    case None =>
      match rain
      case Some(r) => RainShown(LocalizedPair(r.DisplayDual(metricPrimary), locale))
      case None => NoPrecip
  }

  /** The gust pair, present exactly when the forecast has a gust value. */
  function GustShown(gust: Option<WindSpeed>, metricPrimary: bool, locale: Locale): (pair: Option<(string, string)>)
    requires locale.WellFormed()
    ensures pair.Some? <==> gust.Some?
    ensures pair.Some? ==> pair.value == LocalizedPair(gust.value.DisplayDual(metricPrimary), locale)
  {
    match gust
    case Some(g) => Some(LocalizedPair(g.DisplayDual(metricPrimary), locale))
    case None => None
  }

  /**
   * Through the mapper: snow is shown exactly when snowfall is positive,
   * rain when only rain is, gusts when the gust speed is.
   */
  lemma ShownFromResponse(response: Response, locationName: string, now: int, metricPrimary: bool, locale: Locale)
    requires response.Aligned() && locale.WellFormed()
    ensures var data := MapToWeatherData(response, locationName, now);
      var c := response.current;
      var view := PrecipitationShown(data.snow, data.rain, metricPrimary, locale);
      (view.SnowShown? <==> c.snowfall > 0.0)
      && (view.RainShown? <==> c.snowfall <= 0.0 && c.rain > 0.0)
      && (view.NoPrecip? <==> c.snowfall <= 0.0 && c.rain <= 0.0)
      && (GustShown(data.windGust, metricPrimary, locale).Some? <==> c.windGusts > 0.0)
  {
  }
}
