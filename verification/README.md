# maripanaTokana weather PWA — a verified model of the shared core

This project models the logic shared by the Svelte, Angular and React front-ends of the maripanaTokana weather app:

- **Unit types.** `Temperature`, `Pressure`, `WindSpeed` and `Precipitation` with their fixed conversion factors and their dual displays (the primary unit first). The JavaScript number formatting they use (`Math.round`, `toFixed`, the `%` operator) is written out in `JsNumber`, over exact reals.
- **Locale digit formatter.** `localizeDigits` swaps the decimal point and shifts ASCII digits into a native script. The table of supported locales is included.
- **Translation.** The start-up locale choice (svelte-i18n and i18next) and the Angular translation service (`setLocale`, `t`, `tArray`, `getLocaleStrings`).
- **WMO weather codes.** Description keys and emoji.
- **Location cache policy.** Reading and writing the cached position, the movement threshold, the device position request and the reverse-geocoding name choice.
- **Response mapper.** `mapToWeatherData`, with the hourly filter and slice.
- **Weather acquisition state machine.** `doFetchWeather`, `refreshIfStale` and the visibility trigger.
  - The three copies of the state machine behave alike and are modelled once.
  - `DoFetchWeather` returns the sequence of observable steps it takes (state publications, fetch locations, cache writes, refresh-flag changes).
  - That sequence is proved equal to the specification function `Plan`. Lemmas about `Plan` state the policy: at most two fetches, the cached forecast first, no regression from a forecast to an error, and the exact conditions for each error key.
- **Preferences store.** Persisted flags and indices, cycling, and the locale effect on the translation service and the document.
- **Screen logic.** The hourly night test, the UV band, the cardinal wind direction, visibility, the optional precipitation and gust cards, pull-to-refresh, and the browser-language hint.

External effects become parameters:
- The forecast provider's reply and the reverse-geocoding reply are `FetchOutcome` values.
- The device position is a `DeviceReply`.
- Whether `navigator.geolocation` exists is a flag.
- The clock is a `now` argument.
- `localStorage` is the `Storage.LocalStorage` class: a map of entries plus an `available` flag for `typeof localStorage === 'undefined'`.

Two behaviours of the code worth knowing:
- Without `navigator.geolocation`, `getPosition` rejects with a plain `Error`. That fails the `instanceof GeolocationPositionError` test, so the key is `error_fetch_weather` (`Location.GetPosition`, `Weather.NoGeolocationIsPlainFailure`).
- The locale index read from storage is used without a range check. `SUPPORTED_LOCALES[idx]` is then simply undefined, and nothing is switched (`Preferences.LocaleAt`).

## Model

| member | source | states |
|---|---|---|
| JsNumber.MathRound | shared/domain/temperature.ts:11 | `Math.round` gives the integer within half of x, ties going up; it is non-negative for non-negative x |
| JsNumber.Trunc | react/src/components/CurrentConditions.tsx:20 | truncation toward zero, the quotient JavaScript's `%` uses: below x for positive x, above it for negative x, off by less than one |
| JsNumber.Rem | react/src/components/CurrentConditions.tsx:20 | JavaScript's `%` on numbers: the remainder has the dividend's sign and is smaller than the divisor in magnitude |
| JsNumber.RemQuotient | react/src/components/CurrentConditions.tsx:20 | that remainder is the dividend minus the truncated quotient times the divisor |
| JsNumber.RemInt | svelte/src/lib/stores/preferences.ts:36 | `%` on integers: in [0, n) for a non-negative dividend, in (-n, 0] for a negative one |
| JsNumber.NatToString | shared/domain/temperature.ts:11 | an integer's decimal digits: non-empty, all digits, and they parse back to the number |
| JsNumber.IntToStringDenotes | shared/domain/temperature.ts:11 | the interpolated integer, with its sign, denotes that integer |
| JsNumber.IntToString | shared/domain/temperature.ts:11 | `${i}` for an integer: a minus sign exactly for negative integers, digits everywhere else (`IntToStringDenotes` gives its value) |
| JsNumber.RoundedRenders | shared/domain/temperature.ts:11 | `${Math.round(x)}` writes x with no decimals, within half a unit |
| JsNumber.ToFixedValue | shared/domain/temperature.ts:10 | `toFixed(d)` writes fixed notation with exactly d decimals; its value is round(\|x\|·10^d) with x's sign, over 10^d |
| JsNumber.ToFixed | shared/domain/temperature.ts:10 | `x.toFixed(d)` for d ≤ 100: the sign first, then the digits of the integer nearest \|x\|·10^d, ties up; `ToFixedValue` and `ToFixedRenders` state what it denotes |
| JsNumber.ToFixedRenders | shared/domain/temperature.ts:10 | `toFixed(d)` renders x with d decimals, off by at most half a unit in the last place |
| JsNumber.Formatted | shared/domain/temperature.ts:8-12 | the display rule of the unit types: `toFixed(decimals)` when decimals > 0, else `Math.round`, then the unit suffix; the text shows x to that precision |
| Units.Swap | shared/domain/temperature.ts:20-24 | the two halves of a pair exchanged |
| Units.Temperature.Fahrenheit | shared/domain/temperature.ts:4-6 | °F converts back to the stored °C by (f − 32)·5/9 |
| Units.Temperature.DisplayCelsius | shared/domain/temperature.ts:8-12 | the text shows the Celsius value with the requested decimals (none when decimals ≤ 0) and the "°C" suffix |
| Units.Temperature.DisplayFahrenheit | shared/domain/temperature.ts:14-18 | the same for Fahrenheit with "°F" |
| Units.Temperature.DisplayDual | shared/domain/temperature.ts:20-24 | the primary unit first: Celsius then Fahrenheit when metric is primary, the reverse otherwise, both with the same decimals |
| Units.Temperature.DisplayDualMixed | shared/domain/temperature.ts:26-31 | Celsius with cDecimals, Fahrenheit always whole, in primary-first order |
| Units.FromCelsius | shared/domain/temperature.ts:33-35 | the stored Celsius value is the argument |
| Units.FromFahrenheit | shared/domain/temperature.ts:37-39 | the built temperature reads back the given Fahrenheit value |
| Units.CelsiusRoundTrip | shared/domain/temperature.ts:33-39 | Celsius → Fahrenheit → Celsius returns the original value |
| Units.TemperatureDualOrder | shared/domain/temperature.ts:20-24 | the imperial-first pair is the metric-first pair swapped, and each half is the single-unit display |
| Units.TemperatureMixedOrder | shared/domain/temperature.ts:26-31 | the same for the mixed display, whose Fahrenheit half has no decimals |
| Units.Pressure.InHg | src/lib/domain/pressure.ts:4-6 | inHg divided by 0.02953 gives hPa back |
| Units.Pressure.DisplayHPa | src/lib/domain/pressure.ts:8-10 | hPa rounded to a whole number, then " hPa" |
| Units.Pressure.DisplayInHg | src/lib/domain/pressure.ts:12-14 | inHg with two decimals, then " inHg" |
| Units.Pressure.DisplayDual | src/lib/domain/pressure.ts:16-20 | primary-first order of the two displays |
| Units.FromHPa | src/lib/domain/pressure.ts:22-24 | the stored value is the argument |
| Units.FromInHg | src/lib/domain/pressure.ts:26-28 | the built pressure reads back the given inHg |
| Units.PressureDualOrder | src/lib/domain/pressure.ts:16-20 | the imperial-first pair is the metric-first pair swapped; the primary half is the chosen unit's display |
| Units.WindSpeed.Mph | src/lib/domain/windSpeed.ts:4-6 | mph divided by 2.23694 gives m/s back |
| Units.WindSpeed.DisplayMetric | src/lib/domain/windSpeed.ts:8-10 | m/s with one decimal, then " m/s" |
| Units.WindSpeed.DisplayImperial | src/lib/domain/windSpeed.ts:12-14 | mph with one decimal, then " mph" |
| Units.WindSpeed.DisplayDual | src/lib/domain/windSpeed.ts:16-20 | primary-first order of the two displays |
| Units.FromMetersPerSecond | src/lib/domain/windSpeed.ts:22-24 | the stored value is the argument |
| Units.FromMph | src/lib/domain/windSpeed.ts:26-28 | the built speed reads back the given mph |
| Units.WindSpeedDualOrder | src/lib/domain/windSpeed.ts:16-20 | the imperial-first pair is the metric-first pair swapped |
| Units.Precipitation.Inches | src/lib/domain/precipitation.ts:4-6 | inches divided by 0.03937 gives mm back |
| Units.Precipitation.DisplayMetric | src/lib/domain/precipitation.ts:8-10 | mm with one decimal, then " mm" |
| Units.Precipitation.DisplayImperial | src/lib/domain/precipitation.ts:12-14 | inches with two decimals, then " in" |
| Units.Precipitation.DisplayDual | src/lib/domain/precipitation.ts:16-20 | primary-first order of the two displays |
| Units.FromMm | src/lib/domain/precipitation.ts:22-24 | the stored value is the argument |
| Units.FromInches | src/lib/domain/precipitation.ts:26-28 | the built amount reads back the given inches |
| Units.PrecipitationDualOrder | src/lib/domain/precipitation.ts:16-20 | the imperial-first pair is the metric-first pair swapped |
| Locales.Tags | src/lib/i18n/locales.ts:8-17 | the tags of a locale list, position by position |
| Locales.SupportedLocalesTable | src/lib/i18n/locales.ts:8-17 | the table lists mg, ar, en, es, fr, hi, ne, zh in that order; every entry is well formed; no tag repeats |
| Locales.FindLocale | src/lib/i18n/index.ts:64 | `SUPPORTED_LOCALES.find`: a found locale is in the table with that tag; nothing is found exactly when no entry has the tag |
| Locales.ShiftChar | src/lib/i18n/locales.ts:36-41 | an ASCII digit becomes the native zero plus its value; any other character is kept |
| Locales.LocalizeDigits | src/lib/i18n/locales.ts:23-47 | the loop over the characters computes `Localized`: the separator replaced, then the digits shifted |
| Locales.ReplaceDots | src/lib/i18n/locales.ts:28 | `replace(/\./g, sep)`: every "." replaced; `ReplaceDotsSingle`, `ReplaceDotsRemoves` and `ReplaceDotsWithout` state its properties |
| Locales.Localized | src/lib/i18n/locales.ts:23-47 | what `localizeDigits` returns, the reference the loop is proved against; `LocalizedAt`, `LocalizedHasNoAsciiDigits` and `LocalizedIdempotent` state its properties |
| Locales.ReplaceDotsSingle | src/lib/i18n/locales.ts:27-29 | with a one-character separator, every "." and only the "."s are replaced, and the length is kept |
| Locales.ReplaceDotsRemoves | src/lib/i18n/locales.ts:27-29 | no "." survives the replacement |
| Locales.ReplaceDotsWithout | src/lib/i18n/locales.ts:27-29 | a text without "." is unchanged |
| Locales.ShiftRemovesAsciiDigits | src/lib/i18n/locales.ts:32-44 | after shifting to a native zero above the ASCII digits, no ASCII digit is left |
| Locales.ShiftWithoutDigits | src/lib/i18n/locales.ts:32-44 | a text without ASCII digits is unchanged by the shift |
| Locales.PlainLocaleUnchanged | src/lib/i18n/locales.ts:23-47 | a locale with neither a native zero nor a separator leaves every text unchanged |
| Locales.LocalizedAt | src/lib/i18n/locales.ts:23-47 | character by character: the separator replaces "." when active, then a digit is shifted when the locale has a native zero; the length is kept |
| Locales.LocalizedHasNoAsciiDigits | src/lib/i18n/locales.ts:32-44 | for a locale with native digits, no ASCII digit remains |
| Locales.LocalizedIdempotent | src/lib/i18n/locales.ts:23-47 | localising an already localised text changes nothing |
| Locales.SupportedLocalesIdempotent | src/lib/i18n/locales.ts:8-47 | for every supported locale, localising keeps the length and is idempotent |
| I18n.FallbackSupported | src/lib/i18n/index.ts:61 | the fallback "mg" is a supported tag |
| I18n.TableTagsSupported | src/lib/i18n/index.ts:19-28 | every tag of the table is found by the lookup |
| I18n.BeforeDash | src/lib/i18n/index.ts:62 | `split('-')[0]`: a prefix of the text that holds no "-" and is followed by "-" when shorter than the text |
| I18n.InitI18n | src/lib/i18n/index.ts:60-70 | the fallback is "mg"; the initial locale is the saved tag, else the navigator language's prefix, else "mg", kept only when supported and "mg" otherwise |
| I18n.Candidate | svelte/src/lib/i18n/index.ts:17 | the `\|\|` chain of saved tag, navigator prefix and "mg" never yields the empty string |
| I18n.SavedTagPrecedence | svelte/src/lib/i18n/index.ts:15-25 | a non-empty saved tag decides alone: itself when supported, "mg" otherwise, whatever the navigator says |
| I18n.NavigatorTruncated | svelte/src/lib/i18n/index.ts:17-23 | with no usable saved tag, a supported language prefix of the navigator is chosen |
| I18n.IndexOf | angular/src/app/services/i18n.service.ts:32 | the first position at or after `from` where the pattern occurs, or none exactly when it never occurs |
| I18n.ReplaceFirst | angular/src/app/services/i18n.service.ts:32 | `String.replace` with a string pattern: only the first occurrence is replaced; a text without it is unchanged |
| I18n.ReplaceFirstAt | angular/src/app/services/i18n.service.ts:32 | the replaced text is the part before the first occurrence, the replacement, and the part after |
| I18n.ReplaceFirstSelf | angular/src/app/services/i18n.service.ts:32 | replacing a pattern by itself changes nothing |
| I18n.LaterOccurrenceKept | angular/src/app/services/i18n.service.ts:32 | a second occurrence after the first one survives, shifted by the length difference |
| I18n.TranslateFallsBackToKey | angular/src/app/services/i18n.service.ts:28-35 | a missing, null or non-string entry yields the key itself |
| I18n.TranslateWithoutParams | angular/src/app/services/i18n.service.ts:28-35 | without parameters a string entry is returned as it is |
| I18n.TranslateOneParam | angular/src/app/services/i18n.service.ts:30-33 | one parameter replaces the first `{k}` of the entry by its value |
| I18n.InterpolateAppend | angular/src/app/services/i18n.service.ts:31-33 | parameters are applied in order: applying two lists one after the other is applying their concatenation |
| I18n.TableFor | angular/src/app/services/i18n.service.ts:24 | `allTranslations[tag] ?? mg`: the tag's table when there is one, the "mg" table otherwise |
| I18n.LocaleStrings | react/src/i18n.ts:46-49 | the tag's table exactly when the catalog has one |
| I18n.I18nService.constructor | angular/src/app/services/i18n.service.ts:17-18 | the service starts in "mg" with the "mg" table |
| I18n.I18nService.SetLocale | angular/src/app/services/i18n.service.ts:22-25 | the tag is kept as given; the table is the tag's own when it is supported and "mg"'s otherwise; the service stays consistent |
| I18n.I18nService.T | angular/src/app/services/i18n.service.ts:27-36 | the loop over the parameters computes `Translate`: the entry with each `{k}` replaced in turn, or the key |
| I18n.Interpolate | angular/src/app/services/i18n.service.ts:30-34 | the parameters applied in turn, each replacing the first `{k}`; `InterpolateAppend` and `TranslateOneParam` state its properties |
| I18n.Translate | angular/src/app/services/i18n.service.ts:27-36 | what `t` returns for a table; `TranslateFallsBackToKey`, `TranslateWithoutParams` and `TranslateOneParam` state its cases |
| I18n.I18nService.TArray | angular/src/app/services/i18n.service.ts:38-41 | the entry when it is a list, the empty list otherwise |
| I18n.I18nService.Loc | angular/src/app/services/i18n.service.ts:43-45 | exactly the digit localiser |
| I18n.I18nService.GetLocaleStrings | angular/src/app/services/i18n.service.ts:47-49 | a table exactly for the supported tags |
| I18n.SavedIndex | react/src/i18n.ts:25-31 | `JSON.parse(getItem ?? '0')` with 0 on a parse error: a missing or unparseable entry gives 0, a parsed one its value |
| I18n.ReactInitialLocale | react/src/i18n.ts:33 | the tag at an in-range saved index, "mg" for anything else; always supported |
| I18n.ReactI18nInit | react/src/i18n.ts:33-41 | the saved index's tag as the language, "mg" as the fallback |
| I18n.ReactDefaultLocale | react/src/i18n.ts:25-33 | with no saved or an unparseable index the app starts in "mg" |
| Wmo.ListedCodeCases | shared/api/wmoWeatherCode.ts:3-32 | the listed codes are exactly the 28 cases of the switch |
| Wmo.DescriptionKey | shared/api/wmoWeatherCode.ts:2-34 | the 28-case switch of `wmoDescriptionKey`; `UnknownExactlyUnlisted`, `ListedKeyRoundTrip` and `ListedKeysDistinct` state its properties |
| Wmo.UnknownExactlyUnlisted | shared/api/wmoWeatherCode.ts:2-33 | "wmo_unknown" is returned exactly for the codes the switch does not list |
| Wmo.ListedKeyRoundTrip | shared/api/wmoWeatherCode.ts:2-33 | a listed code's key is not "wmo_unknown" and leads back to the code |
| Wmo.UnknownKeyHasNoCode | shared/api/wmoWeatherCode.ts:32 | "wmo_unknown" leads back to no code |
| Wmo.ListedKeysDistinct | shared/api/wmoWeatherCode.ts:2-33 | two different listed codes have different keys |
| Wmo.EmojiNightVariants | shared/api/wmoWeatherCode.ts:37-67 | only codes 0, 1 and 2 have a night emoji; the night flag defaults to day; the globe is shown exactly for unlisted codes |
| Wmo.Emoji | shared/api/wmoWeatherCode.ts:37-68 | the switch of `wmoEmoji` with `isNight` defaulting to false; `EmojiNightVariants` states its properties |
| Storage.LocalStorage.GetItem | shared/stores/location.ts:10-11 | an entry is read only when storage exists and holds the key |
| Storage.LocalStorage.SetItem | shared/stores/location.ts:20-24 | with storage, the key now holds the written value and every other key is untouched; without storage nothing changes |
| Location.GetCachedLocation | shared/stores/location.ts:9-18 | a cached position exactly when the entry exists and parses to a position, and then it is that position |
| Location.CacheLocation | shared/stores/location.ts:20-24 | the written position is read back; no other key changes; without storage nothing changes |
| Location.MovedSignificantly | shared/stores/location.ts:26-31 | moved exactly when latitude or longitude differs by more than 0.045 |
| Location.MovedSignificantlySymmetric | shared/stores/location.ts:26-31 | the test is symmetric, and a position has not moved from itself |
| Location.ThresholdIsNotAMove | shared/stores/location.ts:2 | a difference of exactly 0.045 is not a move; one just above it is |
| Location.GetPosition | shared/stores/location.ts:33-45 | without geolocation a plain error; otherwise the device's fix, or a `GeolocationPositionError` exactly when the device fails |
| Location.CoordinatesName | shared/stores/location.ts:56-58 | "lat, lon" with each coordinate written by `toFixed(2)` |
| Location.FirstNamed | shared/stores/location.ts:56 | the `\|\|` chain: the first present, non-empty field, or the fallback when there is none |
| Location.NameFields | shared/stores/location.ts:56 | the fields `reverseGeocode` tries, in order: city, town, village, county, state; `ReverseGeocode` states the choice |
| Location.ReverseGeocode | shared/stores/location.ts:47-60 | city, town, village, county or state, the first one present and non-empty; the coordinates' text when the reply fails or names nothing |
| Mapper.AllHours | shared/api/openMeteoMapper.ts:29-35 | one forecast hour per time stamp, built from the parallel arrays at that index |
| Mapper.Upcoming | shared/api/openMeteoMapper.ts:36 | the filter keeps only hours at or after now, all taken from the input |
| Mapper.UpcomingSingle | shared/api/openMeteoMapper.ts:36 | a single hour is kept exactly when it is not in the past |
| Mapper.UpcomingAppend | shared/api/openMeteoMapper.ts:36 | filtering distributes over concatenation |
| Mapper.UpcomingKeepsFuture | shared/api/openMeteoMapper.ts:36 | every hour at or after now is kept |
| Mapper.LeadingPast | shared/api/openMeteoMapper.ts:36 | the length of the leading run of past hours: every hour before it is past, the hour at it is not |
| Mapper.UpcomingOfSorted | shared/api/openMeteoMapper.ts:36 | for time-ordered hours the filter keeps exactly the suffix after the leading run of past hours |
| Mapper.UpcomingAllFuture | shared/api/openMeteoMapper.ts:36 | hours all in the future are kept unchanged |
| Mapper.Take | shared/api/openMeteoMapper.ts:37 | `slice(0, n)`: a prefix of length min(n, length) |
| Mapper.FirstInSeconds | shared/api/openMeteoMapper.ts:21-22 | `Math.floor(millis / 1000)` of the first entry, 0 when there is none |
| Mapper.Positive | shared/api/openMeteoMapper.ts:59-61 | a value is present exactly when it is positive |
| Mapper.FirstOr | shared/api/openMeteoMapper.ts:50-51 | `arr[0] ?? fallback` |
| Mapper.MapToWeatherData | shared/api/openMeteoMapper.ts:16-73 | at most 24 hours, all at or after now, a prefix of the filtered hours (all of them when fewer than 24); one day per daily date; gust, rain and snow present exactly when positive; sunrise and sunset in seconds; min and max from the first day or the current temperature; visibility rounded; time stamp now |
| Mapper.HourlyForecastComplete | shared/api/openMeteoMapper.ts:29-37 | every hour not in the past is listed unless 24 hours already fill the forecast |
| Mapper.HourlyForecastContiguous | shared/api/openMeteoMapper.ts:29-37 | for time-ordered hours the forecast is the first 24 hours from the first one not in the past |
| Weather.FetchAtLocation | svelte/src/lib/stores/weather.ts:20-26 | data exactly when the forecast call succeeds, named by reverse geocoding and stamped with the fetch time |
| Weather.ErrorKey | svelte/src/lib/stores/weather.ts:61-63 | `error_get_location` exactly for a `GeolocationPositionError`, `error_fetch_weather` exactly for any other error |
| Weather.Ask | svelte/src/lib/stores/weather.ts:41-52 | the answers the outside world gives one run: the device position; cached-location data exactly when there is a cached location and its fetch succeeds; live data exactly when the position is known and its fetch succeeds |
| Weather.FiltersAppend | svelte/src/lib/stores/weather.ts:28-69 | the fetch locations and the published states of a concatenated trace are those of its parts, concatenated |
| Weather.OneStep | svelte/src/lib/stores/weather.ts:28-69 | a single step contributes its location when it is a fetch and its state when it is a publication |
| Weather.LiveKeepsFlag | svelte/src/lib/stores/weather.ts:46-54 | the live part of a run never touches the refresh flag |
| Weather.LiveFilters | svelte/src/lib/stores/weather.ts:46-54 | the live part fetches at the live position only when there was no cache or the device moved; it publishes at most one state, and none that drops a forecast already shown |
| Weather.PlanBrackets | svelte/src/lib/stores/weather.ts:29-34 | a run starts with `Loading`, or with the refresh flag set when a forecast is shown; it ends by clearing the flag, and touches the flag nowhere else |
| Weather.PlanFilters | svelte/src/lib/stores/weather.ts:28-69 | a run fetches where its body fetches and publishes `Loading` first unless a forecast is shown |
| Weather.FetchLocations | svelte/src/lib/stores/weather.ts:41-54 | the exact fetch locations: the cached one first when cached, then the live one only when reached, with no cache or a move; never more than two |
| Weather.BodyPublished | svelte/src/lib/stores/weather.ts:55-65 | between the entry step and the final flag reset a run publishes at most one state, or only forecasts, and only forecasts when one was shown at the start |
| Weather.PublishedStatesNeverRegress | svelte/src/lib/stores/weather.ts:55-65 | once a forecast is published only forecasts follow; with a forecast at the start every published state is one; otherwise the first one is `Loading` |
| Weather.CachedForecastFirst | svelte/src/lib/stores/weather.ts:41-47 | with a cached location whose fetch succeeds, its forecast is published before the position is requested |
| Weather.FailedCachedFetchStops | svelte/src/lib/stores/weather.ts:41-44 | a failed fetch at the cached location ends the run: no position request, no cache write |
| Weather.LivePositionCachedThenRefetched | svelte/src/lib/stores/weather.ts:46-54 | a live position is cached right after it is requested, and is fetched next exactly when there was no cache or the device moved |
| Weather.LiveOutcomeKeepsForecast | svelte/src/lib/stores/weather.ts:55-65 | the live part never drops a shown forecast, and without a cache it never leaves `Loading` behind |
| Weather.OutcomeNeverRegresses | svelte/src/lib/stores/weather.ts:55-65 | a run that starts with a forecast ends with one; no run ends in `Loading` |
| Weather.LocationErrorExactly | svelte/src/lib/stores/weather.ts:58-64 | a run ends in `error_get_location` exactly when no forecast was shown, there was no cache, and the device failed |
| Weather.FetchErrorExactly | svelte/src/lib/stores/weather.ts:58-64 | a run ends in `error_fetch_weather` exactly when no forecast was shown and either the cached fetch failed, or (with no cache) geolocation was missing or the live fetch failed |
| Weather.UnmovedKeepsCachedForecast | svelte/src/lib/stores/weather.ts:41-54 | a successful cached fetch plus an unmoved device ends with the cached forecast |
| Weather.NoGeolocationIsPlainFailure | shared/stores/location.ts:35-37 | a browser without geolocation rejects with a plain error, which maps to `error_fetch_weather` |
| Weather.WeatherStore.constructor | svelte/src/lib/stores/weather.ts:15-16 | the store starts in `Loading` without refreshing |
| Weather.WeatherStore.DoFetchWeather | angular/src/app/services/weather.service.ts:27-61 | the steps taken are `Plan` and the final state is `Outcome` for the answers received; the refresh flag is cleared; the cache holds the live position when one was written; no other storage key changes |
| Weather.WeatherStore.CatchFailure | react/src/hooks/useWeather.tsx:60-69 | an error replaces anything but a shown forecast; the flag is untouched |
| Weather.WeatherStore.FetchLive | react/src/hooks/useWeather.tsx:53-59 | the live part of a run as `Live` and `LiveOutcome`; the position is cached when known, and storage is untouched when it is not |
| Weather.WeatherStore.RefreshIfStale | angular/src/app/services/weather.service.ts:63-68 | a run fires exactly when a forecast older than 30 minutes is shown; it then completes as `Ran` says (trace `Plan`, final state `Outcome`, refresh flag cleared, location cache written as far as the run got, other keys kept); otherwise the state, the refresh flag and the storage are unchanged |
| Weather.WeatherStore.OnVisibilityChange | react/src/hooks/useWeather.tsx:83-91 | a run fires exactly when the page became visible and the forecast is older than 30 minutes, and then completes as `Ran` says; otherwise the state, the refresh flag and the storage are unchanged |
| Preferences.LoadFlag | angular/src/app/services/preferences.service.ts:6-12 | the stored flag, or the default when the entry is missing or unparseable |
| Preferences.LoadIndex | react/src/hooks/usePreferences.tsx:6-12 | the stored number as it is, or the default when the entry is missing or unparseable |
| Preferences.NextIndex | angular/src/app/services/preferences.service.ts:42-43 | `(i + 1) % length`: in range for a non-negative index; the next index, wrapping to 0 after the last |
| Preferences.CycledUpward | angular/src/app/services/preferences.service.ts:42-43 | before the end of the table, k cycles move k places up |
| Preferences.CycledCompose | angular/src/app/services/preferences.service.ts:42-43 | cycling a times then b times is cycling a + b times |
| Preferences.CycleReturns | angular/src/app/services/preferences.service.ts:42-43 | as many cycles as entries bring an in-range index back |
| Preferences.LocaleAt | angular/src/app/services/preferences.service.ts:32 | `SUPPORTED_LOCALES[idx]`: a locale exactly for an index in range |
| Preferences.Direction | angular/src/app/services/preferences.service.ts:35 | "rtl" exactly for "ar", "ltr" for every other tag |
| Preferences.OnlyArabicRightToLeft | angular/src/app/services/preferences.service.ts:35 | of the supported locales only the second, Arabic, is right to left |
| Preferences.PreferencesStore.constructor | angular/src/app/services/preferences.service.ts:18-39 | loads the three values with defaults true, 0, 0, writes them back, and applies a valid locale index |
| Preferences.PreferencesStore.ApplyLocale | angular/src/app/services/preferences.service.ts:29-38 | for an index in range: the service, `dir` and `lang` follow the locale; otherwise nothing changes |
| Preferences.PreferencesStore.ToggleUnits | svelte/src/lib/stores/preferences.ts:31-33 | the flag flips and is persisted; other keys are untouched |
| Preferences.PreferencesStore.CycleFont | react/src/hooks/usePreferences.tsx:45 | the font index advances modulo 22 and is persisted |
| Preferences.PreferencesStore.AdvanceLocale | react/src/hooks/usePreferences.tsx:34-46 | the locale index advances with the remainder of `%` and is written back; no other key changes |
| Preferences.PreferencesStore.CycleLanguage | react/src/hooks/usePreferences.tsx:34-46 | the locale index advances modulo 8, is persisted, and the locale effect runs |
| Display.LocalizedPair | angular/src/app/components/current-conditions.component.ts:156-165 | both halves of a dual display go through the digit localiser |
| Display.LocalizedPairSwap | angular/src/app/components/current-conditions.component.ts:156-165 | localising commutes with swapping the pair |
| Display.LastSunriseBefore | react/src/components/HourlyForecast.tsx:20-23 | the last day whose sunrise is not after the time, or 0 when there is none |
| Display.IsNightForHour | react/src/components/HourlyForecast.tsx:19-27 | the backward loop with `break` computes `IsNight` |
| Display.IsNight | react/src/components/HourlyForecast.tsx:19-27 | night is before that day's sunrise or after its sunset, missing entries read as 0; `BeforeEverySunriseIsNight`, `DaylightIncludesSunriseAndSunset` and `NightAfterSunset` state its properties |
| Display.BeforeEverySunriseIsNight | react/src/components/HourlyForecast.tsx:19-27 | before the first sunrise it is night |
| Display.DaylightIncludesSunriseAndSunset | angular/src/app/components/hourly-forecast.component.ts:52-60 | between a day's sunrise and sunset, both included, it is day |
| Display.NightAfterSunset | angular/src/app/components/hourly-forecast.component.ts:52-60 | after the day's sunrise it is night exactly when it is after that day's sunset (0 when missing) |
| Display.HourEmoji | angular/src/app/components/hourly-forecast.component.ts:44-46 | the night emoji exactly at night |
| Display.HourEmojiIgnoresSunForOtherCodes | react/src/components/HourlyForecast.tsx:37 | apart from codes 0, 1 and 2 the hour's emoji does not depend on the sun |
| Display.HourTemperature | angular/src/app/components/hourly-forecast.component.ts:48-50 | the hour's temperature in primary-first order, whole degrees |
| Display.PrecipChance | react/src/components/HourlyForecast.tsx:45-47 | empty unless the probability is positive; then the localised integer followed by "%" |
| Display.UvBand | react/src/components/CurrentConditions.tsx:24-32 | the number of thresholds 3, 6, 8, 11 reached, from 0 to 4 |
| Display.ReachedUvThresholds | react/src/components/CurrentConditions.tsx:27-31 | the band is the sum of the four threshold tests |
| Display.UvBandMonotone | react/src/components/CurrentConditions.tsx:27-31 | a higher UV index never gets a lower band |
| Display.LabelAt | react/src/components/CurrentConditions.tsx:27-31 | `labels[k]`: present exactly for an index in range |
| Display.UvLabel | angular/src/app/components/current-conditions.component.ts:181-190 | "" without labels; otherwise the band's label, always one of the labels when there are five |
| Display.ReactUvLabel | react/src/components/CurrentConditions.tsx:24-32 | "" when the entry is not a list; otherwise the band's label, as in Angular for a non-empty list |
| Display.Rem360OfSmall | react/src/components/CurrentConditions.tsx:20 | `%` by 360 leaves an angle in [0, 360) unchanged |
| Display.Rem360OfShifted | react/src/components/CurrentConditions.tsx:20 | adding 360 to an angle in [0, 360) is undone by `% 360` |
| Display.Rem16OfSmall | react/src/components/CurrentConditions.tsx:20 | `% 16` leaves a position in [0, 16) unchanged |
| Display.NormalizeDegrees | react/src/components/CurrentConditions.tsx:20 | `(deg % 360 + 360) % 360` lies in [0, 360), differs from deg by whole turns, and keeps an angle already in range |
| Display.SectorPosition | react/src/components/CurrentConditions.tsx:20 | the position among the 16 sectors, in [0, 16) |
| Display.CardinalIndexAsWritten | react/src/components/CurrentConditions.tsx:20-21 | `Math.round` of the sector position, in 0..16 |
| Display.CardinalAsWritten | angular/src/app/components/current-conditions.component.ts:197-202 | "" without names; the name at the rounded index, or "" past the end |
| Display.CardinalOverrunsNearNorth | react/src/components/CurrentConditions.tsx:20-21 | for 348.75 ≤ deg < 360 the rounded index is 16 and the name shown is "" |
| Display.CardinalIndex | react/src/components/CurrentConditions.tsx:20-21 | the nearest of the 16 sectors, wrapping past the last to north: in 0..15 |
| Display.CardinalDirection | react/src/components/CurrentConditions.tsx:17-22 | "" without names; the nearest sector's name with a full table |
| Display.CardinalNorthNear360 | react/src/components/CurrentConditions.tsx:17-22 | in the corrected form, angles just below 360 are named north |
| Display.VisibilityDual | react/src/components/CurrentConditions.tsx:34-40 | km with one decimal and miles (1609.34 m) with two, in primary-first order |
| Display.VisibilityDualOrder | angular/src/app/components/current-conditions.component.ts:172-179 | the imperial-first pair is the metric-first pair swapped |
| Display.PrecipitationShown | react/src/components/CurrentConditions.tsx:126-138 | snow first, rain only without snow, "no_precip" with neither; the amounts localised in primary-first order |
| Display.GustShown | react/src/components/CurrentConditions.tsx:85-93 | the gust card exactly when there is a gust value, localised in primary-first order |
| Display.ShownFromResponse | angular/src/app/components/current-conditions.component.ts:77-89 | through the mapper: snow shows exactly when snowfall is positive, rain when only rain is, the no-precipitation text otherwise; the gust card shows exactly when gusts are positive |
| Screen.SuccessData | angular/src/app/components/weather-screen.component.ts:153-156 | the forecast exactly in the success state |
| Screen.ErrorMessage | angular/src/app/components/weather-screen.component.ts:158-161 | the error's key in the error state, "" otherwise |
| Screen.LowerAscii | react/src/components/WeatherScreen.tsx:18 | `toLowerCase` on ASCII: same length, upper-case letters lowered, the rest kept |
| Screen.BrowserLocaleTag | react/src/components/WeatherScreen.tsx:16-20 | nothing without a navigator; the lower-cased prefix of its language exactly when that is a supported tag |
| Screen.CurrentTag | react/src/components/WeatherScreen.tsx:31 | `SUPPORTED_LOCALES[localeIndex]?.tag`: present exactly for an index in range |
| Screen.ShowSecondary | angular/src/app/components/weather-screen.component.ts:171-175 | the hint shows exactly when a browser tag is known, differs from the current one, and has strings |
| Screen.ShowSecondaryWithFullCatalog | react/src/components/WeatherScreen.tsx:27-32 | with strings for every supported language, the hint shows exactly for a supported browser language other than the current one |
| Screen.WeatherScreen.constructor | angular/src/app/components/weather-screen.component.ts:139-141 | no pull in progress |
| Screen.WeatherScreen.PullDeltaClamped | angular/src/app/components/weather-screen.component.ts:142 | `Math.min(pullDelta, 100)` |
| Screen.WeatherScreen.SpinnerActive | react/src/components/WeatherScreen.tsx:104 | the spinner is active exactly when the pull exceeds 80, the threshold `TouchEnd` refreshes at |
| Screen.WeatherScreen.TouchStart | angular/src/app/components/weather-screen.component.ts:201-206 | arms the gesture at the touch point exactly when the list is scrolled to the top |
| Screen.WeatherScreen.TouchMove | react/src/components/WeatherScreen.tsx:66-69 | while pulling, the pull is `max(0, y − start)`; otherwise nothing changes; the pull is never negative |
| Screen.WeatherScreen.TouchEnd | angular/src/app/components/weather-screen.component.ts:213-217 | a fetch runs exactly when the pull exceeded 80, which only a pull in progress can, and completes as `Ran` says (new state `Outcome`, refresh flag cleared, cache written); otherwise the store's state, flag and storage are unchanged; the gesture is always reset |
| Screen.WeatherScreen.Open | angular/src/app/components/weather-screen.component.ts:181-184 | opening the screen runs one fetch, which completes as `Ran` says: trace `Plan`, new state `Outcome`, refresh flag cleared, cache written as far as the run got |
| Screen.WeatherScreen.VisibilityChanged | angular/src/app/components/weather-screen.component.ts:177-179 | a page that became visible refreshes a forecast older than 30 minutes, completing as `Ran` says; otherwise the store's state, refresh flag and storage are unchanged |

## Left out

- Number formatting: JavaScript numbers are modelled as exact reals.
  - Binary floating point is not modelled, so ties that floating point resolves differently are not captured.
  - `toFixed`'s exponent form for magnitudes of 10^21 and above is not modelled.
  - The RangeError for more than 100 decimals is not modelled; it is a precondition instead.
- JSON in storage: an entry either parses to a value of the kind the app writes (a flag, an integer, a position) or fails to parse.
  - Other kinds are not modelled: a string, a fractional number, or an object without `lat`/`lon`.
  - `Preferences.LoadFlag`, `Preferences.LoadIndex` and `Location.GetCachedLocation` treat a parsed value of the wrong kind as missing. The source would carry it along as it is.
- Storage that throws: a `localStorage` whose calls throw (as opposed to one that is absent) is not modelled. The same goes for keys inherited from the object prototype.
- Preferences.PreferencesStore: `available == false` stands for the `typeof localStorage` guards of the Svelte store and `location.ts`. The Angular and React preference stores have no such guard (preferences.service.ts:27-31, usePreferences.tsx:32-35). Without storage their effects would throw before the locale, `dir` and `lang` are applied. The model skips the writes and still applies the locale.
- `I18n.ReplaceFirst`: `$` patterns in the replacement text are not interpreted.
- I18n.Interpolate: the parameters are applied in the order of the given sequence. `Object.entries` lists integer-like keys first, in ascending order, and then the others in insertion order; that ordering is left to the caller.
- `Screen.LowerAscii` lowers only the ASCII letters; Unicode case mapping is not modelled.
- Time: ISO date parsing, time zones, `formatHour`/`formatTime` and `Intl.DateTimeFormat` are not modelled.
  - Sunrise, sunset and hour times are given as already parsed milliseconds.
  - An empty sunrise string (falsy, hence 0) is not distinguished from a missing one.
- The mapper's response arrays are assumed aligned (one value per time stamp). `undefined` entries from short arrays are not modelled.
- Concurrency and timing:
  - `Promise.all`, overlapping runs of `doFetchWeather`, and the render timing of React's `stateRef` are not modelled. The model runs one invocation at a time and reads the state it left behind.
  - The two `Date.now()` calls of the mapper are taken as one `now`.
- Rendering, styling, the service workers, share capture, fonts (only their count, 22, is used) and the collapsible sections are not modelled.
- The Svelte preferences store (`svelte/src/lib/stores/preferences.ts`) only persists the locale index. It switches neither the translations nor the document. `Preferences.PreferencesStore` models the Angular and React stores, which do both. For Svelte, only persisting and cycling apply.
- `Screen.CurrentTag`: Angular's `currentLocaleTag` throws for an out-of-range index, because it reads `.tag` of `undefined`. The model follows React's `?.tag`, which gives `undefined`.
- `Display.UvLabel`: when there are fewer than five labels, the source renders `undefined` past the end. The model returns no label for that case, and does not model how it renders.
- Network request details are not modelled: URLs, query parameters, headers and the 15-second geolocation timeout. Only the success or failure of each call is modelled.

## Findings

| source | as written | input that shows it | evidently intended | confidence | as-written member | corrected member |
|---|---|---|---|---|---|---|
| react/src/components/CurrentConditions.tsx:20-21 (and angular/src/app/components/current-conditions.component.ts:200-201) | `dirs[Math.round(((deg % 360 + 360) % 360 * 16 / 360) % 16)] ?? ''` | wind direction 355° with the usual 16 names: the position is 15.78, `Math.round` gives 16, `dirs[16]` is undefined, and the card shows "" | a bearing within 11.25° below 360 is north (index 0); the `% 16` was meant to wrap the rounded index | not executed | Display.CardinalOverrunsNearNorth | Display.CardinalIndex |
