/**
 * The WMO weather-code tables: a translation key per code and a weather
 * emoji per code, with night variants for the clear and partly clouded
 * codes.
 */
module Wmo {

  /** The codes the tables list, in table order. */
  const ListedCodes: seq<int> := [0, 1, 2, 3, 45, 48, 51, 53, 55, 56, 57, 61, 63, 65, 66, 67,
                                  71, 73, 75, 77, 80, 81, 82, 85, 86, 95, 96, 99]

  const UnknownKey: string := "wmo_unknown"

  /** `wmoDescriptionKey`. */
  function DescriptionKey(code: int): string {
    match code
    case 0 => "wmo_clear_sky"
    case 1 => "wmo_mainly_clear"
    case 2 => "wmo_partly_cloudy"
    case 3 => "wmo_overcast"
    case 45 => "wmo_fog"
    case 48 => "wmo_rime_fog"
    case 51 => "wmo_light_drizzle"
    case 53 => "wmo_moderate_drizzle"
    case 55 => "wmo_dense_drizzle"
    case 56 => "wmo_light_freezing_drizzle"
    case 57 => "wmo_dense_freezing_drizzle"
    case 61 => "wmo_slight_rain"
    case 63 => "wmo_moderate_rain"
    case 65 => "wmo_heavy_rain"
    case 66 => "wmo_light_freezing_rain"
    case 67 => "wmo_heavy_freezing_rain"
    case 71 => "wmo_slight_snowfall"
    case 73 => "wmo_moderate_snowfall"
    case 75 => "wmo_heavy_snowfall"
    case 77 => "wmo_snow_grains"
    case 80 => "wmo_slight_rain_showers"
    case 81 => "wmo_moderate_rain_showers"
    case 82 => "wmo_violent_rain_showers"
    case 85 => "wmo_slight_snow_showers"
    case 86 => "wmo_heavy_snow_showers"
    case 95 => "wmo_thunderstorm"
    case 96 => "wmo_thunderstorm_slight_hail"
    case 99 => "wmo_thunderstorm_heavy_hail"
    case _ => UnknownKey
  }

  const Globe: string := "\U{1F310}"

  /** `wmoEmoji`; `isNight` defaults to false. */
  function Emoji(code: int, isNight: bool := false): string {
    match code
    case 0 => if isNight then "\U{1F311}" else "\U{2600}\U{FE0F}"
    case 1 => if isNight then "\U{1F314}" else "\U{1F324}\U{FE0F}"
    case 2 => if isNight then "\U{1F313}" else "\U{26C5}"
    case 3 => "\U{2601}\U{FE0F}"
    case 45 => "\U{1F32B}\U{FE0F}"
    case 48 => "\U{1F32B}\U{FE0F}"
    case 51 => "\U{1F326}\U{FE0F}"
    case 53 => "\U{1F326}\U{FE0F}"
    case 55 => "\U{1F326}\U{FE0F}"
    case 56 => "\U{1F328}\U{FE0F}"
    case 57 => "\U{1F328}\U{FE0F}"
    case 61 => "\U{1F327}\U{FE0F}"
    case 63 => "\U{1F327}\U{FE0F}"
    case 65 => "\U{1F327}\U{FE0F}"
    case 66 => "\U{1F328}\U{FE0F}"
    case 67 => "\U{1F328}\U{FE0F}"
    case 71 => "\U{2744}\U{FE0F}"
    case 73 => "\U{2744}\U{FE0F}"
    case 75 => "\U{2744}\U{FE0F}"
    case 77 => "\U{2744}\U{FE0F}"
    case 80 => "\U{1F326}\U{FE0F}"
    case 81 => "\U{1F326}\U{FE0F}"
    case 82 => "\U{1F326}\U{FE0F}"
    case 85 => "\U{1F328}\U{FE0F}"
    case 86 => "\U{1F328}\U{FE0F}"
    case 95 => "\U{26C8}\U{FE0F}"
    case 96 => "\U{26C8}\U{FE0F}"
    case 99 => "\U{26C8}\U{FE0F}"
    case _ => Globe
  }

  /** Membership in the table, spelled out code by code. */
  lemma ListedCodeCases(code: int)
    ensures code in ListedCodes <==>
      code == 0 || code == 1 || code == 2 || code == 3 || code == 45 || code == 48 || code == 51 || code == 53 || code == 55 || code == 56 || code == 57 || code == 61 || code == 63 || code == 65 || code == 66 || code == 67 || code == 71 || code == 73 || code == 75 || code == 77 || code == 80 || code == 81 || code == 82 || code == 85 || code == 86 || code == 95 || code == 96 || code == 99
  {
  }

  /** Exactly the listed codes have a key of their own. */
  lemma UnknownExactlyUnlisted(code: int)
    ensures DescriptionKey(code) == UnknownKey <==> code !in ListedCodes
  {
    ListedCodeCases(code);
    if code in ListedCodes {
      ListedKeyRoundTrip(code);
    }
  }

  /** A listed code's key is known and leads back to the code. */
  lemma ListedKeyRoundTrip(code: int)
    requires code in ListedCodes
    ensures DescriptionKey(code) != UnknownKey && CodeOfKey(DescriptionKey(code)) == code
  {
    ListedCodeCases(code);
    UnknownKeyHasNoCode();
    if code <= 3 {
      KeysOfGroup1(code);
    } else if code <= 53 {
      KeysOfGroup2(code);
    } else if code <= 61 {
      KeysOfGroup3(code);
    } else if code <= 67 {
      KeysOfGroup4(code);
    } else if code <= 77 {
      KeysOfGroup5(code);
    } else if code <= 85 {
      KeysOfGroup6(code);
    } else {
      KeysOfGroup7(code);
    }
  }

  lemma UnknownKeyHasNoCode()
    ensures CodeOfKey(UnknownKey) == -1
  {
  }

  lemma KeysOfGroup1(code: int)
    requires code == 0 || code == 1 || code == 2 || code == 3
    ensures CodeOfKey(DescriptionKey(code)) == code
  {
  }

  lemma KeysOfGroup2(code: int)
    requires code == 45 || code == 48 || code == 51 || code == 53
    ensures CodeOfKey(DescriptionKey(code)) == code
  {
  }

  lemma KeysOfGroup3(code: int)
    requires code == 55 || code == 56 || code == 57 || code == 61
    ensures CodeOfKey(DescriptionKey(code)) == code
  {
  }

  lemma KeysOfGroup4(code: int)
    requires code == 63 || code == 65 || code == 66 || code == 67
    ensures CodeOfKey(DescriptionKey(code)) == code
  {
  }

  lemma KeysOfGroup5(code: int)
    requires code == 71 || code == 73 || code == 75 || code == 77
    ensures CodeOfKey(DescriptionKey(code)) == code
  {
  }

  lemma KeysOfGroup6(code: int)
    requires code == 80 || code == 81 || code == 82 || code == 85
    ensures CodeOfKey(DescriptionKey(code)) == code
  {
  }

  lemma KeysOfGroup7(code: int)
    requires code == 86 || code == 95 || code == 96 || code == 99
    ensures CodeOfKey(DescriptionKey(code)) == code
  {
  }

  /** The code a listed key was chosen for; a left inverse of `DescriptionKey` on the listed codes. */
  function CodeOfKey(key: string): int {
    match key
    case "wmo_clear_sky" => 0
    case "wmo_mainly_clear" => 1
    case "wmo_partly_cloudy" => 2
    case "wmo_overcast" => 3
    case "wmo_fog" => 45
    case "wmo_rime_fog" => 48
    case "wmo_light_drizzle" => 51
    case "wmo_moderate_drizzle" => 53
    case "wmo_dense_drizzle" => 55
    case "wmo_light_freezing_drizzle" => 56
    case "wmo_dense_freezing_drizzle" => 57
    case "wmo_slight_rain" => 61
    case "wmo_moderate_rain" => 63
    case "wmo_heavy_rain" => 65
    case "wmo_light_freezing_rain" => 66
    case "wmo_heavy_freezing_rain" => 67
    case "wmo_slight_snowfall" => 71
    case "wmo_moderate_snowfall" => 73
    case "wmo_heavy_snowfall" => 75
    case "wmo_snow_grains" => 77
    case "wmo_slight_rain_showers" => 80
    case "wmo_moderate_rain_showers" => 81
    case "wmo_violent_rain_showers" => 82
    case "wmo_slight_snow_showers" => 85
    case "wmo_heavy_snow_showers" => 86
    case "wmo_thunderstorm" => 95
    case "wmo_thunderstorm_slight_hail" => 96
    case "wmo_thunderstorm_heavy_hail" => 99
    case _ => -1
  }

  /** Each listed code has its own key: no two listed codes share one. */
  lemma ListedKeysDistinct(a: int, b: int)
    requires a in ListedCodes && b in ListedCodes && a != b
    ensures DescriptionKey(a) != DescriptionKey(b)
  {
    ListedKeyRoundTrip(a);
    ListedKeyRoundTrip(b);
  }

  /** Only codes 0, 1 and 2 look different at night; unknown codes show the globe. */
  lemma EmojiNightVariants(code: int)
    ensures Emoji(code, true) != Emoji(code, false) <==> code in {0, 1, 2}
    ensures Emoji(code) == Emoji(code, false)
    ensures Emoji(code, true) == Globe <==> code !in ListedCodes
    ensures Emoji(code, false) == Globe <==> code !in ListedCodes
  {
  }
}
