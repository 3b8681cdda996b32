/**
 * The four dual-unit value types. Each wraps one metric scalar that is
 * stored as given, derives the imperial value by a fixed linear factor,
 * and renders both as text; `DisplayDual` puts the user's primary unit
 * first.
 */
module Units {
  import opened JsNumber

  /** Swaps the two elements of a display pair. */
  function Swap(pair: (string, string)): (swapped: (string, string))
    ensures swapped.0 == pair.1 && swapped.1 == pair.0
  {
    (pair.1, pair.0)
  }

  // ----- temperature -----

  datatype Temperature = Temperature(celsius: real) {

    function Fahrenheit(): (f: real)
      ensures (f - 32.0) * 5.0 / 9.0 == celsius
    {
      celsius * 9.0 / 5.0 + 32.0
    }

    /** Celsius with `decimals` places, or rounded to an integer when decimals <= 0. */
    function DisplayCelsius(decimals: int := 0): (s: string)
      requires decimals <= 100
      ensures Shows(s, celsius, if decimals > 0 then decimals else 0, "°C")
    {
      Formatted(celsius, decimals, "°C")
    }

    function DisplayFahrenheit(decimals: int := 0): (s: string)
      requires decimals <= 100
      ensures Shows(s, Fahrenheit(), if decimals > 0 then decimals else 0, "°F")
    {
      Formatted(Fahrenheit(), decimals, "°F")
    }

    /** Both renderings, the primary unit first. */
    function DisplayDual(metricPrimary: bool, decimals: int := 0): (pair: (string, string))
      requires decimals <= 100
      ensures var d := if decimals > 0 then decimals else 0;
        if metricPrimary then Shows(pair.0, celsius, d, "°C") && Shows(pair.1, Fahrenheit(), d, "°F")
        else Shows(pair.0, Fahrenheit(), d, "°F") && Shows(pair.1, celsius, d, "°C")
    {
      if metricPrimary then (DisplayCelsius(decimals), DisplayFahrenheit(decimals))
      else (DisplayFahrenheit(decimals), DisplayCelsius(decimals))
    }

    /** Celsius with `cDecimals` places, Fahrenheit always as an integer. */
    function DisplayDualMixed(metricPrimary: bool, cDecimals: int := 1): (pair: (string, string))
      requires cDecimals <= 100
      ensures var d := if cDecimals > 0 then cDecimals else 0;
        if metricPrimary then Shows(pair.0, celsius, d, "°C") && Shows(pair.1, Fahrenheit(), 0, "°F")
        else Shows(pair.0, Fahrenheit(), 0, "°F") && Shows(pair.1, celsius, d, "°C")
    {
      if metricPrimary then (DisplayCelsius(cDecimals), DisplayFahrenheit(0))
      else (DisplayFahrenheit(0), DisplayCelsius(cDecimals))
    }
  }

  function FromCelsius(c: real): (t: Temperature)
    ensures t.celsius == c
  {
    Temperature(c)
  }

  function FromFahrenheit(f: real): (t: Temperature)
    ensures t.Fahrenheit() == f
  {
    Temperature((f - 32.0) * 5.0 / 9.0)
  }

  lemma CelsiusRoundTrip(c: real)
    ensures FromFahrenheit(FromCelsius(c).Fahrenheit()).celsius == c
  {
  }

  lemma TemperatureDualOrder(t: Temperature, metricPrimary: bool, decimals: int)
    requires decimals <= 100
    ensures t.DisplayDual(false, decimals) == Swap(t.DisplayDual(true, decimals))
    ensures t.DisplayDual(metricPrimary, decimals)
      == if metricPrimary then (t.DisplayCelsius(decimals), t.DisplayFahrenheit(decimals))
         else (t.DisplayFahrenheit(decimals), t.DisplayCelsius(decimals))
  {
  }

  lemma TemperatureMixedOrder(t: Temperature, cDecimals: int)
    requires cDecimals <= 100
    ensures t.DisplayDualMixed(false, cDecimals) == Swap(t.DisplayDualMixed(true, cDecimals))
    ensures t.DisplayDualMixed(true, cDecimals) == (t.DisplayCelsius(cDecimals), t.DisplayFahrenheit(0))
  {
  }

  // ----- pressure -----

  const InHgPerHPa: real := 0.02953

  datatype Pressure = Pressure(hPa: real) {

    function InHg(): (inHg: real)
      ensures inHg / InHgPerHPa == hPa
    {
      hPa * InHgPerHPa
    }

    /** Whole hectopascals. */
    function DisplayHPa(): (s: string)
      ensures Shows(s, hPa, 0, " hPa")
    {
      Formatted(hPa, 0, " hPa")
    }

    /** Inches of mercury to two places. */
    function DisplayInHg(): (s: string)
      ensures Shows(s, InHg(), 2, " inHg")
    {
      Formatted(InHg(), 2, " inHg")
    }

    function DisplayDual(metricPrimary: bool): (pair: (string, string))
      ensures if metricPrimary then Shows(pair.0, hPa, 0, " hPa") && Shows(pair.1, InHg(), 2, " inHg")
        else Shows(pair.0, InHg(), 2, " inHg") && Shows(pair.1, hPa, 0, " hPa")
    {
      if metricPrimary then (DisplayHPa(), DisplayInHg()) else (DisplayInHg(), DisplayHPa())
    }
  }

  function FromHPa(hPa: real): (p: Pressure)
    ensures p.hPa == hPa
  {
    Pressure(hPa)
  }

  function FromInHg(inHg: real): (p: Pressure)
    ensures p.InHg() == inHg
  {
    Pressure(inHg / InHgPerHPa)
  }

  lemma PressureDualOrder(p: Pressure, metricPrimary: bool)
    ensures p.DisplayDual(false) == Swap(p.DisplayDual(true))
    ensures p.DisplayDual(metricPrimary).0 == if metricPrimary then p.DisplayHPa() else p.DisplayInHg()
  {
  }

  // ----- wind speed -----

  const MphPerMetrePerSecond: real := 2.23694

  datatype WindSpeed = WindSpeed(metersPerSecond: real) {

    function Mph(): (mph: real)
      ensures mph / MphPerMetrePerSecond == metersPerSecond
    {
      metersPerSecond * MphPerMetrePerSecond
    }

    function DisplayMetric(): (s: string)
      ensures Shows(s, metersPerSecond, 1, " m/s")
    {
      Formatted(metersPerSecond, 1, " m/s")
    }

    function DisplayImperial(): (s: string)
      ensures Shows(s, Mph(), 1, " mph")
    {
      Formatted(Mph(), 1, " mph")
    }

    function DisplayDual(metricPrimary: bool): (pair: (string, string))
      ensures if metricPrimary then Shows(pair.0, metersPerSecond, 1, " m/s") && Shows(pair.1, Mph(), 1, " mph")
        else Shows(pair.0, Mph(), 1, " mph") && Shows(pair.1, metersPerSecond, 1, " m/s")
    {
      if metricPrimary then (DisplayMetric(), DisplayImperial()) else (DisplayImperial(), DisplayMetric())
    }
  }

  function FromMetersPerSecond(ms: real): (w: WindSpeed)
    ensures w.metersPerSecond == ms
  {
    WindSpeed(ms)
  }

  function FromMph(mph: real): (w: WindSpeed)
    ensures w.Mph() == mph
  {
    WindSpeed(mph / MphPerMetrePerSecond)
  }

  lemma WindSpeedDualOrder(w: WindSpeed, metricPrimary: bool)
    ensures w.DisplayDual(false) == Swap(w.DisplayDual(true))
    ensures w.DisplayDual(metricPrimary).0 == if metricPrimary then w.DisplayMetric() else w.DisplayImperial()
  {
  }

  // ----- precipitation -----

  const InchesPerMm: real := 0.03937

  datatype Precipitation = Precipitation(mm: real) {

    function Inches(): (inches: real)
      ensures inches / InchesPerMm == mm
    {
      mm * InchesPerMm
    }

    function DisplayMetric(): (s: string)
      ensures Shows(s, mm, 1, " mm")
    {
      Formatted(mm, 1, " mm")
    }

    function DisplayImperial(): (s: string)
      ensures Shows(s, Inches(), 2, " in")
    {
      Formatted(Inches(), 2, " in")
    }

    function DisplayDual(metricPrimary: bool): (pair: (string, string))
      ensures if metricPrimary then Shows(pair.0, mm, 1, " mm") && Shows(pair.1, Inches(), 2, " in")
        else Shows(pair.0, Inches(), 2, " in") && Shows(pair.1, mm, 1, " mm")
    {
      if metricPrimary then (DisplayMetric(), DisplayImperial()) else (DisplayImperial(), DisplayMetric())
    }
  }

  function FromMm(mm: real): (p: Precipitation)
    ensures p.mm == mm
  {
    Precipitation(mm)
  }

  function FromInches(inches: real): (p: Precipitation)
    ensures p.Inches() == inches
  {
    Precipitation(inches / InchesPerMm)
  }

  lemma PrecipitationDualOrder(p: Precipitation, metricPrimary: bool)
    ensures p.DisplayDual(false) == Swap(p.DisplayDual(true))
    ensures p.DisplayDual(metricPrimary).0 == if metricPrimary then p.DisplayMetric() else p.DisplayImperial()
  {
  }
}
