/**
 * The output half of the `weather` command of cmd/weather.go: the WMO
 * weather code picks an icon name through a switch and a description
 * through a table, the unit flag picks the temperature scale, and the
 * result is one JSON object for waybar.
 *
 * Temperatures are exact decimals (`real` degrees Celsius).
 */
module Weather {
  import opened Wrappers
  import opened GoText

  // ---------------------------------------------------------------- codes

  /** The description table (cmd/weather.go:166-184). */
  const WeatherCodes: map<int, string> := map[
    0 := "Clear skies",
    1 := "Mainly clear",
    2 := "Partly cloudy",
    3 := "Overcast",
    45 := "Fog",
    48 := "Depositing rime fog",
    51 := "Light drizzle",
    53 := "Moderate drizzle",
    55 := "Dense drizzle",
    61 := "Slight rain",
    63 := "Moderate rain",
    65 := "Heavy rain",
    71 := "Slight snowfall",
    73 := "Moderate snowfall",
    75 := "Heavy snowfall",
    95 := "Slight thunderstorm",
    96 := "Thunderstorm with heavy hail"
  ]

  /** The description of a code: Go's map lookup gives "" for a missing key (cmd/weather.go:204). */
  function Condition(code: int): string
  {
    if code in WeatherCodes then WeatherCodes[code] else ""
  }

  /** The icon switch (cmd/weather.go:186-202); any other code leaves the icon "". */
  function Icon(code: int): string
  {
    match code
    case 0 | 1 => "clear"
    case 2 | 3 => "cloudy"
    case 45 | 48 => "fog"
    case 51 | 52 | 53 => "drizzle"
    case 61 | 62 | 63 => "rain"
    case 71 | 72 | 73 => "snow"
    case 95 | 96 => "thunderstorm"
    case _ => ""
  }

  /** The codes the switch names. */
  const IconCodes: set<int> := {0, 1, 2, 3, 45, 48, 51, 52, 53, 61, 62, 63, 71, 72, 73, 95, 96}

  /** A code gets an icon exactly when the switch names it. */
  lemma IconDefined(code: int)
    ensures Icon(code) != "" <==> code in IconCodes
  {
  }

  /** The codes the table lists. */
  const ConditionCodes: set<int> := {0, 1, 2, 3, 45, 48, 51, 53, 55, 61, 63, 65, 71, 73, 75, 95, 96}

  /** A code gets a description exactly when the table lists it, and none is empty. */
  lemma ConditionDefined(code: int)
    ensures Condition(code) != "" <==> code in ConditionCodes
  {
    if code in WeatherCodes {
      assert code in ConditionCodes;
    }
  }

  /**
   * The two lookups disagree on exactly six codes: 52, 62 and 72 get an
   * icon but no description, 55, 65 and 75 a description but no icon.
   */
  lemma LookupGaps(code: int)
    ensures (Icon(code) != "" && Condition(code) == "") <==> code in {52, 62, 72}
    ensures (Icon(code) == "" && Condition(code) != "") <==> code in {55, 65, 75}
  {
    IconDefined(code);
    ConditionDefined(code);
  }

  /** Every described code but the three heavy ones has an icon of the matching kind. */
  lemma IconMatchesCondition(code: int)
    requires code in WeatherCodes && code !in {55, 65, 75}
    ensures Icon(code) != ""
    ensures Icon(code) == "drizzle" <==> code in {51, 53}
    ensures Icon(code) == "rain" <==> code in {61, 63}
    ensures Icon(code) == "snow" <==> code in {71, 73}
  {
    ConditionDefined(code);
  }

  // ----------------------------------------------------------------- units

  datatype Unit = Celsius | Fahrenheit | Kelvin

  /** The unit switch (cmd/weather.go:207-214): "f" and "k" in any ASCII case, else Celsius. */
  function UnitOf(flag: string): (u: Unit)
    ensures u == Fahrenheit <==> flag == "f" || flag == "F"
    ensures u == Kelvin <==> flag == "k" || flag == "K"
  {
    var lower := ToLowerAscii(flag);
    if lower == "f" then Fahrenheit
    else if lower == "k" then Kelvin
    else Celsius
  }

  /** The temperature in the chosen unit. */
  function Convert(celsius: real, u: Unit): real
  {
    match u
    case Celsius => celsius
    case Fahrenheit => celsius * 9.0 / 5.0 + 32.0
    case Kelvin => celsius + 273.15
  }

  /** The unit suffix: "°C", "°F" or "K". */
  function Suffix(u: Unit): string
  {
    match u
    case Celsius => "°C"
    case Fahrenheit => "°F"
    case Kelvin => "K"
  }

  /** The number printed: the temperature in the unit, with one decimal (`%.1f`). */
  function NumberText(celsius: real, u: Unit): string
  {
    RenderFixed(Convert(celsius, u), 1)
  }

  /** The printed temperature: the number and the unit. */
  function TemperatureText(celsius: real, u: Unit): string
  {
    NumberText(celsius, u) + Suffix(u)
  }

  /** The number printed reads back as the temperature in the unit, rounded to one decimal. */
  lemma NumberTextValue(celsius: real, u: Unit)
    ensures ParseDecimal(NumberText(celsius, u)) == Some(RoundFixed(Convert(celsius, u), 1))
  {
    ParseRenderFixed(Convert(celsius, u), 1);
  }

  // --------------------------------------------------------------- payload

  /** The JSON object printed. */
  datatype Payload = Payload(text: string, classes: seq<string>, alt: string, tooltip: string)

  /** Two texts with a slash between them. */
  function Slashed(a: string, b: string): (s: string)
    ensures |s| == |a| + 1 + |b|
    ensures s[..|a|] == a && s[|a|] == '/' && s[|a| + 1..] == b
  {
    a + "/" + b
  }

  /** The object of cmd/weather.go:216-221. */
  function Report(celsius: real, code: int, unitFlag: string): (p: Payload)
    ensures |p.classes| == 2 && p.classes[1] == p.alt
    ensures p.alt != "" <==> code in IconCodes
    ensures p.classes[0] != "" <==> code in ConditionCodes
    ensures |p.tooltip| == |p.text| + 1 + |p.classes[0]|
    ensures p.tooltip[..|p.text|] == p.text && p.tooltip[|p.text|] == '/'
    ensures p.tooltip[|p.text| + 1..] == p.classes[0]
    ensures p.alt == Icon(code) && p.classes == [Condition(code), Icon(code)]
    ensures p.text == TemperatureText(celsius, UnitOf(unitFlag))
  {
    var text := TemperatureText(celsius, UnitOf(unitFlag));
    IconDefined(code);
    ConditionDefined(code);
    Payload(text, [Condition(code), Icon(code)], Icon(code), Slashed(text, Condition(code)))
  }

  /**
   * The printed text is the temperature in the chosen unit followed by the
   * unit's suffix, and its number reads back as that temperature rounded to
   * one decimal.
   */
  lemma ReportTemperature(celsius: real, code: int, unitFlag: string)
    ensures var u := UnitOf(unitFlag);
      && Report(celsius, code, unitFlag).text == NumberText(celsius, u) + Suffix(u)
      && ParseDecimal(NumberText(celsius, u)) == Some(RoundFixed(Convert(celsius, u), 1))
  {
    NumberTextValue(celsius, UnitOf(unitFlag));
  }

  /** Freezing point, Fahrenheit: 0 °C prints as "32.0°F" and reads back as 32. */
  lemma FreezingFahrenheit()
    ensures Convert(0.0, UnitOf("F")) == 32.0
    ensures RoundFixed(32.0, 1) == 32.0
    ensures NumberText(0.0, UnitOf("F")) == "32.0"
    ensures TemperatureText(0.0, UnitOf("F")) == "32.0°F"
  {
    assert ScaledRound(32.0, 1) == 320;
  }
}
