/** The WMO weather interpretation codes (WMO code table 4677, as served by
    Open-Meteo): a fixed label table with an "Unknown" default, and the
    classifier that picks one of seven icon variants for any integer code. */
module WeatherCodes {

  import opened Common

  /** A `{ label, condition }` pair (`label` is a Dafny keyword, hence
      `labelText`). */
  datatype WeatherInfo = WeatherInfo(labelText: string, condition: string)

  const Unknown := WeatherInfo("Unknown", "Unknown conditions")

  const WmoWeatherCodes: map<int, WeatherInfo> := map[
    0 := WeatherInfo("Clear", "Clear sky"),
    1 := WeatherInfo("Mainly Clear", "Mainly clear"),
    2 := WeatherInfo("Partly Cloudy", "Partly cloudy"),
    3 := WeatherInfo("Overcast", "Overcast"),
    45 := WeatherInfo("Foggy", "Foggy"),
    48 := WeatherInfo("Rime Fog", "Depositing rime fog"),
    51 := WeatherInfo("Light Drizzle", "Light drizzle"),
    53 := WeatherInfo("Drizzle", "Moderate drizzle"),
    55 := WeatherInfo("Dense Drizzle", "Dense drizzle"),
    61 := WeatherInfo("Light Rain", "Slight rain"),
    63 := WeatherInfo("Rain", "Moderate rain"),
    65 := WeatherInfo("Heavy Rain", "Heavy rain"),
    66 := WeatherInfo("Freezing Rain", "Light freezing rain"),
    67 := WeatherInfo("Freezing Rain", "Heavy freezing rain"),
    71 := WeatherInfo("Light Snow", "Slight snow"),
    73 := WeatherInfo("Snow", "Moderate snow"),
    75 := WeatherInfo("Heavy Snow", "Heavy snow"),
    77 := WeatherInfo("Snow Grains", "Snow grains"),
    80 := WeatherInfo("Rain Showers", "Slight rain showers"),
    81 := WeatherInfo("Rain Showers", "Moderate rain showers"),
    82 := WeatherInfo("Rain Showers", "Violent rain showers"),
    85 := WeatherInfo("Snow Showers", "Slight snow showers"),
    86 := WeatherInfo("Snow Showers", "Heavy snow showers"),
    95 := WeatherInfo("Thunderstorm", "Thunderstorm"),
    96 := WeatherInfo("Thunderstorm", "Thunderstorm with slight hail"),
    99 := WeatherInfo("Thunderstorm", "Thunderstorm with heavy hail")
  ]

  /** The 26 codes the table lists. */
  const ListedCodes: set<int> :=
    {0, 1, 2, 3, 45, 48, 51, 53, 55, 61, 63, 65, 66, 67, 71, 73, 75, 77, 80, 81, 82, 85, 86, 95, 96, 99}

  lemma ListedCodesAreTheTable()
    ensures WmoWeatherCodes.Keys == ListedCodes
  {
  }

  /** `WMO_WEATHER_CODES[code] ?? Unknown`. */
  function GetWeatherInfo(code: int): (info: WeatherInfo)
    ensures code in WmoWeatherCodes ==> info == WmoWeatherCodes[code]
    ensures code !in ListedCodes ==> info == Unknown
  {
    if code in WmoWeatherCodes then WmoWeatherCodes[code] else Unknown
  }

  /** Only codes outside the table are reported as unknown. */
  lemma UnknownOnlyOutsideTable(code: int)
    ensures GetWeatherInfo(code).labelText == "Unknown" <==> code !in ListedCodes
  {
  }

  datatype IconVariant = Sunny | PartlyCloudy | Cloudy | Rainy | Thunderstorm | Fog | Snow

  /** The variant names the icon component understands. */
  function VariantName(v: IconVariant): string {
    match v
    case Sunny => "sunny"
    case PartlyCloudy => "partly-cloudy"
    case Cloudy => "cloudy"
    case Rainy => "rainy"
    case Thunderstorm => "thunderstorm"
    case Fog => "fog"
    case Snow => "snow"
  }

  /** The keys of `ICON_IMAGES` in the icon component. */
  const IconImageKeys: set<string> :=
    {"sunny", "partly-cloudy", "cloudy", "rainy", "thunderstorm", "fog", "snow"}

  /** The guarded lines of `getWeatherCategory`, tried top to bottom;
      `None` when control reaches the final fallback line. */
  function CategoryRule(code: int): Option<IconVariant> {
    if code <= 1 then Some(Sunny)
    else if code == 2 then Some(PartlyCloudy)
    else if code == 45 || code == 48 then Some(Fog)
    else if code == 3 then Some(Cloudy)
    else if 51 <= code <= 67 then Some(Rainy)
    else if 71 <= code <= 77 then Some(Snow)
    else if 80 <= code <= 82 then Some(Rainy)
    else if 85 <= code <= 86 then Some(Snow)
    else if code >= 95 then Some(Thunderstorm)
    else None
  }

  /** `getWeatherCategory`: total over the integers. */
  function Category(code: int): (v: IconVariant)
    ensures code <= 1 ==> v == Sunny
    ensures (51 <= code <= 67 || 80 <= code <= 82) ==> v == Rainy
    ensures (71 <= code <= 77 || 85 <= code <= 86) ==> v == Snow
    ensures code >= 95 ==> v == Thunderstorm
    ensures code == 2 ==> v == PartlyCloudy
    ensures code == 3 ==> v == Cloudy
    ensures (code == 45 || code == 48) ==> v == Fog
    ensures VariantName(v) in IconImageKeys
  {
    match CategoryRule(code)
    case Some(v) => v
    case None => PartlyCloudy
  }

  /** The codes that reach the fallback line are exactly the gaps between
      the ranges: 4 to 44, 46, 47, 49, 50, 68 to 70, 78, 79, 83, 84, 87 to 94. */
  lemma FallbackCodes(code: int)
    ensures CategoryRule(code).None? <==>
      (4 <= code <= 44 || code == 46 || code == 47 || code == 49 || code == 50
       || 68 <= code <= 70 || code == 78 || code == 79 || code == 83 || code == 84
       || 87 <= code <= 94)
    ensures CategoryRule(code).None? ==> Category(code) == PartlyCloudy
  {
  }

  /** Every code of the table is classified before the fallback line. */
  lemma TableCodesClassifiedByRule(code: int)
    requires code in WmoWeatherCodes
    ensures CategoryRule(code).Some?
  {
  }
}
