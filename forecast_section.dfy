/** The five-day table (`ForecastSection`): it skips today (index 0) and
    shows the next five days of the forecast, each with its weather label
    and its temperatures in the chosen unit. */
module ForecastSection {
  import opened Common
  import opened WeatherCodes
  import opened WeatherConditions
  import opened Utils

  /** A day as the component receives it. */
  datatype ForecastDay = ForecastDay(date: string, weatherCode: int, tempMax: real, tempMin: real)

  datatype TemperatureUnit = Celsius | Fahrenheit

  /** One row of the table. */
  datatype Row = Row(
    date: string,
    weatherCode: int,
    tempMax: real,
    tempMin: real,
    condition: string,
    displayTempMax: real,
    displayTempMin: real)

  function Display(unit: TemperatureUnit, t: real): real {
    if unit == Fahrenheit then CelsiusToFahrenheit(t) else t
  }

  /** `forecast.slice(1, 6)`. */
  function FutureDays(forecast: seq<ForecastDay>): (days: seq<ForecastDay>)
    ensures |days| == if |forecast| <= 1 then 0 else Min(5, |forecast| - 1)
    ensures forall i :: 0 <= i < |days| ==> days[i] == forecast[i + 1]
  {
    forecast[Min(1, |forecast|)..Min(6, |forecast|)]
  }

  /** The table's rows: the condition label comes from `getCondition`, that
      is from the current condition bundle, the language and the cache. */
  function Rows(forecast: seq<ForecastDay>, unit: TemperatureUnit,
                conditions: ConditionMap, langCode: string, cached: map<string, ConditionMap>): (rows: seq<Row>)
    ensures |rows| == if |forecast| <= 1 then 0 else Min(5, |forecast| - 1)
    ensures |rows| <= 5
    ensures forall i :: 0 <= i < |rows| ==>
      && rows[i].date == forecast[i + 1].date
      && rows[i].weatherCode == forecast[i + 1].weatherCode
      && rows[i].tempMax == forecast[i + 1].tempMax
      && rows[i].tempMin == forecast[i + 1].tempMin
      && rows[i].condition == ConditionFor(conditions, langCode, cached, forecast[i + 1].weatherCode).labelText
    ensures unit == Celsius ==> forall i :: 0 <= i < |rows| ==>
      rows[i].displayTempMax == rows[i].tempMax && rows[i].displayTempMin == rows[i].tempMin
    ensures unit == Fahrenheit ==> forall i :: 0 <= i < |rows| ==>
      && rows[i].displayTempMax == CelsiusToFahrenheit(rows[i].tempMax)
      && rows[i].displayTempMin == CelsiusToFahrenheit(rows[i].tempMin)
  {
    var days := FutureDays(forecast);
    seq(|days|, i requires 0 <= i < |days| =>
      Row(days[i].date, days[i].weatherCode, days[i].tempMax, days[i].tempMin,
          ConditionFor(conditions, langCode, cached, days[i].weatherCode).labelText,
          Display(unit, days[i].tempMax), Display(unit, days[i].tempMin)))
  }

  /** Today's entry is never shown: every row comes from a later index, in
      the order of the input. */
  lemma TodayNeverShown(forecast: seq<ForecastDay>, unit: TemperatureUnit,
                        conditions: ConditionMap, langCode: string, cached: map<string, ConditionMap>)
    requires forall i, j :: 0 <= i < j < |forecast| ==> forecast[i].date != forecast[j].date
    ensures var rows := Rows(forecast, unit, conditions, langCode, cached);
      forall i :: 0 <= i < |rows| ==> |forecast| > 0 && rows[i].date != forecast[0].date
  {
  }

  /** A day whose high is not below its low shows that way in either
      unit. */
  lemma DisplayKeepsHighAboveLow(forecast: seq<ForecastDay>, unit: TemperatureUnit,
                                 conditions: ConditionMap, langCode: string, cached: map<string, ConditionMap>)
    requires forall d :: d in forecast ==> d.tempMin <= d.tempMax
    ensures var rows := Rows(forecast, unit, conditions, langCode, cached);
      forall i :: 0 <= i < |rows| ==> rows[i].displayTempMin <= rows[i].displayTempMax
  {
    var rows := Rows(forecast, unit, conditions, langCode, cached);
    forall i | 0 <= i < |rows| ensures rows[i].displayTempMin <= rows[i].displayTempMax {
      assert forecast[i + 1] in forecast;
      if unit == Fahrenheit {
        FahrenheitMonotone(rows[i].tempMin, rows[i].tempMax);
      }
    }
  }
}
