/** Records exchanged with the upstream geocoding and forecast providers
    (the shapes of src/types/weather.ts), the JSON bodies the two forecast
    routes answer with, and the 6-day zip both routes apply to the daily
    arrays. */
module WeatherApi {
  import opened Common

  datatype GeocodingResult = GeocodingResult(
    id: int,
    name: string,
    latitude: real,
    longitude: real,
    country: string,
    countryCode: string,
    admin1: Option<string>,
    timezone: string)

  /** The parameters sent to the geocoding provider. */
  datatype GeocodingRequest = GeocodingRequest(name: string, count: int, language: string)

  datatype GeocodingResponse = GeocodingResponse(results: Option<seq<GeocodingResult>>)

  datatype Current = Current(
    time: string,
    temperature: real,
    relativeHumidity: real,
    apparentTemperature: real,
    weatherCode: int,
    windSpeed: real)

  /** The provider's parallel daily arrays; nothing forces them to have
      equal lengths. */
  datatype Daily = Daily(
    time: seq<string>,
    weatherCode: seq<int>,
    temperatureMax: seq<real>,
    temperatureMin: seq<real>)

  datatype ForecastResponse = ForecastResponse(current: Current, daily: Daily)

  /** The outcome of `await fetch(url)` followed by `await res.json()`:
      the fetch itself threw, or it answered with status `ok` and a body
      that parsed (`Some`) or made `json()` throw (`None`). */
  datatype Reply<T> = Threw | Http(ok: bool, body: Option<T>)

  /** `a[i]` in JavaScript: `undefined` past the end. */
  function At<T>(a: seq<T>, i: nat): (r: Option<T>)
    ensures r.Some? <==> i < |a|
    ensures i < |a| ==> r.value == a[i]
  {
    if i < |a| then Some(a[i]) else None
  }

  /** One entry of `dailyForecast`. A field is `None` when the matching
      provider array is shorter than `time` (JSON drops `undefined`). */
  datatype DailyEntry = DailyEntry(
    date: string,
    weatherCode: Option<int>,
    tempMax: Option<real>,
    tempMin: Option<real>)

  /** `dates.map((dateStr, i) => ...)` where `dates` starts at position
      `offset` of `daily.time`. */
  function ZipFrom(dates: seq<string>, daily: Daily, offset: nat): (days: seq<DailyEntry>)
    ensures |days| == |dates|
    ensures forall i :: 0 <= i < |days| ==>
      && days[i].date == dates[i]
      && days[i].weatherCode == At(daily.weatherCode, offset + i)
      && days[i].tempMax == At(daily.temperatureMax, offset + i)
      && days[i].tempMin == At(daily.temperatureMin, offset + i)
  {
    if dates == [] then []
    else
      [DailyEntry(dates[0], At(daily.weatherCode, offset), At(daily.temperatureMax, offset),
                  At(daily.temperatureMin, offset))]
      + ZipFrom(dates[1..], daily, offset + 1)
  }

  /** `daily.time.slice(0, 6).map(...)`: today and the next five days. */
  function DailyForecast(daily: Daily): (days: seq<DailyEntry>)
    ensures |days| == Min(6, |daily.time|)
    ensures forall i :: 0 <= i < |days| ==>
      && days[i].date == daily.time[i]
      && days[i].weatherCode == At(daily.weatherCode, i)
      && days[i].tempMax == At(daily.temperatureMax, i)
      && days[i].tempMin == At(daily.temperatureMin, i)
  {
    ZipFrom(daily.time[..Min(6, |daily.time|)], daily, 0)
  }

  /** With arrays of equal length the zip loses nothing: every field of
      every kept day is present. */
  lemma DailyForecastComplete(daily: Daily)
    requires |daily.weatherCode| == |daily.temperatureMax| == |daily.temperatureMin| == |daily.time|
    requires |daily.time| >= 6
    ensures |DailyForecast(daily)| == 6
    ensures forall e :: e in DailyForecast(daily) ==>
      e.weatherCode.Some? && e.tempMax.Some? && e.tempMin.Some?
  {
    var days := DailyForecast(daily);
    forall e | e in days ensures e.weatherCode.Some? && e.tempMax.Some? && e.tempMin.Some? {
      var i :| 0 <= i < |days| && days[i] == e;
    }
  }

  /** `Math.round` on the reals: the nearest integer, halves rounded up. */
  function Round(x: real): (n: int)
    ensures n as real - 0.5 <= x < n as real + 0.5
  {
    (x + 0.5).Floor
  }

  datatype ErrorCode = CityTooShort | CityNotFound | CoordsRequired | FetchFailed

  /** The `errorCode` string sent to the client. */
  function ErrorCodeName(c: ErrorCode): string {
    match c
    case CityTooShort => "CITY_TOO_SHORT"
    case CityNotFound => "CITY_NOT_FOUND"
    case CoordsRequired => "COORDS_REQUIRED"
    case FetchFailed => "FETCH_FAILED"
  }

  /** The success body of both forecast routes. The coordinate route sends
      no `latitude`/`longitude` (`None`). */
  datatype WeatherBody = WeatherBody(
    city: string,
    country: string,
    latitude: Option<real>,
    longitude: Option<real>,
    temperature: real,
    apparentTemperature: real,
    humidity: real,
    windSpeed: int,
    windUnit: string,
    weatherCode: int,
    dailyForecast: seq<DailyEntry>)

  datatype RouteResponse =
    | ErrorResponse(status: int, error: string, errorCode: ErrorCode)
    | WeatherResponse(body: WeatherBody)

  const FetchFailedResponse := ErrorResponse(500, "fetch_failed", FetchFailed)

  /** The weather fields common to both routes' success bodies. */
  function BodyFrom(city: string, country: string, latitude: Option<real>, longitude: Option<real>,
                    windUnit: string, forecast: ForecastResponse): (b: WeatherBody)
    ensures b.city == city && b.country == country
    ensures b.latitude == latitude && b.longitude == longitude
    ensures b.temperature == forecast.current.temperature
    ensures b.weatherCode == forecast.current.weatherCode
    ensures b.dailyForecast == DailyForecast(forecast.daily)
    ensures b.apparentTemperature == forecast.current.apparentTemperature && b.humidity == forecast.current.relativeHumidity
    ensures b.windSpeed == Round(forecast.current.windSpeed) && b.windUnit == windUnit
  {
    WeatherBody(city, country, latitude, longitude,
                forecast.current.temperature, forecast.current.apparentTemperature,
                forecast.current.relativeHumidity, Round(forecast.current.windSpeed),
                windUnit, forecast.current.weatherCode, DailyForecast(forecast.daily))
  }
}
