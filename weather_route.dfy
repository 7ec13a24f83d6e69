/** The forecast-by-name endpoint (`GET /api/weather`): validate the city,
    resolve it with the geocoding provider, fetch the forecast for the
    first result, and shape the reply. The two provider replies are
    parameters; each stands for the answer to the request this module says
    is sent. */
module WeatherRoute {
  import opened Common
  import opened WeatherApi

  /** `!city || city.length < 2`: the raw, untrimmed length is checked. */
  predicate TooShort(city: Option<string>) {
    city.None? || |city.value| < 2
  }

  /** The geocoding request the route issues, or `None` when validation
      answers before any provider is contacted. */
  function GeocodingRequestFor(city: Option<string>, language: Option<string>): (q: Option<GeocodingRequest>)
    ensures q.None? <==> TooShort(city)
    ensures q.Some? ==> q.value.name == city.value && q.value.count == 5
    ensures q.Some? ==> q.value.language == RequestLanguage(language)
  {
    if TooShort(city) then None else Some(GeocodingRequest(city.value, 5, RequestLanguage(language)))
  }

  /** The whole route, from query parameters and provider replies to the
      JSON answer and its status. */
  function Get(city: Option<string>, language: Option<string>,
               geocoding: Reply<GeocodingResponse>, forecast: Reply<ForecastResponse>): (r: RouteResponse)
    ensures TooShort(city) ==> r == ErrorResponse(400, "invalid", CityTooShort)
    ensures !TooShort(city) && geocoding.Http? && geocoding.body.Some?
            && (geocoding.body.value.results.None? || geocoding.body.value.results.value == [])
            ==> r == ErrorResponse(404, "not_found", CityNotFound)
    ensures !TooShort(city) && (geocoding.Threw? || (geocoding.Http? && geocoding.body.None?))
            ==> r == FetchFailedResponse
    ensures r.ErrorResponse? ==>
      || (r.status == 400 && r.errorCode == CityTooShort)
      || (r.status == 404 && r.errorCode == CityNotFound)
      || (r.status == 500 && r.errorCode == FetchFailed)
    ensures r.WeatherResponse? ==>
      && geocoding.Http? && geocoding.body.Some? && geocoding.body.value.results.Some?
      && |geocoding.body.value.results.value| > 0
      && forecast.Http? && forecast.ok && forecast.body.Some?
      && var location := geocoding.body.value.results.value[0];
      && r.body.city == location.name && r.body.country == location.country
      && r.body.latitude == Some(location.latitude) && r.body.longitude == Some(location.longitude)
      && r.body.windUnit == "km/h"
      && |r.body.dailyForecast| == Min(6, |forecast.body.value.daily.time|)
    ensures !TooShort(city) && geocoding.Http? && geocoding.body.Some?
            && geocoding.body.value.results.Some? && geocoding.body.value.results.value != []
            ==> r == (if forecast.Http? && forecast.ok && forecast.body.Some?
                      then WeatherResponse(BodyFrom(geocoding.body.value.results.value[0].name,
                                                    geocoding.body.value.results.value[0].country,
                                                    Some(geocoding.body.value.results.value[0].latitude),
                                                    Some(geocoding.body.value.results.value[0].longitude),
                                                    "km/h", forecast.body.value))
                      else FetchFailedResponse)
  {
    if TooShort(city) then
      ErrorResponse(400, "invalid", CityTooShort)
    else
      match geocoding
      case Threw => FetchFailedResponse
      case Http(_, body) =>
        if body.None? then FetchFailedResponse
        else if body.value.results.None? || body.value.results.value == [] then
          ErrorResponse(404, "not_found", CityNotFound)
        else
          var location := body.value.results.value[0];
          match forecast
          case Threw => FetchFailedResponse
          case Http(ok, data) =>
            if !ok || data.None? then FetchFailedResponse
            else
              WeatherResponse(BodyFrom(location.name, location.country, Some(location.latitude),
                                       Some(location.longitude), "km/h", data.value))
  }

  /** Validation happens before any provider call: when the city is too
      short the replies cannot influence the answer. */
  lemma TooShortIgnoresProviders(city: Option<string>, language: Option<string>,
                                 g1: Reply<GeocodingResponse>, f1: Reply<ForecastResponse>,
                                 g2: Reply<GeocodingResponse>, f2: Reply<ForecastResponse>)
    requires TooShort(city)
    ensures Get(city, language, g1, f1) == Get(city, language, g2, f2)
  {
  }

  /** A place the geocoder does not know is reported before the forecast
      provider is asked. */
  lemma NotFoundIgnoresForecast(city: Option<string>, language: Option<string>,
                                g: GeocodingResponse, ok: bool,
                                f1: Reply<ForecastResponse>, f2: Reply<ForecastResponse>)
    requires !TooShort(city)
    requires g.results.None? || g.results.value == []
    ensures Get(city, language, Http(ok, Some(g)), f1) == Get(city, language, Http(ok, Some(g)), f2)
    ensures Get(city, language, Http(ok, Some(g)), f1).errorCode == CityNotFound
  {
  }

  /** A forecast reply that is not `ok` is a `FETCH_FAILED` whatever it holds. */
  lemma ForecastNotOkFails(city: Option<string>, language: Option<string>,
                           g: GeocodingResponse, gok: bool, body: Option<ForecastResponse>)
    requires !TooShort(city)
    requires g.results.Some? && g.results.value != []
    ensures Get(city, language, Http(gok, Some(g)), Http(false, body)) == FetchFailedResponse
  {
  }
}
