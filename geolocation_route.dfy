/** The forecast-by-coordinate endpoint (`GET /api/geolocation`): check that
    both coordinates are given, reverse-geocode them to a place label, fetch
    the forecast, and shape the reply. Provider replies are parameters. */
module GeolocationRoute {
  import opened Common
  import opened WeatherApi

  /** The `address` object of a reverse-geocoding reply; a field is `None`
      when the provider leaves it out. */
  datatype Address = Address(
    city: Option<string>,
    town: Option<string>,
    village: Option<string>,
    county: Option<string>,
    country: Option<string>)

  datatype ReverseData = ReverseData(address: Option<Address>)

  /** A JavaScript truthiness test on an optional string. */
  predicate Truthy(s: Option<string>) {
    s.Some? && s.value != ""
  }

  /** `a || b || ... || fallback` over optional strings. */
  function FirstTruthy(candidates: seq<Option<string>>, fallback: string): (r: string)
    ensures (forall i :: 0 <= i < |candidates| ==> !Truthy(candidates[i])) ==> r == fallback
    ensures forall i :: 0 <= i < |candidates| && Truthy(candidates[i])
                     && (forall j :: 0 <= j < i ==> !Truthy(candidates[j]))
                     ==> r == candidates[i].value
  {
    if candidates == [] then fallback
    else if Truthy(candidates[0]) then candidates[0].value
    else FirstTruthy(candidates[1..], fallback)
  }

  /** `!lat || !lon`: an absent or empty coordinate. */
  predicate MissingCoords(lat: Option<string>, lon: Option<string>) {
    !Truthy(lat) || !Truthy(lon)
  }

  /** The city part of the label. */
  function LabelCity(reverse: ReverseData): string {
    if reverse.address.None? then "Unknown"
    else
      var a := reverse.address.value;
      FirstTruthy([a.city, a.town, a.village, a.county], "Unknown")
  }

  /** The country part of the label. */
  function LabelCountry(reverse: ReverseData): string {
    if reverse.address.Some? && Truthy(reverse.address.value.country) then reverse.address.value.country.value
    else "Unknown"
  }

  /** The place label: "Unknown" unless the reply carries an address, and
      then the first truthy of city, town, village and county. */
  method PlaceLabel(reverse: ReverseData) returns (city: string, country: string)
    ensures reverse.address.None? ==> city == "Unknown" && country == "Unknown"
    ensures reverse.address.Some? ==>
      var a := reverse.address.value;
      && city == FirstTruthy([a.city, a.town, a.village, a.county], "Unknown")
      && country == (if Truthy(a.country) then a.country.value else "Unknown")
    ensures city != "" && country != ""
    ensures city == LabelCity(reverse) && country == LabelCountry(reverse)
  {
    city := "Unknown";
    country := "Unknown";
    if reverse.address.Some? {
      var a := reverse.address.value;
      city := FirstTruthy([a.city, a.town, a.village, a.county], "Unknown");
      country := if Truthy(a.country) then a.country.value else "Unknown";
    }
  }

  /** The whole route. `reverse` is the reverse-geocoding reply (its status
      is not inspected) and `forecast` the forecast reply. */
  method Get(lat: Option<string>, lon: Option<string>, language: Option<string>,
             reverse: Reply<ReverseData>, forecast: Reply<ForecastResponse>) returns (r: RouteResponse)
    ensures MissingCoords(lat, lon) ==> r == ErrorResponse(400, "invalid", CoordsRequired)
    ensures !MissingCoords(lat, lon) && (reverse.Threw? || (reverse.Http? && reverse.body.None?))
            ==> r == FetchFailedResponse
    ensures !MissingCoords(lat, lon) && (forecast.Threw? || (forecast.Http? && (!forecast.ok || forecast.body.None?)))
            ==> r == FetchFailedResponse
    ensures r.ErrorResponse? ==>
      || (r.status == 400 && r.errorCode == CoordsRequired)
      || (r.status == 500 && r.errorCode == FetchFailed)
    ensures r.WeatherResponse? ==>
      && !MissingCoords(lat, lon)
      && reverse.Http? && reverse.body.Some?
      && forecast.Http? && forecast.ok && forecast.body.Some?
      && r.body.latitude.None? && r.body.longitude.None?
      && r.body.windUnit == "kmh"
      && r.body.city != "" && r.body.country != ""
      && (reverse.body.value.address.None? ==> r.body.city == "Unknown" && r.body.country == "Unknown")
      && r.body.dailyForecast == DailyForecast(forecast.body.value.daily)
    ensures !MissingCoords(lat, lon) && reverse.Http? && reverse.body.Some?
            && forecast.Http? && forecast.ok && forecast.body.Some?
            ==> r == WeatherResponse(BodyFrom(LabelCity(reverse.body.value), LabelCountry(reverse.body.value),
                                              None, None, "kmh", forecast.body.value))
  {
    if MissingCoords(lat, lon) {
      return ErrorResponse(400, "invalid", CoordsRequired);
    }
    if reverse.Threw? || reverse.body.None? {
      return FetchFailedResponse;
    }
    var city, country := PlaceLabel(reverse.body.value);
    if forecast.Threw? || !forecast.ok || forecast.body.None? {
      return FetchFailedResponse;
    }
    r := WeatherResponse(BodyFrom(city, country, None, None, "kmh", forecast.body.value));
  }
}
