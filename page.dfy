/** The home page (`Home`): the search box, the page state machine
    (empty, loading, success, error), the error message shown on failure,
    and what it remembers of the last fetch. Each fetch is split into the
    synchronous part that starts it and the part that runs when its reply
    has arrived; the reply is a parameter. */
module Page {
  import opened Common
  import opened WeatherApi
  import opened Translations
  import opened RecentSearches

  /** The body of a failed reply as the page parses it: `errorCode` is
      `None` when the field is missing. */
  datatype ErrorBody = ErrorBody(errorCode: Option<string>)

  /** The message key chosen for a failed request. */
  function ErrorKey(data: Option<ErrorBody>): (key: string)
    ensures data.None? || data.value.errorCode.None? ==> key == "errorDefault"
    ensures data == Some(ErrorBody(Some("CITY_NOT_FOUND"))) ==> key == "errorCityNotFound"
    ensures data == Some(ErrorBody(Some("FETCH_FAILED"))) ==> key == "errorFetchFailed"
    ensures key != "errorDefault" ==>
      data.Some? && data.value.errorCode.Some? && data.value.errorCode.value in {"CITY_NOT_FOUND", "FETCH_FAILED"}
  {
    if data.None? || data.value.errorCode.None? || data.value.errorCode.value == "" then "errorDefault"
    else if data.value.errorCode.value == "CITY_NOT_FOUND" then "errorCityNotFound"
    else if data.value.errorCode.value == "FETCH_FAILED" then "errorFetchFailed"
    else "errorDefault"
  }

  /** `getErrorMessage(data, t)`. */
  function ErrorMessage(data: Option<ErrorBody>, translations: Bundle, enFallback: Bundle): string {
    Translate(translations, enFallback, ErrorKey(data))
  }

  /** What the page shows for each error the two forecast routes answer:
      a too-short city and missing coordinates fall to the generic
      message. */
  lemma RouteErrorsToMessageKeys(c: ErrorCode)
    ensures ErrorKey(Some(ErrorBody(Some(ErrorCodeName(c))))) ==
      match c
      case CityNotFound => "errorCityNotFound"
      case FetchFailed => "errorFetchFailed"
      case CityTooShort => "errorDefault"
      case CoordsRequired => "errorDefault"
  {
  }

  datatype AppState = Empty | Loading | Success | Error

  /** `lastFetchedRef.current`. */
  datatype LastFetched = CityFetch(city: string) | Geo | Coordinates(lat: real, lon: real)

  /** The outcome of `await fetch(...)` and `await res.json()` as the page
      sees it: something threw (with its `Error` message, `None` when what
      was thrown is not an `Error`), a non-ok reply (with its parsed body,
      `None` when it does not parse, which the page treats as `{}`), or an
      ok reply with its body. */
  datatype PageReply = Rejected(message: Option<string>) | NotOk(body: Option<ErrorBody>) | Ok(data: WeatherBody)

  /** The place a successful city fetch records, if its body carries both
      coordinates. */
  function RecentFrom(data: WeatherBody): (r: Option<RecentSearch>)
    ensures r.Some? <==> data.latitude.Some? && data.longitude.Some?
    ensures r.Some? ==> r.value.name == data.city && r.value.country == data.country
    ensures r.Some? ==> r.value.lat == data.latitude.value && r.value.lon == data.longitude.value
  {
    if data.latitude.Some? && data.longitude.Some? then
      Some(RecentSearch(data.city, data.country, data.latitude.value, data.longitude.value))
    else None
  }

  class Home {
    var searchQuery: string
    var weatherData: Option<WeatherBody>
    var state: AppState
    var errorMessage: Option<string>
    var lastFetched: Option<LastFetched>
    const strings: TranslationsHook
    const recent: RecentSearchStore

    /** The page's invariant: an error message is shown exactly in the
        error state, data is present on success and absent on error. */
    predicate Valid()
      reads this
    {
      && (errorMessage.Some? <==> state == Error)
      && (state == Success ==> weatherData.Some?)
      && (state == Error ==> weatherData.None?)
    }

    constructor (strings: TranslationsHook, recent: RecentSearchStore)
      ensures Valid()
      ensures this.strings == strings && this.recent == recent
      ensures searchQuery == "" && state == Empty && weatherData.None?
      ensures lastFetched.None?
    {
      this.strings := strings;
      this.recent := recent;
      searchQuery := "";
      weatherData := None;
      state := Empty;
      errorMessage := None;
      lastFetched := None;
    }

    /** `t(key)`. */
    function T(key: string): string
      reads strings
    {
      strings.T(key)
    }

    /** The message shown when a request fails. */
    function FailureMessage(reply: PageReply): string
      requires !reply.Ok?
      reads strings
    {
      match reply
      case Rejected(message) => if message.Some? then message.value else T("errorDefault")
      case NotOk(body) => ErrorMessage(body, strings.translations, strings.enFallback)
    }

    /** The synchronous start of `fetchWeather(city)`: nothing happens for a
        blank city; otherwise the page shows the spinner and clears the
        message. `sent` is the city sent to `/api/weather`. */
    method FetchWeather(city: string) returns (sent: Option<string>)
      requires Valid()
      modifies this
      ensures Valid()
      ensures Trim(city) == "" ==> sent.None? && state == old(state) && errorMessage == old(errorMessage)
      ensures Trim(city) != "" ==> sent == Some(city) && state == Loading && errorMessage.None?
      ensures weatherData == old(weatherData) && searchQuery == old(searchQuery) && lastFetched == old(lastFetched)
    {
      if Trim(city) == "" {
        return None;
      }
      state := Loading;
      errorMessage := None;
      sent := Some(city);
    }

    /** The rest of `fetchWeather`, once the reply is known: on success the
        data is shown and, when it carries coordinates, the place is added
        to the recent searches; on failure the error state with its
        message. `writeOk` is whether the storage write succeeds. */
    method CityFetchSettled(reply: PageReply, writeOk: bool)
      requires Valid()
      modifies this, recent
      ensures Valid()
      ensures reply.Ok? ==> state == Success && weatherData == Some(reply.data)
      ensures !reply.Ok? ==> state == Error && weatherData.None? && errorMessage == Some(FailureMessage(reply))
      ensures reply.Ok? && RecentFrom(reply.data).Some? ==>
        recent.items == AddTo(ReadFromStorage(old(recent.storage), recent.available, recent.lang),
                              RecentFrom(reply.data).value)
      ensures reply.Ok? && RecentFrom(reply.data).Some? ==>
        recent.storage == if recent.available && writeOk
                          then old(recent.storage)[StorageKey(recent.lang) := JsonText(Encode(recent.items))]
                          else old(recent.storage)
      ensures !(reply.Ok? && RecentFrom(reply.data).Some?) ==>
        recent.items == old(recent.items) && recent.storage == old(recent.storage)
      ensures recent.lang == old(recent.lang)
      ensures searchQuery == old(searchQuery) && lastFetched == old(lastFetched)
    {
      if !reply.Ok? {
        state := Error;
        errorMessage := Some(FailureMessage(reply));
        weatherData := None;
        return;
      }
      weatherData := Some(reply.data);
      state := Success;
      errorMessage := None;
      var item := RecentFrom(reply.data);
      if item.Some? {
        var _ := recent.Add(item.value, writeOk);
      }
    }

    /** The synchronous start of `fetchByCoordinates(lat, lon)`. */
    method FetchByCoordinates(lat: real, lon: real)
      requires Valid()
      modifies this
      ensures Valid()
      ensures state == Loading && errorMessage.None?
      ensures weatherData == old(weatherData) && searchQuery == old(searchQuery) && lastFetched == old(lastFetched)
    {
      state := Loading;
      errorMessage := None;
    }

    /** The rest of `fetchByCoordinates`: on success the coordinates become
        the last fetch. */
    method CoordinatesFetchSettled(lat: real, lon: real, reply: PageReply)
      requires Valid()
      modifies this
      ensures Valid()
      ensures reply.Ok? ==> state == Success && weatherData == Some(reply.data)
                            && lastFetched == Some(Coordinates(lat, lon))
      ensures !reply.Ok? ==> state == Error && weatherData.None? && errorMessage == Some(FailureMessage(reply))
                             && lastFetched == old(lastFetched)
      ensures searchQuery == old(searchQuery)
    {
      if !reply.Ok? {
        state := Error;
        errorMessage := Some(FailureMessage(reply));
        weatherData := None;
        return;
      }
      weatherData := Some(reply.data);
      state := Success;
      errorMessage := None;
      lastFetched := Some(Coordinates(lat, lon));
    }

    /** `handleSearch`: nothing for a blank query; otherwise remember and
        fetch the trimmed city, and clear the search box. */
    method HandleSearch() returns (sent: Option<string>)
      requires Valid()
      modifies this
      ensures Valid()
      ensures Trim(old(searchQuery)) == "" ==>
        sent.None? && searchQuery == old(searchQuery) && lastFetched == old(lastFetched)
        && state == old(state) && weatherData == old(weatherData) && errorMessage == old(errorMessage)
      ensures Trim(old(searchQuery)) != "" ==>
        && sent == Some(Trim(old(searchQuery)))
        && lastFetched == Some(CityFetch(Trim(old(searchQuery))))
        && searchQuery == "" && state == Loading
        && errorMessage.None? && weatherData == old(weatherData)
    {
      var query := Trim(searchQuery);
      if query == "" {
        return None;
      }
      TrimKeepsNonSpaceStart(query);
      lastFetched := Some(CityFetch(query));
      sent := FetchWeather(query);
      searchQuery := "";
    }

    /** `handleSelectSuggestion(city)`: remember and fetch the chosen
        display string, and clear the search box. */
    method HandleSelectSuggestion(city: string) returns (sent: Option<string>)
      requires Valid()
      modifies this
      ensures Valid()
      ensures lastFetched == Some(CityFetch(city)) && searchQuery == ""
      ensures sent == (if Trim(city) == "" then None else Some(city))
      ensures Trim(city) != "" ==> state == Loading && errorMessage.None?
      ensures Trim(city) == "" ==> state == old(state) && errorMessage == old(errorMessage)
      ensures weatherData == old(weatherData)
    {
      lastFetched := Some(CityFetch(city));
      sent := FetchWeather(city);
      searchQuery := "";
    }

    /** `handleSelectRecentSearch(item)`: move the place to the front of
        the recent searches, fetch by its coordinates, clear the box. */
    method HandleSelectRecentSearch(item: RecentSearch, writeOk: bool)
      requires Valid()
      modifies this, recent
      ensures Valid()
      ensures recent.items == AddTo(ReadFromStorage(old(recent.storage), recent.available, old(recent.lang)), item)
      ensures recent.lang == old(recent.lang)
      ensures recent.storage == if recent.available && writeOk
                                then old(recent.storage)[StorageKey(recent.lang) := JsonText(Encode(recent.items))]
                                else old(recent.storage)
      ensures state == Loading && errorMessage.None? && searchQuery == "" && lastFetched == old(lastFetched)
      ensures weatherData == old(weatherData)
    {
      var _ := recent.Add(item, writeOk);
      FetchByCoordinates(item.lat, item.lon);
      searchQuery := "";
    }
  }
}
