# Weather front end: a Dafny model of its data-shaping core

This project models the deterministic logic of a Next.js weather application.
The application has three API routes:

- `GET /api/weather` resolves a city name and returns the forecast for it.
- `GET /api/geolocation` returns the forecast for a pair of coordinates.
- `GET /api/geocode` returns suggestions for a search box.

Around those routes sit the client's pieces:

- the home page's state machine (empty, loading, success, error);
- the recent-search store, which keeps one list per language in local storage;
- the language context;
- the lazily loaded, cached translation and weather-condition bundles;
- the WMO weather-code table and icon classifier;
- the search box's highlighting and visibility rules;
- the five-day forecast table;
- the `cn` class joiner.

Network replies, the contents of local storage and the locale files are inputs
of the model: a reply is a parameter, storage is a map field, and a dynamic import
of `<lang>.json` is a partial map from language to bundle. Callbacks that run
in several steps (a fetch, then its reply) are split into one method that
starts the step and one that settles it with the reply as a parameter.

There is one module per source file:

- `Common` holds JavaScript's `trim`, `toLowerCase`, `includes` and `join`, and decimal rendering.
- `WeatherApi` holds the records of `src/types/weather.ts` and the six-day zip that both forecast routes share.
- `BundleCache` is the loader both hooks use.

State the source keeps in objects (the bundle caches, the recent-search store,
the page, the search box, the language provider) is modelled as classes. Each
method's `ensures` ties its new state to a function of the old state. The
properties are then proved about those functions.

`isRtl` (src/contexts/LanguageContext.tsx:80) is the predicate
`LanguageContext.IsRtl` applied to `LanguageProvider.Current()`.

## Model

| member | source | states |
|---|---|---|
| Common.TrimIsBlankFramedSlice | src/app/api/geocode/route.ts:17 | `trim` returns a slice of its input with only whitespace cut from either end |
| Common.TrimEmptyIffBlank | src/app/page.tsx:57 | the trimmed string is empty exactly when the input is all whitespace, which is the falsy test on `city.trim()` |
| Common.Lower | src/app/api/geocode/route.ts:19 | lower-casing keeps the length and maps every character |
| Common.Contains | src/app/api/geocode/route.ts:26 | `includes` holds exactly when the substring occurs at some position |
| Common.RequestLanguage | src/app/api/weather/route.ts:13 | the `language` parameter lower-cased, or "en" when it is absent or empty; never empty |
| Common.IntToStringInjective | src/hooks/useWeatherConditions.ts:40 | `String(n)` is injective on integers, so distinct codes never share a lookup key |
| Common.JoinAppend | src/lib/utils.ts:2 | joining two non-empty lists puts exactly one separator between their joins |
| WeatherApi.At | src/app/api/weather/route.ts:60-62 | indexing answers a value exactly when the index is in range |
| WeatherApi.ZipFrom | src/app/api/weather/route.ts:58-63 | entry i pairs the i-th date with the values at the same index of the other arrays |
| WeatherApi.DailyForecast | src/app/api/weather/route.ts:58-63 | `min(6, |time|)` entries; entry i pairs `time[i]` with `weather_code[i]`, `temperature_2m_max[i]`, `temperature_2m_min[i]` |
| WeatherApi.DailyForecastComplete | src/app/api/geolocation/route.ts:53-58 | with arrays of equal length (at least 6), all six entries have every field |
| WeatherApi.Round | src/app/api/weather/route.ts:75 | `Math.round` gives the integer within one half of the value |
| WeatherApi.BodyFrom | src/app/api/weather/route.ts:65-80 | every field of the success body: the place and coordinates given, the current readings, the wind speed rounded, the wind unit given, and the six-day zip |
| WeatherRoute.GeocodingRequestFor | src/app/api/weather/route.ts:13-28 | a request with count 5 and the normalised language, exactly when the raw city has length at least 2 |
| WeatherRoute.Get | src/app/api/weather/route.ts:10-88 | 400 `CITY_TOO_SHORT`, 404 `CITY_NOT_FOUND` for an empty or absent result list, 500 `FETCH_FAILED` for any failure; once the city resolves, the answer is exactly the body built from the first result's name, country and coordinates, unit "km/h" and the forecast when the forecast reply is ok and parses, and `FETCH_FAILED` otherwise |
| WeatherRoute.TooShortIgnoresProviders | src/app/api/weather/route.ts:15-20 | validation answers before any provider reply can matter |
| WeatherRoute.NotFoundIgnoresForecast | src/app/api/weather/route.ts:32-37 | an empty geocoding answer gives `CITY_NOT_FOUND` whatever the forecast reply |
| WeatherRoute.ForecastNotOkFails | src/app/api/weather/route.ts:49-51 | a non-ok forecast reply is a `FETCH_FAILED` |
| GeolocationRoute.FirstTruthy | src/app/api/geolocation/route.ts:36 | the first truthy candidate, or the fallback when none is truthy |
| GeolocationRoute.PlaceLabel | src/app/api/geolocation/route.ts:31-38 | "Unknown"/"Unknown" without an address; otherwise the first truthy of city, town, village, county and the truthy country, each defaulting to "Unknown"; never empty; equal to `LabelCity` and `LabelCountry` |
| GeolocationRoute.Get | src/app/api/geolocation/route.ts:6-78 | 400 `COORDS_REQUIRED` for a missing or empty coordinate, 500 `FETCH_FAILED` for any failure; with both coordinates, a parsed reverse reply and an ok, parsed forecast the answer is exactly the body built from the place label, no coordinates, unit "kmh" and the forecast |
| WeatherCodes.ListedCodesAreTheTable | src/lib/weather-codes.tsx:7-32 | the table holds exactly the 26 listed codes |
| WeatherCodes.GetWeatherInfo | src/lib/weather-codes.tsx:35-42 | the table entry for a listed code, `Unknown` otherwise |
| WeatherCodes.UnknownOnlyOutsideTable | src/lib/weather-codes.tsx:35-42 | the label is "Unknown" exactly for codes outside the table |
| WeatherCodes.Category | src/lib/weather-codes.tsx:44-55 | sunny for every code up to 1, rainy for 51–67 and 80–82, snow for 71–77 and 85–86, thunderstorm from 95, partly-cloudy for 2, cloudy for 3, fog for 45/48; every result is an `ICON_IMAGES` key |
| WeatherCodes.FallbackCodes | src/lib/weather-codes.tsx:54 | the codes that reach the fallback line are exactly the gaps between the ranges, and they get partly-cloudy |
| WeatherCodes.TableCodesClassifiedByRule | src/lib/weather-codes.tsx:44-53 | every code in the table is classified before the fallback line |
| BundleCache.CacheHitSkipsLoader | src/hooks/useTranslations.ts:11-12 | a cached language is answered from the cache whatever the files hold |
| BundleCache.LoadOnlyGrows | src/hooks/useTranslations.ts:15-18 | no cache entry is removed or replaced; a new entry is the requested language's or English's own file |
| BundleCache.FailedLoadFallsBack | src/hooks/useTranslations.ts:19-24 | a failed language is never cached; a non-English failure returns the English load; a failed English load returns `{}` with the cache unchanged |
| BundleCache.LoadIsTransparent | src/hooks/useTranslations.ts:10-25 | with a cache that agrees with the files, a load returns the language's file, else the English file, else `{}`, and the cache still agrees afterwards |
| BundleCache.Cache.constructor | src/hooks/useTranslations.ts:8 | the cache starts empty |
| BundleCache.Cache.Load | src/hooks/useWeatherConditions.ts:14-29 | the returned bundle and the new cache are those of the loader function |
| Translations.Translate | src/hooks/useTranslations.ts:43 | the current bundle's value, else the English bundle's, else the key |
| Translations.TranslateMatchesReference | src/hooks/useTranslations.ts:32-43 | after the effect, `t(key)` is the language's string, else the English string, else the key, whatever the cache held |
| Translations.MissingKeyShowsEnglish | src/hooks/useTranslations.ts:34-35 | a key missing from the language's file shows the English string |
| Translations.EnglishHasNoSecondBundle | src/hooks/useTranslations.ts:36-38 | for "en" the fallback bundle is `{}`, so `t(key)` is the bundle's value or the key |
| Translations.TranslationsHook.constructor | src/hooks/useTranslations.ts:29-30 | both bundles start empty |
| Translations.TranslationsHook.OnLanguage | src/hooks/useTranslations.ts:32-39 | the current bundle is loaded first, then the English one for another language; the cache ends as the two loads leave it |
| WeatherConditions.ConditionKeysDistinct | src/hooks/useWeatherConditions.ts:40 | distinct codes are looked up under distinct keys |
| WeatherConditions.ConditionFor | src/hooks/useWeatherConditions.ts:38-51 | the current map's entry; else, for a non-English language, the entry of an already cached English map; else `Unknown` |
| WeatherConditions.EnglishIgnoresCache | src/hooks/useWeatherConditions.ts:43 | for "en" the cached-English branch is never taken |
| WeatherConditions.UncachedEnglishNotConsulted | src/hooks/useWeatherConditions.ts:43-47 | English is consulted only when it is already cached; the lookup never loads |
| WeatherConditions.FailedLanguageShowsEnglish | src/hooks/useWeatherConditions.ts:14-29 | when the language's file fails, its codes read from the English file |
| WeatherConditions.ConditionsHook.constructor | src/hooks/useWeatherConditions.ts:32 | the conditions start empty |
| WeatherConditions.ConditionsHook.OnLanguage | src/hooks/useWeatherConditions.ts:34-36 | the conditions and the cache are the loader's result for the new language |
| Geocode.FirstMatch | src/app/api/geocode/route.ts:20-31 | no code exactly when no country has a matching name |
| Geocode.FirstMatchIsFirst | src/app/api/geocode/route.ts:20-31 | the answer is the first matching country in dataset order |
| Geocode.BlankQueryMatchesNothing | src/app/api/geocode/route.ts:17-18 | an empty or whitespace-only query matches no country |
| Geocode.BlankNamesNeverMatch | src/app/api/geocode/route.ts:23-25 | missing, non-string or blank names never match |
| Geocode.NameHit | src/app/api/geocode/route.ts:23-26 | the per-name test: trimmed, lower-cased, equal, containing or contained |
| Geocode.CountryHit | src/app/api/geocode/route.ts:21-29 | the inner loop answers whether some name of the country matches |
| Geocode.FirstMatchingCountry | src/app/api/geocode/route.ts:20-31 | the outer loop returns the first matching country's code |
| Geocode.FindMatchingCountry | src/app/api/geocode/route.ts:16-32 | `findMatchingCountry` agrees with its specification function |
| Geocode.Lookup | src/app/api/geocode/route.ts:35 | the dataset entry with that code, or none when no entry has it |
| Geocode.LookupIsFirst | src/app/api/geocode/route.ts:35 | the entry answered is the first one with the code |
| Geocode.Field | src/app/api/geocode/route.ts:37-38 | the value stored under a language key, none when the key is absent |
| Geocode.CapitalFor | src/app/api/geocode/route.ts:34-41 | a capital only for a known code with both maps; both names non-empty and localised with English fallback |
| Geocode.CapitalLanguageFallback | src/app/api/geocode/route.ts:36-39 | none without the `capital` or `names` map; otherwise the language's name, else the English one, for each of the two |
| Geocode.EmptyLocalizedCapitalHidesEnglish | src/app/api/geocode/route.ts:37-39 | `??` keeps an empty localised capital, which then yields no capital |
| Geocode.Projected | src/app/api/geocode/route.ts:65 | each provider result reduced to its name and country, in order |
| Geocode.DedupShape | src/app/api/geocode/route.ts:57-65 | the kept keys are all keys not yet seen, no key twice, in input order |
| Geocode.DedupKeepsFirstOccurrences | src/app/api/geocode/route.ts:59-63 | the first occurrence of every unseen key is kept |
| Geocode.Dedupe | src/app/api/geocode/route.ts:57-65 | the filter loop returns the deduplicated list and the set of all keys |
| Geocode.MergeResults | src/app/api/geocode/route.ts:70-85 | the push loop with its break, then the slice, equals the capital-first merge |
| Geocode.MergeShape | src/app/api/geocode/route.ts:72-85 | at most 8; a new capital comes first; without one the list is the provider list cut to 8 |
| Geocode.MergeDistinct | src/app/api/geocode/route.ts:72-83 | no two merged suggestions share a key |
| Geocode.MergeOfProvided | src/app/api/geocode/route.ts:72-85 | merging a capital with the deduplicated provider results gives at most 8 entries, none twice, each a provider result or the new capital at index 0 |
| Geocode.ValidQuery | src/app/api/geocode/route.ts:44-47 | the trimmed query, or none when it is absent or shorter than 2 |
| Geocode.SuggestRequest | src/app/api/geocode/route.ts:44-55 | a provider request with count 8 exactly for a valid query |
| Geocode.EmptyAnswers | src/app/api/geocode/route.ts:47-49 | a short query, a failed fetch or an unparsable body answers `[]` |
| Geocode.SuggestionsShape | src/app/api/geocode/route.ts:57-87 | at most 8 suggestions, none twice, each either a provider result or the capital absent from them at index 0 |
| Geocode.SubsequenceMembers | src/app/api/geocode/route.ts:57-65 | every kept result is a provider result |
| Geocode.Get | src/app/api/geocode/route.ts:43-92 | the route's answer equals the specification `Suggestions` |
| RecentSearches.StorageKey | src/hooks/useRecentSearches.ts:14-16 | the key starts with `recentSearches_` and the rest is the language |
| RecentSearches.StorageKeyInjective | src/hooks/useRecentSearches.ts:14-16 | distinct languages use distinct slots |
| RecentSearches.KeepWellFormed | src/hooks/useRecentSearches.ts:24-32 | every well-formed entry (string name/country, number lat/lon) is kept, decoded, and only those; nothing is dropped when all are well-formed |
| RecentSearches.KeepWellFormedOne | src/hooks/useRecentSearches.ts:24-32 | one entry gives its decoding when well-formed and nothing otherwise |
| RecentSearches.KeepWellFormedAppend | src/hooks/useRecentSearches.ts:24-32 | the filter distributes over concatenation, so it keeps stored order and repetitions |
| RecentSearches.ReadFromStorage | src/hooks/useRecentSearches.ts:18-36 | `[]` for no storage, a missing or empty slot, unparsable text or a non-array; for a stored array, exactly `KeepWellFormed` of its items |
| RecentSearches.EncodeOne | src/hooks/useRecentSearches.ts:41 | a stringified entry reads back as itself |
| RecentSearches.Encode | src/hooks/useRecentSearches.ts:41 | a list is stored as an array of its encoded entries, in order |
| RecentSearches.KeepWellFormedOfEncoded | src/hooks/useRecentSearches.ts:22-32 | the shape filter keeps every encoded entry |
| RecentSearches.ReadAfterWrite | src/hooks/useRecentSearches.ts:38-46 | reading a slot after writing a list returns that list |
| RecentSearches.WriteLeavesOtherLanguages | src/hooks/useRecentSearches.ts:41 | writing one language's slot leaves every other language's list unchanged |
| RecentSearches.WithoutPlace | src/hooks/useRecentSearches.ts:57-59 | exactly the entries naming another place, in order; shorter when the place was present |
| RecentSearches.WithoutPlaceCounts | src/hooks/useRecentSearches.ts:57-59 | each entry of another place keeps its number of copies and no copy of the place is left |
| RecentSearches.WithoutPlaceOne | src/hooks/useRecentSearches.ts:57-59 | one entry survives exactly when it is another place |
| RecentSearches.WithoutPlaceAppend | src/hooks/useRecentSearches.ts:57-59 | the filter distributes over concatenation |
| RecentSearches.AddShape | src/hooks/useRecentSearches.ts:55-60 | the new item first, at most 5, no other entry naming its place, the rest in their previous order |
| RecentSearches.SubsequencePrefix | src/hooks/useRecentSearches.ts:60 | the slice to 5 keeps the relative order |
| RecentSearches.ReAddDoesNotGrow | src/hooks/useRecentSearches.ts:57-60 | re-adding a present place does not lengthen the list |
| RecentSearches.AddLength | src/hooks/useRecentSearches.ts:5 | the length is `min(5, 1 + |others|)` |
| RecentSearches.AddKeepsPlacesDistinct | src/hooks/useRecentSearches.ts:57-60 | a list naming each place once still does after `add` |
| RecentSearches.DistinctSubsequence | src/hooks/useRecentSearches.ts:57-59 | filtering keeps places distinct |
| RecentSearches.SubsequenceFrom | src/hooks/useRecentSearches.ts:57-59 | filtered entries come from the list read |
| RecentSearches.RecentSearchStore.constructor | src/hooks/useRecentSearches.ts:49 | the list starts empty |
| RecentSearches.RecentSearchStore.SwitchLanguage | src/hooks/useRecentSearches.ts:51-53 | a language change loads that language's slot |
| RecentSearches.RecentSearchStore.WriteToStorage | src/hooks/useRecentSearches.ts:38-46 | the slot is written when storage works; a failed write changes nothing and is swallowed |
| RecentSearches.RecentSearchStore.Add | src/hooks/useRecentSearches.ts:55-64 | reads the slot, returns and sets the added list even when the write fails, reads it back after a write, and leaves other languages alone |
| Page.ErrorKey | src/app/page.tsx:34-39 | "errorDefault" without data, `errorCode` or a known code; "errorCityNotFound" and "errorFetchFailed" for the two known codes |
| Page.RouteErrorsToMessageKeys | src/app/page.tsx:36-38 | the message key for each error code the two forecast routes send |
| Page.RecentFrom | src/app/page.tsx:75-82 | a recent entry exactly when both coordinates are present, with the body's city, country, latitude and longitude |
| Page.Home.constructor | src/app/page.tsx:44-49 | empty query, state "empty", no data, no last fetch |
| Page.Home.FetchWeather | src/app/page.tsx:55-61 | a blank city changes nothing; otherwise loading with the message cleared |
| Page.Home.CityFetchSettled | src/app/page.tsx:62-87 | success shows the data and adds a recent search when it has coordinates, writing the language's slot when storage works; failure shows the error state with its message and no data |
| Page.Home.FetchByCoordinates | src/app/page.tsx:92-96 | loading with the message cleared |
| Page.Home.CoordinatesFetchSettled | src/app/page.tsx:97-115 | success records the coordinates as the last fetch; failure shows the error state |
| Page.Home.HandleSearch | src/app/page.tsx:174-180 | a blank query changes nothing; otherwise the trimmed query is fetched and recorded, the page is loading with no message and the old data, and the box is cleared |
| Page.Home.HandleSelectSuggestion | src/app/page.tsx:182-186 | the city is recorded and the box is cleared; a non-blank city is fetched and the page is loading with no message, a blank one leaves state and message alone; the data is kept |
| Page.Home.HandleSelectRecentSearch | src/app/page.tsx:188-192 | the place moves to the front of the recent list and the slot is written when storage works; loading with no message and the old data; the box is cleared |
| SearchBar.Escape | src/components/SearchBar.tsx:12 | escaping never shortens the query |
| SearchBar.EscapeIsLiteral | src/components/SearchBar.tsx:12-13 | the escaped pattern matches exactly the query as a literal |
| SearchBar.FindFrom | src/components/SearchBar.tsx:13-14 | the leftmost case-insensitive match at or after a position |
| SearchBar.SplitCI | src/components/SearchBar.tsx:14 | splitting on a capturing pattern yields an odd number of parts |
| SearchBar.SplitConcat | src/components/SearchBar.tsx:14 | the parts concatenate back to the text |
| SearchBar.SplitOddPartsMatch | src/components/SearchBar.tsx:13-18 | every odd-index part equals the query up to case |
| SearchBar.SplitEvenPartsClean | src/components/SearchBar.tsx:13-14 | no even-index part contains a match |
| SearchBar.NoMatchBefore | src/components/SearchBar.tsx:13-14 | the text before the leftmost match holds no match |
| SearchBar.Highlight | src/components/SearchBar.tsx:8-27 | nothing for a missing text, the text alone for a blank query, otherwise marked parts exactly at odd indices |
| SearchBar.HighlightFaithful | src/components/SearchBar.tsx:8-27 | the rendered parts spell the text; marked parts are the query up to case; plain parts hold no match |
| SearchBar.DisplayString | src/components/SearchBar.tsx:116-119 | the non-empty of name and country joined by ", " |
| SearchBar.NeverBothShown | src/components/SearchBar.tsx:139-140 | the suggestion list and the recent list are never shown together |
| SearchBar.SearchBarState.constructor | src/components/SearchBar.tsx:59-60 | both lists start closed |
| SearchBar.SearchBarState.ValueChanged | src/components/SearchBar.tsx:64-71 | two or more trimmed characters open the suggestions and hide the recent list; fewer close the suggestions |
| SearchBar.SearchBarState.HandleFocus | src/components/SearchBar.tsx:73-79 | a long value opens the suggestions; otherwise a non-empty recent list is shown |
| SearchBar.SearchBarState.HandleChange | src/components/SearchBar.tsx:81-87 | a non-blank change hides the recent list |
| SearchBar.SearchBarState.HandleSelect | src/components/SearchBar.tsx:116-137 | the display string becomes the value and both lists close; the display string is returned, as `handleSelect` passes it on |
| SearchBar.SearchBarState.Dismiss | src/components/SearchBar.tsx:89-108 | a click outside or Escape closes both lists |
| SearchBar.SearchBarState.HandleSubmit | src/components/SearchBar.tsx:110-114 | submitting closes the suggestions |
| ForecastSection.FutureDays | src/components/ForecastSection.tsx:32 | `max(0, min(5, n-1))` days, day i being input day i+1 |
| ForecastSection.Rows | src/components/ForecastSection.tsx:31-40 | at most 5 rows in input order; date, code and raw temperatures copied from day i+1; the label from `getCondition`; Celsius shows the raw values, Fahrenheit the converted ones |
| ForecastSection.TodayNeverShown | src/components/ForecastSection.tsx:31-32 | when dates are distinct, no row shows today's date |
| ForecastSection.DisplayKeepsHighAboveLow | src/components/ForecastSection.tsx:38-39 | a day's displayed low never exceeds its displayed high, in either unit |
| Utils.Kept | src/lib/utils.ts:2 | the kept classes are non-empty, and every truthy argument is kept |
| Utils.KeptAppend | src/lib/utils.ts:2 | the filter keeps argument order across concatenation |
| Utils.CnOfFalsy | src/lib/utils.ts:2 | with no truthy argument the result is "" |
| Utils.CnDropsFalsy | src/lib/utils.ts:2 | a falsy argument anywhere changes nothing |
| Utils.CnAppend | src/lib/utils.ts:2 | the classes of two argument lists are separated by exactly one space |
| Utils.FahrenheitMonotone | src/lib/utils.ts:6-8 | the conversion preserves and strictly preserves order; it maps 0 to 32, 100 to 212 and -40 to -40 |
| LanguageContext.SupportedLanguages | src/contexts/LanguageContext.tsx:23-25 | exactly the "en" and "ar" entries, in order |
| LanguageContext.SupportedLanguagesOne | src/contexts/LanguageContext.tsx:23-25 | one entry is kept exactly when its code is supported |
| LanguageContext.SupportedLanguagesAppend | src/contexts/LanguageContext.tsx:23-25 | the filter distributes over concatenation, keeping order and repetitions |
| LanguageContext.Find | src/contexts/LanguageContext.tsx:59 | an entry with the code, or none exactly when no entry has it |
| LanguageContext.FindIsFirst | src/contexts/LanguageContext.tsx:59 | the entry found is the first one with the code |
| LanguageContext.DefaultLang | src/contexts/LanguageContext.tsx:35 | the "en" entry when listed, else the first entry; none exactly for an empty list |
| LanguageContext.GetStoredLang | src/contexts/LanguageContext.tsx:39-49 | the stored code when it is non-empty and supported, otherwise "en" |
| LanguageContext.LanguageProvider.constructor | src/contexts/LanguageContext.tsx:52 | the code starts as "en" |
| LanguageContext.LanguageProvider.Hydrate | src/contexts/LanguageContext.tsx:54-56 | the mount effect adopts the stored language and keeps the code valid |
| LanguageContext.LanguageProvider.SetLanguage | src/contexts/LanguageContext.tsx:58-71 | an unsupported code changes nothing; a supported one becomes current and is persisted under "weather-language" when storage works |
| LanguageContext.CurrentLanguage | src/contexts/LanguageContext.tsx:79 | the current code's own entry when listed, else `defaultLang` |
| LanguageContext.StoredLanguageRestored | src/contexts/LanguageContext.tsx:64 | a language persisted by `setLanguage` is the one the next mount adopts |
| LanguageContext.StoredUnsupportedIgnored | src/contexts/LanguageContext.tsx:43-48 | a stored code outside the list gives "en" |

## Left out

- Network I/O. The geocoding, reverse-geocoding and forecast fetches, and the client's fetches of `/api/*`, are parameters (`Reply`, `PageReply`). URLs, headers and `encodeURIComponent` are not modelled. `console` logging is not modelled.
- Local storage is a map field. `available` stands for `typeof window !== "undefined"` with working storage, and `writeOk` stands for `setItem` not throwing. JSON text is represented by its parse result, so `JSON.stringify`/`JSON.parse` are not modelled character by character.
- Utils.FahrenheitMonotone, ForecastSection.Rows: temperatures, `celsiusToFahrenheit` and `Math.round` are on exact reals, not IEEE doubles. Display rounding is not modelled. `kmhToMph` (src/lib/utils.ts:11-13) is used only by a display component outside this model.
- ForecastSection.Rows: the `dayName` field is not modelled, because `Intl.DateTimeFormat` comes from a locale library.
- Common.Lower and SearchBar.SplitCI: `toLowerCase` and the regular expression's `i` flag are modelled on ASCII letters only. String lengths count characters, not UTF-16 code units.
- SearchBar.Escape: the regular expression built from the escaped query is modelled by its meaning (a literal, case-insensitive search), not by a regular-expression engine.
- src/hooks/useSearchSuggestions.ts is not part of this model: it is debouncing, request cancellation and asynchronous updates. Its one synchronous rule is that a trimmed query shorter than 2 clears the suggestions.
- `fetchByGeolocation`, the page's mount effect and the effect that re-fetches on a language change in src/app/page.tsx are not modelled. They depend on the browser's geolocation callbacks and React's effect scheduling.
- Page.Home.FetchWeather and Page.Home.CityFetchSettled: overlapping fetches and the order in which their replies arrive are not modelled. Each fetch starts, then settles with its reply.
- Page.Home.CityFetchSettled and Page.Home.CoordinatesFetchSettled: on success they also clear the error message, which the page itself clears only when a fetch starts; with one fetch at a time the two agree, and the model relies on it to keep "no message outside the error state".
- Translations.TranslationsHook.OnLanguage: the two loads of the effect are taken to settle in order. Interleavings with a later language change are not modelled.
- LanguageContext.LanguageProvider.SetLanguage: the writes of `document.documentElement.lang` and `dir` are not modelled, and neither is the effect that repeats them. A failed `setItem` also skips those writes.
- LanguageContext.CurrentLanguage: with an empty language list `defaultLang` is undefined and reading `rtl` throws; the model answers `None` there.
- The country-capitals data file is not shown. It is an abstract ordered sequence of entries whose names are lists in `Object.values` order. A non-string value is modelled as missing. A truthy non-string value that `??` would pass through is not modelled.
- Geocode.Suggestions: keys such as `__proto__` on plain objects are treated as ordinary keys. The provider reply's HTTP status is not inspected, as in the route.
- RecentSearches.Decode: a stored entry is reduced to its four fields. Extra properties of a stored object, which the hook keeps and writes back on `add`, are dropped.
- WeatherCodes: weather codes are integers. The source types them as JavaScript numbers, so a non-integer code, which would show "Unknown", is not modelled.
- Translations.Translate: a bundle is a map holding only the file's keys. Lookups of inherited object keys such as `toString`, which JavaScript would find on the prototype, are not modelled.
- Geocode.MergeResults: the `seen.add` after the capital is pushed is not modelled, because nothing reads `seen` afterwards.
- Geocode.Key: the key `${name}|${country}` is modelled as written. Two different pairs whose joined keys coincide (a `|` inside a name) are treated as duplicates, as in the route.
- JSX rendering, animation, icons' markup, layout metadata, build scripts and configuration are outside the model.
