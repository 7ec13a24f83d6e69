/** Localized weather-condition labels: the `useWeatherConditions` hook
    keeps the current language's condition bundle, loaded through the same
    kind of lazy cache as the UI strings, and `getCondition(code)` looks the
    decimal rendering of the code up in it, then (for a language other than
    "en") in an English bundle that happens to be cached already, then
    answers "Unknown". */
module WeatherConditions {
  import opened Common
  import opened BundleCache
  import opened WeatherCodes

  type ConditionMap = map<string, WeatherInfo>

  /** `String(weatherCode)`. */
  function ConditionKey(code: int): string {
    IntToString(code)
  }

  /** Distinct codes are looked up under distinct keys. */
  lemma ConditionKeysDistinct(a: int, b: int)
    requires a != b
    ensures ConditionKey(a) != ConditionKey(b)
  {
    if ConditionKey(a) == ConditionKey(b) {
      IntToStringInjective(a, b);
    }
  }

  /** `getCondition(code)` given the current bundle, the current language
      and the cache's content at the time of the call. */
  function ConditionFor(conditions: ConditionMap, langCode: string,
                        cached: map<string, ConditionMap>, code: int): (r: WeatherInfo)
    ensures ConditionKey(code) in conditions ==> r == conditions[ConditionKey(code)]
    ensures ConditionKey(code) !in conditions && langCode != FallbackLang
            && FallbackLang in cached && ConditionKey(code) in cached[FallbackLang]
            ==> r == cached[FallbackLang][ConditionKey(code)]
    ensures ConditionKey(code) !in conditions
            && (langCode == FallbackLang || FallbackLang !in cached
                || ConditionKey(code) !in cached[FallbackLang])
            ==> r == Unknown
  {
    var key := ConditionKey(code);
    if key in conditions then conditions[key]
    else if langCode != FallbackLang && FallbackLang in cached && key in cached[FallbackLang] then
      cached[FallbackLang][key]
    else Unknown
  }

  /** For English the cached-English branch is never taken: the answer is
      the current bundle's entry or "Unknown", whatever the cache holds. */
  lemma EnglishIgnoresCache(conditions: ConditionMap, c1: map<string, ConditionMap>,
                            c2: map<string, ConditionMap>, code: int)
    ensures ConditionFor(conditions, FallbackLang, c1, code) == ConditionFor(conditions, FallbackLang, c2, code)
    ensures ConditionFor(conditions, FallbackLang, c1, code) ==
      if ConditionKey(code) in conditions then conditions[ConditionKey(code)] else Unknown
  {
  }

  /** An English bundle that has not been loaded yet is not consulted:
      without it in the cache, only the current bundle answers. */
  lemma UncachedEnglishNotConsulted(conditions: ConditionMap, langCode: string,
                                    cached: map<string, ConditionMap>, code: int)
    requires FallbackLang !in cached
    ensures ConditionFor(conditions, langCode, cached, code) ==
      if ConditionKey(code) in conditions then conditions[ConditionKey(code)] else Unknown
  {
  }

  /** Once the current language's bundle has been loaded through a cache
      that agrees with the condition files, a code the language's file
      lacks but the English file has is never reported as "Unknown" when
      the language's own file failed to load (the fallback load cached
      English). */
  lemma FailedLanguageShowsEnglish(cache: map<string, ConditionMap>, files: map<string, ConditionMap>,
                                   lang: string, code: int)
    requires Agrees(cache, files)
    requires lang !in files && FallbackLang in files
    ensures var loaded := LoadResult(cache, files, lang);
      ConditionKey(code) in files[FallbackLang] ==>
        ConditionFor(loaded.bundle, lang, loaded.cache, code) == files[FallbackLang][ConditionKey(code)]
  {
    LoadIsTransparent(cache, files, lang);
  }

  /** The `useWeatherConditions` hook of one component, over the shared
      cache. */
  class ConditionsHook {
    const cache: Cache<WeatherInfo>
    var langCode: string
    var conditions: ConditionMap

    constructor (cache: Cache<WeatherInfo>, langCode: string)
      ensures this.cache == cache && this.langCode == langCode && conditions == map[]
    {
      this.cache := cache;
      this.langCode := langCode;
      conditions := map[];
    }

    /** The effect that runs when `langCode` changes, once its load has
        settled. */
    method OnLanguage(lang: string, files: map<string, ConditionMap>)
      modifies this, cache
      ensures langCode == lang
      ensures Loaded(conditions, cache.entries) == LoadResult(old(cache.entries), files, lang)
    {
      langCode := lang;
      conditions := cache.Load(lang, files);
    }

    /** `getCondition(code)`: it reads the cache and never loads. */
    function GetCondition(code: int): WeatherInfo
      reads this, cache
    {
      ConditionFor(conditions, langCode, cache.entries, code)
    }
  }
}
