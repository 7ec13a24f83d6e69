/** The lazy, memoizing loader shared (as two copies of the same code) by
    the UI-string bundles and the weather-condition bundles: a cache hit
    returns at once; a successful load is cached under the requested
    language; a failed load of a language other than "en" falls back to
    loading "en"; a failed "en" load yields the empty bundle. Nothing ever
    throws.

    The dynamic `import()` of `<lang>.json` is the partial function `files`:
    it succeeds for exactly the languages in `files.Keys`. */
module BundleCache {

  const FallbackLang: string := "en"

  /** The bundle returned and the cache afterwards. */
  datatype Loaded<V> = Loaded(bundle: map<string, V>, cache: map<string, map<string, V>>)

  /** The outcome of one call of the loader on cache `cache`. */
  function LoadResult<V>(cache: map<string, map<string, V>>, files: map<string, map<string, V>>,
                         lang: string): Loaded<V>
    decreases if lang == FallbackLang then 0 else 1
  {
    if lang in cache then Loaded(cache[lang], cache)
    else if lang in files then Loaded(files[lang], cache[lang := files[lang]])
    else if lang != FallbackLang then LoadResult(cache, files, FallbackLang)
    else Loaded(map[], cache)
  }

  /** Reference definition, with no cache at all: the language's own
      bundle, else the English one, else nothing. */
  function Expected<V>(files: map<string, map<string, V>>, lang: string): map<string, V> {
    if lang in files then files[lang]
    else if FallbackLang in files then files[FallbackLang]
    else map[]
  }

  /** Every cached bundle is the one its language's file holds. */
  ghost predicate Agrees<V>(cache: map<string, map<string, V>>, files: map<string, map<string, V>>) {
    forall k :: k in cache ==> k in files && cache[k] == files[k]
  }

  /** A hit returns the cached bundle without consulting the loader. */
  lemma CacheHitSkipsLoader<V>(cache: map<string, map<string, V>>,
                               files1: map<string, map<string, V>>, files2: map<string, map<string, V>>,
                               lang: string)
    requires lang in cache
    ensures LoadResult(cache, files1, lang) == LoadResult(cache, files2, lang) == Loaded(cache[lang], cache)
  {
  }

  /** The cache only grows: no entry is removed or replaced, and a new
      entry is the requested language's or English's own file. */
  lemma LoadOnlyGrows<V>(cache: map<string, map<string, V>>, files: map<string, map<string, V>>,
                         lang: string)
    ensures var after := LoadResult(cache, files, lang).cache;
      && (forall k :: k in cache ==> k in after && after[k] == cache[k])
      && (forall k :: k in after && k !in cache ==>
            (k == lang || k == FallbackLang) && k in files && after[k] == files[k])
  {
  }

  /** A language whose file fails to load is never cached (so a later
      call retries), and the English result is returned in its place. */
  lemma FailedLoadFallsBack<V>(cache: map<string, map<string, V>>, files: map<string, map<string, V>>,
                               lang: string)
    requires lang !in cache && lang !in files
    ensures lang !in LoadResult(cache, files, lang).cache
    ensures lang != FallbackLang ==> LoadResult(cache, files, lang) == LoadResult(cache, files, FallbackLang)
    ensures lang == FallbackLang ==> LoadResult(cache, files, lang) == Loaded(map[], cache)
  {
  }

  /** The cache is transparent: as long as it agrees with the files, a
      call returns what loading without any cache would, and the cache
      still agrees afterwards. */
  lemma LoadIsTransparent<V>(cache: map<string, map<string, V>>, files: map<string, map<string, V>>,
                             lang: string)
    requires Agrees(cache, files)
    ensures LoadResult(cache, files, lang).bundle == Expected(files, lang)
    ensures Agrees(LoadResult(cache, files, lang).cache, files)
  {
  }

  /** The module-level `cache` Map and the loader over it. */
  class Cache<V> {
    var entries: map<string, map<string, V>>

    constructor ()
      ensures entries == map[]
    {
      entries := map[];
    }

    /** `loadTranslations(lang)` / `loadWeatherConditions(lang)`. */
    method Load(lang: string, files: map<string, map<string, V>>) returns (bundle: map<string, V>)
      modifies this
      ensures Loaded(bundle, entries) == LoadResult(old(entries), files, lang)
      decreases if lang == FallbackLang then 0 else 1
    {
      if lang in entries {
        return entries[lang];
      }
      if lang in files {
        bundle := files[lang];
        entries := entries[lang := bundle];
        return;
      }
      if lang != FallbackLang {
        bundle := Load(FallbackLang, files);
        return;
      }
      bundle := map[];
    }
  }
}
