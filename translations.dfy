/** UI strings: the `useTranslations` hook keeps the current language's
    bundle and, for a language other than "en", the English bundle, and
    `t(key)` looks a key up in the first, then the second, then answers the
    key itself. */
module Translations {
  import opened BundleCache

  type Bundle = map<string, string>

  /** `translations[key] ?? enFallback[key] ?? key`. */
  function Translate(translations: Bundle, enFallback: Bundle, key: string): (r: string)
    ensures key in translations ==> r == translations[key]
    ensures key !in translations && key in enFallback ==> r == enFallback[key]
    ensures key !in translations && key !in enFallback ==> r == key
  {
    if key in translations then translations[key]
    else if key in enFallback then enFallback[key]
    else key
  }

  /** Reference definition of what `t(key)` shows for language `lang`
      given the locale files: that language's string, else the English
      string, else the key. */
  function ReferenceTranslation(files: map<string, Bundle>, lang: string, key: string): string {
    if lang in files && key in files[lang] then files[lang][key]
    else if FallbackLang in files && key in files[FallbackLang] then files[FallbackLang][key]
    else key
  }

  /** The hook's state after its effect for `lang` has run on cache
      `cache`: the current bundle is loaded first, then, for a language
      other than "en", the English one. */
  function Settled(cache: map<string, Bundle>, files: map<string, Bundle>, lang: string): (r: (Bundle, Bundle))
  {
    var first := LoadResult(cache, files, lang);
    (first.bundle,
     if lang != FallbackLang then LoadResult(first.cache, files, FallbackLang).bundle else map[])
  }

  /** The two fallbacks compose: whatever the cache holds (as long as it
      agrees with the files), `t(key)` shows the language's own string,
      else the English string, else the key. */
  lemma TranslateMatchesReference(cache: map<string, Bundle>, files: map<string, Bundle>,
                                  lang: string, key: string)
    requires Agrees(cache, files)
    ensures var (tr, en) := Settled(cache, files, lang);
      Translate(tr, en, key) == ReferenceTranslation(files, lang, key)
  {
    var first := LoadResult(cache, files, lang);
    LoadIsTransparent(cache, files, lang);
    if lang != FallbackLang {
      LoadIsTransparent(first.cache, files, FallbackLang);
    }
  }

  /** A key the language's bundle lacks surfaces the English string. */
  lemma MissingKeyShowsEnglish(cache: map<string, Bundle>, files: map<string, Bundle>,
                               lang: string, key: string)
    requires Agrees(cache, files)
    requires lang in files && key !in files[lang]
    requires FallbackLang in files && key in files[FallbackLang]
    ensures var (tr, en) := Settled(cache, files, lang);
      Translate(tr, en, key) == files[FallbackLang][key]
  {
    TranslateMatchesReference(cache, files, lang, key);
  }

  /** For English there is no second bundle: `t(key)` is the English
      string or the key. */
  lemma EnglishHasNoSecondBundle(cache: map<string, Bundle>, files: map<string, Bundle>, key: string)
    ensures Settled(cache, files, FallbackLang).1 == map[]
    ensures var tr := Settled(cache, files, FallbackLang).0;
      Translate(tr, map[], key) == if key in tr then tr[key] else key
  {
  }

  /** The `useTranslations` hook of one component, over the shared cache. */
  class TranslationsHook {
    const cache: Cache<string>
    var langCode: string
    var translations: Bundle
    var enFallback: Bundle

    constructor (cache: Cache<string>)
      ensures this.cache == cache && langCode == FallbackLang
      ensures translations == map[] && enFallback == map[]
    {
      this.cache := cache;
      langCode := FallbackLang;
      translations := map[];
      enFallback := map[];
    }

    /** The effect that runs when `langCode` changes, once its loads have
        settled. */
    method OnLanguage(lang: string, files: map<string, Bundle>)
      modifies this, cache
      ensures langCode == lang
      ensures (translations, enFallback) == Settled(old(cache.entries), files, lang)
      ensures cache.entries ==
        var first := LoadResult(old(cache.entries), files, lang);
        if lang != FallbackLang then LoadResult(first.cache, files, FallbackLang).cache else first.cache
    {
      langCode := lang;
      translations := cache.Load(lang, files);
      if lang != FallbackLang {
        enFallback := cache.Load(FallbackLang, files);
      } else {
        enFallback := map[];
      }
    }

    /** `t(key)`. */
    function T(key: string): string
      reads this
    {
      Translate(translations, enFallback, key)
    }
  }
}
