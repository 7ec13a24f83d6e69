/** The language context (`LanguageProvider`): the supported languages are
    those of the language list with code "en" or "ar"; the current code
    starts as "en", is replaced by a stored supported code once mounted,
    and changes only to a supported code, which is then persisted. */
module LanguageContext {
  import opened Common

  const StorageKey := "weather-language"

  datatype Language = Language(code: string, name: string, native: string, rtl: Option<int>)

  predicate SupportedCode(code: string) {
    code == "en" || code == "ar"
  }

  /** `LANGUAGES`: the list, filtered to the supported codes, in order. */
  function SupportedLanguages(all: seq<Language>): (r: seq<Language>)
    ensures forall l :: l in r ==> SupportedCode(l.code) && l in all
    ensures forall l :: l in all && SupportedCode(l.code) ==> l in r
    ensures Subsequence(r, all)
  {
    if all == [] then []
    else
      var rest := SupportedLanguages(all[1..]);
      assert forall l :: l in all ==> l == all[0] || l in all[1..];
      if SupportedCode(all[0].code) then
        var r := [all[0]] + rest;
        assert r[1..] == rest;
        r
      else rest
  }

  /** One entry is kept exactly when its code is supported. */
  lemma SupportedLanguagesOne(l: Language)
    ensures SupportedLanguages([l]) == if SupportedCode(l.code) then [l] else []
  {
    assert [l][1..] == [];
  }

  /** The filter works entry by entry, keeping order and repetitions. */
  lemma {:induction false} SupportedLanguagesAppend(a: seq<Language>, b: seq<Language>)
    ensures SupportedLanguages(a + b) == SupportedLanguages(a) + SupportedLanguages(b)
  {
    if a == [] {
      assert a + b == b;
    } else {
      assert (a + b)[0] == a[0];
      assert (a + b)[1..] == a[1..] + b;
      SupportedLanguagesAppend(a[1..], b);
    }
  }

  /** `languages.find(l => l.code === code)`. */
  function Find(languages: seq<Language>, code: string): (r: Option<Language>)
    ensures r.Some? ==> r.value in languages && r.value.code == code
    ensures r.None? <==> forall l :: l in languages ==> l.code != code
  {
    if languages == [] then None
    else if languages[0].code == code then Some(languages[0])
    else
      assert forall l :: l in languages ==> l == languages[0] || l in languages[1..];
      Find(languages[1..], code)
  }

  /** `find` answers the first entry with the code. */
  lemma {:induction false} FindIsFirst(languages: seq<Language>, code: string, i: nat)
    requires i < |languages| && languages[i].code == code
    requires forall j :: 0 <= j < i ==> languages[j].code != code
    ensures Find(languages, code) == Some(languages[i])
  {
    if i > 0 {
      FindIsFirst(languages[1..], code, i - 1);
    }
  }

  /** `defaultLang`: the English entry, else the first one; `None` for an
      empty list. */
  function DefaultLang(languages: seq<Language>): (r: Option<Language>)
    ensures r.None? <==> languages == []
    ensures Find(languages, "en").Some? ==> r == Find(languages, "en")
    ensures (forall l :: l in languages ==> l.code != "en") && languages != [] ==> r == Some(languages[0])
  {
    if Find(languages, "en").Some? then Find(languages, "en")
    else if languages != [] then Some(languages[0])
    else None
  }

  /** `getStoredLang()`: the stored code when it names a supported
      language, else "en" (also when storage cannot be reached). */
  function GetStoredLang(languages: seq<Language>, storage: map<string, string>, available: bool): (code: string)
    ensures code == "en" || Find(languages, code).Some?
    ensures (available && StorageKey in storage && storage[StorageKey] != ""
             && Find(languages, storage[StorageKey]).Some?) ==> code == storage[StorageKey]
    ensures code != "en" ==> available && StorageKey in storage && code == storage[StorageKey]
  {
    if available && StorageKey in storage && storage[StorageKey] != ""
       && Find(languages, storage[StorageKey]).Some? then storage[StorageKey]
    else "en"
  }

  /** `lang.rtl === 1`. */
  predicate IsRtl(lang: Language) {
    lang.rtl == Some(1)
  }

  class LanguageProvider {
    const languages: seq<Language>
    const available: bool
    var langCode: string
    var storage: map<string, string>

    /** The current code is "en" or names a supported language. */
    predicate Valid()
      reads this
    {
      langCode == "en" || Find(languages, langCode).Some?
    }

    constructor (all: seq<Language>, storage: map<string, string>, available: bool)
      ensures Valid()
      ensures languages == SupportedLanguages(all) && this.storage == storage && this.available == available
      ensures langCode == "en"
    {
      languages := SupportedLanguages(all);
      this.storage := storage;
      this.available := available;
      langCode := "en";
    }

    /** The mount effect: adopt the stored language. */
    method Hydrate()
      requires Valid()
      modifies this
      ensures Valid()
      ensures langCode == GetStoredLang(languages, storage, available) && storage == old(storage)
    {
      langCode := GetStoredLang(languages, storage, available);
    }

    /** `setLanguage(code)`: an unsupported code changes nothing; a
        supported one becomes current and is persisted when the write
        succeeds (`writeOk`); a failed write is swallowed. */
    method SetLanguage(code: string, writeOk: bool)
      requires Valid()
      modifies this
      ensures Valid()
      ensures Find(languages, code).None? ==> langCode == old(langCode) && storage == old(storage)
      ensures Find(languages, code).Some? ==> langCode == code
      ensures Find(languages, code).Some? && available && writeOk ==> storage == old(storage)[StorageKey := code]
      ensures !(Find(languages, code).Some? && available && writeOk) ==> storage == old(storage)
    {
      var lang := Find(languages, code);
      if lang.None? {
        return;
      }
      langCode := code;
      if available && writeOk {
        storage := storage[StorageKey := code];
      }
    }

    /** `language`: the entry of the current code, else `defaultLang`. */
    function Current(): Option<Language>
      reads this
    {
      OrElse(Find(languages, langCode), DefaultLang(languages))
    }
  }

  /** The resolved language is the current code's own entry whenever that
      code is listed, and the default one otherwise. */
  lemma CurrentLanguage(languages: seq<Language>, langCode: string)
    ensures var current := OrElse(Find(languages, langCode), DefaultLang(languages));
      && (Find(languages, langCode).Some? ==> current.Some? && current.value.code == langCode)
      && (Find(languages, langCode).None? ==> current == DefaultLang(languages))
      && (languages != [] ==> current.Some?)
  {
  }

  /** A language persisted with `setLanguage` is the one the next mount
      adopts. */
  lemma StoredLanguageRestored(languages: seq<Language>, storage: map<string, string>, code: string)
    requires Find(languages, code).Some? && code != ""
    ensures GetStoredLang(languages, storage[StorageKey := code], true) == code
  {
  }

  /** A stored code outside the list is ignored. */
  lemma StoredUnsupportedIgnored(languages: seq<Language>, storage: map<string, string>, available: bool)
    requires StorageKey in storage && Find(languages, storage[StorageKey]).None?
    ensures GetStoredLang(languages, storage, available) == "en"
  {
  }
}
