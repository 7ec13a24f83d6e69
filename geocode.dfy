/** The place-suggestion endpoint (`GET /api/geocode`): ask the geocoding
    provider for up to 8 places, drop repeated `(name, country)` pairs, and,
    when the query names a country of the bundled country-capitals dataset,
    put that country's capital first; at most 8 suggestions come back.

    The dataset is an ordered sequence of entries (the order in which
    `Object.entries` visits its string keys); each localized map is an
    ordered list of `(language, value)` pairs, a value being `None` where
    it is null or not a string. */
module Geocode {
  import opened Common
  import opened WeatherApi

  datatype NameEntry = NameEntry(lang: string, value: Option<string>)

  datatype CountryCapital = CountryCapital(
    code: string,
    names: Option<seq<NameEntry>>,
    capital: Option<seq<NameEntry>>)

  type Dataset = seq<CountryCapital>

  /** One suggestion: `{ name, country }`. */
  datatype Suggestion = Suggestion(name: string, country: string)

  const MaxResults: nat := 8

  // ---------------------------------------------------------------------
  // findMatchingCountry

  /** One localized country name against the lower-cased query: a present
      string whose trimmed form is non-empty and, lower-cased, equals the
      query, contains it, or is contained in it. */
  predicate NameMatches(qLower: string, name: Option<string>) {
    && name.Some?
    && var n := Trim(name.value);
       && n != ""
       && (qLower == Lower(n) || Contains(Lower(n), qLower) || Contains(qLower, Lower(n)))
  }

  /** Some localized name of the country, in any language, matches. */
  predicate CountryMatches(qLower: string, c: CountryCapital) {
    c.names.Some? && exists j :: 0 <= j < |c.names.value| && NameMatches(qLower, c.names.value[j].value)
  }

  /** The code of the first country in dataset order that matches. */
  function FirstMatch(dataset: Dataset, qLower: string): (r: Option<string>)
    ensures r.None? <==> forall i :: 0 <= i < |dataset| ==> !CountryMatches(qLower, dataset[i])
  {
    if dataset == [] then None
    else if CountryMatches(qLower, dataset[0]) then Some(dataset[0].code)
    else FirstMatch(dataset[1..], qLower)
  }

  /** The result is the code of the earliest matching country. */
  lemma {:induction false} FirstMatchIsFirst(dataset: Dataset, qLower: string, i: int)
    requires 0 <= i < |dataset| && CountryMatches(qLower, dataset[i])
    requires forall k :: 0 <= k < i ==> !CountryMatches(qLower, dataset[k])
    ensures FirstMatch(dataset, qLower) == Some(dataset[i].code)
  {
    if i > 0 {
      FirstMatchIsFirst(dataset[1..], qLower, i - 1);
    }
  }

  /** `findMatchingCountry(query)` as a value. */
  function MatchingCountry(dataset: Dataset, query: string): Option<string> {
    var q := Trim(query);
    if q == "" then None else FirstMatch(dataset, Lower(q))
  }

  /** An empty or all-white-space query matches no country. */
  lemma BlankQueryMatchesNothing(dataset: Dataset, query: string)
    requires Blank(query)
    ensures MatchingCountry(dataset, query) == None
  {
    TrimEmptyIffBlank(query);
  }

  /** A name that is absent, null, not a string, or blank once trimmed never
      matches, whatever the query. */
  lemma BlankNamesNeverMatch(qLower: string, name: Option<string>)
    requires name.None? || Blank(name.value)
    ensures !NameMatches(qLower, name)
  {
    if name.Some? {
      TrimEmptyIffBlank(name.value);
    }
  }

  /** The body of the inner loop for one name: skip a missing or
      non-string name, skip a blank one, then compare. */
  method NameHit(qLower: string, name: Option<string>) returns (hit: bool)
    ensures hit == NameMatches(qLower, name)
  {
    if name.None? {
      return false;
    }
    var n := Trim(name.value);
    if n == "" {
      return false;
    }
    hit := qLower == Lower(n) || Contains(Lower(n), qLower) || Contains(qLower, Lower(n));
  }

  /** The inner loop of `findMatchingCountry` over one country's names,
      stopping at the first name that matches. */
  method CountryHit(qLower: string, c: CountryCapital) returns (hit: bool)
    ensures hit == CountryMatches(qLower, c)
  {
    var names := c.names.GetOr([]);
    var j := 0;
    while j < |names|
      invariant 0 <= j <= |names|
      invariant forall m :: 0 <= m < j ==> !NameMatches(qLower, names[m].value)
    {
      hit := NameHit(qLower, names[j].value);
      if hit {
        return;
      }
      j := j + 1;
    }
    return false;
  }

  /** The outer loop of `findMatchingCountry` over the dataset, returning
      the code of the first country with a matching name. */
  method FirstMatchingCountry(dataset: Dataset, qLower: string) returns (r: Option<string>)
    ensures r == FirstMatch(dataset, qLower)
  {
    var i := 0;
    while i < |dataset|
      invariant 0 <= i <= |dataset|
      invariant forall k :: 0 <= k < i ==> !CountryMatches(qLower, dataset[k])
    {
      var hit := CountryHit(qLower, dataset[i]);
      if hit {
        FirstMatchIsFirst(dataset, qLower, i);
        return Some(dataset[i].code);
      }
      i := i + 1;
    }
    return None;
  }

  /** `findMatchingCountry(query)`: no match for a blank query, else the
      loops over the lower-cased, trimmed query. */
  method FindMatchingCountry(dataset: Dataset, query: string) returns (r: Option<string>)
    ensures r == MatchingCountry(dataset, query)
  {
    var q := Trim(query);
    if q == "" {
      return None;
    }
    r := FirstMatchingCountry(dataset, Lower(q));
  }

  // ---------------------------------------------------------------------
  // getCapitalForCountry

  /** `CAPITALS[code]`: the entry with that code, if any. */
  function Lookup(dataset: Dataset, code: string): (r: Option<CountryCapital>)
    ensures r.Some? ==> r.value in dataset && r.value.code == code
    ensures r.None? ==> forall i :: 0 <= i < |dataset| ==> dataset[i].code != code
  {
    if dataset == [] then None
    else if dataset[0].code == code then Some(dataset[0])
    else Lookup(dataset[1..], code)
  }

  /** The lookup answers the first entry with the code. */
  lemma {:induction false} LookupIsFirst(dataset: Dataset, code: string, i: nat)
    requires i < |dataset| && dataset[i].code == code
    requires forall j :: 0 <= j < i ==> dataset[j].code != code
    ensures Lookup(dataset, code) == Some(dataset[i])
  {
    if i > 0 {
      LookupIsFirst(dataset[1..], code, i - 1);
    }
  }

  /** `record[key]`, `None` when the key is absent or its value null. */
  function Field(entries: seq<NameEntry>, key: string): (r: Option<string>)
    ensures r.Some? ==> exists i :: 0 <= i < |entries| && entries[i].lang == key && entries[i].value == r
    ensures (forall i :: 0 <= i < |entries| ==> entries[i].lang != key) ==> r.None?
  {
    if entries == [] then None
    else if entries[0].lang == key then entries[0].value
    else Field(entries[1..], key)
  }

  /** `data[lang] ?? data.en`. */
  function Localized(entries: seq<NameEntry>, lang: string): Option<string> {
    OrElse(Field(entries, lang), Field(entries, "en"))
  }

  /** `getCapitalForCountry(code, lang)`. */
  function CapitalFor(dataset: Dataset, code: string, lang: string): (r: Option<Suggestion>)
    ensures r.Some? ==> r.value.name != "" && r.value.country != ""
    ensures r.Some? ==> Lookup(dataset, code).Some?
    ensures r.Some? ==>
      var data := Lookup(dataset, code).value;
      && data.capital.Some? && data.names.Some?
      && Localized(data.capital.value, lang) == Some(r.value.name)
      && Localized(data.names.value, lang) == Some(r.value.country)
  {
    var data := Lookup(dataset, code);
    if data.None? || data.value.capital.None? || data.value.names.None? then None
    else
      var capitalName := Localized(data.value.capital.value, lang);
      var countryName := Localized(data.value.names.value, lang);
      if capitalName.None? || capitalName.value == "" || countryName.None? || countryName.value == "" then None
      else Some(Suggestion(capitalName.value, countryName.value))
  }

  /** The requested language wins; English is used for whichever of the two
      names the language lacks; without either, or without the `capital` or
      `names` map, there is no capital. */
  lemma CapitalLanguageFallback(dataset: Dataset, code: string, lang: string)
    ensures var data := Lookup(dataset, code);
      (data.None? || data.value.capital.None? || data.value.names.None?) ==> CapitalFor(dataset, code, lang).None?
    ensures var data := Lookup(dataset, code);
      data.Some? && data.value.capital.Some? && data.value.names.Some? ==>
        var cap := OrElse(Field(data.value.capital.value, lang), Field(data.value.capital.value, "en"));
        var cty := OrElse(Field(data.value.names.value, lang), Field(data.value.names.value, "en"));
        (cap.Some? && cap.value != "" && cty.Some? && cty.value != "")
        ==> CapitalFor(dataset, code, lang) == Some(Suggestion(cap.value, cty.value))
  {
  }

  /** `??` only skips a missing value: an empty string in the requested
      language hides the English one, and then there is no capital. */
  lemma EmptyLocalizedCapitalHidesEnglish(dataset: Dataset, code: string, lang: string)
    requires var data := Lookup(dataset, code);
      data.Some? && data.value.capital.Some? && Field(data.value.capital.value, lang) == Some("")
    ensures CapitalFor(dataset, code, lang).None?
  {
  }

  // ---------------------------------------------------------------------
  // De-duplication of the provider's results

  /** `${name}|${country}`, the key of the `seen` set. */
  function Key(s: Suggestion): string {
    s.name + "|" + s.country
  }

  function KeysOf(xs: seq<Suggestion>): set<string> {
    set s | s in xs :: Key(s)
  }

  /** `results.map(r => ({ name, country }))`. */
  function Projected(raw: seq<GeocodingResult>): (r: seq<Suggestion>)
    ensures |r| == |raw|
    ensures forall i :: 0 <= i < |raw| ==> r[i] == Suggestion(raw[i].name, raw[i].country)
  {
    seq(|raw|, i requires 0 <= i < |raw| => Suggestion(raw[i].name, raw[i].country))
  }

  /** What the `filter` keeps of `xs` when `seen` already holds some keys:
      the first element with each key not yet seen, in order. */
  function Dedup(xs: seq<Suggestion>, seen: set<string>): seq<Suggestion>
    decreases |xs|
  {
    if xs == [] then []
    else if Key(xs[0]) in seen then Dedup(xs[1..], seen)
    else [xs[0]] + Dedup(xs[1..], seen + {Key(xs[0])})
  }

  /** The kept keys are the keys not seen before, each kept once, and the
      kept elements are in input order. */
  lemma {:induction false} DedupShape(xs: seq<Suggestion>, seen: set<string>)
    ensures KeysOf(Dedup(xs, seen)) == KeysOf(xs) - seen
    ensures forall i, j :: 0 <= i < j < |Dedup(xs, seen)| ==> Key(Dedup(xs, seen)[i]) != Key(Dedup(xs, seen)[j])
    ensures Subsequence(Dedup(xs, seen), xs)
    decreases |xs|
  {
    if xs != [] {
      var rest := xs[1..];
      assert KeysOf(xs) == {Key(xs[0])} + KeysOf(rest) by {
        assert forall s :: s in xs <==> s == xs[0] || s in rest;
      }
      if Key(xs[0]) in seen {
        DedupShape(rest, seen);
      } else {
        var tail := Dedup(rest, seen + {Key(xs[0])});
        DedupShape(rest, seen + {Key(xs[0])});
        var r := [xs[0]] + tail;
        assert r == Dedup(xs, seen);
        assert r[1..] == tail;
        assert KeysOf(r) == {Key(xs[0])} + KeysOf(tail) by {
          assert forall s :: s in r <==> s == xs[0] || s in tail;
        }
        assert forall k :: 0 <= k < |tail| ==> Key(tail[k]) in KeysOf(tail);
      }
    }
  }

  /** Every element whose key was not seen among the earlier ones is kept:
      the filter keeps first occurrences. */
  lemma {:induction false} DedupKeepsFirstOccurrences(xs: seq<Suggestion>, seen: set<string>, i: int)
    requires 0 <= i < |xs|
    requires Key(xs[i]) !in seen && Key(xs[i]) !in KeysOf(xs[..i])
    ensures xs[i] in Dedup(xs, seen)
    decreases i
  {
    if i > 0 {
      var seen' := if Key(xs[0]) in seen then seen else seen + {Key(xs[0])};
      assert xs[0] in xs[..i];
      assert xs[1..][..i - 1] == xs[..i][1..];
      assert KeysOf(xs[1..][..i - 1]) <= KeysOf(xs[..i]) by {
        forall s | s in xs[1..][..i - 1] ensures s in xs[..i] {
        }
      }
      DedupKeepsFirstOccurrences(xs[1..], seen', i - 1);
    }
  }

  /** The `filter` with its `seen` set, as a loop: `apiResults` and the
      final `seen`. */
  method Dedupe(raw: seq<GeocodingResult>) returns (apiResults: seq<Suggestion>, seen: set<string>)
    ensures apiResults == Dedup(Projected(raw), {})
    ensures seen == KeysOf(Projected(raw)) == KeysOf(apiResults)
  {
    ghost var all := Projected(raw);
    apiResults := [];
    seen := {};
    var i := 0;
    while i < |raw|
      invariant 0 <= i <= |raw|
      invariant seen == KeysOf(all[..i])
      invariant apiResults + Dedup(all[i..], seen) == Dedup(all, {})
    {
      var s := Suggestion(raw[i].name, raw[i].country);
      var key := Key(s);
      assert all[i..][1..] == all[i + 1..];
      assert all[..i + 1] == all[..i] + [s];
      assert KeysOf(all[..i + 1]) == KeysOf(all[..i]) + {key} by {
        assert forall t :: t in all[..i + 1] <==> t in all[..i] || t == s;
      }
      if key !in seen {
        seen := seen + {key};
        apiResults := apiResults + [s];
      }
      i := i + 1;
    }
    assert all[..i] == all;
    assert all[i..] == [];
    DedupShape(all, {});
  }

  // ---------------------------------------------------------------------
  // Capital first, then the provider's results, at most 8

  /** The capital, unless its key was already seen among the provider's. */
  function Head(capital: Option<Suggestion>, seen: set<string>): seq<Suggestion> {
    if capital.Some? && Key(capital.value) !in seen then [capital.value] else []
  }

  /** The suggestions answered, for a capital (if any), the keys the
      provider's results carry, and the de-duplicated results. */
  function Merge(capital: Option<Suggestion>, seen: set<string>, api: seq<Suggestion>): seq<Suggestion> {
    Take(Head(capital, seen) + api, MaxResults)
  }

  /** The `push` loop with its `break`, then `slice(0, 8)`. */
  method MergeResults(capital: Option<Suggestion>, seen: set<string>, api: seq<Suggestion>)
    returns (results: seq<Suggestion>)
    ensures results == Merge(capital, seen, api)
  {
    ghost var all := Head(capital, seen) + api;
    ghost var h := |Head(capital, seen)|;
    results := [];
    if capital.Some? {
      var capitalKey := Key(capital.value);
      if capitalKey !in seen {
        results := results + [capital.value];
      }
    }
    var i := 0;
    while i < |api|
      invariant 0 <= i <= |api|
      invariant results == all[..h + i]
      invariant |results| <= MaxResults
    {
      if |results| >= MaxResults {
        break;
      }
      assert all[..h + i + 1] == all[..h + i] + [api[i]];
      results := results + [api[i]];
      i := i + 1;
    }
    if i == |api| {
      assert results == all;
    } else {
      assert |results| == MaxResults;
    }
    results := Take(results, MaxResults);
  }

  /** At most 8 suggestions, and the capital first whenever it is placed. */
  lemma MergeShape(capital: Option<Suggestion>, seen: set<string>, api: seq<Suggestion>)
    ensures |Merge(capital, seen, api)| <= MaxResults
    ensures capital.Some? && Key(capital.value) !in seen ==> Merge(capital, seen, api)[0] == capital.value
    ensures capital.None? || Key(capital.value) in seen ==> Merge(capital, seen, api) == Take(api, MaxResults)
  {
  }

  /** With the final `seen` set of the provider's distinct results, no two
      suggestions share a key, so no `(name, country)` pair repeats. */
  lemma MergeDistinct(capital: Option<Suggestion>, api: seq<Suggestion>)
    requires forall i, j :: 0 <= i < j < |api| ==> Key(api[i]) != Key(api[j])
    ensures var r := Merge(capital, KeysOf(api), api);
      forall i, j :: 0 <= i < j < |r| ==> Key(r[i]) != Key(r[j]) && r[i] != r[j]
  {
    var all := Head(capital, KeysOf(api)) + api;
    var r := Merge(capital, KeysOf(api), api);
    forall i, j | 0 <= i < j < |r| ensures Key(r[i]) != Key(r[j]) {
      if |Head(capital, KeysOf(api))| == 1 {
        if i == 0 {
          assert r[j] == api[j - 1] && api[j - 1] in api;
        } else {
          assert r[i] == api[i - 1] && r[j] == api[j - 1];
        }
      } else {
        assert r[i] == api[i] && r[j] == api[j];
      }
    }
  }

  // ---------------------------------------------------------------------
  // GET

  /** `q?.trim()`, `None` when the parameter is absent or the trimmed
      query is shorter than 2. */
  function ValidQuery(q: Option<string>): (r: Option<string>)
    ensures r.Some? ==> q.Some? && r.value == Trim(q.value) && |r.value| >= 2
    ensures r.None? <==> q.None? || |Trim(q.value)| < 2
  {
    if q.None? || |Trim(q.value)| < 2 then None else Some(Trim(q.value))
  }

  /** The request sent to the provider, `None` when none is sent. */
  function SuggestRequest(q: Option<string>, language: Option<string>): (req: Option<GeocodingRequest>)
    ensures req.None? <==> ValidQuery(q).None?
    ensures req.Some? ==> req.value == GeocodingRequest(ValidQuery(q).value, MaxResults, RequestLanguage(language))
  {
    var query := ValidQuery(q);
    if query.None? then None else Some(GeocodingRequest(query.value, MaxResults, RequestLanguage(language)))
  }

  /** The suggestions answered for the query and language parameters and
      the provider reply (whose status is not inspected). */
  function Suggestions(dataset: Dataset, q: Option<string>, language: Option<string>,
                       reply: Reply<GeocodingResponse>): seq<Suggestion>
  {
    var query := ValidQuery(q);
    if query.None? then []
    else match reply
      case Threw => []
      case Http(_, body) =>
        if body.None? then []
        else
          var api := Dedup(Projected(body.value.results.GetOr([])), {});
          var matched := MatchingCountry(dataset, query.value);
          var capital := if matched.Some? && matched.value != "" then
                           CapitalFor(dataset, matched.value, RequestLanguage(language))
                         else None;
          Merge(capital, KeysOf(api), api)
  }

  /** A missing or short query, a failed fetch and an unparsable body all
      answer the empty list. */
  lemma EmptyAnswers(dataset: Dataset, q: Option<string>, language: Option<string>,
                     reply: Reply<GeocodingResponse>)
    ensures ValidQuery(q).None? ==> Suggestions(dataset, q, language, reply) == []
    ensures reply.Threw? || (reply.Http? && reply.body.None?) ==> Suggestions(dataset, q, language, reply) == []
  {
  }

  /** The merge of a capital with the de-duplicated provider results: at
      most 8, none twice, each a provider result or the capital, placed
      first and absent from the provider's keys. */
  lemma MergeOfProvided(capital: Option<Suggestion>, provided: seq<Suggestion>)
    ensures var api := Dedup(provided, {});
      var r := Merge(capital, KeysOf(api), api);
      && |r| <= MaxResults
      && (forall i, j :: 0 <= i < j < |r| ==> r[i] != r[j])
      && (forall i :: 0 <= i < |r| ==> r[i] in provided || (i == 0 && Key(r[0]) !in KeysOf(provided)))
  {
    var api := Dedup(provided, {});
    DedupShape(provided, {});
    var r := Merge(capital, KeysOf(api), api);
    MergeShape(capital, KeysOf(api), api);
    MergeDistinct(capital, api);
    SubsequenceMembers(api, provided);
    var head := Head(capital, KeysOf(api));
    assert r == Take(head + api, MaxResults);
    forall i | 0 <= i < |r|
      ensures r[i] in provided || (i == 0 && Key(r[0]) !in KeysOf(provided))
    {
      if |head| == 1 && i > 0 {
        assert r[i] == api[i - 1];
      } else if |head| == 0 {
        assert r[i] == api[i];
      }
    }
  }

  /** Whatever the reply: at most 8 suggestions, no `(name, country)` pair
      twice, each of them either the matched country's capital (then first
      and absent from the provider's results) or one of the provider's. */
  lemma SuggestionsShape(dataset: Dataset, q: Option<string>, language: Option<string>,
                         reply: Reply<GeocodingResponse>)
    ensures var r := Suggestions(dataset, q, language, reply);
      && |r| <= MaxResults
      && (forall i, j :: 0 <= i < j < |r| ==> r[i] != r[j])
      && (reply.Http? && reply.body.Some? ==>
            var provided := Projected(reply.body.value.results.GetOr([]));
            forall i :: 0 <= i < |r| ==> r[i] in provided || (i == 0 && Key(r[0]) !in KeysOf(provided)))
  {
    if ValidQuery(q).Some? && reply.Http? && reply.body.Some? {
      var provided := Projected(reply.body.value.results.GetOr([]));
      var matched := MatchingCountry(dataset, ValidQuery(q).value);
      var capital := if matched.Some? && matched.value != "" then
                       CapitalFor(dataset, matched.value, RequestLanguage(language))
                     else None;
      MergeOfProvided(capital, provided);
    }
  }

  /** Elements of a subsequence are elements of the whole. */
  lemma {:induction false} SubsequenceMembers(a: seq<Suggestion>, b: seq<Suggestion>)
    requires Subsequence(a, b)
    ensures forall x :: x in a ==> x in b
    decreases |b|
  {
    if a != [] {
      if a[0] == b[0] && Subsequence(a[1..], b[1..]) {
        SubsequenceMembers(a[1..], b[1..]);
        assert forall x :: x in a ==> x == a[0] || x in a[1..];
      } else {
        SubsequenceMembers(a, b[1..]);
      }
    }
  }

  /** The route: nothing is asked of the provider for a short query; any
      failure answers the empty list. */
  method Get(dataset: Dataset, q: Option<string>, language: Option<string>, reply: Reply<GeocodingResponse>)
    returns (results: seq<Suggestion>)
    ensures results == Suggestions(dataset, q, language, reply)
  {
    var query := ValidQuery(q);
    var lang := RequestLanguage(language);
    if query.None? {
      return [];
    }
    if reply.Threw? || reply.body.None? {
      return [];
    }
    var apiResults, seen := Dedupe(reply.body.value.results.GetOr([]));
    var matchedCountry := FindMatchingCountry(dataset, query.value);
    var capitalEntry := if matchedCountry.Some? && matchedCountry.value != "" then
                          CapitalFor(dataset, matchedCountry.value, lang)
                        else None;
    results := MergeResults(capitalEntry, seen, apiResults);
  }
}
