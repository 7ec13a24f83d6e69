/** The per-language list of recently chosen places (`useRecentSearches`):
    one durable storage slot per language holding a JSON array; reading it
    keeps only well-formed entries, and `add` moves a place to the front,
    drops its older copy and keeps at most five.

    A storage slot holds the text `JSON.stringify` wrote; the model stores
    what that text parses to (`JsonText`), or says that it is empty or does
    not parse, rather than the characters themselves. */
module RecentSearches {
  import opened Common

  const MaxItems: nat := 5

  datatype RecentSearch = RecentSearch(name: string, country: string, lat: real, lon: real)

  /** A parsed JSON value (numbers are finite). */
  datatype Json =
    | JNull
    | JBool(b: bool)
    | JNumber(n: real)
    | JString(s: string)
    | JArray(items: seq<Json>)
    | JObject(fields: map<string, Json>)

  /** The content of one storage slot. */
  datatype Payload = EmptyText | Unparsable | JsonText(value: Json)

  /** `recentSearches_<lang>`. */
  function StorageKey(lang: string): (key: string)
    ensures |key| == |"recentSearches_"| + |lang|
    ensures key[..|"recentSearches_"|] == "recentSearches_" && key[|"recentSearches_"|..] == lang
  {
    "recentSearches_" + lang
  }

  /** Each language has its own slot. */
  lemma StorageKeyInjective(a: string, b: string)
    requires StorageKey(a) == StorageKey(b)
    ensures a == b
  {
    assert StorageKey(a)[|"recentSearches_"|..] == a;
  }

  // ---------------------------------------------------------------------
  // readFromStorage

  /** The type guard of the `filter`: an object whose `name` and `country`
      are strings and whose `lat` and `lon` are numbers. */
  predicate WellFormed(x: Json) {
    && x.JObject?
    && "name" in x.fields && x.fields["name"].JString?
    && "country" in x.fields && x.fields["country"].JString?
    && "lat" in x.fields && x.fields["lat"].JNumber?
    && "lon" in x.fields && x.fields["lon"].JNumber?
  }

  function Decode(x: Json): RecentSearch
    requires WellFormed(x)
  {
    RecentSearch(x.fields["name"].s, x.fields["country"].s, x.fields["lat"].n, x.fields["lon"].n)
  }

  /** The `filter` over the parsed array. */
  function KeepWellFormed(xs: seq<Json>): (r: seq<RecentSearch>)
    ensures |r| <= |xs|
    ensures forall i :: 0 <= i < |xs| && WellFormed(xs[i]) ==> Decode(xs[i]) in r
    ensures (forall i :: 0 <= i < |xs| ==> WellFormed(xs[i])) ==> |r| == |xs|
    ensures forall y :: y in r ==> exists i :: 0 <= i < |xs| && WellFormed(xs[i]) && y == Decode(xs[i])
  {
    if xs == [] then []
    else
      var rest := KeepWellFormed(xs[1..]);
      assert forall i :: 1 <= i < |xs| ==> xs[i] == xs[1..][i - 1];
      if WellFormed(xs[0]) then [Decode(xs[0])] + rest else rest
  }

  /** One entry is kept, decoded, exactly when it is well-formed. */
  lemma KeepWellFormedOne(x: Json)
    ensures KeepWellFormed([x]) == if WellFormed(x) then [Decode(x)] else []
  {
    assert [x][1..] == [];
  }

  /** The filter works entry by entry: it keeps the stored order and every
      repetition, so the result is fixed by `KeepWellFormedOne`. */
  lemma {:induction false} KeepWellFormedAppend(xs: seq<Json>, ys: seq<Json>)
    ensures KeepWellFormed(xs + ys) == KeepWellFormed(xs) + KeepWellFormed(ys)
  {
    if xs == [] {
      assert xs + ys == ys;
    } else {
      assert (xs + ys)[0] == xs[0];
      assert (xs + ys)[1..] == xs[1..] + ys;
      KeepWellFormedAppend(xs[1..], ys);
    }
  }

  /** `readFromStorage(lang)`: `[]` without storage, for a missing or empty
      slot, for text that does not parse, and for a value that is not an
      array; otherwise the well-formed entries in stored order. */
  function ReadFromStorage(storage: map<string, Payload>, available: bool, lang: string): (r: seq<RecentSearch>)
    ensures !available || StorageKey(lang) !in storage ==> r == []
    ensures StorageKey(lang) in storage && !storage[StorageKey(lang)].JsonText? ==> r == []
    ensures (StorageKey(lang) in storage && storage[StorageKey(lang)].JsonText?
             && !storage[StorageKey(lang)].value.JArray?) ==> r == []
    ensures (available && StorageKey(lang) in storage && storage[StorageKey(lang)].JsonText?
             && storage[StorageKey(lang)].value.JArray?)
            ==> r == KeepWellFormed(storage[StorageKey(lang)].value.items)
  {
    var key := StorageKey(lang);
    if !available || key !in storage then []
    else match storage[key]
      case EmptyText => []
      case Unparsable => []
      case JsonText(v) => if v.JArray? then KeepWellFormed(v.items) else []
  }

  // ---------------------------------------------------------------------
  // writeToStorage: JSON.stringify

  function EncodeOne(x: RecentSearch): (j: Json)
    ensures WellFormed(j) && Decode(j) == x
  {
    JObject(map["name" := JString(x.name), "country" := JString(x.country),
                "lat" := JNumber(x.lat), "lon" := JNumber(x.lon)])
  }

  function Encode(items: seq<RecentSearch>): (j: Json)
    ensures j.JArray? && |j.items| == |items|
    ensures forall i :: 0 <= i < |items| ==> j.items[i] == EncodeOne(items[i])
  {
    JArray(seq(|items|, i requires 0 <= i < |items| => EncodeOne(items[i])))
  }

  /** Decoding what was encoded gives the list back, unchanged. */
  lemma {:induction false} KeepWellFormedOfEncoded(items: seq<RecentSearch>)
    ensures KeepWellFormed(Encode(items).items) == items
  {
    if items != [] {
      assert Encode(items).items[1..] == Encode(items[1..]).items;
      KeepWellFormedOfEncoded(items[1..]);
    }
  }

  /** A list written to a language's slot is what that slot reads back. */
  lemma ReadAfterWrite(storage: map<string, Payload>, lang: string, items: seq<RecentSearch>)
    ensures ReadFromStorage(storage[StorageKey(lang) := JsonText(Encode(items))], true, lang) == items
  {
    KeepWellFormedOfEncoded(items);
  }

  /** Writing one language's slot leaves every other language's list as
      it was. */
  lemma WriteLeavesOtherLanguages(storage: map<string, Payload>, available: bool,
                                  lang: string, other: string, p: Payload)
    requires other != lang
    ensures ReadFromStorage(storage[StorageKey(lang) := p], available, other)
         == ReadFromStorage(storage, available, other)
  {
    if StorageKey(other) == StorageKey(lang) {
      StorageKeyInjective(other, lang);
    }
  }

  // ---------------------------------------------------------------------
  // add

  /** The same place: equal name and equal country. */
  predicate SamePlace(x: RecentSearch, y: RecentSearch) {
    x.name == y.name && x.country == y.country
  }

  /** `current.filter(x => !(same place as item))`. */
  function WithoutPlace(current: seq<RecentSearch>, item: RecentSearch): (r: seq<RecentSearch>)
    ensures |r| <= |current|
    ensures forall x :: x in r ==> x in current && !SamePlace(x, item)
    ensures forall x :: x in current && !SamePlace(x, item) ==> x in r
    ensures Subsequence(r, current)
    ensures (exists i :: 0 <= i < |current| && SamePlace(current[i], item)) ==> |r| < |current|
  {
    if current == [] then []
    else
      var rest := WithoutPlace(current[1..], item);
      assert forall x :: x in current <==> x == current[0] || x in current[1..];
      assert forall i :: 1 <= i < |current| ==> current[i] == current[1..][i - 1];
      if SamePlace(current[0], item) then rest
      else
        var r := [current[0]] + rest;
        assert r[1..] == rest;
        r
  }

  /** One entry survives exactly when it is not the same place as `item`. */
  lemma WithoutPlaceOne(x: RecentSearch, item: RecentSearch)
    ensures WithoutPlace([x], item) == if SamePlace(x, item) then [] else [x]
  {
    assert [x][1..] == [];
  }

  /** Every entry of another place keeps its number of copies; copies of
      `item`'s place are all dropped. */
  lemma {:induction false} WithoutPlaceCounts(current: seq<RecentSearch>, item: RecentSearch)
    ensures multiset(WithoutPlace(current, item)) <= multiset(current)
    ensures forall x :: !SamePlace(x, item) ==> multiset(WithoutPlace(current, item))[x] == multiset(current)[x]
    ensures forall x :: SamePlace(x, item) ==> multiset(WithoutPlace(current, item))[x] == 0
  {
    if current != [] {
      WithoutPlaceCounts(current[1..], item);
      assert current == [current[0]] + current[1..];
      assert multiset(current) == multiset{current[0]} + multiset(current[1..]);
      if !SamePlace(current[0], item) {
        var rest := WithoutPlace(current[1..], item);
        assert WithoutPlace(current, item) == [current[0]] + rest;
        assert multiset(WithoutPlace(current, item)) == multiset{current[0]} + multiset(rest);
      }
    }
  }

  /** The filter works entry by entry, keeping order and repetitions. */
  lemma {:induction false} WithoutPlaceAppend(a: seq<RecentSearch>, b: seq<RecentSearch>, item: RecentSearch)
    ensures WithoutPlace(a + b, item) == WithoutPlace(a, item) + WithoutPlace(b, item)
  {
    if a == [] {
      assert a + b == b;
    } else {
      assert (a + b)[0] == a[0];
      assert (a + b)[1..] == a[1..] + b;
      WithoutPlaceAppend(a[1..], b, item);
    }
  }

  /** `[item, ...filtered].slice(0, MAX_ITEMS)`. */
  function AddTo(current: seq<RecentSearch>, item: RecentSearch): seq<RecentSearch> {
    Take([item] + WithoutPlace(current, item), MaxItems)
  }

  /** The new item comes first, at most five are kept, nothing else names
      the same place, and the others keep their previous relative order. */
  lemma AddShape(current: seq<RecentSearch>, item: RecentSearch)
    ensures var r := AddTo(current, item);
      && |r| >= 1 && r[0] == item
      && |r| <= MaxItems
      && (forall i :: 1 <= i < |r| ==> !SamePlace(r[i], item))
      && Subsequence(r[1..], current)
  {
    var f := WithoutPlace(current, item);
    var r := AddTo(current, item);
    assert r[1..] == f[..|r| - 1];
    forall i | 1 <= i < |r| ensures !SamePlace(r[i], item) {
      assert r[i] == f[i - 1] && f[i - 1] in f;
    }
    SubsequencePrefix(f, current, |r| - 1);
  }

  /** A prefix of a subsequence is a subsequence. */
  lemma {:induction false} SubsequencePrefix(a: seq<RecentSearch>, b: seq<RecentSearch>, n: nat)
    requires Subsequence(a, b) && n <= |a|
    ensures Subsequence(a[..n], b)
    decreases |b|
  {
    if n > 0 {
      if a[0] == b[0] && Subsequence(a[1..], b[1..]) {
        SubsequencePrefix(a[1..], b[1..], n - 1);
        assert a[..n][1..] == a[1..][..n - 1];
      } else {
        SubsequencePrefix(a, b[1..], n);
      }
    }
  }

  /** Re-adding a place already in the list does not make it longer. */
  lemma ReAddDoesNotGrow(current: seq<RecentSearch>, item: RecentSearch, i: int)
    requires 0 <= i < |current| && SamePlace(current[i], item)
    ensures |AddTo(current, item)| <= |current|
  {
  }

  /** The length is `min(5, 1 + the number of entries naming other places)`. */
  lemma AddLength(current: seq<RecentSearch>, item: RecentSearch)
    ensures |AddTo(current, item)| == Min(MaxItems, 1 + |WithoutPlace(current, item)|)
  {
  }

  /** A list naming each place at most once still does after `add`. */
  lemma AddKeepsPlacesDistinct(current: seq<RecentSearch>, item: RecentSearch)
    requires forall i, j :: 0 <= i < j < |current| ==> !SamePlace(current[i], current[j])
    ensures var r := AddTo(current, item);
      forall i, j :: 0 <= i < j < |r| ==> !SamePlace(r[i], r[j])
  {
    var f := WithoutPlace(current, item);
    var r := AddTo(current, item);
    AddShape(current, item);
    DistinctSubsequence(f, current);
    forall i, j | 0 <= i < j < |r| ensures !SamePlace(r[i], r[j]) {
      if i > 0 {
        assert r[i] == f[i - 1] && r[j] == f[j - 1];
      }
    }
  }

  /** A subsequence of a list naming each place once names each place once. */
  lemma {:induction false} DistinctSubsequence(a: seq<RecentSearch>, b: seq<RecentSearch>)
    requires Subsequence(a, b)
    requires forall i, j :: 0 <= i < j < |b| ==> !SamePlace(b[i], b[j])
    ensures forall i, j :: 0 <= i < j < |a| ==> !SamePlace(a[i], a[j])
    decreases |b|
  {
    if a != [] {
      assert forall i, j :: 0 <= i < j < |b[1..]| ==> b[1..][i] == b[i + 1] && b[1..][j] == b[j + 1];
      if a[0] == b[0] && Subsequence(a[1..], b[1..]) {
        DistinctSubsequence(a[1..], b[1..]);
        SubsequenceFrom(a[1..], b[1..]);
        forall j | 1 <= j < |a| ensures !SamePlace(a[0], a[j]) {
          assert a[j] == a[1..][j - 1];
          assert a[j] in a[1..];
          var k :| 0 <= k < |b[1..]| && b[1..][k] == a[j];
          assert b[k + 1] == a[j];
        }
        forall i, j | 1 <= i < j < |a| ensures !SamePlace(a[i], a[j]) {
          assert a[i] == a[1..][i - 1] && a[j] == a[1..][j - 1];
        }
      } else {
        DistinctSubsequence(a, b[1..]);
      }
    }
  }

  /** Every element of a subsequence sits somewhere in the whole. */
  lemma {:induction false} SubsequenceFrom(a: seq<RecentSearch>, b: seq<RecentSearch>)
    requires Subsequence(a, b)
    ensures forall x :: x in a ==> exists k :: 0 <= k < |b| && b[k] == x
    decreases |b|
  {
    if a != [] {
      if a[0] == b[0] && Subsequence(a[1..], b[1..]) {
        SubsequenceFrom(a[1..], b[1..]);
        forall x | x in a ensures exists k :: 0 <= k < |b| && b[k] == x {
          if x == a[0] {
            assert b[0] == x;
          } else {
            assert x in a[1..];
            var k :| 0 <= k < |b[1..]| && b[1..][k] == x;
            assert b[k + 1] == x;
          }
        }
      } else {
        SubsequenceFrom(a, b[1..]);
        forall x | x in a ensures exists k :: 0 <= k < |b| && b[k] == x {
          var k :| 0 <= k < |b[1..]| && b[1..][k] == x;
          assert b[k + 1] == x;
        }
      }
    }
  }

  /** One mounted `useRecentSearches(lang)`: the storage it sees, whether
      storage can be reached at all, and its `items` state. */
  class RecentSearchStore {
    var lang: string
    var storage: map<string, Payload>
    const available: bool
    var items: seq<RecentSearch>

    constructor (lang: string, storage: map<string, Payload>, available: bool)
      ensures this.lang == lang && this.storage == storage && this.available == available
      ensures items == []
    {
      this.lang := lang;
      this.storage := storage;
      this.available := available;
      items := [];
    }

    /** The effect on `lang`: load that language's list into `items`. */
    method SwitchLanguage(newLang: string)
      modifies this
      ensures lang == newLang && storage == old(storage)
      ensures items == ReadFromStorage(storage, available, newLang)
    {
      lang := newLang;
      items := ReadFromStorage(storage, available, lang);
    }

    /** `writeToStorage(lang, items)`; `writeOk` says whether `setItem`
        succeeds (a failure is swallowed). */
    method WriteToStorage(list: seq<RecentSearch>, writeOk: bool)
      modifies this
      ensures lang == old(lang) && items == old(items)
      ensures storage == if available && writeOk then old(storage)[StorageKey(lang) := JsonText(Encode(list))]
                         else old(storage)
    {
      if available && writeOk {
        storage := storage[StorageKey(lang) := JsonText(Encode(list))];
      }
    }

    /** `add(item)`: re-read the slot, put `item` first, write back and
        set `items`, whatever the write's outcome. */
    method Add(item: RecentSearch, writeOk: bool) returns (updated: seq<RecentSearch>)
      modifies this
      ensures updated == AddTo(ReadFromStorage(old(storage), available, old(lang)), item)
      ensures items == updated && lang == old(lang)
      ensures storage == if available && writeOk then old(storage)[StorageKey(lang) := JsonText(Encode(updated))]
                         else old(storage)
      ensures available && writeOk ==> ReadFromStorage(storage, available, lang) == updated
      ensures forall other :: other != lang ==>
        ReadFromStorage(storage, available, other) == ReadFromStorage(old(storage), available, other)
    {
      var current := ReadFromStorage(storage, available, lang);
      var filtered := WithoutPlace(current, item);
      updated := Take([item] + filtered, MaxItems);
      WriteToStorage(updated, writeOk);
      items := updated;
      if available && writeOk {
        ReadAfterWrite(old(storage), lang, updated);
        forall other | other != lang
          ensures ReadFromStorage(storage, available, other) == ReadFromStorage(old(storage), available, other)
        {
          WriteLeavesOtherLanguages(old(storage), available, lang, other, JsonText(Encode(updated)));
        }
      }
    }
  }
}
