/** The search box (`SearchBar`): the highlighting of the query inside a
    suggestion, the display string a chosen place is written back as, the
    two dropdown visibility predicates, and the open/recent flags its
    handlers update. Case-insensitive matching compares ASCII letters
    without regard to case. */
module SearchBar {
  import opened Common

  // ---------------------------------------------------------------------
  // HighlightMatch: escaping the query

  /** The characters the escaping `replace` prefixes with a backslash. */
  predicate IsMeta(c: char) {
    c in ".*+?^${}()|[]\\"
  }

  /** `q.replace(/[.*+?^${}()|[\]\\]/g, "\\$&")`. */
  function Escape(q: string): (r: string)
    ensures |r| >= |q|
  {
    if q == [] then []
    else (if IsMeta(q[0]) then ['\\', q[0]] else [q[0]]) + Escape(q[1..])
  }

  /** The text a pattern made only of ordinary characters and escaped
      metacharacters stands for; `None` when the pattern holds a bare
      metacharacter or any other escape, that is, when it is not a
      literal. */
  function LiteralOf(p: string): Option<string>
    decreases |p|
  {
    if p == [] then Some([])
    else if p[0] == '\\' then
      if |p| >= 2 && IsMeta(p[1]) then
        var rest := LiteralOf(p[2..]);
        if rest.Some? then Some([p[1]] + rest.value) else None
      else None
    else if IsMeta(p[0]) then None
    else
      var rest := LiteralOf(p[1..]);
      if rest.Some? then Some([p[0]] + rest.value) else None
  }

  /** The escaped query is a literal pattern for exactly the query: no
      character of it keeps a regular-expression meaning. */
  lemma {:induction false} EscapeIsLiteral(q: string)
    ensures LiteralOf(Escape(q)) == Some(q)
  {
    if q != [] {
      EscapeIsLiteral(q[1..]);
      var e := Escape(q);
      if IsMeta(q[0]) {
        assert e[0] == '\\' && e[1] == q[0] && e[2..] == Escape(q[1..]);
      } else {
        assert e[0] == q[0] && e[1..] == Escape(q[1..]);
      }
      assert [q[0]] + q[1..] == q;
    }
  }

  // ---------------------------------------------------------------------
  // HighlightMatch: splitting on the case-insensitive query

  /** The query occurs at index `i` of `text`, ignoring case. */
  predicate MatchesAt(text: string, q: string, i: int) {
    0 <= i && i + |q| <= |text| && EqualsIgnoringCase(text[i..i + |q|], q)
  }

  /** The leftmost occurrence at or after `from`. */
  function FindFrom(text: string, q: string, from: nat): (r: Option<nat>)
    requires from <= |text|
    ensures r.Some? ==> from <= r.value && MatchesAt(text, q, r.value)
    ensures r.Some? ==> forall j :: from <= j < r.value ==> !MatchesAt(text, q, j)
    ensures r.None? ==> forall j :: from <= j ==> !MatchesAt(text, q, j)
    decreases |text| - from
  {
    if from + |q| > |text| then None
    else if MatchesAt(text, q, from) then Some(from)
    else if from == |text| then None
    else FindFrom(text, q, from + 1)
  }

  /** The concatenation of the parts. */
  function Concat(parts: seq<string>): string {
    if parts == [] then "" else parts[0] + Concat(parts[1..])
  }

  /** `text.split(new RegExp("(" + escaped + ")", "gi"))` for a non-empty
      query: the text between matches at even indices, the matched text
      (as it appears in `text`) at odd indices. */
  function SplitCI(text: string, q: string): (parts: seq<string>)
    requires q != []
    ensures |parts| % 2 == 1
    decreases |text|
  {
    match FindFrom(text, q, 0)
    case None => [text]
    case Some(i) => [text[..i], text[i..i + |q|]] + SplitCI(text[i + |q|..], q)
  }

  /** The parts put together again are the text. */
  lemma {:induction false} SplitConcat(text: string, q: string)
    requires q != []
    ensures Concat(SplitCI(text, q)) == text
    decreases |text|
  {
    var f := FindFrom(text, q, 0);
    if f.Some? {
      var i := f.value;
      var rest := SplitCI(text[i + |q|..], q);
      var parts := SplitCI(text, q);
      SplitConcat(text[i + |q|..], q);
      assert parts[1..][1..] == rest;
      assert text[..i] + (text[i..i + |q|] + text[i + |q|..]) == text;
    }
  }

  /** Every odd-index part is the query, ignoring case. */
  predicate OddPartsMatch(parts: seq<string>, q: string) {
    forall k :: 0 <= k < |parts| && k % 2 == 1 ==> EqualsIgnoringCase(parts[k], q)
  }

  lemma {:induction false} SplitOddPartsMatch(text: string, q: string)
    requires q != []
    ensures OddPartsMatch(SplitCI(text, q), q)
    decreases |text|
  {
    var f := FindFrom(text, q, 0);
    if f.Some? {
      var i := f.value;
      var rest := SplitCI(text[i + |q|..], q);
      var parts := SplitCI(text, q);
      assert parts == [text[..i], text[i..i + |q|]] + rest;
      SplitOddPartsMatch(text[i + |q|..], q);
      forall k | 0 <= k < |parts| && k % 2 == 1 ensures EqualsIgnoringCase(parts[k], q) {
        if k == 1 {
          assert MatchesAt(text, q, i);
        } else {
          assert parts[k] == rest[k - 2];
        }
      }
    }
  }

  /** No even-index part contains the query, ignoring case. */
  ghost predicate EvenPartsClean(parts: seq<string>, q: string) {
    forall k, j :: 0 <= k < |parts| && k % 2 == 0 ==> !MatchesAt(parts[k], q, j)
  }

  /** The text before the leftmost match holds no match. */
  lemma NoMatchBefore(text: string, q: string, i: nat)
    requires q != [] && i <= |text|
    requires forall j :: 0 <= j < i ==> !MatchesAt(text, q, j)
    ensures forall j :: !MatchesAt(text[..i], q, j)
  {
    forall j ensures !MatchesAt(text[..i], q, j) {
      if 0 <= j && j + |q| <= i {
        assert text[..i][j..j + |q|] == text[j..j + |q|];
        assert !MatchesAt(text, q, j);
      }
    }
  }

  /** The matches are found leftmost first, so the text between them is
      clean. */
  lemma {:induction false} SplitEvenPartsClean(text: string, q: string)
    requires q != []
    ensures EvenPartsClean(SplitCI(text, q), q)
    decreases |text|
  {
    var f := FindFrom(text, q, 0);
    if f.None? {
      assert SplitCI(text, q) == [text];
    } else {
      var i := f.value;
      var rest := SplitCI(text[i + |q|..], q);
      var parts := SplitCI(text, q);
      assert parts == [text[..i], text[i..i + |q|]] + rest;
      SplitEvenPartsClean(text[i + |q|..], q);
      NoMatchBefore(text, q, i);
      forall k, j | 0 <= k < |parts| && k % 2 == 0 ensures !MatchesAt(parts[k], q, j) {
        if k >= 2 {
          assert parts[k] == rest[k - 2];
        }
      }
    }
  }

  /** A part of the highlighted text. */
  datatype Part = Plain(s: string) | Marked(s: string)

  function PartText(p: Part): string {
    match p
    case Plain(s) => s
    case Marked(s) => s
  }

  /** What `HighlightMatch` renders: nothing for a missing or non-string
      text; the text alone for a missing, non-string or blank query;
      otherwise the split parts, odd ones marked. */
  function Highlight(text: Option<string>, query: Option<string>): (r: Option<seq<Part>>)
    ensures text.None? <==> r.None?
    ensures text.Some? && (query.None? || Trim(query.value) == "") ==> r == Some([Plain(text.value)])
    ensures r.Some? ==> |r.value| % 2 == 1
    ensures r.Some? ==> forall k :: 0 <= k < |r.value| ==> (r.value[k].Marked? <==> k % 2 == 1)
  {
    if text.None? then None
    else
      var q := if query.Some? then Trim(query.value) else "";
      if q == "" then Some([Plain(text.value)])
      else
        var parts := SplitCI(text.value, q);
        Some(seq(|parts|, k requires 0 <= k < |parts| => if k % 2 == 1 then Marked(parts[k]) else Plain(parts[k])))
  }

  /** The texts of the parts put together again are the original text;
      each marked part is the trimmed query up to case, and no plain part
      contains it. */
  lemma HighlightFaithful(text: string, query: Option<string>)
    requires query.Some? && Trim(query.value) != ""
    ensures var parts := Highlight(Some(text), query).value;
      var texts := seq(|parts|, k requires 0 <= k < |parts| => PartText(parts[k]));
      && Concat(texts) == text
      && (forall k :: 0 <= k < |parts| && parts[k].Marked? ==> EqualsIgnoringCase(parts[k].s, Trim(query.value)))
      && (forall k, j :: 0 <= k < |parts| && parts[k].Plain? ==> !MatchesAt(parts[k].s, Trim(query.value), j))
  {
    var q := Trim(query.value);
    var split := SplitCI(text, q);
    var parts := Highlight(Some(text), query).value;
    var texts := seq(|parts|, k requires 0 <= k < |parts| => PartText(parts[k]));
    assert |texts| == |parts| == |split|;
    forall k | 0 <= k < |parts|
      ensures texts[k] == parts[k].s == split[k] && (parts[k].Marked? <==> k % 2 == 1)
    {
    }
    assert texts == split;
    SplitConcat(text, q);
    SplitOddPartsMatch(text, q);
    SplitEvenPartsClean(text, q);
    forall k | 0 <= k < |parts| && parts[k].Marked? ensures EqualsIgnoringCase(parts[k].s, q) {
      assert k % 2 == 1;
    }
    forall k, j | 0 <= k < |parts| && parts[k].Plain? ensures !MatchesAt(parts[k].s, q, j) {
      assert k % 2 == 0;
    }
  }

  // ---------------------------------------------------------------------
  // The display string of a chosen place

  /** `[name ?? "", country ?? ""].filter(Boolean).join(", ")`. */
  function DisplayString(name: Option<string>, country: Option<string>): (d: string)
    ensures var n, c := name.GetOr(""), country.GetOr("");
      && (n != "" && c != "" ==> d == n + ", " + c)
      && (n != "" && c == "" ==> d == n)
      && (n == "" && c != "" ==> d == c)
      && (n == "" && c == "" ==> d == "")
  {
    var n, c := name.GetOr(""), country.GetOr("");
    Join(if n != "" && c != "" then [n, c] else if n != "" then [n] else if c != "" then [c] else [], ", ")
  }

  // ---------------------------------------------------------------------
  // Visibility

  /** `isOpen && value.trim().length >= 2`. */
  predicate ShowDropdown(isOpen: bool, value: string) {
    isOpen && |Trim(value)| >= 2
  }

  /** `showRecent && value.trim().length === 0 && recentSearches.length > 0`. */
  predicate ShowRecentSearches(showRecent: bool, value: string, recentCount: nat) {
    showRecent && |Trim(value)| == 0 && recentCount > 0
  }

  /** The suggestion list and the recent list are never shown together. */
  lemma NeverBothShown(isOpen: bool, showRecent: bool, value: string, recentCount: nat)
    ensures !(ShowDropdown(isOpen, value) && ShowRecentSearches(showRecent, value, recentCount))
  {
  }

  /** The flags of one search box and the value its parent passes in. */
  class SearchBarState {
    var value: string
    var isOpen: bool
    var showRecent: bool
    var recentCount: nat

    constructor (value: string, recentCount: nat)
      ensures this.value == value && this.recentCount == recentCount
      ensures !isOpen && !showRecent
    {
      this.value := value;
      this.recentCount := recentCount;
      isOpen := false;
      showRecent := false;
    }

    /** The effect on `value`: a query of two or more characters opens the
        suggestions and hides the recent list; a shorter one closes the
        suggestions. */
    method ValueChanged()
      modifies this
      ensures |Trim(value)| >= 2 ==> isOpen && !showRecent
      ensures |Trim(value)| < 2 ==> !isOpen && showRecent == old(showRecent)
      ensures ShowDropdown(isOpen, value) <==> |Trim(value)| >= 2
      ensures value == old(value) && recentCount == old(recentCount)
    {
      if |Trim(value)| >= 2 {
        isOpen := true;
        showRecent := false;
      } else {
        isOpen := false;
      }
    }

    /** `handleFocus`. */
    method HandleFocus()
      modifies this
      ensures |Trim(value)| >= 2 ==> isOpen && showRecent == old(showRecent)
      ensures |Trim(value)| < 2 && recentCount > 0 ==> showRecent && isOpen == old(isOpen)
      ensures |Trim(value)| < 2 && recentCount == 0 ==> showRecent == old(showRecent) && isOpen == old(isOpen)
      ensures value == old(value) && recentCount == old(recentCount)
    {
      if |Trim(value)| >= 2 {
        isOpen := true;
      } else if recentCount > 0 {
        showRecent := true;
      }
    }

    /** `handleChange(v)`: the new value goes to the parent; a non-blank
        value hides the recent list. */
    method HandleChange(v: string)
      modifies this
      ensures value == v && isOpen == old(isOpen) && recentCount == old(recentCount)
      ensures showRecent == (old(showRecent) && |Trim(v)| == 0)
      ensures |Trim(v)| > 0 ==> !ShowRecentSearches(showRecent, value, recentCount)
    {
      value := v;
      if |Trim(v)| > 0 {
        showRecent := false;
      }
    }

    /** `handleSelect(suggestion)` and `handleRecentSelect(item)`: the
        display string becomes the value and both lists close.
        `handleSelect` passes the display string on, which is what this
        method returns; `handleRecentSelect` passes on the item itself,
        which its caller already holds. */
    method HandleSelect(name: Option<string>, country: Option<string>) returns (display: string)
      modifies this
      ensures display == DisplayString(name, country) && value == display
      ensures !isOpen && !showRecent && recentCount == old(recentCount)
    {
      display := DisplayString(name, country);
      value := display;
      isOpen := false;
      showRecent := false;
    }

    /** A click outside the box or the Escape key. */
    method Dismiss()
      modifies this
      ensures !isOpen && !showRecent
      ensures value == old(value) && recentCount == old(recentCount)
    {
      isOpen := false;
      showRecent := false;
    }

    /** `handleSubmit`: close the suggestions, then submit. */
    method HandleSubmit()
      modifies this
      ensures !isOpen && showRecent == old(showRecent)
      ensures value == old(value) && recentCount == old(recentCount)
    {
      isOpen := false;
    }
  }
}
