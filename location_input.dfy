/** The location input: case-insensitive suggestion filtering, when the
    dropdown and the clear button appear, and the focus/blur/click handlers. */
module LocationInput {

  /** `toLowerCase` on one character, for the ASCII letters. */
  function LowerChar(c: char): char
  {
    if 'A' <= c <= 'Z' then (c as int + 32) as char else c
  }

  /** `toLowerCase` on a string: every character lowered, nothing else changed. */
  function ToLower(s: string): (r: string)
    ensures |r| == |s|
    ensures forall i :: 0 <= i < |s| ==> r[i] == LowerChar(s[i])
    decreases |s|
  {
    if s == [] then [] else [LowerChar(s[0])] + ToLower(s[1..])
  }

  /** Lowering twice is lowering once. */
  lemma ToLowerIdempotent(s: string)
    ensures ToLower(ToLower(s)) == ToLower(s)
  {
    var once := ToLower(s);
    assert forall i :: 0 <= i < |s| ==> LowerChar(once[i]) == once[i];
  }

  /** `hay.includes(needle)`, scanning `hay` from the left. */
  predicate Includes(hay: string, needle: string)
    decreases |hay|
  {
    needle <= hay || (hay != [] && Includes(hay[1..], needle))
  }

  /** `needle` occurs in `hay` at index `i`. */
  ghost predicate OccursAt(hay: string, needle: string, i: int)
  {
    0 <= i && i + |needle| <= |hay| && hay[i..i + |needle|] == needle
  }

  /** The scan finds `needle` exactly when it occurs somewhere in `hay`. */
  lemma {:induction false} IncludesIffOccurs(hay: string, needle: string)
    ensures Includes(hay, needle) <==> exists i :: OccursAt(hay, needle, i)
    decreases |hay|
  {
    if needle <= hay {
      assert OccursAt(hay, needle, 0);
    } else if hay == [] {
      assert |needle| > 0;
    } else {
      IncludesIffOccurs(hay[1..], needle);
      if exists i :: OccursAt(hay[1..], needle, i) {
        var i :| OccursAt(hay[1..], needle, i);
        assert hay[i + 1..i + 1 + |needle|] == hay[1..][i..i + |needle|];
        assert OccursAt(hay, needle, i + 1);
      }
      if exists i :: OccursAt(hay, needle, i) {
        var i :| OccursAt(hay, needle, i);
        assert i != 0;
        assert hay[1..][i - 1..i - 1 + |needle|] == hay[i..i + |needle|];
        assert OccursAt(hay[1..], needle, i - 1);
      }
    }
  }

  /** Every string includes the empty string. */
  lemma {:induction false} IncludesEmpty(hay: string)
    ensures Includes(hay, "")
  {
  }

  /** The filter's test: the suggestion, lowered, includes the typed value, lowered. */
  predicate Matches(suggestion: string, value: string)
  {
    Includes(ToLower(suggestion), ToLower(value))
  }

  /** `r` is `s` with some elements left out, the rest in the same order. */
  ghost predicate IsSubsequence<T>(r: seq<T>, s: seq<T>)
    decreases |s|
  {
    if r == [] then true
    else if s == [] then false
    else if r[0] == s[0] then IsSubsequence(r[1..], s[1..])
    else IsSubsequence(r, s[1..])
  }

  /** `suggestions.filter(s => s.toLowerCase().includes(value.toLowerCase()))`:
      every matching suggestion as often as it occurs, no other, in the
      original order. */
  function FilterSuggestions(suggestions: seq<string>, value: string): (r: seq<string>)
    ensures forall x :: multiset(r)[x] == if Matches(x, value) then multiset(suggestions)[x] else 0
    ensures forall x :: x in r <==> x in suggestions && Matches(x, value)
    ensures IsSubsequence(r, suggestions)
    decreases |suggestions|
  {
    if suggestions == [] then []
    else
      var rest := FilterSuggestions(suggestions[1..], value);
      assert suggestions == [suggestions[0]] + suggestions[1..];
      if Matches(suggestions[0], value) then [suggestions[0]] + rest else rest
  }

  /** The filter does not depend on the case of the typed value. */
  lemma FilterIgnoresCase(suggestions: seq<string>, value: string)
    ensures FilterSuggestions(suggestions, ToLower(value)) == FilterSuggestions(suggestions, value)
  {
    ToLowerIdempotent(value);
    assert forall x :: Matches(x, ToLower(value)) == Matches(x, value);
    FilterAgrees(suggestions, ToLower(value), value);
  }

  /** Two typed values that match the same suggestions filter alike. */
  lemma {:induction false} FilterAgrees(suggestions: seq<string>, v1: string, v2: string)
    requires forall x :: Matches(x, v1) == Matches(x, v2)
    ensures FilterSuggestions(suggestions, v1) == FilterSuggestions(suggestions, v2)
    decreases |suggestions|
  {
    if suggestions != [] {
      FilterAgrees(suggestions[1..], v1, v2);
    }
  }

  /** An empty value keeps every suggestion. */
  lemma {:induction false} FilterEmptyKeepsAll(suggestions: seq<string>)
    ensures FilterSuggestions(suggestions, "") == suggestions
    decreases |suggestions|
  {
    if suggestions != [] {
      IncludesEmpty(ToLower(suggestions[0]));
      FilterEmptyKeepsAll(suggestions[1..]);
    }
  }

  /** The dropdown is rendered: suggestions wanted, something typed, and a
      non-empty suggestion list (before filtering). */
  predicate DropdownShown(showSuggestions: bool, value: string, suggestions: seq<string>)
  {
    showSuggestions && value != "" && |suggestions| > 0
  }

  /** The clear button is rendered: something typed. */
  predicate ClearButtonShown(value: string)
  {
    value != ""
  }

  /** With the default empty suggestion list the dropdown never appears. */
  lemma NoSuggestionsNoDropdown(showSuggestions: bool, value: string)
    ensures !DropdownShown(showSuggestions, value, [])
  {
  }

  /** The dropdown and the clear button only appear when something is typed. */
  lemma DropdownNeedsClearButton(showSuggestions: bool, value: string, suggestions: seq<string>)
    ensures DropdownShown(showSuggestions, value, suggestions) ==> ClearButtonShown(value)
  {
  }

  /** The component's two state cells. */
  class InputState {
    var isFocused: bool
    var showSuggestions: bool

    constructor ()
      ensures !isFocused && !showSuggestions
    {
      isFocused, showSuggestions := false, false;
    }

    /** `handleFocus`. */
    method Focus()
      modifies this
      ensures isFocused && showSuggestions
    {
      isFocused := true;
      showSuggestions := true;
    }

    /** `handleBlur`: focus is lost at once; the list stays until the delayed
        callback, `BlurDelayElapsed`, fires. */
    method Blur()
      modifies this`isFocused
      ensures !isFocused
    {
      isFocused := false;
    }

    /** The callback `handleBlur` schedules. */
    method BlurDelayElapsed()
      modifies this`showSuggestions
      ensures !showSuggestions
    {
      showSuggestions := false;
    }

    /** `handleSuggestionClick`: returns the string passed to `onChange`, and
        hides the list. */
    method SuggestionClick(suggestion: string) returns (changedTo: string)
      modifies this`showSuggestions
      ensures changedTo == suggestion
      ensures !showSuggestions
    {
      changedTo := suggestion;
      showSuggestions := false;
    }
  }
}
