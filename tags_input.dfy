/**
 * `ImprovedTagsInput`: a list of free-text tags with an input box, a
 * suggestion dropdown and keyboard handling. The tag list belongs to the
 * parent (`setTags`); here it is a field the handlers reassign, as the parent
 * does when it stores what `setTags` receives.
 */
module TagsInput {
  import opened Common

  const DefaultMaxTags := 10
  /** The dropdown shows at most this many suggestions (`slice(0, 5)`). */
  const ShownSuggestions := 5

  function DefaultSuggestions(): seq<string>
  {
    ["Increase brand awareness", "Drive sales", "Generate leads", "Improve engagement",
     "Build community", "Launch new product", "Boost website traffic", "Increase followers"]
  }

  /** A tag list the widget itself could have built: no duplicates, within the limit, every tag trimmed and non-empty. */
  predicate TagsValid(tags: seq<string>, maxTags: int)
  {
    |tags| <= maxTags && Distinct(tags) && forall x | x in tags :: x != "" && Trim(x) == x
  }

  predicate Distinct(tags: seq<string>)
  {
    forall i, j :: 0 <= i < j < |tags| ==> tags[i] != tags[j]
  }

  /** `tagToAdd || inputValue`: a missing or empty suggestion falls back to what was typed. */
  function Candidate(tagToAdd: Option<string>, inputValue: string): (c: string)
    ensures tagToAdd.Some? && tagToAdd.value != "" ==> c == tagToAdd.value
    ensures tagToAdd.None? || tagToAdd.value == "" ==> c == inputValue
  {
    if tagToAdd.Some? && tagToAdd.value != "" then tagToAdd.value else inputValue
  }

  /** Whether `addTag` accepts the candidate. */
  predicate Accepts(tags: seq<string>, candidate: string, maxTags: int)
  {
    Trim(candidate) != "" && Trim(candidate) !in tags && |tags| < maxTags
  }

  /** `tags.filter(tag => tag !== t)`. */
  function Without(tags: seq<string>, t: string): (r: seq<string>)
    ensures |r| <= |tags|
    ensures forall x :: x in r <==> x in tags && x != t
  {
    if tags == [] then [] else (if tags[0] == t then [] else [tags[0]]) + Without(tags[1..], t)
  }

  /** The caller's suggestions, then the defaults. */
  function AllSuggestions(suggestions: seq<string>): seq<string>
  {
    suggestions + DefaultSuggestions()
  }

  /** Whether one suggestion passes the dropdown filter. */
  predicate Suggests(s: string, tags: seq<string>, inputValue: string)
  {
    Contains(ToLower(s), ToLower(inputValue)) && s !in tags && |inputValue| > 0
  }

  /** `filteredSuggestions`, in the order of the list it filters. */
  function Matching(all: seq<string>, tags: seq<string>, inputValue: string): (r: seq<string>)
    ensures |r| <= |all|
    ensures forall s :: s in r <==> s in all && Suggests(s, tags, inputValue)
  {
    if all == [] then []
    else (if Suggests(all[0], tags, inputValue) then [all[0]] else []) + Matching(all[1..], tags, inputValue)
  }

  /** The suggestions the dropdown lists. */
  function Shown(suggestions: seq<string>, tags: seq<string>, inputValue: string): seq<string>
  {
    var m := Matching(AllSuggestions(suggestions), tags, inputValue);
    if |m| <= ShownSuggestions then m else m[..ShownSuggestions]
  }

  datatype Key = Enter | Backspace | Escape | OtherKey

  /** The widget's state: the parent's tag list and the component's own two state variables. */
  datatype Ui = Ui(tags: seq<string>, inputValue: string, showSuggestions: bool)

  function AddTagOutcome(st: Ui, tagToAdd: Option<string>, maxTags: int): Ui
  {
    var c := Candidate(tagToAdd, st.inputValue);
    if Accepts(st.tags, c, maxTags) then Ui(st.tags + [Trim(c)], "", false) else st
  }

  function RemoveTagOutcome(st: Ui, t: string): Ui
  {
    st.(tags := Without(st.tags, t))
  }

  function KeyDownOutcome(st: Ui, key: Key, maxTags: int): Ui
  {
    match key
    case Enter => AddTagOutcome(st, None, maxTags)
    case Backspace =>
      if st.inputValue == "" && |st.tags| > 0 then RemoveTagOutcome(st, st.tags[|st.tags| - 1]) else st
    case Escape => st.(showSuggestions := false)
    case OtherKey => st
  }

  /** The text box is disabled with the widget or once the list is full. */
  predicate InputDisabled(tags: seq<string>, disabled: bool, maxTags: int)
  {
    disabled || |tags| >= maxTags
  }

  /** The Add button additionally needs something other than white space typed. */
  predicate AddDisabled(st: Ui, disabled: bool, maxTags: int)
  {
    Trim(st.inputValue) == "" || disabled || |st.tags| >= maxTags
  }

  class TagsInputWidget {
    var tags: seq<string>
    var inputValue: string
    var showSuggestions: bool
    const maxTags: int
    const suggestions: seq<string>

    function Current(): Ui
      reads this
    {
      Ui(tags, inputValue, showSuggestions)
    }

    constructor (tags: seq<string>, maxTags: int, suggestions: seq<string>)
      ensures Current() == Ui(tags, "", false)
      ensures this.maxTags == maxTags && this.suggestions == suggestions
    {
      this.tags := tags;
      this.maxTags := maxTags;
      this.suggestions := suggestions;
      inputValue := "";
      showSuggestions := false;
    }

    /** `addTag`, from the Add button or Enter (`None`) or a clicked suggestion. */
    method AddTag(tagToAdd: Option<string>)
      modifies this
      ensures Current() == AddTagOutcome(old(Current()), tagToAdd, maxTags)
    {
      var trimmedValue := Trim(if tagToAdd.Some? && tagToAdd.value != "" then tagToAdd.value else inputValue);
      if trimmedValue != "" && trimmedValue !in tags && |tags| < maxTags {
        tags := tags + [trimmedValue];
        inputValue := "";
        showSuggestions := false;
      }
    }

    /** `removeTag`, from a tag's remove button. */
    method RemoveTag(t: string)
      modifies this
      ensures Current() == RemoveTagOutcome(old(Current()), t)
    {
      tags := Without(tags, t);
    }

    method HandleKeyDown(key: Key)
      modifies this
      ensures Current() == KeyDownOutcome(old(Current()), key, maxTags)
    {
      match key {
        case Enter => AddTag(None);
        case Backspace =>
          if inputValue == "" && |tags| > 0 {
            RemoveTag(tags[|tags| - 1]);
          }
        case Escape => showSuggestions := false;
        case OtherKey =>
      }
    }

    /** Typing replaces the input and opens the dropdown iff something is typed. */
    method HandleInputChange(value: string)
      modifies this
      ensures Current() == old(Current()).(inputValue := value, showSuggestions := |value| > 0)
    {
      inputValue := value;
      showSuggestions := |value| > 0;
    }

    method HandleInputFocus()
      modifies this
      ensures Current() == old(Current()).(showSuggestions := old(showSuggestions) || |inputValue| > 0)
    {
      if |inputValue| > 0 {
        showSuggestions := true;
      }
    }

    /** Blur closes the dropdown once its 200 ms delay has passed. */
    method HandleInputBlurElapsed()
      modifies this
      ensures Current() == old(Current()).(showSuggestions := false)
    {
      showSuggestions := false;
    }
  }

  // ---- Properties ----

  /** `addTag` appends the trimmed candidate exactly when it is accepted, and otherwise changes nothing. */
  lemma AddTagBehaviour(st: Ui, tagToAdd: Option<string>, maxTags: int)
    ensures var c := Candidate(tagToAdd, st.inputValue); var r := AddTagOutcome(st, tagToAdd, maxTags);
      && (Trim(c) != "" && Trim(c) !in st.tags && |st.tags| < maxTags ==> r.tags == st.tags + [Trim(c)])
      && (Trim(c) == "" || Trim(c) in st.tags || |st.tags| >= maxTags ==> r == st)
  {
  }

  /** The input is cleared, and the dropdown closed, exactly when a tag was added. */
  lemma InputClearedOnlyOnAdd(st: Ui, tagToAdd: Option<string>, maxTags: int)
    requires st.inputValue != ""
    ensures var r := AddTagOutcome(st, tagToAdd, maxTags);
      r.inputValue == "" <==> |r.tags| == |st.tags| + 1
  {
  }

  lemma TrimIdempotent(s: string)
    ensures Trim(Trim(s)) == Trim(s)
  {
    var t := TrimStart(s);
    var u := TrimEnd(t);
    TrimStartSpec(s);
    TrimEndSpec(t);
    assert u == [] || !IsSpace(u[0]);
    assert TrimStart(u) == u;
    assert TrimEnd(u) == u;
  }

  /** `addTag` keeps the list duplicate-free, within `maxTags`, and made of trimmed non-empty tags. */
  lemma AddTagKeepsValid(st: Ui, tagToAdd: Option<string>, maxTags: int)
    requires TagsValid(st.tags, maxTags)
    ensures TagsValid(AddTagOutcome(st, tagToAdd, maxTags).tags, maxTags)
  {
    TrimIdempotent(Candidate(tagToAdd, st.inputValue));
  }

  lemma {:induction false} WithoutAppend(a: seq<string>, b: seq<string>, t: string)
    ensures Without(a + b, t) == Without(a, t) + Without(b, t)
  {
    if a == [] {
      assert a + b == b;
    } else {
      assert (a + b)[1..] == a[1..] + b;
      WithoutAppend(a[1..], b, t);
    }
  }

  lemma {:induction false} WithoutAbsent(tags: seq<string>, t: string)
    requires t !in tags
    ensures Without(tags, t) == tags
  {
    if tags != [] {
      WithoutAbsent(tags[1..], t);
    }
  }

  /** `removeTag` drops every copy of the tag and keeps every other tag, with its multiplicity. */
  lemma {:induction false} WithoutCounts(tags: seq<string>, t: string)
    ensures multiset(Without(tags, t)) == multiset(tags)[t := 0]
  {
    if tags != [] {
      WithoutCounts(tags[1..], t);
      assert tags == [tags[0]] + tags[1..];
    }
  }

  lemma {:induction false} WithoutKeepsDistinct(tags: seq<string>, t: string)
    requires Distinct(tags)
    ensures Distinct(Without(tags, t))
  {
    if tags != [] {
      var rest := Without(tags[1..], t);
      WithoutKeepsDistinct(tags[1..], t);
      if tags[0] != t {
        assert tags[0] !in tags[1..];
        assert tags[0] !in rest;
        assert Without(tags, t) == [tags[0]] + rest;
      }
    }
  }

  /** `removeTag` keeps the list valid. */
  lemma RemoveTagKeepsValid(tags: seq<string>, t: string, maxTags: int)
    requires TagsValid(tags, maxTags)
    ensures TagsValid(Without(tags, t), maxTags)
  {
    WithoutKeepsDistinct(tags, t);
  }

  /** Backspace on an empty input removes exactly the last tag of a duplicate-free list. */
  lemma BackspaceRemovesLast(st: Ui, maxTags: int)
    requires TagsValid(st.tags, maxTags)
    requires st.inputValue == "" && |st.tags| > 0
    ensures KeyDownOutcome(st, Backspace, maxTags) == st.(tags := st.tags[..|st.tags| - 1])
  {
    var n := |st.tags| - 1;
    var last := st.tags[n];
    assert st.tags == st.tags[..n] + [last];
    WithoutAppend(st.tags[..n], [last], last);
    assert last !in st.tags[..n];
    WithoutAbsent(st.tags[..n], last);
  }

  /** Backspace does nothing with no tags or with text in the input. */
  lemma BackspaceOtherwiseInert(st: Ui, maxTags: int)
    requires st.inputValue != "" || st.tags == []
    ensures KeyDownOutcome(st, Backspace, maxTags) == st
  {
  }

  lemma {:induction false} MatchingAppend(a: seq<string>, b: seq<string>, tags: seq<string>, inputValue: string)
    ensures Matching(a + b, tags, inputValue) == Matching(a, tags, inputValue) + Matching(b, tags, inputValue)
  {
    if a == [] {
      assert a + b == b;
    } else {
      assert (a + b)[1..] == a[1..] + b;
      MatchingAppend(a[1..], b, tags, inputValue);
    }
  }

  /** Matching caller suggestions come before matching defaults, at most five are shown, and nothing shows for an empty input. */
  lemma SuggestionOrder(suggestions: seq<string>, tags: seq<string>, inputValue: string)
    ensures Matching(AllSuggestions(suggestions), tags, inputValue)
            == Matching(suggestions, tags, inputValue) + Matching(DefaultSuggestions(), tags, inputValue)
    ensures var s := Shown(suggestions, tags, inputValue);
      |s| <= ShownSuggestions && s == Matching(AllSuggestions(suggestions), tags, inputValue)[..|s|]
    ensures inputValue == "" ==> Shown(suggestions, tags, inputValue) == []
  {
    MatchingAppend(suggestions, DefaultSuggestions(), tags, inputValue);
    var m := Matching(AllSuggestions(suggestions), tags, inputValue);
    if inputValue == "" && m != [] {
      assert m[0] in m;
    }
  }

  /** Matching ignores ASCII case on both sides. */
  lemma SuggestsIgnoresCase(s: string, tags: seq<string>, inputValue: string)
    requires s !in tags && Contains(s, inputValue) && |inputValue| > 0
    ensures Suggests(s, tags, ToUpper(inputValue)) && Suggests(s, tags, ToLower(inputValue))
  {
    var k := ContainsWitness(s, inputValue);
    LowerOfUpper(inputValue);
    ToLowerIdempotent(inputValue);
    assert ToLower(s)[k..k + |inputValue|] == ToLower(inputValue);
    ContainsAt(ToLower(s), ToLower(inputValue), k);
  }

  /** An enabled Add button with a new trimmed value always adds it. */
  lemma EnabledAddAdds(st: Ui, disabled: bool, maxTags: int)
    requires !AddDisabled(st, disabled, maxTags) && Trim(st.inputValue) !in st.tags
    ensures AddTagOutcome(st, None, maxTags) == Ui(st.tags + [Trim(st.inputValue)], "", false)
  {
  }
}
