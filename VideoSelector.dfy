/**
 * The video selector shared by the `get_transcript` and `play_video` tools
 * of src/services/youtubeTools.js: "most viewed", ordinals, positive
 * integers and title substrings, tested in that order, with the regular
 * expressions read exactly as they are written.
 */
module VideoSelector {
  import opened Wrappers
  import opened JsText
  import opened JsValues
  import opened Sorting

  /** `String(args.selector || '').toLowerCase().trim()`. */
  function SelectorText(selector: Option<Value>): string {
    Trim(Lower(if Truthy(selector) then Stringify(selector.value) else ""))
  }

  /** `/^most\s*viewed$/i` on an already lower-cased selector. */
  predicate IsMostViewed(sel: string) {
    |sel| >= 10 && sel[..4] == "most" && sel[|sel| - 6..] == "viewed"
    && forall i :: 4 <= i < |sel| - 6 ==> IsSpace(sel[i])
  }

  /** `/^word|d(suffix)?$/i`. The alternation binds loosest, so this is
      "starts with the word" or "ends with the digit, or with the digit and
      its suffix" — "11" and "21" both count as "first". */
  predicate OrdinalMatch(sel: string, word: string, digit: string, suffix: string) {
    StartsWith(sel, word) || EndsWith(sel, digit) || EndsWith(sel, digit + suffix)
  }

  /** How a selector is read. */
  datatype Choice = MostViewed | Position(index: nat) | TitleSearch

  /** The selector's reading, in the order the source tests them. */
  function Choose(sel: string): Choice {
    if IsMostViewed(sel) then MostViewed
    else if OrdinalMatch(sel, "first", "1", "st") then Position(0)
    else if OrdinalMatch(sel, "second", "2", "nd") then Position(1)
    else if OrdinalMatch(sel, "third", "3", "rd") then Position(2)
    else
      var num := ParseIntPrefix(sel);
      if num.Some? && num.value >= 1 then Position(num.value - 1) else TitleSearch
  }

  /** `v.view_count || 0` as the comparator's subtraction reads it: a number
      as it is, `true` as 1, a string as `Number` reads its integer text (an
      empty or blank string as 0); anything falsy or absent is 0. A string
      `Number` reads as NaN or as a non-integer, an array and an object are
      read as 0 too (see the README). */
  function Views(v: Record): int {
    ViewWeight(Get(v, "view_count"))
  }

  /** The number the subtraction makes of a `view_count` value. */
  function ViewWeight(c: Option<Value>): int {
    match c
    case Some(Num(n)) => n
    case Some(Bool(b)) => if b then 1 else 0
    case Some(Str(s)) =>
      (match NumberOfText(s)
       case Some(n) => n
       case None => 0)
    case _ => 0
  }

  /** A count sent as text or as `true` weighs what the subtraction makes
      of it: "1000" outranks 999, and `true` counts 1. */
  lemma ViewsCoerced(v: Record, n: int)
    requires Get(v, "view_count") == Some(Str(IntToString(n))) || Get(v, "view_count") == Some(Num(n))
    ensures Views(v) == n
    ensures Views([("view_count", Bool(true))]) == 1
  {
    ViewWeightOf(Get(v, "view_count"), n);
    ViewsOfTrue();
  }

  lemma ViewWeightOf(c: Option<Value>, n: int)
    requires c == Some(Str(IntToString(n))) || c == Some(Num(n))
    ensures ViewWeight(c) == n
  {
    if c != Some(Num(n)) {
      NumberOfIntToString(n, "");
    }
  }

  lemma ViewsOfTrue()
    ensures Views([("view_count", Bool(true))]) == 1
  {
    assert Get([("view_count", Bool(true))], "view_count") == Some(Bool(true));
  }

  /** The sort key of `(a, b) => (b.view_count || 0) - (a.view_count || 0)`. */
  function ViewsDescending(v: Record): int {
    -Views(v)
  }

  /** `(v.title || '').toLowerCase()`. */
  function TitleText(v: Record): string {
    match Get(v, "title")
    case Some(Str(s)) => Lower(s)
    case _ => ""
  }

  /** `arr.find(...)` by title: the first record whose lower-cased title
      contains the selector. */
  function FindByTitle(arr: seq<Record>, sel: string): (r: Option<nat>)
    ensures r.Some? ==> r.value < |arr| && Contains(TitleText(arr[r.value]), sel)
    ensures r.Some? ==> forall j :: 0 <= j < r.value ==> !Contains(TitleText(arr[j]), sel)
    ensures r.None? ==> forall j :: 0 <= j < |arr| ==> !Contains(TitleText(arr[j]), sel)
  {
    if |arr| == 0 then None
    else if Contains(TitleText(arr[0]), sel) then Some(0)
    else
      match FindByTitle(arr[1..], sel)
      case Some(i) => Some(i + 1)
      case None => None
  }

  /** The record a selector picks, or `None` when the index is out of range
      or no title matches. */
  function Select(arr: seq<Record>, sel: string): (r: Option<Record>)
    ensures r.Some? ==> r.value in arr
  {
    match Choose(sel)
    case MostViewed =>
      if |arr| == 0 then None
      else
        SortByCorrect(arr, ViewsDescending);
        var top := SortBy(arr, ViewsDescending)[0];
        assert top in multiset(arr);
        Some(top)
    case Position(i) => if i < |arr| then Some(arr[i]) else None
    case TitleSearch =>
      match FindByTitle(arr, sel)
      case Some(i) => Some(arr[i])
      case None => None
  }

  /** "most viewed" picks the earliest record with the largest view count. */
  lemma MostViewedPick(arr: seq<Record>, sel: string)
    requires IsMostViewed(sel) && |arr| > 0
    ensures var j := FirstMinIndex(arr, ViewsDescending);
            Select(arr, sel) == Some(arr[j])
            && (forall i :: 0 <= i < |arr| ==> Views(arr[i]) <= Views(arr[j]))
            && (forall i :: 0 <= i < j ==> Views(arr[i]) < Views(arr[j]))
  {
    SortHeadIsFirstMin(arr, ViewsDescending);
  }

  /** "most viewed", "mostviewed" and "most   viewed" are all read as most viewed. */
  lemma MostViewedSpellings()
    ensures IsMostViewed("most viewed") && IsMostViewed("mostviewed") && IsMostViewed("most   viewed")
  {
    assert "most viewed"[4..5] == " ";
    assert "most   viewed"[4..7] == "   ";
  }

  /** Because the ordinal patterns are unanchored on one side, "11" picks the
      first record, not the eleventh. */
  lemma ElevenIsFirst(arr: seq<Record>)
    ensures Select(arr, "11") == if |arr| > 0 then Some(arr[0]) else None
  {
    assert "11"[1..] == "1";
    assert EndsWith("11", "1");
  }

  /** A string of digits whose last digit is not 1, 2 or 3 is no ordinal. */
  lemma DigitsNotOrdinal(s: string)
    requires |s| > 0 && AllDigits(s) && s[|s| - 1] != '1' && s[|s| - 1] != '2' && s[|s| - 1] != '3'
    ensures !IsMostViewed(s)
    ensures !OrdinalMatch(s, "first", "1", "st") && !OrdinalMatch(s, "second", "2", "nd")
            && !OrdinalMatch(s, "third", "3", "rd")
  {
    assert IsDigit(s[0]) && IsDigit(s[|s| - 1]);
    StartsWithFirst(s, "most");
    StartsWithFirst(s, "first");
    StartsWithFirst(s, "second");
    StartsWithFirst(s, "third");
    EndsWithLast(s, "1");
    EndsWithLast(s, "2");
    EndsWithLast(s, "3");
    EndsWithLast(s, "1st");
    EndsWithLast(s, "2nd");
    EndsWithLast(s, "3rd");
    assert "1" + "st" == "1st" && "2" + "nd" == "2nd" && "3" + "rd" == "3rd";
  }

  lemma ChooseNumber(n: nat)
    requires n >= 1 && n % 10 != 1 && n % 10 != 2 && n % 10 != 3
    ensures Choose(NatToString(n)) == Position(n - 1)
  {
    var s := NatToString(n);
    assert s[|s| - 1] == DigitChar(n % 10);
    DigitsNotOrdinal(s);
    ParseIntOfIntToString(n);
    assert IntToString(n) == s;
  }

  /** A positive number whose last digit is not 1, 2 or 3 picks the record at
      that 1-based position. */
  lemma NumberSelects(arr: seq<Record>, n: nat)
    requires n >= 1 && n % 10 != 1 && n % 10 != 2 && n % 10 != 3
    ensures Select(arr, NatToString(n)) == if n - 1 < |arr| then Some(arr[n - 1]) else None
  {
    ChooseNumber(n);
  }

  /** An empty selector matches every title and so picks the first record. */
  lemma EmptySelectorPicksFirst(arr: seq<Record>)
    ensures Select(arr, "") == if |arr| > 0 then Some(arr[0]) else None
  {
    EmptyIsTitleSearch();
    if |arr| > 0 {
      assert StartsWith(TitleText(arr[0]), "");
    }
  }

  lemma EmptyIsTitleSearch()
    ensures Choose("") == TitleSearch
  {
    assert !IsMostViewed("");
    assert !OrdinalMatch("", "first", "1", "st");
    assert !OrdinalMatch("", "second", "2", "nd");
    assert !OrdinalMatch("", "third", "3", "rd");
    assert TrimStart("") == "" && DigitRunLen("") == 0;
  }

  /** A title search picks the first record whose title contains the
      selector, and nothing when none does. */
  lemma TitleSearchPick(arr: seq<Record>, sel: string)
    requires Choose(sel) == TitleSearch
    ensures Select(arr, sel).Some? <==> exists j :: 0 <= j < |arr| && Contains(TitleText(arr[j]), sel)
    ensures Select(arr, sel).Some? ==>
              exists j :: 0 <= j < |arr| && Select(arr, sel) == Some(arr[j]) && Contains(TitleText(arr[j]), sel)
                          && forall i :: 0 <= i < j ==> !Contains(TitleText(arr[i]), sel)
  {
  }
}
