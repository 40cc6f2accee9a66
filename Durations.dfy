/**
 * `parseDuration` of src/services/youtubeTools.js: the time part of an
 * ISO 8601 duration in the designator form `PT#H#M#S` (ISO 8601:2004,
 * section 4.4.3.2), read the way the source reads it — one regular-expression
 * search per unit over the whole string.
 */
module Durations {
  import opened Wrappers
  import opened JsText
  import opened JsValues

  /** `s.match(/(\d+)U/)[1]` as a number: the leftmost run of digits that is
      directly followed by `unit`. A run followed by anything else can never
      be part of a match, so the search resumes after it. */
  function UnitValue(s: string, unit: char): Option<nat>
    decreases |s|
  {
    if |s| == 0 then None
    else
      var k := DigitRunLen(s);
      if k == 0 then UnitValue(s[1..], unit)
      else if k < |s| && s[k] == unit then Some(DigitsValue(s[..k]))
      else UnitValue(s[k..], unit)
  }

  /** `parseDuration(dur)`: `None` (null) unless `dur` is a string starting
      with "PT"; otherwise hours·3600 + minutes·60 + seconds, a missing unit
      counting as 0. */
  function ParseDuration(dur: Option<Value>): Option<nat> {
    if dur.Some? && dur.value.Str? && StartsWith(dur.value.s, "PT") then
      var s := dur.value.s;
      Some(UnitValue(s, 'H').GetOr(0) * 3600 + UnitValue(s, 'M').GetOr(0) * 60 + UnitValue(s, 'S').GetOr(0))
    else None
  }

  /** One designator of a duration: the number and its unit letter, or nothing. */
  function Component(x: Option<nat>, unit: char): string {
    if x.Some? then NatToString(x.value) + [unit] else ""
  }

  /** The designator form `PT[#H][#M][#S]` of a duration, as the ingested
      records carry it. */
  function FormatDuration(h: Option<nat>, m: Option<nat>, s: Option<nat>): string {
    "PT" + Component(h, 'H') + Component(m, 'M') + Component(s, 'S')
  }

  lemma {:induction false} DigitRunOf(d: string, t: string)
    requires AllDigits(d) && |t| > 0 && !IsDigit(t[0])
    ensures DigitRunLen(d + t) == |d|
    decreases |d|
  {
    if |d| > 0 {
      assert (d + t)[0] == d[0] && (d + t)[1..] == d[1..] + t;
      DigitRunOf(d[1..], t);
    } else {
      assert d + t == t;
    }
  }

  lemma UnitSkip(c: char, rest: string, unit: char)
    requires !IsDigit(c)
    ensures UnitValue([c] + rest, unit) == UnitValue(rest, unit)
  {
    assert ([c] + rest)[1..] == rest;
  }

  /** Searching a component for another unit, or an absent one, passes over it. */
  lemma UnitPastComponent(x: Option<nat>, c: char, rest: string, unit: char)
    requires !IsDigit(c) && (c != unit || x.None?)
    ensures UnitValue(Component(x, c) + rest, unit) == UnitValue(rest, unit)
  {
    if x.Some? {
      var d := NatToString(x.value);
      var s := d + [c] + rest;
      assert Component(x, c) + rest == s;
      DigitRunOf(d, [c] + rest);
      assert s == d + ([c] + rest);
      assert s[|d|..] == [c] + rest;
      UnitSkip(c, rest, unit);
    } else {
      assert Component(x, c) + rest == rest;
    }
  }

  /** Searching a present component for its own unit finds its number. */
  lemma UnitAtComponent(n: nat, c: char, rest: string)
    requires !IsDigit(c)
    ensures UnitValue(Component(Some(n), c) + rest, c) == Some(n)
  {
    var d := NatToString(n);
    var s := d + [c] + rest;
    DigitRunOf(d, [c] + rest);
    assert s == d + ([c] + rest);
    assert s[..|d|] == d && s[|d|] == c;
    NatToStringValue(n);
  }

  /** The search in a formatted duration starts after "PT". */
  lemma UnitPastPrefix(h: Option<nat>, m: Option<nat>, s: Option<nat>, unit: char)
    ensures UnitValue(FormatDuration(h, m, s), unit)
            == UnitValue(Component(h, 'H') + (Component(m, 'M') + Component(s, 'S')), unit)
  {
    var rest := Component(h, 'H') + (Component(m, 'M') + Component(s, 'S'));
    assert FormatDuration(h, m, s) == ['P'] + (['T'] + rest);
    UnitSkip('P', ['T'] + rest, unit);
    UnitSkip('T', rest, unit);
  }

  /** Searching the last component for its letter, or the empty rest. */
  lemma UnitInLast(s: Option<nat>, unit: char)
    requires unit == 'H' || unit == 'M' || unit == 'S'
    ensures UnitValue(Component(s, 'S'), unit) == if unit == 'S' then s else None
  {
    assert Component(s, 'S') + "" == Component(s, 'S');
    if unit == 'S' && s.Some? { UnitAtComponent(s.value, 'S', ""); }
    else { UnitPastComponent(s, 'S', "", unit); }
  }

  /** Searching the minutes and seconds components. */
  lemma UnitInTail(m: Option<nat>, s: Option<nat>, unit: char)
    requires unit == 'H' || unit == 'M' || unit == 'S'
    ensures UnitValue(Component(m, 'M') + Component(s, 'S'), unit)
            == if unit == 'M' then m else if unit == 'S' then s else None
  {
    if unit == 'M' && m.Some? { UnitAtComponent(m.value, 'M', Component(s, 'S')); }
    else {
      UnitPastComponent(m, 'M', Component(s, 'S'), unit);
      UnitInLast(s, unit);
    }
  }

  /** The search for `unit` in `"PT" + CH + CM + CS` finds the number of the
      component whose letter is `unit`, and nothing when that one is absent. */
  lemma UnitInFormat(h: Option<nat>, m: Option<nat>, s: Option<nat>, unit: char)
    requires unit == 'H' || unit == 'M' || unit == 'S'
    ensures UnitValue(FormatDuration(h, m, s), unit)
            == if unit == 'H' then h else if unit == 'M' then m else s
  {
    UnitPastPrefix(h, m, s, unit);
    var tail := Component(m, 'M') + Component(s, 'S');
    if unit == 'H' && h.Some? { UnitAtComponent(h.value, 'H', tail); }
    else {
      UnitPastComponent(h, 'H', tail, unit);
      UnitInTail(m, s, unit);
    }
  }

  /** Parsing a formatted duration gives its length in seconds, a missing
      component counting as 0 (so "PT" is 0 seconds). */
  lemma DurationRoundTrip(h: Option<nat>, m: Option<nat>, s: Option<nat>)
    ensures ParseDuration(Some(Str(FormatDuration(h, m, s))))
            == Some(h.GetOr(0) * 3600 + m.GetOr(0) * 60 + s.GetOr(0))
  {
    var f := FormatDuration(h, m, s);
    assert f[..2] == "PT";
    UnitInFormat(h, m, s, 'H');
    UnitInFormat(h, m, s, 'M');
    UnitInFormat(h, m, s, 'S');
  }

  lemma SmallNumbers()
    ensures NatToString(1) == "1" && NatToString(2) == "2" && NatToString(3) == "3"
    ensures NatToString(15) == "15" && NatToString(33) == "33" && NatToString(45) == "45"
  {
    assert NatToString(15) == NatToString(1) + [DigitChar(5)];
    assert NatToString(33) == NatToString(3) + [DigitChar(3)];
    assert NatToString(45) == NatToString(4) + [DigitChar(5)];
  }

  lemma FormatExamples()
    ensures FormatDuration(Some(1), Some(2), Some(3)) == "PT1H2M3S"
    ensures FormatDuration(None, Some(15), Some(33)) == "PT15M33S"
    ensures FormatDuration(None, None, Some(45)) == "PT45S"
  {
    SmallNumbers();
    assert Component(Some(1), 'H') == "1H" && Component(Some(2), 'M') == "2M" && Component(Some(3), 'S') == "3S";
    assert Component(Some(15), 'M') == "15M" && Component(Some(33), 'S') == "33S";
    assert Component(Some(45), 'S') == "45S";
  }

  /** A worked example: "PT1H2M3S" is 3723 s. */
  lemma HoursMinutesSeconds()
    ensures ParseDuration(Some(Str("PT1H2M3S"))) == Some(3723)
  {
    FormatExamples();
    DurationRoundTrip(Some(1), Some(2), Some(3));
  }

  /** A worked example: "PT15M33S" is 933 s. */
  lemma MinutesSeconds()
    ensures ParseDuration(Some(Str("PT15M33S"))) == Some(933)
  {
    FormatExamples();
    DurationRoundTrip(None, Some(15), Some(33));
  }

  /** A worked example: "PT45S" is 45 s. */
  lemma SecondsOnly()
    ensures ParseDuration(Some(Str("PT45S"))) == Some(45)
  {
    FormatExamples();
    DurationRoundTrip(None, None, Some(45));
  }

  /** Anything other than a string starting with "PT" is not a duration. */
  lemma NotADuration(dur: Option<Value>)
    requires !(dur.Some? && dur.value.Str? && StartsWith(dur.value.s, "PT"))
    ensures ParseDuration(dur).None?
  {
  }
}
