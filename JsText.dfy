/**
 * The string primitives of JavaScript that the modelled code relies on:
 * white space (`\s`, `trim`), ASCII case mapping, prefix/suffix/substring
 * tests, decimal rendering of integers, `parseInt(s, 10)`, and
 * `split`/`join` on one separator.
 */
module JsText {
  import opened Wrappers

  /** The characters of JavaScript's WhiteSpace and LineTerminator classes:
      what `\s` matches and what `trim` removes. */
  predicate IsSpace(c: char) {
    c == ' ' || c == '\t' || c == '\n' || c == '\r' || c == '\U{B}' || c == '\U{C}'
    || c == '\U{A0}' || c == '\U{1680}' || ('\U{2000}' <= c <= '\U{200A}')
    || c == '\U{2028}' || c == '\U{2029}' || c == '\U{202F}' || c == '\U{205F}'
    || c == '\U{3000}' || c == '\U{FEFF}'
  }

  /** The characters a regular-expression `.` does not match. */
  predicate IsLineTerminator(c: char) {
    c == '\n' || c == '\r' || c == '\U{2028}' || c == '\U{2029}'
  }

  predicate IsDigit(c: char) { '0' <= c <= '9' }

  predicate IsAsciiLetter(c: char) { 'a' <= c <= 'z' || 'A' <= c <= 'Z' }

  /** The class `[a-zA-Z0-9_-]` of video, channel and path ids. */
  predicate IsIdChar(c: char) {
    IsAsciiLetter(c) || IsDigit(c) || c == '_' || c == '-'
  }

  /** `toLowerCase` on one character, for the ASCII range. */
  function LowerChar(c: char): char {
    if 'A' <= c <= 'Z' then (c as int + 32) as char else c
  }

  /** `toLowerCase` (ASCII letters only). */
  function Lower(s: string): string {
    seq(|s|, i requires 0 <= i < |s| => LowerChar(s[i]))
  }

  /** `String.prototype.trimStart`: drops leading white space. */
  function TrimStart(s: string): (r: string)
    ensures |r| <= |s| && r == s[|s| - |r|..]
    ensures |r| > 0 ==> !IsSpace(r[0])
    ensures forall i :: 0 <= i < |s| - |r| ==> IsSpace(s[i])
  {
    if |s| > 0 && IsSpace(s[0]) then TrimStart(s[1..]) else s
  }

  /** `String.prototype.trimEnd`: drops trailing white space. */
  function TrimEnd(s: string): (r: string)
    ensures |r| <= |s| && r == s[..|r|]
    ensures |r| > 0 ==> !IsSpace(r[|r| - 1])
    ensures forall i :: |r| <= i < |s| ==> IsSpace(s[i])
  {
    if |s| > 0 && IsSpace(s[|s| - 1]) then TrimEnd(s[..|s| - 1]) else s
  }

  /** `String.prototype.trim`. */
  function Trim(s: string): string {
    TrimEnd(TrimStart(s))
  }

  lemma {:induction false} TrimStartAllSpace(s: string)
    requires forall i :: 0 <= i < |s| ==> IsSpace(s[i])
    ensures TrimStart(s) == ""
    decreases |s|
  {
    if |s| > 0 { TrimStartAllSpace(s[1..]); }
  }

  /** Trimming yields the empty string exactly when every character is white space. */
  lemma TrimEmptyIffBlank(s: string)
    ensures Trim(s) == "" <==> forall i :: 0 <= i < |s| ==> IsSpace(s[i])
  {
    var t := TrimStart(s);
    if forall i :: 0 <= i < |s| ==> IsSpace(s[i]) {
      TrimStartAllSpace(s);
    }
  }

  predicate StartsWith(s: string, p: string) {
    |p| <= |s| && s[..|p|] == p
  }

  predicate EndsWith(s: string, p: string) {
    |p| <= |s| && s[|s| - |p|..] == p
  }

  /** A string ending with `p` ends with `p`'s last character. */
  lemma EndsWithLast(s: string, p: string)
    ensures |s| > 0 && |p| > 0 && EndsWith(s, p) ==> s[|s| - 1] == p[|p| - 1]
  {
    if |s| > 0 && |p| > 0 && EndsWith(s, p) {
      assert s[|s| - |p|..][|p| - 1] == s[|s| - 1];
    }
  }

  /** A string starting with `p` starts with `p`'s first character. */
  lemma StartsWithFirst(s: string, p: string)
    ensures |s| > 0 && |p| > 0 && StartsWith(s, p) ==> s[0] == p[0]
  {
    if |s| > 0 && |p| > 0 && StartsWith(s, p) {
      assert s[..|p|][0] == s[0];
    }
  }

  /** `String.prototype.includes`. */
  predicate Contains(s: string, p: string)
    decreases |s|
  {
    StartsWith(s, p) || (|s| > 0 && Contains(s[1..], p))
  }

  // ---------------------------------------------------------------------------
  // Decimal numbers

  predicate AllDigits(s: string) {
    forall i :: 0 <= i < |s| ==> IsDigit(s[i])
  }

  function DigitOf(c: char): nat
    requires IsDigit(c)
  {
    c as int - '0' as int
  }

  function DigitChar(d: nat): (c: char)
    requires d < 10
    ensures IsDigit(c) && DigitOf(c) == d
  {
    ('0' as int + d) as char
  }

  /** The value of a string of decimal digits (the empty string is 0). */
  function DigitsValue(s: string): nat
    requires AllDigits(s)
  {
    if |s| == 0 then 0 else DigitsValue(s[..|s| - 1]) * 10 + DigitOf(s[|s| - 1])
  }

  /** The decimal rendering of a natural number, as `String(n)` gives it. */
  function NatToString(n: nat): (r: string)
    ensures |r| > 0 && AllDigits(r)
  {
    if n < 10 then [DigitChar(n)] else NatToString(n / 10) + [DigitChar(n % 10)]
  }

  /** Rendering and reading back are inverse. */
  lemma {:induction false} NatToStringValue(n: nat)
    ensures DigitsValue(NatToString(n)) == n
  {
    if n >= 10 {
      NatToStringValue(n / 10);
      var r := NatToString(n);
      assert r[..|r| - 1] == NatToString(n / 10);
    }
  }

  /** Distinct numbers render to distinct strings. */
  lemma NatToStringInjective(a: nat, b: nat)
    ensures NatToString(a) == NatToString(b) ==> a == b
  {
    NatToStringValue(a);
    NatToStringValue(b);
  }

  /** `String(n)` for an integer. */
  function IntToString(n: int): string {
    if n < 0 then "-" + NatToString(-n) else NatToString(n)
  }

  /** The length of the run of decimal digits at the start of `s`. */
  function DigitRunLen(s: string): (k: nat)
    ensures k <= |s| && AllDigits(s[..k])
    ensures k < |s| ==> !IsDigit(s[k])
  {
    if |s| > 0 && IsDigit(s[0]) then
      var k := 1 + DigitRunLen(s[1..]);
      assert s[..k] == [s[0]] + s[1..][..k - 1];
      k
    else 0
  }

  /** `parseInt(s, 10)`: leading white space, an optional sign, then the longest
      run of digits; `None` is NaN (no digit at all). */
  function ParseIntPrefix(s: string): Option<int> {
    var t := TrimStart(s);
    var signed := |t| > 0 && (t[0] == '-' || t[0] == '+');
    var u := if signed then t[1..] else t;
    var k := DigitRunLen(u);
    if k == 0 then None
    else if signed && t[0] == '-' then Some(-(DigitsValue(u[..k]) as int))
    else Some(DigitsValue(u[..k]))
  }

  /** Text starting with a letter has no leading integer. */
  lemma LetterNoNumber(s: string)
    requires |s| > 0 && IsAsciiLetter(s[0])
    ensures ParseIntPrefix(s).None?
  {
    TrimStartKeeps(s);
  }

  lemma AllDigitsRun(s: string)
    requires AllDigits(s)
    ensures DigitRunLen(s) == |s|
  {
  }

  /** A string that starts with a digit parses to the value of its leading digits. */
  lemma ParseDigits(d: string)
    requires |d| > 0 && IsDigit(d[0])
    ensures ParseIntPrefix(d) == Some(DigitsValue(d[..DigitRunLen(d)]) as int)
  {
    TrimStartKeeps(d);
  }

  /** So does a minus sign then such a string, negated. */
  lemma ParseNegatedDigits(d: string)
    requires |d| > 0 && IsDigit(d[0])
    ensures ParseIntPrefix("-" + d) == Some(-(DigitsValue(d[..DigitRunLen(d)]) as int))
  {
    var m := "-" + d;
    assert m[0] == '-' && m[1..] == d;
    TrimStartKeeps(m);
  }

  /** Text that does not start with white space is left as it is by `trimStart`. */
  lemma TrimStartKeeps(s: string)
    requires |s| > 0 && !IsSpace(s[0])
    ensures TrimStart(s) == s
  {
  }

  /** `parseInt(String(n), 10) == n`: rendering an integer and parsing it back
      gives the integer. */
  lemma ParseIntOfIntToString(n: int)
    ensures ParseIntPrefix(IntToString(n)) == Some(n)
  {
    var m: nat := if n < 0 then -n else n;
    NatToStringValue(m);
    var d := NatToString(m);
    AllDigitsRun(d);
    assert d[..|d|] == d;
    if n < 0 { ParseNegatedDigits(NatToString(m)); } else { ParseDigits(NatToString(m)); }
  }

  /** `Number(s)` for a string whose trimmed text is empty (0) or an
      optionally signed run of decimal digits; `None` for every other string,
      which `Number` reads as NaN or as a number this model leaves out
      (fractions, exponents, hexadecimal, `Infinity`). */
  function NumberOfText(s: string): Option<int> {
    var t := Trim(s);
    if t == "" then Some(0)
    else
      var signed := t[0] == '-' || t[0] == '+';
      var u := if signed then t[1..] else t;
      if |u| > 0 && AllDigits(u) then
        Some(if t[0] == '-' then -(DigitsValue(u) as int) else DigitsValue(u) as int)
      else None
  }

  /** `Number(String(n)) == n` for an integer `n`, and white space alone
      reads as 0. */
  lemma NumberOfIntToString(n: int, blank: string)
    requires forall i :: 0 <= i < |blank| ==> IsSpace(blank[i])
    ensures NumberOfText(IntToString(n)) == Some(n)
    ensures NumberOfText(blank) == Some(0)
  {
    TrimEmptyIffBlank(blank);
    var m: nat := if n < 0 then -n else n;
    NatToStringValue(m);
    NumberOfDigits(IntToString(n), NatToString(m));
  }

  /** A run of digits, signed with `-` or not, reads as its value. */
  lemma NumberOfDigits(s: string, d: string)
    requires |d| > 0 && AllDigits(d) && (s == d || s == "-" + d)
    ensures NumberOfText(s) == Some(if s == d then DigitsValue(d) as int else -(DigitsValue(d) as int))
  {
    TrimIntText(s, d);
    if s == d {
      assert IsDigit(s[0]);
    } else {
      assert s[0] == '-' && s[1..] == d;
    }
  }

  /** A rendered integer is left as it is by `trim`. */
  lemma TrimIntText(s: string, d: string)
    requires |d| > 0 && AllDigits(d) && (s == d || s == "-" + d)
    ensures Trim(s) == s
  {
    var last := d[|d| - 1];
    assert s[|s| - 1] == last;
    DigitNotSpace(last);
    if s == d {
      DigitNotSpace(d[0]);
    }
    TrimStartKeeps(s);
  }

  lemma DigitNotSpace(c: char)
    requires IsDigit(c)
    ensures !IsSpace(c)
  {
  }

  // ---------------------------------------------------------------------------
  // split and join

  /** `s.split(sep)` for a one-character separator: the pieces between
      separators, so there is always at least one. */
  function Split(s: string, sep: char): (parts: seq<string>)
    ensures |parts| >= 1
  {
    if |s| == 0 then [""]
    else
      var rest := Split(s[1..], sep);
      if s[0] == sep then [""] + rest else [[s[0]] + rest[0]] + rest[1..]
  }

  /** `parts.join(sep)`. */
  function Join(parts: seq<string>, sep: string): string {
    if |parts| == 0 then ""
    else if |parts| == 1 then parts[0]
    else parts[0] + sep + Join(parts[1..], sep)
  }

  /** Joining the pieces of a split with the separator gives back the string. */
  lemma {:induction false} JoinSplit(s: string, sep: char)
    ensures Join(Split(s, sep), [sep]) == s
    decreases |s|
  {
    if |s| > 0 {
      var rest := Split(s[1..], sep);
      JoinSplit(s[1..], sep);
      if s[0] == sep {
        assert Split(s, sep) == [""] + rest;
        assert ([""] + rest)[1..] == rest;
      } else {
        var parts := Split(s, sep);
        assert parts == [[s[0]] + rest[0]] + rest[1..];
        if |rest| == 1 {
          assert Join(parts, [sep]) == [s[0]] + rest[0];
        } else {
          assert parts[1..] == rest[1..];
          assert Join(rest, [sep]) == rest[0] + [sep] + Join(rest[1..], [sep]);
        }
        assert s == [s[0]] + s[1..];
      }
    }
  }

  /** A string without the separator splits into itself. */
  lemma {:induction false} SplitNoSep(p: string, sep: char)
    requires sep !in p
    ensures Split(p, sep) == [p]
    decreases |p|
  {
    if |p| > 0 {
      assert sep !in p[1..] by { assert forall c :: c in p[1..] ==> c in p; }
      SplitNoSep(p[1..], sep);
      assert [p[0]] + p[1..] == p;
    }
  }

  /** A separator-free piece, the separator, then a rest: the piece comes first. */
  lemma {:induction false} SplitPieceSep(p: string, sep: char, r: string)
    requires sep !in p
    ensures Split(p + [sep] + r, sep) == [p] + Split(r, sep)
    decreases |p|
  {
    var s := p + [sep] + r;
    if |p| == 0 {
      assert s[0] == sep && s[1..] == r;
    } else {
      assert sep !in p[1..] by { assert forall c :: c in p[1..] ==> c in p; }
      SplitPieceSep(p[1..], sep, r);
      assert s[0] == p[0] && s[1..] == p[1..] + [sep] + r;
      assert [p[0]] + p[1..] == p;
    }
  }

  /** Splitting a join of separator-free pieces gives back the pieces. */
  lemma {:induction false} SplitJoin(parts: seq<string>, sep: char)
    requires |parts| >= 1
    requires forall i :: 0 <= i < |parts| ==> sep !in parts[i]
    ensures Split(Join(parts, [sep]), sep) == parts
    decreases |parts|
  {
    if |parts| == 1 {
      SplitNoSep(parts[0], sep);
    } else {
      SplitJoin(parts[1..], sep);
      SplitPieceSep(parts[0], sep, Join(parts[1..], [sep]));
      assert [parts[0]] + parts[1..] == parts;
    }
  }

  /** The last piece of a split, extended by `c`, split again. */
  function SplitLastAppended(a: string, c: string, sep: char): seq<string> {
    var sa := Split(a, sep);
    sa[..|sa| - 1] + Split(sa[|sa| - 1] + c, sep)
  }

  /** Putting a piece in front of two lists of pieces that agree up to their
      last keeps them agreeing. */
  lemma LastPieceCons(sa: seq<string>, sac: seq<string>, p: string, sr: seq<string>, src: seq<string>, last: seq<string>)
    requires |sr| >= 1 && sa == [p] + sr && sac == [p] + src
    requires src == sr[..|sr| - 1] + last
    ensures sa[|sa| - 1] == sr[|sr| - 1]
    ensures sac == sa[..|sa| - 1] + last
  {
    assert sa[..|sa| - 1] == [p] + sr[..|sr| - 1];
  }

  /** The index of the first separator, or the length when there is none. */
  function SepIndex(s: string, sep: char): (i: nat)
    ensures i <= |s|
    ensures forall j :: 0 <= j < i ==> s[j] != sep
    ensures i < |s| ==> s[i] == sep
  {
    if |s| == 0 || s[0] == sep then 0 else 1 + SepIndex(s[1..], sep)
  }

  /** Appending text to a string only ever extends its last piece:
      the complete pieces before the last separator stay as they were. */
  lemma {:induction false} SplitAppend(a: string, c: string, sep: char)
    ensures Split(a + c, sep) == SplitLastAppended(a, c, sep)
    decreases |a|
  {
    var i := SepIndex(a, sep);
    var p := a[..i];
    assert sep !in p by { assert forall k :: 0 <= k < |p| ==> p[k] == a[k]; }
    if i == |a| {
      assert p == a;
      SplitNoSep(a, sep);
    } else {
      var r := a[i + 1..];
      assert a == p + [sep] + r;
      assert a + c == p + [sep] + (r + c);
      SplitPieceSep(p, sep, r);
      SplitPieceSep(p, sep, r + c);
      SplitAppend(r, c, sep);
      var sr := Split(r, sep);
      LastPieceCons(Split(a, sep), Split(a + c, sep), p, sr, Split(r + c, sep), Split(sr[|sr| - 1] + c, sep));
    }
  }
}
