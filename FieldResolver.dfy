/**
 * Field names as the tool executor in src/services/youtubeTools.js reads them:
 * the normaliser, the metric alias table, `resolveField`, the snake/camel
 * table and `getMetricValue`.
 */
module FieldResolver {
  import opened Wrappers
  import opened JsText
  import opened JsValues

  /** What the normaliser strips: `\s`, `_` and `-`. */
  predicate IsSeparator(c: char) {
    IsSpace(c) || c == '_' || c == '-'
  }

  /** `s.replace(/[\s_-]+/g, '')`. */
  function RemoveSeparators(s: string): (r: string)
    ensures |r| <= |s|
    ensures forall i :: 0 <= i < |r| ==> !IsSeparator(r[i])
  {
    if |s| == 0 then ""
    else if IsSeparator(s[0]) then RemoveSeparators(s[1..])
    else [s[0]] + RemoveSeparators(s[1..])
  }

  /** The normaliser: lower-case, then drop separators. */
  function Norm(s: string): string {
    RemoveSeparators(Lower(s))
  }

  lemma {:induction false} RemoveSeparatorsKeeps(s: string)
    requires forall i :: 0 <= i < |s| ==> !IsSeparator(s[i])
    ensures RemoveSeparators(s) == s
    decreases |s|
  {
    if |s| > 0 {
      RemoveSeparatorsKeeps(s[1..]);
    }
  }

  lemma {:induction false} RemoveSeparatorsLower(s: string)
    ensures Lower(RemoveSeparators(s)) == RemoveSeparators(Lower(s))
    decreases |s|
  {
    if |s| > 0 {
      RemoveSeparatorsLower(s[1..]);
      assert Lower(s)[1..] == Lower(s[1..]);
      if !IsSeparator(s[0]) {
        assert Lower([s[0]] + RemoveSeparators(s[1..])) == [LowerChar(s[0])] + Lower(RemoveSeparators(s[1..]));
      }
    }
  }

  /** Normalising twice changes nothing more. */
  lemma NormIdempotent(s: string)
    ensures Norm(Norm(s)) == Norm(s)
  {
    var r := RemoveSeparators(Lower(s));
    RemoveSeparatorsLower(Lower(s));
    assert Lower(Lower(s)) == Lower(s);
    assert Lower(r) == r;
    RemoveSeparatorsKeeps(r);
  }

  /** `METRIC_ALIASES`: normalised spellings of the three counters. */
  const MetricAliases: map<string, string> := map[
    "likecount" := "like_count", "likes" := "like_count", "likecounts" := "like_count",
    "viewcount" := "view_count", "views" := "view_count", "viewcounts" := "view_count",
    "commentcount" := "comment_count", "comments" := "comment_count", "commentcounts" := "comment_count"
  ]

  /** `METRIC_ALIASES[t]`. */
  function AliasOf(t: string): Option<string> {
    if t in MetricAliases then Some(MetricAliases[t]) else None
  }

  /** The first key whose normalised form is `target` (`keys.find`). */
  function FindNormalised(keys: seq<string>, target: string): (r: Option<string>)
    ensures r.Some? ==> r.value in keys && Norm(r.value) == target
    ensures r.None? ==> forall i :: 0 <= i < |keys| ==> Norm(keys[i]) != target
  {
    if |keys| == 0 then None
    else if Norm(keys[0]) == target then Some(keys[0])
    else FindNormalised(keys[1..], target)
  }

  /** The keys of the first record, or none. */
  function FirstKeys(videos: seq<Record>): seq<string> {
    if |videos| > 0 then Keys(videos[0]) else []
  }

  /** `resolveField(videos, name)`. The name is returned as is when it is not a
      non-empty string; otherwise the first of: the name if it is a key of the
      first record, the alias of its normalised form if that is a key, a key
      with the same normalised form, the alias, the name. The result is always
      the name, a key of the first record, or an alias target. */
  function ResolveField(videos: seq<Record>, name: Option<Value>): (r: Option<Value>)
    ensures r == name
            || (r.Some? && r.value.Str?
                && (r.value.s in FirstKeys(videos) || r.value.s in MetricAliases.Values))
  {
    if !Truthy(name) || !name.value.Str? then name
    else
      var n := name.value.s;
      var keys := FirstKeys(videos);
      if n in keys then name
      else
        var target := Norm(n);
        var aliased := AliasOf(target);
        if aliased.Some? && aliased.value in keys then Some(Str(aliased.value))
        else
          var found := FindNormalised(keys, target);
          if found.Some? && found.value != "" then Some(Str(found.value))
          else if aliased.Some? then Some(Str(aliased.value))
          else name
  }

  /** A name that is not a non-empty string is returned as is. */
  lemma ResolveNonString(videos: seq<Record>, name: Option<Value>)
    requires !(name.Some? && name.value.Str? && name.value.s != "")
    ensures ResolveField(videos, name) == name
  {
  }

  /** An exact key of the first record is returned unchanged. */
  lemma ResolveExactKey(videos: seq<Record>, k: string)
    requires |videos| > 0 && k in Keys(videos[0])
    ensures ResolveField(videos, Some(Str(k))) == Some(Str(k))
  {
  }

  /** A name whose normalised form has an alias that is a key resolves to that key. */
  lemma ResolveAliasKey(videos: seq<Record>, n: string)
    requires n != "" && n !in FirstKeys(videos)
    requires Norm(n) in MetricAliases && MetricAliases[Norm(n)] in FirstKeys(videos)
    ensures ResolveField(videos, Some(Str(n))) == Some(Str(MetricAliases[Norm(n)]))
  {
  }

  /** Failing that, the first key with the same normalised form is taken. */
  lemma ResolveNormalisedKey(videos: seq<Record>, n: string, i: nat)
    requires n != "" && n !in FirstKeys(videos)
    requires !(Norm(n) in MetricAliases && MetricAliases[Norm(n)] in FirstKeys(videos))
    requires i < |FirstKeys(videos)| && Norm(FirstKeys(videos)[i]) == Norm(n) && FirstKeys(videos)[i] != ""
    requires forall j :: 0 <= j < i ==> Norm(FirstKeys(videos)[j]) != Norm(n)
    ensures ResolveField(videos, Some(Str(n))) == Some(Str(FirstKeys(videos)[i]))
  {
    var keys := FirstKeys(videos);
    FindFirst(keys, Norm(n), i);
  }

  lemma {:induction false} FindFirst(keys: seq<string>, target: string, i: nat)
    requires i < |keys| && Norm(keys[i]) == target
    requires forall j :: 0 <= j < i ==> Norm(keys[j]) != target
    ensures FindNormalised(keys, target) == Some(keys[i])
    decreases i
  {
    if i > 0 {
      FindFirst(keys[1..], target, i - 1);
    }
  }

  /** With no key matching in any way, the alias is returned unverified, and
      without one the name itself. */
  lemma ResolveFallback(videos: seq<Record>, n: string)
    requires n != "" && n !in FirstKeys(videos)
    requires forall i :: 0 <= i < |FirstKeys(videos)| ==> Norm(FirstKeys(videos)[i]) != Norm(n)
    ensures ResolveField(videos, Some(Str(n)))
            == if AliasOf(Norm(n)).Some? then Some(Str(AliasOf(Norm(n)).value)) else Some(Str(n))
  {
  }

  /** A single character is dropped exactly when it is white space, `_` or `-`. */
  lemma RemoveSeparatorsOne(c: char)
    ensures RemoveSeparators([c]) == if IsSeparator(c) then [] else [c]
  {
    assert [c][1..] == [];
  }

  /** Removing separators works character by character: it distributes over
      concatenation. */
  lemma {:induction false} RemoveSeparatorsAppend(a: string, b: string)
    ensures RemoveSeparators(a + b) == RemoveSeparators(a) + RemoveSeparators(b)
    decreases |a|
  {
    if |a| > 0 {
      assert (a + b)[1..] == a[1..] + b;
      RemoveSeparatorsAppend(a[1..], b);
    } else {
      assert a + b == b;
    }
  }

  lemma NormLikes()
    ensures Norm("Likes") == "likes"
  {
    assert Lower("Likes") == "likes";
    RemoveSeparatorsKeeps("likes");
  }

  /** "Likes" resolves to `like_count` when the records carry that key. */
  lemma ResolveLikes(videos: seq<Record>)
    requires |videos| > 0 && "like_count" in Keys(videos[0]) && "Likes" !in Keys(videos[0])
    ensures ResolveField(videos, Some(Str("Likes"))) == Some(Str("like_count"))
  {
    NormLikes();
    ResolveAliasKey(videos, "Likes");
  }

  // ---------------------------------------------------------------------------
  // getMetricValue

  /** `SNAKE_TO_CAMEL`, in its declared order. */
  const SnakeToCamel: seq<(string, string)> := [
    ("like_count", "likeCount"), ("view_count", "viewCount"),
    ("comment_count", "commentCount"), ("release_date", "releaseDate")
  ]

  /** `SNAKE_TO_CAMEL[k]`. */
  function CamelOf(k: string): (c: Option<string>)
    ensures c.Some? ==> (k, c.value) in SnakeToCamel
    ensures c.None? ==> forall p :: p in SnakeToCamel ==> p.0 != k
  {
    if k == "like_count" then Some("likeCount")
    else if k == "view_count" then Some("viewCount")
    else if k == "comment_count" then Some("commentCount")
    else if k == "release_date" then Some("releaseDate")
    else None
  }

  /** The first snake-case key whose camel-case form is `m`. */
  function SnakeOf(m: string): (s: Option<string>)
    ensures s.Some? ==> (s.value, m) in SnakeToCamel
    ensures s.None? ==> forall p :: p in SnakeToCamel ==> p.1 != m
  {
    if m == "likeCount" then Some("like_count")
    else if m == "viewCount" then Some("view_count")
    else if m == "commentCount" then Some("comment_count")
    else if m == "releaseDate" then Some("release_date")
    else None
  }

  /** The two tables are inverse to each other. */
  lemma CamelSnakeInverse(k: string, m: string)
    ensures CamelOf(k) == Some(m) <==> SnakeOf(m) == Some(k)
  {
  }

  /** `v[key]`, counting `null` as missing. */
  function PresentField(v: Record, key: string): (r: Option<Value>)
    ensures r.Some? ==> r.value != Null && Get(v, key) == r
  {
    var x := Get(v, key);
    if Present(x) then x else None
  }

  /** `getMetricValue(v, metric)`: the field itself, else its camel-case
      twin, else its snake-case twin, ignoring `null`s; `None` is `undefined`. */
  function GetMetricValue(v: Record, metric: Option<Value>): (r: Option<Value>)
    ensures r.Some? ==> r.value != Null
    ensures Present(Get(v, StringOf(metric))) ==> r == Get(v, StringOf(metric))
  {
    var key := StringOf(metric);
    var direct := PresentField(v, key);
    if direct.Some? then direct
    else
      var camel := CamelOf(key);
      var viaCamel := if camel.Some? then PresentField(v, camel.value) else None;
      if viaCamel.Some? then viaCamel
      else
        var snake := if metric.Some? && metric.value.Str? then SnakeOf(metric.value.s) else None;
        if snake.Some? then PresentField(v, snake.value) else None
  }

  /** A snake-case metric reads the camel-case field when its own is missing,
      and a camel-case metric the snake-case field. */
  lemma MetricBridge(v: Record, snake: string, camel: string)
    requires CamelOf(snake) == Some(camel)
    ensures !Present(Get(v, snake)) ==> GetMetricValue(v, Some(Str(snake))) == PresentField(v, camel)
    ensures !Present(Get(v, camel)) ==> GetMetricValue(v, Some(Str(camel))) == PresentField(v, snake)
  {
    CamelSnakeInverse(snake, camel);
    assert CamelOf(camel).None?;
  }

  /** A metric with no twin and no field of its own has no value. */
  lemma MetricMissing(v: Record, metric: string)
    requires CamelOf(metric).None? && SnakeOf(metric).None?
    requires !Present(Get(v, metric))
    ensures GetMetricValue(v, Some(Str(metric))).None?
  {
  }
}
