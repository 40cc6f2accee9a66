/**
 * server/transcript.js: flattening caption segments to text (`toText`),
 * reducing a video reference to its 11-character id, and trying caption
 * languages in a fixed order until one yields text. The caption service is
 * a parameter: for a video id and an optional language it either fails or
 * returns what the caption library resolved to.
 */
module Transcript {
  import opened Wrappers
  import opened JsText
  import opened JsValues

  /** One caption segment as text: a string is itself, anything else is its
      `text` property when that is truthy, else "". The executor in
      src/services/youtubeTools.js flattens segments the same way. */
  function SegmentText(t: Value): string {
    if t.Str? then t.s
    else
      var x := Prop(Some(t), "text");
      if Truthy(x) then Stringify(x.value) else ""
  }

  /** The segments' texts joined with single spaces. */
  function JoinSegments(items: seq<Value>): string {
    Join(seq(|items|, i requires 0 <= i < |items| => SegmentText(items[i])), " ")
  }

  /** `toText(list)`: `None` (null) for anything but an array; otherwise the
      trimmed joined text, `None` when that is empty. */
  function ToText(list: Option<Value>): (r: Option<string>)
    ensures r.Some? ==> r.value != "" && !IsSpace(r.value[0]) && !IsSpace(r.value[|r.value| - 1])
    ensures r.Some? ==> list.Some? && list.value.Arr?
  {
    if list.None? || !list.value.Arr? then None
    else
      var u := TrimStart(JoinSegments(list.value.items));
      var t := TrimEnd(u);
      assert |t| > 0 ==> t[0] == u[0];
      if t == "" then None else Some(t)
  }

  /** `toText` yields text exactly when the list is an array whose joined
      segments contain a non-space character. */
  lemma ToTextSome(list: Option<Value>)
    ensures ToText(list).Some?
            <==> list.Some? && list.value.Arr?
                 && exists i :: 0 <= i < |JoinSegments(list.value.items)| && !IsSpace(JoinSegments(list.value.items)[i])
  {
    if list.Some? && list.value.Arr? {
      TrimEmptyIffBlank(JoinSegments(list.value.items));
    }
  }

  // ---------------------------------------------------------------------------
  // Video id normalisation

  /** Eleven id characters start at `from`. */
  predicate IdRun(s: string, from: nat) {
    from + 11 <= |s| && forall i :: from <= i < from + 11 ==> IsIdChar(s[i])
  }

  /** `(?:v=|\/)([a-zA-Z0-9_-]{11})` matches at `q`. */
  predicate IdAfterMarker(s: string, q: nat) {
    (q + 1 < |s| && s[q] == 'v' && s[q + 1] == '=' && IdRun(s, q + 2))
    || (q < |s| && s[q] == '/' && IdRun(s, q + 1))
  }

  /** Where the id captured at a match position starts. */
  function IdStart(s: string, q: nat): (k: nat)
    requires IdAfterMarker(s, q)
    ensures IdRun(s, k)
  {
    if s[q] == 'v' then q + 2 else q + 1
  }

  /** The last match position at or before `q`: the greedy `^.*` makes the
      regular expression use the last one. */
  function LastMarker(s: string, q: nat): (r: Option<nat>)
    requires q <= |s|
    ensures r.Some? ==> r.value <= q && IdAfterMarker(s, r.value)
    ensures r.Some? ==> forall p :: r.value < p <= q ==> !IdAfterMarker(s, p)
    ensures r.None? ==> forall p :: 0 <= p <= q ==> !IdAfterMarker(s, p)
    decreases q
  {
    if IdAfterMarker(s, q) then Some(q)
    else if q == 0 then None
    else LastMarker(s, q - 1)
  }

  predicate HasLineTerminator(s: string) {
    exists i :: 0 <= i < |s| && IsLineTerminator(s[i])
  }

  /** `s.replace(/^.*(?:v=|\/)([a-zA-Z0-9_-]{11}).*$/, '$1')`: the 11 id
      characters after the last `v=` or `/` that has eleven of them; the
      string unchanged when there is none, or when it holds a line
      terminator (which `.` does not match). */
  function NormaliseVideoId(s: string): (r: string)
    ensures r == s || (|r| == 11 && forall i :: 0 <= i < 11 ==> IsIdChar(r[i]))
  {
    if HasLineTerminator(s) then s
    else
      match LastMarker(s, |s|)
      case None => s
      case Some(q) => s[IdStart(s, q)..IdStart(s, q) + 11]
  }

  /** A watch URL (`…v=ID`) or a path (`…/ID`) ending in an 11-character id
      normalises to the id. */
  lemma NormaliseEndingId(p: string, marker: string, id: string)
    requires marker == "v=" || marker == "/"
    requires |id| == 11 && forall i :: 0 <= i < 11 ==> IsIdChar(id[i])
    requires !HasLineTerminator(p + marker + id)
    ensures NormaliseVideoId(p + marker + id) == id
  {
    var s := p + marker + id;
    var q := |p|;
    assert s[q..q + |marker|] == marker;
    assert s[q + |marker|..] == id;
    assert IdAfterMarker(s, q) by {
      if marker == "v=" {
        assert s[q] == 'v' && s[q + 1] == '=';
      } else {
        assert s[q] == '/';
      }
      assert forall i :: q + |marker| <= i < q + |marker| + 11 ==> s[i] == id[i - q - |marker|];
    }
    assert forall r :: q < r <= |s| ==> !IdAfterMarker(s, r) by {
      forall r | q < r <= |s| ensures !IdAfterMarker(s, r) {
        if marker == "v=" && r == q + 1 {
          assert s[r] == '=';
        }
      }
    }
    var m := LastMarker(s, |s|);
    assert m == Some(q);
    assert s[IdStart(s, q)..IdStart(s, q) + 11] == id;
  }

  /** A bare 11-character id is kept as it is. */
  lemma NormaliseBareId(id: string)
    requires |id| == 11 && forall i :: 0 <= i < 11 ==> IsIdChar(id[i])
    ensures NormaliseVideoId(id) == id
  {
  }

  // ---------------------------------------------------------------------------
  // Language fallback

  /** What `getTranscriptWithFallback` returns when no text is found. */
  const Unavailable: string := "Transcript unavailable."

  /** The languages tried, in order; `None` asks for the video's default track. */
  const Languages: seq<Option<string>> := [Some("en"), Some("en-US"), Some("en-GB"), Some("a.en"), None]

  /** Tries `langs` in order: the first that succeeds with text wins, a failure
      or an empty result moves on. */
  function TryLanguages(vid: string, langs: seq<Option<string>>, captions: (string, Option<string>) -> Result<Option<Value>>): (r: string)
    ensures r != ""
    decreases |langs|
  {
    if |langs| == 0 then Unavailable
    else
      var res := captions(vid, langs[0]);
      if res.Ok? && ToText(res.value).Some? then ToText(res.value).value
      else TryLanguages(vid, langs[1..], captions)
  }

  /** The video id is usable when normalisation leaves exactly 11 characters. */
  predicate UsableId(videoId: string) {
    |NormaliseVideoId(videoId)| == 11
  }

  /** `getTranscriptWithFallback(videoId)`: always a non-empty string, the
      caption text or the marker. */
  function FallbackTranscript(videoId: string, captions: (string, Option<string>) -> Result<Option<Value>>): (r: string)
    ensures r != ""
  {
    if !UsableId(videoId) then Unavailable
    else TryLanguages(NormaliseVideoId(videoId), Languages, captions)
  }

  /** The loop of `getTranscriptWithFallback`, returning as soon as one
      language gives text. */
  method GetTranscriptWithFallback(videoId: string, captions: (string, Option<string>) -> Result<Option<Value>>)
    returns (r: string)
    ensures r == FallbackTranscript(videoId, captions)
  {
    var vid := NormaliseVideoId(videoId);
    if vid == "" || |vid| != 11 {
      return Unavailable;
    }
    var k := 0;
    while k < |Languages|
      invariant 0 <= k <= |Languages|
      invariant TryLanguages(vid, Languages[k..], captions) == TryLanguages(vid, Languages, captions)
    {
      var res := captions(vid, Languages[k]);
      if res.Ok? {
        var text := ToText(res.value);
        if text.Some? {
          return text.value;
        }
      }
      assert Languages[k..][1..] == Languages[k + 1..];
      k := k + 1;
    }
    return Unavailable;
  }

  /** An unusable id gives the marker whatever the caption service would say:
      nothing is fetched. */
  lemma UnusableIdNoFetch(videoId: string, c1: (string, Option<string>) -> Result<Option<Value>>, c2: (string, Option<string>) -> Result<Option<Value>>)
    requires !UsableId(videoId)
    ensures FallbackTranscript(videoId, c1) == FallbackTranscript(videoId, c2) == Unavailable
  {
  }

  lemma {:induction false} TryLanguagesFirst(vid: string, langs: seq<Option<string>>, captions: (string, Option<string>) -> Result<Option<Value>>, k: nat)
    requires k < |langs|
    requires forall j :: 0 <= j < k ==> captions(vid, langs[j]).Err? || ToText(captions(vid, langs[j]).value).None?
    requires captions(vid, langs[k]).Ok? && ToText(captions(vid, langs[k]).value).Some?
    ensures TryLanguages(vid, langs, captions) == ToText(captions(vid, langs[k]).value).value
    decreases k
  {
    if k > 0 {
      TryLanguagesFirst(vid, langs[1..], captions, k - 1);
    }
  }

  /** The first language, in the fixed order, that yields text wins; the
      failures before it are swallowed. */
  lemma FirstLanguageWins(videoId: string, captions: (string, Option<string>) -> Result<Option<Value>>, k: nat)
    requires UsableId(videoId) && k < |Languages|
    requires var vid := NormaliseVideoId(videoId);
             (forall j :: 0 <= j < k ==> captions(vid, Languages[j]).Err? || ToText(captions(vid, Languages[j]).value).None?)
             && captions(vid, Languages[k]).Ok? && ToText(captions(vid, Languages[k]).value).Some?
    ensures FallbackTranscript(videoId, captions) == ToText(captions(NormaliseVideoId(videoId), Languages[k]).value).value
  {
    TryLanguagesFirst(NormaliseVideoId(videoId), Languages, captions, k);
  }

  lemma {:induction false} TryLanguagesNone(vid: string, langs: seq<Option<string>>, captions: (string, Option<string>) -> Result<Option<Value>>)
    requires forall j :: 0 <= j < |langs| ==> captions(vid, langs[j]).Err? || ToText(captions(vid, langs[j]).value).None?
    ensures TryLanguages(vid, langs, captions) == Unavailable
    decreases |langs|
  {
    if |langs| > 0 {
      TryLanguagesNone(vid, langs[1..], captions);
    }
  }

  /** When every language fails or is empty, the marker comes back. */
  lemma AllLanguagesFail(videoId: string, captions: (string, Option<string>) -> Result<Option<Value>>)
    requires forall j :: 0 <= j < |Languages| ==>
               captions(NormaliseVideoId(videoId), Languages[j]).Err? || ToText(captions(NormaliseVideoId(videoId), Languages[j]).value).None?
    ensures FallbackTranscript(videoId, captions) == Unavailable
  {
    TryLanguagesNone(NormaliseVideoId(videoId), Languages, captions);
  }
}
