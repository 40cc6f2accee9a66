/**
 * `parseChannelIdentifier` of server/index.js: a trimmed channel URL is
 * classified by an ordered list of unanchored patterns, with a bare-path
 * fallback guarded by a reserved-word prefix test.
 */
module ChannelIdentifier {
  import opened Wrappers
  import opened JsText

  /** The `type` of an identifier: 'id', 'handle', 'username', 'custom'. */
  datatype Kind = ById | Handle | Username | Custom

  datatype ChannelRef = ChannelRef(kind: Kind, value: string)

  /** `[a-zA-Z0-9_.-]`, the characters of a handle. */
  predicate IsHandleChar(c: char) {
    IsIdChar(c) || c == '.'
  }

  /** The length of the run of `allowed` characters at the start of `s`. */
  function RunLen(s: string, allowed: char -> bool): (k: nat)
    ensures k <= |s|
    ensures forall i :: 0 <= i < k ==> allowed(s[i])
    ensures k < |s| ==> !allowed(s[k])
  {
    if |s| > 0 && allowed(s[0]) then 1 + RunLen(s[1..], allowed) else 0
  }

  lemma StartsWithAppend(s: string, p: string, v: string)
    requires StartsWith(s, p) && StartsWith(s[|p|..], v)
    ensures StartsWith(s, p + v)
  {
    assert s[..|p| + |v|] == s[..|p|] + s[|p|..][..|v|];
  }

  /** What a string holds after position `i` it holds in the whole string. */
  lemma {:induction false} ContainsSuffix(s: string, i: nat, w: string)
    requires i <= |s| && Contains(s[i..], w)
    ensures Contains(s, w)
    decreases i
  {
    if i > 0 {
      assert s[1..][i - 1..] == s[i..];
      ContainsSuffix(s[1..], i - 1, w);
    }
  }

  /** `v` sits at position `j` of `s` as a maximal run of `allowed`
      characters: after it comes the end of `s` or a character outside the
      class. This is what a greedy `[…]+` captures. */
  predicate RunAt(s: string, j: nat, v: string, allowed: char -> bool) {
    j + |v| <= |s| && s[j..j + |v|] == v
    && (forall k :: 0 <= k < |v| ==> allowed(v[k]))
    && (j + |v| == |s| || !allowed(s[j + |v|]))
  }

  /** The pattern `<prefix>([allowed]+)` matches at position `i` of `s`. */
  predicate MatchesAt(s: string, prefix: string, allowed: char -> bool, i: nat) {
    i <= |s| && StartsWith(s[i..], prefix) && i + |prefix| < |s| && allowed(s[i + |prefix|])
  }

  /** The longest run of allowed characters from position `j` sits there as a run. */
  lemma RunLenAt(s: string, j: nat, allowed: char -> bool)
    requires j <= |s|
    ensures RunAt(s, j, s[j..][..RunLen(s[j..], allowed)], allowed)
  {
    var k := RunLen(s[j..], allowed);
    assert s[j..j + k] == s[j..][..k];
  }

  /** The first position from `i` on where `<prefix>([allowed]+)` matches:
      the regular expression engine tries the positions left to right. */
  function FirstMatch(s: string, prefix: string, allowed: char -> bool, i: nat): (r: Option<nat>)
    requires i <= |s|
    ensures r.Some? ==> i <= r.value <= |s| && MatchesAt(s, prefix, allowed, r.value)
    ensures r.Some? ==> forall j :: i <= j < r.value ==> !MatchesAt(s, prefix, allowed, j)
    ensures r.None? ==> forall j :: i <= j <= |s| ==> !MatchesAt(s, prefix, allowed, j)
    decreases |s| - i
  {
    if MatchesAt(s, prefix, allowed, i) then Some(i)
    else if i == |s| then None
    else FirstMatch(s, prefix, allowed, i + 1)
  }

  /** `s.match(/<prefix>([allowed]+)/)[1]`: at the leftmost position where
      the prefix is followed by at least one allowed character, the longest
      such run. It is absent exactly when no position matches. */
  function MatchAfter(s: string, prefix: string, allowed: char -> bool): (r: Option<string>)
    ensures r.None? <==> forall i :: 0 <= i <= |s| ==> !MatchesAt(s, prefix, allowed, i)
    ensures r.Some? ==> FirstMatch(s, prefix, allowed, 0).Some?
                        && RunAt(s, FirstMatch(s, prefix, allowed, 0).value + |prefix|, r.value, allowed)
    ensures r.Some? ==> |r.value| > 0 && Contains(s, prefix + r.value)
  {
    match FirstMatch(s, prefix, allowed, 0)
    case None => None
    case Some(i) =>
      var rest := s[i..];
      var v := rest[|prefix|..][..RunLen(rest[|prefix|..], allowed)];
      assert rest[|prefix|..] == s[i + |prefix|..];
      RunLenAt(s, i + |prefix|, allowed);
      StartsWithAppend(rest, prefix, v);
      ContainsSuffix(s, i, prefix + v);
      Some(v)
  }

  /** A match ends where the allowed characters stop: after it comes the end
      of the string, `/` or `?`. */
  predicate PathEnd(rest: string, k: nat)
    requires k <= |rest|
  {
    k == |rest| || rest[k] == '/' || rest[k] == '?'
  }

  const DomainPrefix: string := "youtube.com/"

  /** `/youtube\.com\/([a-zA-Z0-9_-]+)(?:\/|$|\?)/` matches at position `i`:
      the domain, then a non-empty run of id characters, then `/`, `?` or the
      end. Backtracking to a shorter run cannot help, since a shorter run is
      followed by an id character; `PathRunUnique` shows it. */
  predicate PathMatchesAt(s: string, i: nat) {
    i <= |s| && StartsWith(s[i..], DomainPrefix)
    && RunLen(s[i + |DomainPrefix|..], IsIdChar) > 0
    && PathEnd(s[i + |DomainPrefix|..], RunLen(s[i + |DomainPrefix|..], IsIdChar))
  }

  /** The only run of id characters after which `/`, `?` or the end can come
      is the longest one. */
  lemma PathRunUnique(rest: string, k: nat)
    requires 0 < k <= |rest| && forall j :: 0 <= j < k ==> IsIdChar(rest[j])
    requires k == |rest| || rest[k] == '/' || rest[k] == '?'
    ensures k == RunLen(rest, IsIdChar)
  {
  }

  /** The first position from `i` on where the bare-path pattern matches. */
  function FirstPathMatch(s: string, i: nat): (r: Option<nat>)
    requires i <= |s|
    ensures r.Some? ==> i <= r.value <= |s| && PathMatchesAt(s, r.value)
    ensures r.Some? ==> forall j :: i <= j < r.value ==> !PathMatchesAt(s, j)
    ensures r.None? ==> forall j :: i <= j <= |s| ==> !PathMatchesAt(s, j)
    decreases |s| - i
  {
    if PathMatchesAt(s, i) then Some(i)
    else if i == |s| then None
    else FirstPathMatch(s, i + 1)
  }

  /** `s.match(/youtube\.com\/([a-zA-Z0-9_-]+)(?:\/|$|\?)/)[1]`: at the
      leftmost position where the domain is followed by a path segment that
      ends at `/`, `?` or the end of the URL, that segment. */
  function MatchPath(s: string): (r: Option<string>)
    ensures r.None? <==> forall i :: 0 <= i <= |s| ==> !PathMatchesAt(s, i)
    ensures r.Some? ==> FirstPathMatch(s, 0).Some?
                        && RunAt(s, FirstPathMatch(s, 0).value + |DomainPrefix|, r.value, IsIdChar)
                        && PathEnd(s[FirstPathMatch(s, 0).value + |DomainPrefix|..], |r.value|)
    ensures r.Some? ==> |r.value| > 0 && Contains(s, DomainPrefix + r.value)
  {
    match FirstPathMatch(s, 0)
    case None => None
    case Some(i) =>
      var rest := s[i..];
      var v := rest[|DomainPrefix|..][..RunLen(rest[|DomainPrefix|..], IsIdChar)];
      assert rest[|DomainPrefix|..] == s[i + |DomainPrefix|..];
      RunLenAt(s, i + |DomainPrefix|, IsIdChar);
      StartsWithAppend(rest, DomainPrefix, v);
      ContainsSuffix(s, i, DomainPrefix + v);
      Some(v)
  }

  /** `RESERVED_PATHS`, the words a bare path may not start with. */
  const ReservedWords: seq<string> :=
    ["watch", "playlist", "results", "channel", "user", "feed", "shorts", "live", "embed", "v", "@"]

  /** `/^(watch|…|v|@)/i`: the segment starts, ignoring case, with a reserved word. */
  predicate Reserved(seg: string) {
    exists i :: 0 <= i < |ReservedWords| && StartsWith(Lower(seg), ReservedWords[i])
  }

  const ChannelPrefix: string := "youtube.com/channel/"
  const HandlePrefix: string := "youtube.com/@"
  const UserPrefix: string := "youtube.com/user/"
  const CustomPrefix: string := "youtube.com/c/"

  const InvalidUrlMessage: string :=
    "Invalid YouTube channel URL. Use format: https://www.youtube.com/@channelname, https://www.youtube.com/channel/CHANNEL_ID, or https://www.youtube.com/PewDiePie"

  /** `parseChannelIdentifier(channelUrl)`; the thrown error is `Err`. */
  function ParseChannelIdentifier(channelUrl: string): (r: Result<ChannelRef>)
    ensures r.Err? ==> r.message == InvalidUrlMessage
    ensures r.Ok? ==> |r.value.value| > 0 && forall i :: 0 <= i < |r.value.value| ==> IsHandleChar(r.value.value[i])
    ensures r.Ok? && r.value.kind != Handle ==> forall i :: 0 <= i < |r.value.value| ==> IsIdChar(r.value.value[i])
    ensures r.Ok? ==> var url := Trim(channelUrl);
            match r.value.kind
            case ById => Contains(url, ChannelPrefix + r.value.value)
            case Handle => Contains(url, HandlePrefix + r.value.value)
            case Username => Contains(url, UserPrefix + r.value.value)
            case Custom => Contains(url, CustomPrefix + r.value.value) || Contains(url, "youtube.com/" + r.value.value)
  {
    var url := Trim(channelUrl);
    var byId := MatchAfter(url, ChannelPrefix, IsIdChar);
    if byId.Some? then Ok(ChannelRef(ById, byId.value))
    else
      var handle := MatchAfter(url, HandlePrefix, IsHandleChar);
      if handle.Some? then Ok(ChannelRef(Handle, handle.value))
      else
        var user := MatchAfter(url, UserPrefix, IsIdChar);
        if user.Some? then Ok(ChannelRef(Username, user.value))
        else
          var custom := MatchAfter(url, CustomPrefix, IsIdChar);
          if custom.Some? then Ok(ChannelRef(Custom, custom.value))
          else
            var path := MatchPath(url);
            if path.Some? && !Reserved(path.value) then Ok(ChannelRef(Custom, path.value))
            else Err(InvalidUrlMessage)
  }

  /** A `/channel/` id wins over every other pattern in the same URL, then a
      handle, then a user name, then a `/c/` name. */
  lemma PatternPriority(channelUrl: string)
    ensures var url := Trim(channelUrl);
            var byId := MatchAfter(url, ChannelPrefix, IsIdChar);
            var handle := MatchAfter(url, HandlePrefix, IsHandleChar);
            var user := MatchAfter(url, UserPrefix, IsIdChar);
            var custom := MatchAfter(url, CustomPrefix, IsIdChar);
            var r := ParseChannelIdentifier(channelUrl);
            (byId.Some? ==> r == Ok(ChannelRef(ById, byId.value)))
            && (byId.None? && handle.Some? ==> r == Ok(ChannelRef(Handle, handle.value)))
            && (byId.None? && handle.None? && user.Some? ==> r == Ok(ChannelRef(Username, user.value)))
            && (byId.None? && handle.None? && user.None? && custom.Some? ==> r == Ok(ChannelRef(Custom, custom.value)))
  {
  }

  /** When no prefixed pattern matches, the URL is accepted exactly when its
      path segment matches and is not reserved, and then as a custom name. */
  lemma PathFallback(channelUrl: string)
    requires var url := Trim(channelUrl);
             MatchAfter(url, ChannelPrefix, IsIdChar).None? && MatchAfter(url, HandlePrefix, IsHandleChar).None?
             && MatchAfter(url, UserPrefix, IsIdChar).None? && MatchAfter(url, CustomPrefix, IsIdChar).None?
    ensures var path := MatchPath(Trim(channelUrl));
            ParseChannelIdentifier(channelUrl).Ok? <==> path.Some? && !Reserved(path.value)
    ensures var path := MatchPath(Trim(channelUrl));
            path.Some? && !Reserved(path.value) ==> ParseChannelIdentifier(channelUrl) == Ok(ChannelRef(Custom, path.value))
  {
  }

  /** The reserved test is a prefix test: any segment starting with `v` or
      `V` is reserved, and so is one starting with `channel` or `live`,
      whatever follows ("Veritasium", "livestreamfails", "channels4"). */
  lemma ReservedPrefixQuirk(seg: string)
    requires |seg| > 0 && (seg[0] == 'v' || seg[0] == 'V')
    ensures Reserved(seg)
  {
    assert StartsWith(Lower(seg), ReservedWords[9]);
  }

  /** A segment starting with a letter other than the reserved words' first
      letters (c, e, f, l, p, r, s, u, v, w) is never reserved. */
  lemma NotReserved(seg: string)
    requires |seg| > 0 && IsAsciiLetter(seg[0])
    requires LowerChar(seg[0]) !in {'c', 'e', 'f', 'l', 'p', 'r', 's', 'u', 'v', 'w'}
    ensures !Reserved(seg)
  {
    var low := Lower(seg);
    assert low[0] == LowerChar(seg[0]);
    forall i | 0 <= i < |ReservedWords|
      ensures !StartsWith(low, ReservedWords[i])
    {
      StartsWithFirst(low, ReservedWords[i]);
    }
  }

  /** A match of any pattern needs `youtube.com/` in the URL. */
  lemma MatchAfterDomain(s: string, prefix: string, allowed: char -> bool)
    requires StartsWith(prefix, "youtube.com/")
    ensures MatchAfter(s, prefix, allowed).Some? ==> Contains(s, "youtube.com/")
  {
    var m := MatchAfter(s, prefix, allowed);
    if m.Some? {
      assert (prefix + m.value)[..12] == prefix[..12];
      ContainsPrefix(s, prefix + m.value, "youtube.com/");
    }
  }

  lemma MatchPathDomain(s: string)
    ensures MatchPath(s).Some? ==> Contains(s, "youtube.com/")
  {
    var m := MatchPath(s);
    if m.Some? {
      assert ("youtube.com/" + m.value)[..12] == "youtube.com/";
      ContainsPrefix(s, "youtube.com/" + m.value, "youtube.com/");
    }
  }

  lemma NoDomainNoMatch(url: string)
    requires !Contains(url, "youtube.com/")
    ensures MatchAfter(url, ChannelPrefix, IsIdChar).None? && MatchAfter(url, HandlePrefix, IsHandleChar).None?
    ensures MatchAfter(url, UserPrefix, IsIdChar).None? && MatchAfter(url, CustomPrefix, IsIdChar).None?
    ensures MatchPath(url).None?
  {
    assert ChannelPrefix[..12] == "youtube.com/";
    assert HandlePrefix[..12] == "youtube.com/";
    assert UserPrefix[..12] == "youtube.com/";
    assert CustomPrefix[..12] == "youtube.com/";
    MatchAfterDomain(url, ChannelPrefix, IsIdChar);
    MatchAfterDomain(url, HandlePrefix, IsHandleChar);
    MatchAfterDomain(url, UserPrefix, IsIdChar);
    MatchAfterDomain(url, CustomPrefix, IsIdChar);
    MatchPathDomain(url);
  }

  /** An input with no `youtube.com/` at all is rejected with the usage message. */
  lemma NoYouTubeRejected(channelUrl: string)
    requires !Contains(Trim(channelUrl), "youtube.com/")
    ensures ParseChannelIdentifier(channelUrl) == Err(InvalidUrlMessage)
  {
    NoDomainNoMatch(Trim(channelUrl));
  }

  /** Containing a string means containing each of its prefixes. */
  lemma {:induction false} ContainsPrefix(s: string, w: string, p: string)
    requires |p| <= |w| && w[..|p|] == p
    ensures Contains(s, w) ==> Contains(s, p)
    decreases |s|
  {
    if Contains(s, w) {
      if StartsWith(s, w) {
        assert s[..|p|] == s[..|w|][..|p|];
      } else {
        ContainsPrefix(s[1..], w, p);
      }
    }
  }

  // ---------------------------------------------------------------------------
  // Well-formed URLs

  /** The start of a channel URL as YouTube writes it. */
  const UrlStart: string := "https://www.youtube.com/"

  /** In `https://www.youtube.com/` followed by `tail`, the domain text
      appears at position 12 and otherwise only just before a `/` of `tail`. */
  lemma DomainOnlyAt(tail: string, i: nat)
    requires var url := UrlStart + tail; i + 12 <= |url| && url[i..i + 12] == DomainPrefix
    ensures i == 12 || (24 <= i && tail[i - 13] == '/' && tail[i - 24] == 'y')
  {
    var url := UrlStart + tail;
    assert url[i + 11] == url[i..i + 12][11] == '/';
    assert url[i] == url[i..i + 12][0] == 'y';
    if i < 24 {
      assert url[i] == UrlStart[i];
    } else {
      assert url[i + 11] == tail[i - 13] && url[i] == tail[i - 24];
    }
  }

  /** A prefixed pattern can only match where the domain text is. */
  lemma MatchesAtDomain(s: string, prefix: string, allowed: char -> bool, i: nat)
    requires 12 <= |prefix| && prefix[..12] == DomainPrefix && MatchesAt(s, prefix, allowed, i)
    ensures i + 12 <= |s| && s[i..i + 12] == DomainPrefix
  {
    assert s[i..i + 12] == s[i..][..|prefix|][..12];
  }

  /** A run that reaches the end of the string covers all of it. */
  lemma RunToEnd(s: string, j: nat, v: string, allowed: char -> bool)
    requires RunAt(s, j, v, allowed) && forall k :: j <= k < |s| ==> allowed(s[k])
    ensures v == s[j..]
  {
  }

  /** `https://www.youtube.com/` + `tail` reads back as itself after `trim`. */
  lemma TrimUrl(tail: string)
    requires |tail| > 0 && !IsSpace(tail[|tail| - 1])
    ensures Trim(UrlStart + tail) == UrlStart + tail
  {
    TrimStartKeeps(UrlStart + tail);
  }

  /** A prefixed pattern does not match `https://www.youtube.com/` + `tail`
      when `tail` does not start with the rest of the pattern and no `/` of
      `tail` ends a second `youtube.com/`. */
  lemma NoMatchInUrl(tail: string, prefix: string, allowed: char -> bool)
    requires 12 <= |prefix| && prefix[..12] == DomainPrefix
    requires !StartsWith(tail, prefix[12..])
    requires forall t :: 11 <= t < |tail| && tail[t] == '/' ==> tail[t - 11] != 'y'
    ensures MatchAfter(UrlStart + tail, prefix, allowed).None?
  {
    var url := UrlStart + tail;
    forall i | 0 <= i <= |url| && MatchesAt(url, prefix, allowed, i)
      ensures false
    {
      MatchesAtDomain(url, prefix, allowed, i);
      DomainOnlyAt(tail, i);
    }
  }

  /** The first match at position 12 of a URL whose name runs to the end
      captures the whole name. */
  lemma CapturesName(url: string, prefix: string, allowed: char -> bool, v: string)
    requires 12 <= |prefix| && prefix[..12] == DomainPrefix && url == UrlStart + prefix[12..] + v
    requires |v| > 0 && forall k :: 0 <= k < |v| ==> allowed(v[k])
    ensures MatchAfter(url, prefix, allowed) == Some(v)
  {
    var j := 12 + |prefix|;
    assert url[12..][..|prefix|] == prefix;
    assert url[j] == v[0];
    assert MatchesAt(url, prefix, allowed, 12);
    forall i | 0 <= i < 12 && MatchesAt(url, prefix, allowed, i)
      ensures false
    {
      MatchesAtDomain(url, prefix, allowed, i);
      DomainOnlyAt(prefix[12..] + v, i);
    }
    var w := MatchAfter(url, prefix, allowed).value;
    assert FirstMatch(url, prefix, allowed, 0) == Some(12);
    assert url[j..] == v;
    RunToEnd(url, j, w, allowed);
  }

  /** `https://www.youtube.com/channel/ID` is the channel id `ID`. */
  lemma AcceptsChannelId(v: string)
    requires |v| > 0 && forall k :: 0 <= k < |v| ==> IsIdChar(v[k])
    ensures ParseChannelIdentifier(UrlStart + "channel/" + v) == Ok(ChannelRef(ById, v))
  {
    TrimUrl("channel/" + v);
    assert UrlStart + "channel/" + v == UrlStart + ("channel/" + v);
    CapturesName(UrlStart + "channel/" + v, ChannelPrefix, IsIdChar, v);
  }

  /** `https://www.youtube.com/@name` is the handle `name`. */
  lemma AcceptsHandle(v: string)
    requires |v| > 0 && forall k :: 0 <= k < |v| ==> IsHandleChar(v[k])
    ensures ParseChannelIdentifier(UrlStart + "@" + v) == Ok(ChannelRef(Handle, v))
  {
    var tail := "@" + v;
    assert UrlStart + "@" + v == UrlStart + tail;
    TrimUrl(tail);
    assert tail[0] == '@';
    NoMatchInUrl(tail, ChannelPrefix, IsIdChar);
    CapturesName(UrlStart + tail, HandlePrefix, IsHandleChar, v);
  }

  /** A short literal then a name without `/`: no `/` from position 11 on. */
  lemma NoLateSlash(lit: string, v: string)
    requires |lit| <= 11 && forall k :: 0 <= k < |v| ==> IsHandleChar(v[k])
    ensures forall t :: 11 <= t < |lit + v| ==> (lit + v)[t] != '/'
  {
    forall t | 11 <= t < |lit + v|
      ensures (lit + v)[t] != '/'
    {
      assert (lit + v)[t] == v[t - |lit|];
    }
  }

  /** In a `/user/` URL neither the id nor the handle pattern matches. */
  lemma UserUrlEarlier(v: string)
    requires forall k :: 0 <= k < |v| ==> IsIdChar(v[k])
    ensures MatchAfter(UrlStart + ("user/" + v), ChannelPrefix, IsIdChar).None?
    ensures MatchAfter(UrlStart + ("user/" + v), HandlePrefix, IsHandleChar).None?
  {
    var tail := "user/" + v;
    NoLateSlash("user/", v);
    assert tail[0] == 'u';
    NoMatchInUrl(tail, ChannelPrefix, IsIdChar);
    NoMatchInUrl(tail, HandlePrefix, IsHandleChar);
  }

  /** `https://www.youtube.com/user/name` is the user name `name`. */
  lemma AcceptsUser(v: string)
    requires |v| > 0 && forall k :: 0 <= k < |v| ==> IsIdChar(v[k])
    ensures ParseChannelIdentifier(UrlStart + "user/" + v) == Ok(ChannelRef(Username, v))
  {
    var tail := "user/" + v;
    assert UrlStart + "user/" + v == UrlStart + tail;
    TrimUrl(tail);
    UserUrlEarlier(v);
    CapturesName(UrlStart + tail, UserPrefix, IsIdChar, v);
  }

  /** In a `/c/` URL none of the id, handle and user patterns matches. */
  lemma CustomUrlEarlier(v: string)
    requires forall k :: 0 <= k < |v| ==> IsIdChar(v[k])
    ensures MatchAfter(UrlStart + ("c/" + v), ChannelPrefix, IsIdChar).None?
    ensures MatchAfter(UrlStart + ("c/" + v), HandlePrefix, IsHandleChar).None?
    ensures MatchAfter(UrlStart + ("c/" + v), UserPrefix, IsIdChar).None?
  {
    var tail := "c/" + v;
    NoLateSlash("c/", v);
    assert tail[0] == 'c' && tail[1] == '/';
    NoMatchInUrl(tail, ChannelPrefix, IsIdChar);
    NoMatchInUrl(tail, HandlePrefix, IsHandleChar);
    NoMatchInUrl(tail, UserPrefix, IsIdChar);
  }

  /** `https://www.youtube.com/c/name` is the custom name `name`. */
  lemma AcceptsCustom(v: string)
    requires |v| > 0 && forall k :: 0 <= k < |v| ==> IsIdChar(v[k])
    ensures ParseChannelIdentifier(UrlStart + "c/" + v) == Ok(ChannelRef(Custom, v))
  {
    var tail := "c/" + v;
    assert UrlStart + "c/" + v == UrlStart + tail;
    TrimUrl(tail);
    CustomUrlEarlier(v);
    CapturesName(UrlStart + tail, CustomPrefix, IsIdChar, v);
  }

  /** A name of id characters does not start with a pattern's text after
      the domain, which holds a `/` or an `@`. */
  lemma NameNoPrefix(v: string, prefix: string, q: nat)
    requires forall k :: 0 <= k < |v| ==> IsIdChar(v[k])
    requires 12 <= q < |prefix| && !IsIdChar(prefix[q])
    ensures !StartsWith(v, prefix[12..])
  {
  }

  /** `https://www.youtube.com/name` is the custom name `name` unless `name`
      starts with a reserved word. */
  lemma AcceptsBarePath(v: string)
    requires |v| > 0 && forall k :: 0 <= k < |v| ==> IsIdChar(v[k])
    ensures ParseChannelIdentifier(UrlStart + v)
            == if Reserved(v) then Err(InvalidUrlMessage) else Ok(ChannelRef(Custom, v))
  {
    var url := UrlStart + v;
    TrimUrl(v);
    NameNoPrefix(v, ChannelPrefix, 19);
    NoMatchInUrl(v, ChannelPrefix, IsIdChar);
    NameNoPrefix(v, HandlePrefix, 12);
    NoMatchInUrl(v, HandlePrefix, IsHandleChar);
    NameNoPrefix(v, UserPrefix, 16);
    NoMatchInUrl(v, UserPrefix, IsIdChar);
    NameNoPrefix(v, CustomPrefix, 13);
    NoMatchInUrl(v, CustomPrefix, IsIdChar);
    assert MatchPath(url) == Some(v) by { BarePathCaptured(v); }
  }

  /** The bare-path pattern captures the whole name. */
  lemma BarePathCaptured(v: string)
    requires |v| > 0 && forall k :: 0 <= k < |v| ==> IsIdChar(v[k])
    ensures MatchPath(UrlStart + v) == Some(v)
  {
    var url := UrlStart + v;
    assert url[12..][..12] == DomainPrefix;
    assert url[24..] == v;
    assert PathMatchesAt(url, 12);
    forall i | 0 <= i < 12 && PathMatchesAt(url, i)
      ensures false
    {
      assert url[i..i + 12] == url[i..][..12];
      DomainOnlyAt(v, i);
    }
    var w := MatchPath(url).value;
    assert FirstPathMatch(url, 0) == Some(12);
    RunToEnd(url, 24, w, IsIdChar);
  }
}
