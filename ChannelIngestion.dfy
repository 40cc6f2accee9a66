/**
 * The channel route `POST /api/youtube/channel` of server/index.js: from a
 * request body and the answers of the upstream services to the stream of
 * progress, complete and error objects written back. The upstream services
 * are inputs: the channel lookup is a function of the parsed identifier,
 * the uploads listing is the sequence of page responses in request order,
 * the metadata service is a function of an id batch, and the caption
 * service is the one of the transcript module.
 */
module ChannelIngestion {
  import opened Wrappers
  import opened JsText
  import opened JsValues
  import opened MaxVideos
  import opened ChannelIdentifier
  import opened Transcript

  /** One object written to the NDJSON stream. */
  datatype Event =
    | Progress(step: string, current: int, total: int)
    | Complete(data: Value)
    | Failed(error: string)

  /** `complete` and `error` end the stream. */
  predicate Terminal(e: Event) {
    !e.Progress?
  }

  /** Exactly one terminal object, and it is the last one. */
  predicate OneTerminal(events: seq<Event>) {
    |events| > 0 && Terminal(events[|events| - 1])
    && forall i :: 0 <= i < |events| - 1 ==> !Terminal(events[i])
  }

  function Min(a: int, b: int): int {
    if a <= b then a else b
  }

  // ---------------------------------------------------------------------------
  // Pagination of the uploads playlist

  /** One page of `playlistItems`: each item's `contentDetails.videoId`, and
      `nextPageToken || ''`. */
  datatype PlaylistPage = PlaylistPage(items: seq<Option<string>>, nextPageToken: string)

  /** The truthy video ids of a page, in page order. */
  function PageIds(items: seq<Option<string>>): seq<string>
  {
    if |items| == 0 then []
    else if items[0].Some? && items[0].value != "" then [items[0].value] + PageIds(items[1..])
    else PageIds(items[1..])
  }

  /** A page gives at most one id per item, and never an empty one. */
  lemma {:induction false} PageIdsBounded(items: seq<Option<string>>)
    ensures |PageIds(items)| <= |items|
    ensures forall i :: 0 <= i < |PageIds(items)| ==> PageIds(items)[i] != ""
    decreases |items|
  {
    if |items| > 0 {
      PageIdsBounded(items[1..]);
      var rest := PageIds(items[1..]);
      if items[0].Some? && items[0].value != "" {
        forall i | 0 <= i < |PageIds(items)| ensures PageIds(items)[i] != "" {
          if i > 0 { assert PageIds(items)[i] == rest[i - 1]; }
        }
      }
    }
  }

  /** Every kept id comes from the page, and a page whose items all carry an
      id keeps them all, in order. */
  lemma {:induction false} PageIdsFaithful(items: seq<Option<string>>)
    ensures forall i :: 0 <= i < |PageIds(items)| ==> Some(PageIds(items)[i]) in items
    ensures (forall i :: 0 <= i < |items| ==> items[i].Some? && items[i].value != "")
            ==> PageIds(items) == seq(|items|, i requires 0 <= i < |items| => items[i].value)
    decreases |items|
  {
    if |items| > 0 {
      PageIdsFaithful(items[1..]);
      var rest := PageIds(items[1..]);
      forall i | 0 <= i < |rest| ensures Some(rest[i]) in items {
        assert Some(rest[i]) in items[1..];
      }
    }
  }

  /** The loop goes on after a page that succeeded with a next token and at
      least one item. */
  predicate Continues(p: Result<PlaylistPage>) {
    p.Ok? && p.value.nextPageToken != "" && |p.value.items| > 0
  }

  /** The listing is finite: its last page does not ask for another. */
  predicate ListingEnds(pages: seq<Result<PlaylistPage>>) {
    |pages| > 0 && !Continues(pages[|pages| - 1])
  }

  /** The ids a page response contributes (none for a failed request). */
  function ResponseIds(p: Result<PlaylistPage>): seq<string> {
    if p.Ok? then PageIds(p.value.items) else []
  }

  /** How many items a page response holds. */
  function ResponseSize(p: Result<PlaylistPage>): nat {
    if p.Ok? then |p.value.items| else 0
  }

  /** The ids the `n` pages from page `k` on contribute, in page order. */
  function IdsFrom(pages: seq<Result<PlaylistPage>>, k: nat, n: nat): seq<string>
    requires k + n <= |pages|
    decreases n
  {
    if n == 0 then [] else ResponseIds(pages[k]) + IdsFrom(pages, k + 1, n - 1)
  }

  /** `maxResults: Math.min(50, max - videoIds.length)`. */
  function Want(max: int, have: int): int {
    Min(50, max - have)
  }

  lemma AppendAssoc(a: seq<string>, b: seq<string>, c: seq<string>)
    ensures (a + b) + c == a + (b + c)
  {
  }

  /** What the pagination loop does from request `k` on with `ids`
      collected: the outcome (the ids, or the failed request's message) and
      the `maxResults` of every request it sends. */
  function Pagination(max: int, pages: seq<Result<PlaylistPage>>, k: nat, ids: seq<string>): (out: (Result<seq<string>>, seq<int>))
    requires ListingEnds(pages) && k < |pages|
    ensures k + |out.1| <= |pages|
    decreases |pages| - k
  {
    if |ids| >= max then (Ok(ids), [])
    else
      var want := Want(max, |ids|);
      var resp := pages[k];
      if resp.Err? then (Err(resp.message), [want])
      else
        var next := ids + PageIds(resp.value.items);
        if !Continues(resp) then (Ok(next), [want])
        else
          var rest := Pagination(max, pages, k + 1, next);
          (rest.0, [want] + rest.1)
  }

  /** The pagination loop: `asked` lists the `maxResults` of each request
      sent, and a failed request ends the loop with its message. */
  method CollectVideoIds(max: int, pages: seq<Result<PlaylistPage>>)
    returns (r: Result<seq<string>>, asked: seq<int>)
    requires ListingEnds(pages)
    ensures (r, asked) == Pagination(max, pages, 0, [])
  {
    var ids: seq<string> := [];
    var k := 0;
    var done := false;
    asked := [];
    assert asked + Pagination(max, pages, k, ids).1 == Pagination(max, pages, k, ids).1;
    while |ids| < max && !done
      invariant 0 <= k <= |pages|
      invariant !done ==> k < |pages| && Pagination(max, pages, 0, [])
                            == (Pagination(max, pages, k, ids).0, asked + Pagination(max, pages, k, ids).1)
      invariant done ==> Pagination(max, pages, 0, []) == (Ok(ids), asked)
      decreases |pages| - k, if done then 0 else 1
    {
      var want := Min(50, max - |ids|);
      var resp := pages[k];
      var rest := Pagination(max, pages, k, ids);
      if resp.Err? {
        assert rest == (Err(resp.message), [want]);
        assert Pagination(max, pages, 0, []) == (Err(resp.message), asked + [want]);
        asked := asked + [want];
        r := Err(resp.message);
        return;
      }
      var next := ids + PageIds(resp.value.items);
      if resp.value.nextPageToken == "" || |resp.value.items| == 0 {
        assert rest == (Ok(next), [want]);
        done := true;
      } else {
        assert rest.1 == [want] + Pagination(max, pages, k + 1, next).1;
        assert asked + rest.1 == (asked + [want]) + Pagination(max, pages, k + 1, next).1;
      }
      asked := asked + [want];
      ids := next;
      k := k + 1;
    }
    if !done {
      assert Pagination(max, pages, k, ids) == (Ok(ids), []);
      assert asked + [] == asked;
    }
    r := Ok(ids);
  }

  /** Every request asks for at least one and at most 50 ids; none is sent
      once `max` ids are in. */
  lemma {:induction false} PaginationAskRange(max: int, pages: seq<Result<PlaylistPage>>, k: nat, ids: seq<string>)
    requires ListingEnds(pages) && k < |pages|
    ensures var asked := Pagination(max, pages, k, ids).1;
            (|asked| == 0 <==> |ids| >= max)
            && forall j {:trigger asked[j]} :: 0 <= j < |asked| ==> 1 <= asked[j] <= 50
    decreases |pages| - k
  {
    var resp := pages[k];
    if |ids| < max && Continues(resp) {
      PaginationAskRange(max, pages, k + 1, ids + PageIds(resp.value.items));
      PaginationStep(max, pages, k, ids);
    }
  }

  /** The ids of `j` pages: those of the first, then those of the rest. */
  lemma IdsFromLength(pages: seq<Result<PlaylistPage>>, k: nat, j: nat)
    requires 1 <= j && k + j <= |pages|
    ensures |IdsFrom(pages, k, j)| == |ResponseIds(pages[k])| + |IdsFrom(pages, k + 1, j - 1)|
  {
  }

  /** The `maxResults` of `n` requests for the pages from `k` on, with
      `have` ids collected before the first: each asks for
      `min(50, max - collected)`, and each page adds its ids. */
  function RequestSizes(max: int, pages: seq<Result<PlaylistPage>>, k: nat, have: int, n: nat): (sizes: seq<int>)
    requires k + n <= |pages|
    ensures |sizes| == n
    decreases n
  {
    if n == 0 then [] else [Want(max, have)] + RequestSizes(max, pages, k + 1, have + |ResponseIds(pages[k])|, n - 1)
  }

  /** Request `j` asks for `min(50, max - collected)`, where collected
      counts the ids of the `j` pages before it. */
  lemma {:induction false} RequestSizesAt(max: int, pages: seq<Result<PlaylistPage>>, k: nat, have: int, n: nat, j: nat)
    requires k + n <= |pages| && j < n
    ensures RequestSizes(max, pages, k, have, n)[j] == Want(max, have + |IdsFrom(pages, k, j)|)
    decreases j
  {
    if j > 0 {
      var next := have + |ResponseIds(pages[k])|;
      RequestSizesAt(max, pages, k + 1, next, n - 1, j - 1);
      IdsFromLength(pages, k, j);
    }
  }

  /** The requests the loop sends are those `RequestSizes` describes. */
  lemma {:induction false} PaginationSizes(max: int, pages: seq<Result<PlaylistPage>>, k: nat, ids: seq<string>)
    requires ListingEnds(pages) && k < |pages|
    ensures var asked := Pagination(max, pages, k, ids).1;
            asked == RequestSizes(max, pages, k, |ids|, |asked|)
    decreases |pages| - k
  {
    if |ids| < max && Continues(pages[k]) {
      var next := ids + ResponseIds(pages[k]);
      PaginationStep(max, pages, k, ids);
      PaginationSizes(max, pages, k + 1, next);
    }
  }

  /** Each request asks for `min(50, max - collected)` ids. */
  lemma PaginationAsks(max: int, pages: seq<Result<PlaylistPage>>, k: nat, ids: seq<string>)
    requires ListingEnds(pages) && k < |pages|
    ensures var asked := Pagination(max, pages, k, ids).1;
            forall j {:trigger asked[j]} :: 0 <= j < |asked| ==>
              asked[j] == Want(max, |ids| + |IdsFrom(pages, k, j)|)
  {
    var asked := Pagination(max, pages, k, ids).1;
    PaginationSizes(max, pages, k, ids);
    forall j | 0 <= j < |asked| ensures asked[j] == Want(max, |ids| + |IdsFrom(pages, k, j)|) {
      RequestSizesAt(max, pages, k, |ids|, |asked|, j);
    }
  }

  /** The loop goes on only past pages that succeeded with a next token and
      items; a failure is the last request sent and gives its message. */
  lemma {:induction false} PaginationStops(max: int, pages: seq<Result<PlaylistPage>>, k: nat, ids: seq<string>)
    requires ListingEnds(pages) && k < |pages|
    ensures var (r, asked) := Pagination(max, pages, k, ids);
            (forall j :: k <= j < k + |asked| - 1 ==> Continues(pages[j]))
            && (r.Err? ==> |asked| > 0 && pages[k + |asked| - 1].Err? && r.message == pages[k + |asked| - 1].message)
            && (r.Ok? ==> |r.value| >= max || (|asked| > 0 && !Continues(pages[k + |asked| - 1])))
    decreases |pages| - k
  {
    var resp := pages[k];
    if |ids| < max && resp.Ok? && Continues(resp) {
      PaginationStops(max, pages, k + 1, ids + PageIds(resp.value.items));
    }
  }

  /** Every page read on the way to a successful outcome succeeded. */
  lemma {:induction false} PaginationPagesOk(max: int, pages: seq<Result<PlaylistPage>>, k: nat, ids: seq<string>)
    requires ListingEnds(pages) && k < |pages|
    ensures var out := Pagination(max, pages, k, ids);
            out.0.Ok? ==> forall j :: k <= j < k + |out.1| ==> pages[j].Ok?
    decreases |pages| - k
  {
    var resp := pages[k];
    if |ids| < max && Continues(resp) {
      PaginationPagesOk(max, pages, k + 1, ids + PageIds(resp.value.items));
      PaginationStep(max, pages, k, ids);
    }
  }

  /** The ids after one more page. */
  lemma IdsShift(pages: seq<Result<PlaylistPage>>, k: nat, n: nat, ids: seq<string>, got: seq<string>)
    requires k + 1 + n <= |pages| && got == ResponseIds(pages[k])
    ensures (ids + got) + IdsFrom(pages, k + 1, n) == ids + IdsFrom(pages, k, n + 1)
  {
    assert IdsFrom(pages, k, n + 1) == got + IdsFrom(pages, k + 1, n);
    AppendAssoc(ids, got, IdsFrom(pages, k + 1, n));
  }

  /** The ids collected are those of the pages read, in page order, with the
      items lacking an id skipped. */
  lemma {:induction false} PaginationIds(max: int, pages: seq<Result<PlaylistPage>>, k: nat, ids: seq<string>)
    requires ListingEnds(pages) && k < |pages|
    ensures var out := Pagination(max, pages, k, ids);
            out.0.Ok? ==> out.0.value == ids + IdsFrom(pages, k, |out.1|)
    decreases |pages| - k
  {
    var resp := pages[k];
    if |ids| >= max {
      PaginationIdsDone(max, pages, k, ids);
    } else if Continues(resp) {
      var got := ResponseIds(resp);
      PaginationIds(max, pages, k + 1, ids + got);
      PaginationIdsStep(max, pages, k, ids);
    } else if resp.Ok? {
      PaginationIdsLast(max, pages, k, ids);
    }
  }

  /** No request is sent once `max` ids are in. */
  lemma PaginationIdsDone(max: int, pages: seq<Result<PlaylistPage>>, k: nat, ids: seq<string>)
    requires ListingEnds(pages) && k < |pages| && |ids| >= max
    ensures Pagination(max, pages, k, ids) == (Ok(ids), [])
    ensures ids + IdsFrom(pages, k, 0) == ids
  {
    assert IdsFrom(pages, k, 0) == [];
  }

  /** The last page read adds its ids. */
  lemma PaginationIdsLast(max: int, pages: seq<Result<PlaylistPage>>, k: nat, ids: seq<string>)
    requires ListingEnds(pages) && k < |pages| && |ids| < max && pages[k].Ok? && !Continues(pages[k])
    ensures var out := Pagination(max, pages, k, ids);
            out.0 == Ok(ids + IdsFrom(pages, k, |out.1|))
  {
    var got := ResponseIds(pages[k]);
    assert Pagination(max, pages, k, ids) == (Ok(ids + got), [Want(max, |ids|)]);
    assert IdsFrom(pages, k, 1) == got + IdsFrom(pages, k + 1, 0);
    assert got + [] == got;
  }

  /** A page that continues passes its ids on to the rest of the loop. */
  lemma PaginationIdsStep(max: int, pages: seq<Result<PlaylistPage>>, k: nat, ids: seq<string>)
    requires ListingEnds(pages) && k < |pages| && |ids| < max && Continues(pages[k])
    requires var next := ids + ResponseIds(pages[k]);
             var rest := Pagination(max, pages, k + 1, next);
             k + 1 < |pages| && (rest.0.Ok? ==> rest.0.value == next + IdsFrom(pages, k + 1, |rest.1|))
    ensures var out := Pagination(max, pages, k, ids);
            out.0.Ok? ==> out.0.value == ids + IdsFrom(pages, k, |out.1|)
  {
    var got := ResponseIds(pages[k]);
    var rest := Pagination(max, pages, k + 1, ids + got);
    PaginationStep(max, pages, k, ids);
    IdsShift(pages, k, |rest.1|, ids, got);
  }

  /** One step of the loop past a page that continues. */
  lemma PaginationStep(max: int, pages: seq<Result<PlaylistPage>>, k: nat, ids: seq<string>)
    requires ListingEnds(pages) && k < |pages| && |ids| < max && Continues(pages[k])
    ensures k + 1 < |pages|
    ensures var rest := Pagination(max, pages, k + 1, ids + ResponseIds(pages[k]));
            Pagination(max, pages, k, ids) == (rest.0, [Want(max, |ids|)] + rest.1)
  {
  }

  /** If no page returns more items than its request asked for, no more
      than `max` ids are collected. */
  lemma {:induction false} PaginationBounded(max: int, pages: seq<Result<PlaylistPage>>, k: nat, ids: seq<string>)
    requires ListingEnds(pages) && k < |pages| && |ids| <= max
    ensures var (r, asked) := Pagination(max, pages, k, ids);
            r.Ok? && (forall j :: 0 <= j < |asked| ==> ResponseSize(pages[k + j]) <= asked[j]) ==> |r.value| <= max
    decreases |pages| - k
  {
    var resp := pages[k];
    if |ids| < max && resp.Ok? {
      var next := ids + PageIds(resp.value.items);
      var want := Want(max, |ids|);
      var (r, asked) := Pagination(max, pages, k, ids);
      if r.Ok? && (forall j :: 0 <= j < |asked| ==> ResponseSize(pages[k + j]) <= asked[j]) {
        assert |asked| > 0 && asked[0] == want;
        assert ResponseSize(pages[k + 0]) <= want;
        PageIdsBounded(resp.value.items);
        assert |next| <= max;
        if Continues(resp) {
          PaginationStep(max, pages, k, ids);
          var rest := Pagination(max, pages, k + 1, next);
          assert asked == [want] + rest.1;
          forall j | 0 <= j < |rest.1| ensures ResponseSize(pages[k + 1 + j]) <= rest.1[j] {
            assert rest.1[j] == asked[j + 1];
          }
          PaginationBounded(max, pages, k + 1, next);
        } else {
          assert r == Ok(next);
        }
      }
    }
  }

  // ---------------------------------------------------------------------------
  // Records

  /** `parseInt(x, 10) || 0`: never NaN. */
  function Counter(x: Option<Value>): int {
    ParseIntOf(x).GetOr(0)
  }

  /** The thumbnail: high, else medium, else default, else `null`. */
  function Thumbnail(snip: Option<Value>): (r: Value)
    ensures var th := Prop(snip, "thumbnails");
            r == Null
            || Some(r) == Prop(Prop(th, "high"), "url")
            || Some(r) == Prop(Prop(th, "medium"), "url")
            || Some(r) == Prop(Prop(th, "default"), "url")
  {
    var th := Prop(snip, "thumbnails");
    var high := Prop(Prop(th, "high"), "url");
    var medium := Prop(Prop(th, "medium"), "url");
    var default := Prop(Prop(th, "default"), "url");
    if Truthy(high) then high.value
    else if Truthy(medium) then medium.value
    else if Truthy(default) then default.value
    else Null
  }

  const WatchPrefix: string := "https://www.youtube.com/watch?v="

  /** The object pushed for one video, field by field. */
  datatype VideoRecord = VideoRecord(
    videoId: Option<Value>, title: Value, description: Value, transcript: Value,
    duration: Value, releaseDate: Value, viewCount: int, likeCount: int, commentCount: int,
    videoUrl: string, thumbnailUrl: Value)

  /** The record built for one `videos.list` item `v` with its transcript.
      `snippet`, `statistics` and `contentDetails` read as `{}` when
      missing, which property reads on `None` already express. */
  function BuildRecord(v: Value, transcript: string): (r: VideoRecord)
    ensures r.videoUrl == WatchPrefix + StringOf(r.videoId)
    ensures r.transcript == Null <==> transcript == ""
  {
    var vid := Prop(Some(v), "id");
    var snip := Prop(Some(v), "snippet");
    var stats := Prop(Some(v), "statistics");
    var content := Prop(Some(v), "contentDetails");
    VideoRecord(
      vid,
      OrElse(Prop(snip, "title"), Str("")),
      OrElse(Prop(snip, "description"), Str("")),
      if transcript != "" then Str(transcript) else Null,
      OrElse(Prop(content, "duration"), Null),
      OrElse(Prop(snip, "publishedAt"), Null),
      Counter(Prop(stats, "viewCount")),
      Counter(Prop(stats, "likeCount")),
      Counter(Prop(stats, "commentCount")),
      WatchPrefix + StringOf(vid),
      Thumbnail(snip))
  }

  /** The record as `JSON.stringify` writes it: the properties in the order
      they are written, `video_id` dropped when the item has no id. */
  function Fields(r: VideoRecord): (fs: Record)
    ensures |fs| == (if r.videoId.Some? then 11 else 10)
  {
    OptField("video_id", r.videoId) + FieldsAfterId(r)
  }

  /** The properties written after `video_id`. */
  function FieldsAfterId(r: VideoRecord): (fs: Record)
    ensures |fs| == 10
  {
    [ ("title", r.title), ("description", r.description), ("transcript", r.transcript),
      ("duration", r.duration), ("release_date", r.releaseDate),
      ("view_count", Num(r.viewCount)), ("like_count", Num(r.likeCount)),
      ("comment_count", Num(r.commentCount)), ("video_url", Str(r.videoUrl)),
      ("thumbnail_url", r.thumbnailUrl) ]
  }

  /** A property written after `video_id` reads back as written. */
  lemma FieldAfterId(r: VideoRecord, i: nat, key: string)
    requires i < 10 && key != "video_id" && FieldsAfterId(r)[i].0 == key
    requires forall j :: 0 <= j < i ==> FieldsAfterId(r)[j].0 != key
    ensures Get(Fields(r), key) == Some(FieldsAfterId(r)[i].1)
  {
    GetAt(FieldsAfterId(r), i, key);
    GetOptField("video_id", r.videoId, FieldsAfterId(r), key);
  }

  /** No property written after `video_id` is named `video_id`. */
  lemma NoIdAfterId(r: VideoRecord)
    ensures Get(FieldsAfterId(r), "video_id").None?
  {
    var body := FieldsAfterId(r);
    forall j | 0 <= j < |body| ensures body[j].0 != "video_id" {
      if j == 3 {
        assert body[3].0[0] == 'd';
      } else {
        assert |body[j].0| != 8;
      }
    }
    GetAbsent(body, "video_id");
  }

  /** The id, the title, the transcript and the URL read back as the fields
      they were written from. */
  lemma FieldsText(r: VideoRecord)
    ensures var fs := Fields(r);
            Get(fs, "video_id") == r.videoId
            && Get(fs, "title") == Some(r.title)
            && Get(fs, "transcript") == Some(r.transcript)
            && Get(fs, "video_url") == Some(Str(r.videoUrl))
  {
    var body := FieldsAfterId(r);
    FieldAfterId(r, 0, "title");
    FieldAfterId(r, 2, "transcript");
    FieldAfterId(r, 8, "video_url");
    if r.videoId.None? {
      assert Fields(r) == body;
      NoIdAfterId(r);
    } else {
      GetOptField("video_id", r.videoId, body, "video_id");
    }
  }

  /** The three counters read back as numbers. */
  lemma FieldsCounters(r: VideoRecord)
    ensures var fs := Fields(r);
            Get(fs, "view_count") == Some(Num(r.viewCount))
            && Get(fs, "like_count") == Some(Num(r.likeCount))
            && Get(fs, "comment_count") == Some(Num(r.commentCount))
  {
    FieldAfterId(r, 5, "view_count");
    FieldAfterId(r, 6, "like_count");
    FieldAfterId(r, 7, "comment_count");
  }

  /** Counters are the leading integers of the statistics, 0 where there is
      none; missing strings become "", missing dates and durations `null`. */
  lemma RecordDefaults(v: Value, transcript: string)
    ensures var r := BuildRecord(v, transcript);
            var snip := Prop(Some(v), "snippet");
            var stats := Prop(Some(v), "statistics");
            (ParseIntOf(Prop(stats, "viewCount")).None? ==> r.viewCount == 0)
            && (ParseIntOf(Prop(stats, "viewCount")).Some? ==> r.viewCount == ParseIntOf(Prop(stats, "viewCount")).value)
            && (!Truthy(Prop(snip, "title")) ==> r.title == Str(""))
            && (Truthy(Prop(snip, "title")) ==> Some(r.title) == Prop(snip, "title"))
            && (!Truthy(Prop(snip, "publishedAt")) ==> r.releaseDate == Null)
            && r.videoId == Prop(Some(v), "id")
  {
  }

  /** What the handler fetches for an item: its transcript by the fallback chain. */
  function VideoIdText(v: Value): string {
    match Prop(Some(v), "id")
    case Some(Str(s)) => s
    case _ => ""
  }

  /** A metadata item with the transcript fetched for it: the record pushed
      for the item is `BuildRecord(item, transcript)`. */
  datatype Fetched = Fetched(item: Value, transcript: string)

  /** The `videos` array of the result: the written record of each fetched
      item, in order. */
  function VideoObjects(fetched: seq<Fetched>): (items: seq<Value>)
    ensures |items| == |fetched|
  {
    seq(|fetched|, i requires 0 <= i < |fetched| => Obj(Fields(BuildRecord(fetched[i].item, fetched[i].transcript))))
  }

  /** Object `i` of the array is the record built for item `i`, carrying
      that item's id. */
  lemma VideoObjectAt(fetched: seq<Fetched>, i: nat)
    requires i < |fetched|
    ensures var r := BuildRecord(fetched[i].item, fetched[i].transcript);
            VideoObjects(fetched)[i] == Obj(Fields(r)) && r.videoId == Prop(Some(fetched[i].item), "id")
  {
  }

  /** The item with its transcript by the fallback chain. */
  function FetchedFor(v: Value, captions: (string, Option<string>) -> Result<Option<Value>>): Fetched {
    Fetched(v, FallbackTranscript(VideoIdText(v), captions))
  }

  /** Every record the route builds carries the fetched text or the marker,
      never `null`, and the watch URL of its id. */
  lemma FetchedRecord(v: Value, captions: (string, Option<string>) -> Result<Option<Value>>)
    ensures var f := FetchedFor(v, captions);
            var r := BuildRecord(f.item, f.transcript);
            r.transcript == Str(FallbackTranscript(VideoIdText(v), captions))
            && r.videoUrl == WatchPrefix + StringOf(Prop(Some(v), "id"))
  {
  }

  /** A missing statistic counts 0 and a decimal one its value. */
  lemma CounterExamples(n: int)
    ensures Counter(None) == 0
    ensures Counter(Some(Str(IntToString(n)))) == n
  {
    LetterNoNumber(StringOf(None));
    ParseIntOfIntToString(n);
  }

  /** The thumbnail falls back from high to medium to default to `null`. */
  lemma ThumbnailFallback(snip: Option<Value>)
    ensures var th := Prop(snip, "thumbnails");
            var high := Prop(Prop(th, "high"), "url");
            var medium := Prop(Prop(th, "medium"), "url");
            var default := Prop(Prop(th, "default"), "url");
            (Thumbnail(snip) == Null <==> !Truthy(high) && !Truthy(medium) && !Truthy(default))
            && (Truthy(high) ==> Some(Thumbnail(snip)) == high)
            && (!Truthy(high) && Truthy(medium) ==> Some(Thumbnail(snip)) == medium)
  {
  }

  // ---------------------------------------------------------------------------
  // Metadata batches

  /** The id batches from position `i` on: consecutive slices of 50 ids, the
      last one possibly shorter (`i += ids.length - 1` and the loop's own
      `i++` together step over one batch). */
  function Slices(ids: seq<string>, i: nat): seq<seq<string>>
    requires i <= |ids|
    decreases |ids| - i
  {
    if i == |ids| then []
    else [ids[i..Min(i + 50, |ids|)]] + Slices(ids, Min(i + 50, |ids|))
  }

  /** Batches laid end to end. */
  function Concat(bs: seq<seq<string>>): seq<string> {
    if |bs| == 0 then [] else bs[0] + Concat(bs[1..])
  }

  /** The batches cover the ids in order, each holds 1 to 50 of them, and all
      but the last exactly 50. */
  lemma {:induction false} SlicesCover(ids: seq<string>, i: nat)
    requires i <= |ids|
    ensures var bs := Slices(ids, i);
            Concat(bs) == ids[i..]
            && (forall b :: 0 <= b < |bs| ==> 1 <= |bs[b]| <= 50)
            && (forall b :: 0 <= b < |bs| - 1 ==> |bs[b]| == 50)
    decreases |ids| - i
  {
    if i < |ids| {
      var end := Min(i + 50, |ids|);
      SlicesCover(ids, end);
      var bs := Slices(ids, i);
      var rest := Slices(ids, end);
      assert bs[1..] == rest;
      assert ids[i..] == ids[i..end] + ids[end..];
      forall b | 1 <= b < |bs| ensures bs[b] == rest[b - 1] { }
    }
  }

  /** What the batching loop produces: the fetched items, the message of a
      failed metadata request, and the progress objects written. */
  datatype Batched = Batched(videos: seq<Fetched>, failure: Option<string>, events: seq<Event>)

  /** The items of one batch with their transcripts. */
  function FetchAll(items: seq<Value>, captions: (string, Option<string>) -> Result<Option<Value>>): (fs: seq<Fetched>)
    ensures |fs| == |items|
  {
    seq(|items|, k requires 0 <= k < |items| => FetchedFor(items[k], captions))
  }

  /** The transcript objects of a batch of `n` items after `done` records. */
  function TranscriptEvents(n: nat, done: nat, total: int): (es: seq<Event>)
    ensures |es| == n
  {
    seq(n, k requires 0 <= k < n => Progress("transcript", done + k + 1, total))
  }

  /** The batching loop over `bs` with `done` records built so far: per
      batch a `videos` object and the metadata request, then per item a
      `transcript` object and its transcript; a failed request ends it. */
  function Batching(bs: seq<seq<string>>, done: nat, total: int, metadata: seq<string> -> Result<seq<Value>>,
                    captions: (string, Option<string>) -> Result<Option<Value>>): Batched
    decreases |bs|
  {
    if |bs| == 0 then Batched([], None, [])
    else
      var start := Progress("videos", done, total);
      var resp := metadata(bs[0]);
      if resp.Err? then Batched([], Some(resp.message), [start])
      else
        var items := resp.value;
        var rest := Batching(bs[1..], done + |items|, total, metadata, captions);
        Batched(FetchAll(items, captions) + rest.videos, rest.failure,
                [start] + TranscriptEvents(|items|, done, total) + rest.events)
  }

  lemma FetchAllSnoc(items: seq<Value>, k: nat, captions: (string, Option<string>) -> Result<Option<Value>>)
    requires k < |items|
    ensures FetchAll(items[..k + 1], captions) == FetchAll(items[..k], captions) + [FetchedFor(items[k], captions)]
  {
    var a, b := FetchAll(items[..k + 1], captions), FetchAll(items[..k], captions) + [FetchedFor(items[k], captions)];
    forall j | 0 <= j < |a| ensures a[j] == b[j] {
      assert items[..k + 1][j] == items[j];
      if j < k { assert items[..k][j] == items[j]; }
    }
  }

  /** The inner loop over one batch's items: a transcript progress object
      with the 1-based position, then the transcript. */
  method FetchBatch(items: seq<Value>, done: nat, total: int, captions: (string, Option<string>) -> Result<Option<Value>>)
    returns (fetched: seq<Fetched>, events: seq<Event>)
    ensures fetched == FetchAll(items, captions)
    ensures events == TranscriptEvents(|items|, done, total)
  {
    fetched := [];
    events := [];
    var k := 0;
    while k < |items|
      invariant 0 <= k <= |items| && |events| == k
      invariant fetched == FetchAll(items[..k], captions)
      invariant forall j :: 0 <= j < k ==> events[j] == Progress("transcript", done + j + 1, total)
    {
      var v := items[k];
      events := events + [Progress("transcript", done + k + 1, total)];
      var transcript := GetTranscriptWithFallback(VideoIdText(v), captions);
      FetchAllSnoc(items, k, captions);
      fetched := fetched + [Fetched(v, transcript)];
      k := k + 1;
    }
    assert items[..k] == items;
  }

  /** The batch starting at `i` when fetching its metadata fails. */
  lemma BatchingFails(ids: seq<string>, i: nat, done: nat, total: int, metadata: seq<string> -> Result<seq<Value>>,
                      captions: (string, Option<string>) -> Result<Option<Value>>)
    requires i < |ids| && metadata(ids[i..Min(i + 50, |ids|)]).Err?
    ensures Batching(Slices(ids, i), done, total, metadata, captions)
            == Batched([], Some(metadata(ids[i..Min(i + 50, |ids|)]).message), [Progress("videos", done, total)])
  {
    var bs := Slices(ids, i);
    assert bs[0] == ids[i..Min(i + 50, |ids|)];
  }

  /** The batch starting at `i` when its metadata arrives, then the rest. */
  lemma BatchingGoes(ids: seq<string>, i: nat, done: nat, total: int, metadata: seq<string> -> Result<seq<Value>>,
                     captions: (string, Option<string>) -> Result<Option<Value>>, items: seq<Value>)
    requires i < |ids| && metadata(ids[i..Min(i + 50, |ids|)]) == Ok(items)
    ensures var rest := Batching(Slices(ids, Min(i + 50, |ids|)), done + |items|, total, metadata, captions);
            Batching(Slices(ids, i), done, total, metadata, captions)
            == Batched(FetchAll(items, captions) + rest.videos, rest.failure,
                       [Progress("videos", done, total)] + TranscriptEvents(|items|, done, total) + rest.events)
  {
    var bs := Slices(ids, i);
    assert bs[0] == ids[i..Min(i + 50, |ids|)] && bs[1..] == Slices(ids, Min(i + 50, |ids|));
  }

  /** The batching loop of the route. */
  method FetchVideos(ids: seq<string>, metadata: seq<string> -> Result<seq<Value>>,
                     captions: (string, Option<string>) -> Result<Option<Value>>)
    returns (videos: seq<Fetched>, failure: Option<string>, events: seq<Event>)
    ensures Batched(videos, failure, events) == Batching(Slices(ids, 0), 0, |ids|, metadata, captions)
  {
    videos := [];
    failure := None;
    events := [];
    var i := 0;
    ghost var whole := Batching(Slices(ids, 0), 0, |ids|, metadata, captions);
    ghost var rest := whole;
    assert whole == Batched(videos + rest.videos, rest.failure, events + rest.events);
    while i < |ids|
      invariant 0 <= i <= |ids| && failure.None?
      invariant rest == Batching(Slices(ids, i), |videos|, |ids|, metadata, captions)
      invariant whole == Batched(videos + rest.videos, rest.failure, events + rest.events)
      decreases |ids| - i
    {
      var end := Min(i + 50, |ids|);
      var start := Progress("videos", |videos|, |ids|);
      var resp := metadata(ids[i..end]);
      if resp.Err? {
        BatchingFails(ids, i, |videos|, |ids|, metadata, captions);
        assert videos + [] == videos;
        events := events + [start];
        failure := Some(resp.message);
        return;
      }
      var fetched, more := FetchBatch(resp.value, |videos|, |ids|, captions);
      BatchingGoes(ids, i, |videos|, |ids|, metadata, captions, resp.value);
      var rest' := Batching(Slices(ids, end), |videos| + |fetched|, |ids|, metadata, captions);
      BatchedShift(videos, fetched, events, [start] + more, rest');
      videos := videos + fetched;
      events := events + ([start] + more);
      i := end;
      rest := rest';
    }
    assert videos + [] == videos && events + [] == events;
  }

  /** Moving one batch's output from what is left to what is written. */
  lemma BatchedShift(videos: seq<Fetched>, fetched: seq<Fetched>, events: seq<Event>, more: seq<Event>, rest: Batched)
    ensures Batched(videos + (fetched + rest.videos), rest.failure, events + (more + rest.events))
            == Batched((videos + fetched) + rest.videos, rest.failure, (events + more) + rest.events)
  {
    assert videos + (fetched + rest.videos) == (videos + fetched) + rest.videos;
    assert events + (more + rest.events) == (events + more) + rest.events;
  }

  /** Progress objects only, each with total `total`. */
  predicate AllProgress(es: seq<Event>, total: int) {
    forall i :: 0 <= i < |es| ==> es[i].Progress? && es[i].total == total
  }

  lemma AllProgressAppend(a: seq<Event>, b: seq<Event>, total: int)
    requires AllProgress(a, total) && AllProgress(b, total)
    ensures AllProgress(a + b, total)
  {
    forall i | |a| <= i < |a + b| ensures (a + b)[i] == b[i - |a|] { }
  }

  /** Nothing the loop writes ends the stream: every object is a progress
      object whose total is the number of ids. */
  lemma {:induction false} BatchingProgress(bs: seq<seq<string>>, done: nat, total: int,
                                             metadata: seq<string> -> Result<seq<Value>>,
                                             captions: (string, Option<string>) -> Result<Option<Value>>)
    ensures AllProgress(Batching(bs, done, total, metadata, captions).events, total)
    decreases |bs|
  {
    if |bs| > 0 && metadata(bs[0]).Ok? {
      var items := metadata(bs[0]).value;
      BatchingProgress(bs[1..], done + |items|, total, metadata, captions);
      var rest := Batching(bs[1..], done + |items|, total, metadata, captions).events;
      AllProgressAppend([Progress("videos", done, total)], TranscriptEvents(|items|, done, total), total);
      AllProgressAppend([Progress("videos", done, total)] + TranscriptEvents(|items|, done, total), rest, total);
    }
  }

  /** The `current` values of the progress objects of one step, in order. */
  function Currents(events: seq<Event>, step: string): seq<int> {
    if |events| == 0 then []
    else (if events[0].Progress? && events[0].step == step then [events[0].current] else [])
         + Currents(events[1..], step)
  }

  lemma {:induction false} CurrentsAppend(a: seq<Event>, b: seq<Event>, step: string)
    ensures Currents(a + b, step) == Currents(a, step) + Currents(b, step)
    decreases |a|
  {
    if |a| == 0 {
      assert a + b == b;
    } else {
      assert (a + b)[1..] == a[1..] + b;
      CurrentsAppend(a[1..], b, step);
    }
  }

  /** `from + 1`, …, `from + n`. */
  function Counting(from: int, n: nat): (cs: seq<int>)
    ensures |cs| == n
  {
    seq(n, k requires 0 <= k < n => from + k + 1)
  }

  lemma {:induction false} CurrentsOfTranscripts(n: nat, done: nat, total: int)
    ensures Currents(TranscriptEvents(n, done, total), "transcript") == Counting(done, n)
    decreases n
  {
    if n > 0 {
      var es := TranscriptEvents(n, done, total);
      assert es[1..] == TranscriptEvents(n - 1, done + 1, total);
      CurrentsOfTranscripts(n - 1, done + 1, total);
      assert Counting(done, n) == [done + 1] + Counting(done + 1, n - 1);
    }
  }

  lemma CountingAppend(from: int, n: nat, m: nat)
    ensures Counting(from, n) + Counting(from + n, m) == Counting(from, n + m)
  {
  }

  /** The `current` values of one batch's `transcript` objects and of what
      follows them. */
  lemma CurrentsOfBatch(done: nat, total: int, n: nat, rest: seq<Event>)
    ensures Currents([Progress("videos", done, total)] + TranscriptEvents(n, done, total) + rest, "transcript")
            == Counting(done, n) + Currents(rest, "transcript")
  {
    var start := Progress("videos", done, total);
    var te := TranscriptEvents(n, done, total);
    assert Currents([start], "transcript") == [];
    CurrentsAppend([start] + te, rest, "transcript");
    CurrentsAppend([start], te, "transcript");
    CurrentsOfTranscripts(n, done, total);
  }

  /** The `transcript` objects count the records built, 1, 2, … in order:
      one object per record, written before it. */
  lemma {:induction false} BatchingTranscriptCount(bs: seq<seq<string>>, done: nat, total: int,
                                                    metadata: seq<string> -> Result<seq<Value>>,
                                                    captions: (string, Option<string>) -> Result<Option<Value>>)
    ensures var out := Batching(bs, done, total, metadata, captions);
            Currents(out.events, "transcript") == Counting(done, |out.videos|)
    decreases |bs|
  {
    if |bs| > 0 {
      var resp := metadata(bs[0]);
      if resp.Ok? {
        var n := |resp.value|;
        var rest := Batching(bs[1..], done + n, total, metadata, captions);
        BatchingTranscriptCount(bs[1..], done + n, total, metadata, captions);
        CurrentsOfBatch(done, total, n, rest.events);
        CountingAppend(done, n, |rest.videos|);
      } else {
        assert Currents([Progress("videos", done, total)], "transcript") == [];
      }
    }
  }

  /** The metadata items of the batches, in order. */
  function AllItems(bs: seq<seq<string>>, metadata: seq<string> -> Result<seq<Value>>): seq<Value> {
    if |bs| == 0 then [] else ItemsOf(metadata(bs[0])) + AllItems(bs[1..], metadata)
  }

  /** `vdata.items`, for a request that succeeded. */
  function ItemsOf(resp: Result<seq<Value>>): seq<Value> {
    if resp.Ok? then resp.value else []
  }

  lemma FetchAllAppend(a: seq<Value>, b: seq<Value>, captions: (string, Option<string>) -> Result<Option<Value>>)
    ensures FetchAll(a + b, captions) == FetchAll(a, captions) + FetchAll(b, captions)
  {
  }

  /** Without a failure every batch was answered and every item returned
      was fetched, in order. */
  lemma {:induction false} BatchingComplete(bs: seq<seq<string>>, done: nat, total: int,
                                             metadata: seq<string> -> Result<seq<Value>>,
                                             captions: (string, Option<string>) -> Result<Option<Value>>)
    ensures var out := Batching(bs, done, total, metadata, captions);
            out.failure.None? ==> (forall b :: 0 <= b < |bs| ==> metadata(bs[b]).Ok?)
                                  && out.videos == FetchAll(AllItems(bs, metadata), captions)
    decreases |bs|
  {
    if |bs| > 0 && metadata(bs[0]).Ok? {
      var items := metadata(bs[0]).value;
      BatchingComplete(bs[1..], done + |items|, total, metadata, captions);
      FetchAllAppend(items, AllItems(bs[1..], metadata), captions);
      var out := Batching(bs, done, total, metadata, captions);
      if out.failure.None? {
        forall b | 0 <= b < |bs| ensures metadata(bs[b]).Ok? {
          if b > 0 {
            assert bs[b] == bs[1..][b - 1];
          }
        }
      }
    }
  }

  /** A failed metadata request ends the loop with its message: it is the
      first batch whose request failed, and the items of the batches before
      it were all fetched. */
  lemma {:induction false} BatchingFailure(bs: seq<seq<string>>, done: nat, total: int,
                                            metadata: seq<string> -> Result<seq<Value>>,
                                            captions: (string, Option<string>) -> Result<Option<Value>>)
    ensures var out := Batching(bs, done, total, metadata, captions);
            out.failure.Some? ==>
              exists b :: 0 <= b < |bs| && metadata(bs[b]).Err? && out.failure.value == metadata(bs[b]).message
                          && (forall c :: 0 <= c < b ==> metadata(bs[c]).Ok?)
                          && out.videos == FetchAll(AllItems(bs[..b], metadata), captions)
    decreases |bs|
  {
    var out := Batching(bs, done, total, metadata, captions);
    if |bs| > 0 && out.failure.Some? {
      if metadata(bs[0]).Err? {
        assert bs[..0] == [];
        assert out.videos == FetchAll(AllItems(bs[..0], metadata), captions);
      } else {
        var items := metadata(bs[0]).value;
        var tail := bs[1..];
        BatchingFailure(tail, done + |items|, total, metadata, captions);
        var rest := Batching(tail, done + |items|, total, metadata, captions);
        var b :| 0 <= b < |tail| && metadata(tail[b]).Err? && rest.failure.value == metadata(tail[b]).message
                 && (forall c :: 0 <= c < b ==> metadata(tail[c]).Ok?)
                 && rest.videos == FetchAll(AllItems(tail[..b], metadata), captions);
        assert bs[..b + 1][1..] == tail[..b];
        FetchAllAppend(items, AllItems(tail[..b], metadata), captions);
        assert AllItems(bs[..b + 1], metadata) == items + AllItems(tail[..b], metadata);
        forall c | 0 <= c < b + 1 ensures metadata(bs[c]).Ok? {
          if c > 0 {
            assert bs[c] == tail[c - 1];
          }
        }
        assert bs[b + 1] == tail[b];
      }
    }
  }

  // ---------------------------------------------------------------------------
  // The handler

  const NoKeyMessage: string := "YouTube API key not configured"
  const FallbackMessage: string := "Failed to fetch channel data"

  /** The `error` object of the catch block: `err.message || 'Failed …'`. */
  function ErrorEvent(message: string): (e: Event)
    ensures e.Failed? && e.error != ""
  {
    Failed(if message == "" then FallbackMessage else message)
  }

  /** `(channelUrl || '').trim`: a truthy value that is not a string has no
      `trim` and throws. */
  function UrlText(channelUrl: Option<Value>): Result<string> {
    if !Truthy(channelUrl) then Ok("")
    else if channelUrl.value.Str? then Ok(channelUrl.value.s)
    else Err("channelUrl.trim is not a function")
  }

  /** The identifier of the request body, or the message thrown while
      reading it. */
  function RequestIdentifier(body: Record): Result<ChannelRef> {
    var url := UrlText(Get(body, "channelUrl"));
    if url.Err? then Err(url.message) else ParseChannelIdentifier(url.value)
  }

  /** What `getChannelIdAndUploadsPlaylist` resolves to. */
  datatype ChannelInfo = ChannelInfo(channelId: Option<Value>, uploadsPlaylistId: string, title: string)

  /** The `complete` object's `data`. */
  function ChannelResult(info: ChannelInfo, videos: seq<Fetched>): (d: Value)
    ensures d.Obj?
  {
    Obj(OptField("channel_id", info.channelId)
        + [("channel_title", Str(info.title)), ("videos", Arr(VideoObjects(videos)))])
  }

  /** The result carries the channel's id and title and one object per
      fetched item, in order. */
  lemma ChannelResultRead(info: ChannelInfo, videos: seq<Fetched>)
    ensures var fs := ChannelResult(info, videos).fields;
            Get(fs, "channel_title") == Some(Str(info.title))
            && Get(fs, "channel_id") == info.channelId
            && Get(fs, "videos") == Some(Arr(VideoObjects(videos)))
  {
    var rest := [("channel_title", Str(info.title)), ("videos", Arr(VideoObjects(videos)))];
    GetOptField("channel_id", info.channelId, rest, "channel_title");
    GetOptField("channel_id", info.channelId, rest, "videos");
    GetOptField("channel_id", info.channelId, rest, "channel_id");
    GetAt(rest, 0, "channel_title");
    GetAt(rest, 1, "videos");
    GetAbsent(rest, "channel_id");
  }

  /** What the route writes, object by object, for the identifier parsed
      from the request body and the clamped maximum. */
  function ChannelStream(configured: bool, identifier: Result<ChannelRef>, max: int,
                         lookup: ChannelRef -> Result<ChannelInfo>,
                         pages: seq<Result<PlaylistPage>>,
                         metadata: seq<string> -> Result<seq<Value>>,
                         captions: (string, Option<string>) -> Result<Option<Value>>): seq<Event>
    requires ListingEnds(pages)
  {
    if !configured then [Failed(NoKeyMessage)]
    else if identifier.Err? then [ErrorEvent(identifier.message)]
    else
      var first := Progress("channel", 0, max);
      var info := lookup(identifier.value);
      if info.Err? then [first, ErrorEvent(info.message)]
      else
        var listed := Pagination(max, pages, 0, []).0;
        if listed.Err? then [first, ErrorEvent(listed.message)]
        else
          var run := Batching(Slices(listed.value, 0), 0, |listed.value|, metadata, captions);
          [first] + run.events
          + [if run.failure.Some? then ErrorEvent(run.failure.value)
             else Complete(ChannelResult(info.value, run.videos))]
  }

  /** The route: `configured` says whether an API key is set. The body is
      read first; the rest of the work is `StreamFor`. */
  method HandleChannelRequest(configured: bool, body: Record,
                              lookup: ChannelRef -> Result<ChannelInfo>,
                              pages: seq<Result<PlaylistPage>>,
                              metadata: seq<string> -> Result<seq<Value>>,
                              captions: (string, Option<string>) -> Result<Option<Value>>)
    returns (events: seq<Event>)
    requires ListingEnds(pages)
    ensures events == ChannelStream(configured, RequestIdentifier(body), RequestMax(Get(body, "maxVideos")),
                                    lookup, pages, metadata, captions)
  {
    if !configured {
      return [Failed(NoKeyMessage)];
    }
    var max := RequestMax(Get(body, "maxVideos"));
    var identifier := RequestIdentifier(body);
    events := StreamFor(identifier, max, lookup, pages, metadata, captions);
  }

  /** The route once the key is known to be set and the body is read. */
  method StreamFor(identifier: Result<ChannelRef>, max: int,
                   lookup: ChannelRef -> Result<ChannelInfo>,
                   pages: seq<Result<PlaylistPage>>,
                   metadata: seq<string> -> Result<seq<Value>>,
                   captions: (string, Option<string>) -> Result<Option<Value>>)
    returns (events: seq<Event>)
    requires ListingEnds(pages)
    ensures events == ChannelStream(true, identifier, max, lookup, pages, metadata, captions)
  {
    if identifier.Err? {
      return [ErrorEvent(identifier.message)];
    }
    events := [Progress("channel", 0, max)];
    var info := lookup(identifier.value);
    if info.Err? {
      return events + [ErrorEvent(info.message)];
    }
    var listed, _ := CollectVideoIds(max, pages);
    if listed.Err? {
      return events + [ErrorEvent(listed.message)];
    }
    var videos, failure, more := FetchVideos(listed.value, metadata, captions);
    events := events + more;
    if failure.Some? {
      return events + [ErrorEvent(failure.value)];
    }
    return events + [Complete(ChannelResult(info.value, videos))];
  }

  /** Exactly one `complete` or `error` object is written, as the last
      object, and an error always carries a message. */
  lemma StreamOneTerminal(configured: bool, identifier: Result<ChannelRef>, max: int,
                          lookup: ChannelRef -> Result<ChannelInfo>,
                          pages: seq<Result<PlaylistPage>>,
                          metadata: seq<string> -> Result<seq<Value>>,
                          captions: (string, Option<string>) -> Result<Option<Value>>)
    requires ListingEnds(pages)
    ensures var es := ChannelStream(configured, identifier, max, lookup, pages, metadata, captions);
            OneTerminal(es) && (es[|es| - 1].Failed? ==> es[|es| - 1].error != "")
  {
    var es := ChannelStream(configured, identifier, max, lookup, pages, metadata, captions);
    if configured && identifier.Ok? && lookup(identifier.value).Ok? {
      var listed := Pagination(max, pages, 0, []).0;
      if listed.Ok? {
        var run := Batching(Slices(listed.value, 0), 0, |listed.value|, metadata, captions);
        BatchingProgress(Slices(listed.value, 0), 0, |listed.value|, metadata, captions);
        var init := [Progress("channel", 0, max)] + run.events;
        assert es == init + [es[|es| - 1]];
        forall i | 0 <= i < |init| ensures !Terminal(init[i]) {
          if i > 0 {
            assert init[i] == run.events[i - 1];
          }
        }
      }
    }
  }

  /** Before any upstream service is asked, a missing key or a malformed
      channel URL is the only object written; once the URL parses, the
      first object is the `channel` progress object with the clamped
      maximum, and a failed lookup follows it directly. */
  lemma StreamEarlyExits(configured: bool, identifier: Result<ChannelRef>, max: int,
                         lookup: ChannelRef -> Result<ChannelInfo>,
                         pages: seq<Result<PlaylistPage>>,
                         metadata: seq<string> -> Result<seq<Value>>,
                         captions: (string, Option<string>) -> Result<Option<Value>>)
    requires ListingEnds(pages)
    ensures var es := ChannelStream(configured, identifier, max, lookup, pages, metadata, captions);
            (!configured ==> es == [Failed(NoKeyMessage)])
            && (configured && identifier.Err? ==> es == [ErrorEvent(identifier.message)])
            && (configured && identifier.Ok? ==> |es| >= 2 && es[0] == Progress("channel", 0, max))
            && (configured && identifier.Ok? && lookup(identifier.value).Err?
                ==> es == [es[0], ErrorEvent(lookup(identifier.value).message)])
  {
  }

  /** A `complete` object is written only when every upstream request
      succeeded; it carries the channel's title and one record per item of
      every metadata batch of the listed ids, in order, and the listed ids
      are those of the pages read. */
  lemma StreamComplete(configured: bool, identifier: Result<ChannelRef>, max: int,
                       lookup: ChannelRef -> Result<ChannelInfo>,
                       pages: seq<Result<PlaylistPage>>,
                       metadata: seq<string> -> Result<seq<Value>>,
                       captions: (string, Option<string>) -> Result<Option<Value>>)
    requires ListingEnds(pages)
    ensures var es := ChannelStream(configured, identifier, max, lookup, pages, metadata, captions);
            es[|es| - 1].Complete? ==>
              configured && identifier.Ok? && lookup(identifier.value).Ok?
              && var info := lookup(identifier.value).value;
                 var (listed, asked) := Pagination(max, pages, 0, []);
                 listed.Ok? && listed.value == IdsFrom(pages, 0, |asked|)
                 && (forall b :: 0 <= b < |Slices(listed.value, 0)| ==> metadata(Slices(listed.value, 0)[b]).Ok?)
                 && es[|es| - 1].data == ChannelResult(info, FetchAll(AllItems(Slices(listed.value, 0), metadata), captions))
                 && Get(es[|es| - 1].data.fields, "channel_title") == Some(Str(info.title))
  {
    if configured && identifier.Ok? && lookup(identifier.value).Ok? {
      var info := lookup(identifier.value).value;
      var listed := Pagination(max, pages, 0, []).0;
      PaginationIds(max, pages, 0, []);
      assert [] + IdsFrom(pages, 0, |Pagination(max, pages, 0, []).1|) == IdsFrom(pages, 0, |Pagination(max, pages, 0, []).1|);
      if listed.Ok? {
        var bs := Slices(listed.value, 0);
        var run := Batching(bs, 0, |listed.value|, metadata, captions);
        BatchingComplete(bs, 0, |listed.value|, metadata, captions);
        if run.failure.None? {
          ChannelResultRead(info, run.videos);
        }
      }
    }
  }
}
