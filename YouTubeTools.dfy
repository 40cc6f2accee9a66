/**
 * `executeYouTubeTool` of src/services/youtubeTools.js: the four tools the
 * chat model can call over the loaded channel data, each returning a result
 * or an `{error}` object. Date parsing (`new Date(t).getTime()`) and day
 * formatting (`toISOString().slice(0, 10)`) are parameters.
 */
module YouTubeTools {
  import opened Wrappers
  import opened JsText
  import opened JsValues
  import opened Durations
  import opened Sorting
  import opened FieldResolver
  import opened Statistics
  import opened VideoSelector
  import opened Transcript

  /** The date functions the executor relies on: `parse` is
      `new Date(v).getTime()` (`None` for an invalid date) and `day` renders a
      timestamp as `YYYY-MM-DD`. */
  datatype DateFns = DateFns(parse: Value -> Option<int>, day: int -> string)

  /** What a tool returns. */
  datatype ToolResult =
    | Stats(field: Option<Value>, count: nat, mean: real, median: real, variance: real, min: int, max: int)
    | Chart(metric: Option<Value>, data: seq<(string, int)>)
    | TranscriptText(videoId: Option<Value>, title: Option<Value>, transcript: string)
      /** `transcript: null` with the error 'No transcript available for this video.' */
    | NoTranscript(videoId: Option<Value>, title: Option<Value>)
    | PlayCard(videoId: Option<Value>, title: Option<Value>, thumbnailUrl: Option<Value>, videoUrl: Option<Value>)
    | ToolError(error: string)

  const NoTranscriptMessage: string := "No transcript available for this video."

  /** The video array the executor works on: `videos.videos`, or `videos`
      itself when that is an array, or the `videos` array of what was passed;
      elements that are not objects read as records without properties. */
  function RecordsOf(data: Option<Value>): seq<Record> {
    var inner := Prop(data, "videos");
    var list := if Truthy(inner) then inner.value else if Truthy(data) then data.value else Arr([]);
    var items :=
      if list.Arr? then list.items
      else match Prop(Some(list), "videos")
        case Some(Arr(xs)) => xs
        case _ => [];
    seq(|items|, i requires 0 <= i < |items| => if items[i].Obj? then items[i].fields else [])
  }

  // ---------------------------------------------------------------------------
  // compute_stats_json

  /** `compute_stats_json`: the statistics of the resolved field, or an error
      naming the field and listing the first record's keys. */
  function StatsTool(arr: seq<Record>, args: Record, dates: DateFns): ToolResult {
    var field := ResolveField(arr, Get(args, "field"));
    var vals := NumericValues(arr, field, dates.parse);
    if |vals| == 0 then
      ToolError("No numeric values for field \"" + StringOf(field) + "\". Available: " + Join(FirstKeys(arr), ", "))
    else
      Stats(field, |vals|, Mean(vals), Median(SortedValues(vals)), Variance(vals), MinOf(vals), MaxOf(vals))
  }

  /** The outcomes of `compute_stats_json`: an error exactly when no value can
      be extracted; otherwise the count is the number of values, min and max
      are values, and min ≤ median ≤ max, min ≤ mean ≤ max. */
  lemma StatsOutcome(arr: seq<Record>, args: Record, dates: DateFns)
    ensures var field := ResolveField(arr, Get(args, "field"));
            var vals := NumericValues(arr, field, dates.parse);
            var r := StatsTool(arr, args, dates);
            (r.ToolError? <==> |vals| == 0)
            && (r.ToolError? ==> r.error == "No numeric values for field \"" + StringOf(field) + "\". Available: " + Join(FirstKeys(arr), ", "))
            && (r.Stats? ==>
                  r.field == field && r.count == |vals| && r.count <= |arr|
                  && r.min in vals && r.max in vals
                  && r.min as real <= r.median <= r.max as real
                  && r.min as real <= r.mean <= r.max as real
                  && r.variance >= 0.0)
  {
    var field := ResolveField(arr, Get(args, "field"));
    var vals := NumericValues(arr, field, dates.parse);
    if |vals| > 0 {
      MedianBounds(vals);
      MeanBounds(vals);
    }
  }

  // ---------------------------------------------------------------------------
  // plot_metric_vs_time

  /** The first truthy field among `release_date`, `releaseDate`,
      `publishedAt`, `published_at`. */
  function DateField(v: Record): Option<Value> {
    var a := Get(v, "release_date");
    var b := Get(v, "releaseDate");
    var c := Get(v, "publishedAt");
    var d := Get(v, "published_at");
    if Truthy(a) then a else if Truthy(b) then b else if Truthy(c) then c else if Truthy(d) then d else None
  }

  /** `getDateMs(v)`: the record's timestamp, `None` (null) without a date
      or for an invalid one. */
  function DateMs(v: Record, dates: DateFns): Option<int> {
    var t := DateField(v);
    if t.None? then None else dates.parse(t.value)
  }

  /** The y value of one record, `None` when the record is dropped: the
      metric's value (or its `null`), parsed as a duration for `duration`,
      `parseFloat` of a string, a number as it is; `null`, `undefined`,
      `false` and values `parseFloat` reads as NaN are dropped, 0 is kept. */
  function PlotValue(v: Record, metric: Option<Value>): Option<int> {
    var y0 := GetMetricValue(v, metric);
    var y := if y0.Some? then y0 else Get(v, StringOf(metric));
    if metric == Some(Str("duration")) then
      match ParseDuration(y)
      case Some(n) => Some(n)
      case None => None
    else if y.Some? && y.value.Str? then ParseIntPrefix(y.value.s)
    else if y.Some? && y.value.Num? then Some(y.value.n)
    else if !Truthy(y) then None
    else ParseFloatOf(y)
  }

  /** A plotted point: timestamp and value. */
  type Point = (int, int)

  function PointTime(p: Point): int { p.0 }

  /** The point of one record: `(fx(v), fy(v))` when both are present. */
  function PointOf(v: Record, fx: Record -> Option<int>, fy: Record -> Option<int>): (pt: seq<Point>)
    ensures |pt| <= 1
    ensures |pt| == 1 <==> fx(v).Some? && fy(v).Some?
    ensures |pt| == 1 ==> fx(v) == Some(pt[0].0) && fy(v) == Some(pt[0].1)
  {
    if fx(v).Some? && fy(v).Some? then [(fx(v).value, fy(v).value)] else []
  }

  /** The pairs `(fx(v), fy(v))` of the records for which both are present,
      in record order. */
  function CollectBy(arr: seq<Record>, fx: Record -> Option<int>, fy: Record -> Option<int>): (pts: seq<Point>)
    ensures |pts| <= |arr|
  {
    if |arr| == 0 then [] else PointOf(arr[0], fx, fy) + CollectBy(arr[1..], fx, fy)
  }

  /** Every collected pair comes from a record that has both values. */
  lemma {:induction false} CollectByFrom(arr: seq<Record>, fx: Record -> Option<int>, fy: Record -> Option<int>)
    ensures forall k :: 0 <= k < |CollectBy(arr, fx, fy)| ==>
              exists i :: 0 <= i < |arr| && fx(arr[i]) == Some(CollectBy(arr, fx, fy)[k].0)
                          && fy(arr[i]) == Some(CollectBy(arr, fx, fy)[k].1)
    decreases |arr|
  {
    if |arr| > 0 {
      CollectByFrom(arr[1..], fx, fy);
      var head := PointOf(arr[0], fx, fy);
      var rest := CollectBy(arr[1..], fx, fy);
      var pts: seq<Point> := head + rest;
      forall k | 0 <= k < |pts|
        ensures exists i :: 0 <= i < |arr| && fx(arr[i]) == Some(pts[k].0) && fy(arr[i]) == Some(pts[k].1)
      {
        if k < |head| {
          assert pts[k] == head[0];
        } else {
          assert pts[k] == rest[k - |head|];
          assert 0 <= k - |head| < |CollectBy(arr[1..], fx, fy)|;
          var i :| 0 <= i < |arr[1..]| && fx(arr[1..][i]) == Some(rest[k - |head|].0) && fy(arr[1..][i]) == Some(rest[k - |head|].1);
          assert arr[1..][i] == arr[i + 1];
        }
      }
      assert CollectBy(arr, fx, fy) == pts;
    } else {
      assert CollectBy(arr, fx, fy) == [];
    }
  }

  /** Collecting distributes over concatenation: each record contributes
      its own point, or nothing, in place. */
  lemma {:induction false} CollectByAppend(a: seq<Record>, b: seq<Record>, fx: Record -> Option<int>, fy: Record -> Option<int>)
    ensures CollectBy(a + b, fx, fy) == CollectBy(a, fx, fy) + CollectBy(b, fx, fy)
    decreases |a|
  {
    if |a| == 0 {
      assert a + b == b;
    } else {
      CollectByAppend(a[1..], b, fx, fy);
      assert a == [a[0]] + a[1..] && a + b == [a[0]] + (a[1..] + b);
      CollectByCons(a[0], a[1..], fx, fy);
      CollectByCons(a[0], a[1..] + b, fx, fy);
    }
  }

  lemma CollectByCons(x: Record, rest: seq<Record>, fx: Record -> Option<int>, fy: Record -> Option<int>)
    ensures CollectBy([x] + rest, fx, fy) == PointOf(x, fx, fy) + CollectBy(rest, fx, fy)
  {
    var s := [x] + rest;
    assert s[0] == x && s[1..] == rest;
  }

  /** The points of the records that have both a date and a value, in record order. */
  function CollectPoints(arr: seq<Record>, metric: Option<Value>, dates: DateFns): (pts: seq<Point>)
    ensures |pts| <= |arr|
    ensures forall k :: 0 <= k < |pts| ==>
              exists i :: 0 <= i < |arr| && DateMs(arr[i], dates) == Some(pts[k].0) && PlotValue(arr[i], metric) == Some(pts[k].1)
  {
    var fx := v => DateMs(v, dates);
    var fy := v => PlotValue(v, metric);
    CollectByFrom(arr, fx, fy);
    CollectBy(arr, fx, fy)
  }

  /** A record with a date and a value contributes its point; the others nothing. */
  lemma CollectPointsOne(v: Record, metric: Option<Value>, dates: DateFns)
    ensures CollectPoints([v], metric, dates)
            == if DateMs(v, dates).Some? && PlotValue(v, metric).Some? then [(DateMs(v, dates).value, PlotValue(v, metric).value)] else []
  {
    assert [v][1..] == [];
  }

  /** The points of two runs of records are those of the first run, then
      those of the second; with `CollectPointsOne`, every record with a date
      and a value contributes its point, in record order. */
  lemma CollectPointsAppend(a: seq<Record>, b: seq<Record>, metric: Option<Value>, dates: DateFns)
    ensures CollectPoints(a + b, metric, dates) == CollectPoints(a, metric, dates) + CollectPoints(b, metric, dates)
  {
    CollectByAppend(a, b, v => DateMs(v, dates), v => PlotValue(v, metric));
  }

  /** The chart's points, sorted by timestamp (stably, as `points.sort` is). */
  function ChartPoints(arr: seq<Record>, metric: Option<Value>, dates: DateFns): (pts: seq<Point>)
    ensures SortedBy(pts, PointTime)
    ensures multiset(pts) == multiset(CollectPoints(arr, metric, dates))
  {
    SortByCorrect(CollectPoints(arr, metric, dates), PointTime);
    SortBy(CollectPoints(arr, metric, dates), PointTime)
  }

  /** The `{date, value}` pairs of the chart. */
  function ChartData(pts: seq<Point>, day: int -> string): (data: seq<(string, int)>)
    ensures |data| == |pts|
    ensures forall i :: 0 <= i < |pts| ==> data[i] == (day(pts[i].0), pts[i].1)
  {
    seq(|pts|, i requires 0 <= i < |pts| => (day(pts[i].0), pts[i].1))
  }

  const PlotErrorPrefix: string := "No valid data for metric \""
  const PlotErrorSuffix: string := "\" vs time. Check field name."

  /** `plot_metric_vs_time`: the points as `{date, value}` pairs in time
      order, or an error naming the metric when there are none. */
  function PlotTool(arr: seq<Record>, args: Record, dates: DateFns): ToolResult {
    var metric := ResolveField(arr, Get(args, "metric"));
    var pts := ChartPoints(arr, metric, dates);
    if |pts| == 0 then ToolError(PlotErrorPrefix + StringOf(metric) + PlotErrorSuffix)
    else Chart(metric, ChartData(pts, dates.day))
  }

  /** Sorting keeps the number of points. */
  lemma ChartPointsCount(arr: seq<Record>, metric: Option<Value>, dates: DateFns)
    ensures |ChartPoints(arr, metric, dates)| == |CollectPoints(arr, metric, dates)| <= |arr|
  {
    var pts := ChartPoints(arr, metric, dates);
    assert |pts| == |multiset(pts)| == |CollectPoints(arr, metric, dates)|;
  }

  /** The plot is an error, naming the metric, exactly when no record has
      both a date and a value. */
  lemma PlotError(arr: seq<Record>, args: Record, dates: DateFns)
    ensures var metric := ResolveField(arr, Get(args, "metric"));
            var r := PlotTool(arr, args, dates);
            (r.ToolError? <==> |CollectPoints(arr, metric, dates)| == 0)
            && (r.ToolError? ==> r.error == PlotErrorPrefix + StringOf(metric) + PlotErrorSuffix)
            && (r.ToolError? || r.Chart?)
  {
    ChartPointsCount(arr, ResolveField(arr, Get(args, "metric")), dates);
  }

  /** The chart is the day rendering of points in non-decreasing time order,
      one per usable record. */
  lemma PlotOutcome(arr: seq<Record>, args: Record, dates: DateFns)
    ensures var metric := ResolveField(arr, Get(args, "metric"));
            var pts := ChartPoints(arr, metric, dates);
            var r := PlotTool(arr, args, dates);
            r.Chart? ==>
              r.metric == metric && |r.data| == |pts| <= |arr|
              && (forall i, j :: 0 <= i < j < |pts| ==> pts[i].0 <= pts[j].0)
              && forall i :: 0 <= i < |pts| ==> r.data[i] == (dates.day(pts[i].0), pts[i].1)
  {
    var metric := ResolveField(arr, Get(args, "metric"));
    var pts := ChartPoints(arr, metric, dates);
    ChartPointsCount(arr, metric, dates);
    assert forall i, j :: 0 <= i < j < |pts| ==> PointTime(pts[i]) <= PointTime(pts[j]);
  }

  // ---------------------------------------------------------------------------
  // get_transcript and play_video

  /** The error both video tools give when the selector picks nothing. */
  function NotFound(args: Record): ToolResult {
    ToolError("Could not find video for selector \"" + StringOf(Get(args, "selector")) + "\"")
  }

  /** `get_transcript`: the selected video's transcript as text, or a result
      with no transcript when it is absent or an empty array. */
  function TranscriptTool(arr: seq<Record>, args: Record): ToolResult {
    match Select(arr, SelectorText(Get(args, "selector")))
    case None => NotFound(args)
    case Some(vid) =>
      var t := Get(vid, "transcript");
      if !Truthy(t) || (t.value.Arr? && |t.value.items| == 0) then
        NoTranscript(Get(vid, "video_id"), Get(vid, "title"))
      else
        TranscriptText(Get(vid, "video_id"), Get(vid, "title"),
                       if t.value.Arr? then JoinSegments(t.value.items) else Stringify(t.value))
  }

  /** `play_video`: the selected video's card. */
  function PlayTool(arr: seq<Record>, args: Record): ToolResult {
    match Select(arr, SelectorText(Get(args, "selector")))
    case None => NotFound(args)
    case Some(v) => PlayCard(Get(v, "video_id"), Get(v, "title"), Get(v, "thumbnail_url"), Get(v, "video_url"))
  }

  /** The transcript tool on a found video: no transcript (with its error)
      exactly when the transcript is absent, falsy or an empty array; an
      array becomes its segments joined with single spaces. */
  lemma TranscriptOutcome(arr: seq<Record>, args: Record)
    ensures var picked := Select(arr, SelectorText(Get(args, "selector")));
            var r := TranscriptTool(arr, args);
            (picked.None? ==> r == NotFound(args))
            && (picked.Some? ==>
                  var t := Get(picked.value, "transcript");
                  (r.NoTranscript? <==> !Truthy(t) || (t.value.Arr? && |t.value.items| == 0))
                  && (r.NoTranscript? || r.TranscriptText?)
                  && r.videoId == Get(picked.value, "video_id") && r.title == Get(picked.value, "title")
                  && (r.TranscriptText? && t.value.Arr? ==> r.transcript == JoinSegments(t.value.items)))
  {
  }

  /** Both video tools pick the same video, and fail on the same selectors
      with the same error. */
  lemma VideoToolsAgree(arr: seq<Record>, args: Record)
    ensures TranscriptTool(arr, args).ToolError? <==> PlayTool(arr, args).ToolError?
    ensures PlayTool(arr, args).ToolError? ==> TranscriptTool(arr, args) == PlayTool(arr, args) == NotFound(args)
    ensures PlayTool(arr, args).PlayCard? ==> PlayTool(arr, args).videoId == TranscriptTool(arr, args).videoId
  {
  }

  // ---------------------------------------------------------------------------
  // The dispatcher

  /** The tool names the executor handles. */
  const HandledTools: set<string> := {"compute_stats_json", "plot_metric_vs_time", "get_transcript", "play_video"}

  /** `executeYouTubeTool(toolName, args, videos)`. */
  function ExecuteYouTubeTool(toolName: string, args: Record, data: Option<Value>, dates: DateFns): ToolResult {
    var arr := RecordsOf(data);
    if toolName == "compute_stats_json" then StatsTool(arr, args, dates)
    else if toolName == "plot_metric_vs_time" then PlotTool(arr, args, dates)
    else if toolName == "get_transcript" then TranscriptTool(arr, args)
    else if toolName == "play_video" then PlayTool(arr, args)
    else ToolError("Unknown tool: " + toolName)
  }

  /** Any other name, the declared `generateImage` included, is an unknown tool. */
  lemma UnknownTool(toolName: string, args: Record, data: Option<Value>, dates: DateFns)
    ensures toolName !in HandledTools ==> ExecuteYouTubeTool(toolName, args, data, dates) == ToolError("Unknown tool: " + toolName)
    ensures ExecuteYouTubeTool("generateImage", args, data, dates) == ToolError("Unknown tool: generateImage")
  {
    assert "generateImage" !in HandledTools;
  }

  /** The executor reads the records wherever the channel data keeps them. */
  lemma RecordsOfShapes(xs: seq<Record>)
    ensures var items := seq(|xs|, i requires 0 <= i < |xs| => Obj(xs[i]));
            RecordsOf(Some(Arr(items))) == xs
            && RecordsOf(Some(Obj([("videos", Arr(items))]))) == xs
            && RecordsOf(None) == []
  {
  }
}
