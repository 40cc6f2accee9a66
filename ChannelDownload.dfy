/**
 * The channel download panel of src/components/YouTubeChannelDownload.js:
 * its state, the clamp on the "Max videos" input, and `handleDownload`,
 * which reads the newline-delimited JSON stream of POST /api/youtube/channel
 * chunk by chunk, carries the unfinished last line over to the next chunk,
 * and acts on the `progress`, `complete` and `error` events of the complete
 * lines. The fetch is a parameter: it fails with a message or gives a
 * response with its status and its body as decoded text chunks. `JSON.parse`
 * is a parameter too: `None` is a `SyntaxError`.
 */
module ChannelDownload {
  import opened Wrappers
  import opened JsText
  import opened JsValues
  import opened MaxVideos
  import ChannelIngestion

  const Newline: char := '\n'
  const NoDataMessage: string := "No data received"
  const DefaultErrorMessage: string := "Download failed"
  const DefaultChannelUrl: string := "https://www.youtube.com/@veritasium"
  /** What reading `type` of a line that parses to `null` throws. */
  const NullTypeMessage: string := "Cannot read properties of null (reading 'type')"

  /** What `fetch` resolves to. */
  datatype Response = Response(ok: bool, statusText: string, chunks: seq<string>)

  // ---------------------------------------------------------------------------
  // Line framing

  /** The lines of `text` that a newline has ended. */
  function CompleteLines(text: string): seq<string> {
    var parts := Split(text, Newline);
    parts[..|parts| - 1]
  }

  /** The text after the last newline: what stays in the buffer. */
  function LastPiece(text: string): string {
    var parts := Split(text, Newline);
    parts[|parts| - 1]
  }

  /** The buffered last piece and the complete lines give back the text. */
  lemma FramingLossless(text: string)
    ensures Join(CompleteLines(text) + [LastPiece(text)], [Newline]) == text
  {
    var parts := Split(text, Newline);
    assert CompleteLines(text) + [LastPiece(text)] == parts;
    JoinSplit(text, Newline);
  }

  lemma AllButLastAppend(sac: seq<string>, sa: seq<string>, sl: seq<string>)
    requires |sa| >= 1 && |sl| >= 1 && sac == sa[..|sa| - 1] + sl
    ensures sac[..|sac| - 1] == sa[..|sa| - 1] + sl[..|sl| - 1]
    ensures sac[|sac| - 1] == sl[|sl| - 1]
  {
    assert sac[..|sac| - 1] == sa[..|sa| - 1] + sl[..|sl| - 1];
  }

  /** Appending a chunk: the lines already complete stay as they are, and the
      new ones are those of the buffered piece followed by the chunk. */
  lemma CompleteLinesAppend(a: string, c: string)
    ensures CompleteLines(a + c) == CompleteLines(a) + CompleteLines(LastPiece(a) + c)
    ensures LastPiece(a + c) == LastPiece(LastPiece(a) + c)
  {
    SplitAppend(a, c, Newline);
    AllButLastAppend(Split(a + c, Newline), Split(a, Newline), Split(LastPiece(a) + c, Newline));
  }

  /** Text without a newline at the end of the stream is never a line. */
  lemma TrailingTextIgnored(text: string, t: string)
    requires Newline !in t
    ensures CompleteLines(text + t) == CompleteLines(text)
  {
    CompleteLinesAppend(text, t);
    var last := LastPiece(text);
    LastPieceHasNoNewline(text);
    assert Newline !in last + t;
    SplitNoSep(last + t, Newline);
  }

  lemma {:induction false} PiecesHaveNoSep(s: string, sep: char)
    ensures forall i :: 0 <= i < |Split(s, sep)| ==> sep !in Split(s, sep)[i]
    decreases |s|
  {
    if |s| > 0 {
      PiecesHaveNoSep(s[1..], sep);
      var rest := Split(s[1..], sep);
      if s[0] != sep {
        assert sep !in [s[0]] + rest[0];
      }
    }
  }

  lemma LastPieceHasNoNewline(text: string)
    ensures Newline !in LastPiece(text)
  {
    PiecesHaveNoSep(text, Newline);
  }

  /** The chunks read so far, as one text. */
  function Concat(chunks: seq<string>): string
    decreases |chunks|
  {
    if |chunks| == 0 then "" else Concat(chunks[..|chunks| - 1]) + chunks[|chunks| - 1]
  }

  /** Dropping the last element of `a + b` drops it from `b`. */
  lemma DropLastAppend(a: seq<string>, b: seq<string>)
    requires |b| > 0
    ensures (a + b)[..|a + b| - 1] == a + b[..|b| - 1] && (a + b)[|a + b| - 1] == b[|b| - 1]
  {
  }

  lemma {:induction false} ConcatAppend(a: seq<string>, b: seq<string>)
    ensures Concat(a + b) == Concat(a) + Concat(b)
    decreases |b|
  {
    if |b| == 0 {
      assert a + b == a;
    } else {
      DropLastAppend(a, b);
      ConcatAppend(a, b[..|b| - 1]);
    }
  }

  // ---------------------------------------------------------------------------
  // Event dispatch

  /** What the complete lines have done so far: the progress counters, the
      last `complete` event's data (`null` before any) and the message of an
      error that aborted the download. */
  datatype Feed = Feed(progress: Option<Value>, total: Option<Value>, finalData: Option<Value>, failure: Option<string>)

  /** The state a download starts from. */
  function Start(max: int): Feed {
    Feed(Some(Num(0)), Some(Num(max)), Some(Null), None)
  }

  /** `new Error(x).message`. */
  function ErrorText(x: Option<Value>): string {
    if x.None? then "" else Stringify(x.value)
  }

  /** Acting on one complete line. A blank line and one that is not JSON are
      skipped; `progress` sets both counters, `complete` keeps its data,
      `error` aborts with its message; other values are ignored, but `null`
      aborts because reading its `type` throws. */
  function Step(line: string, parse: string -> Option<Value>, st: Feed): (r: Feed)
    ensures r.failure.Some? ==> st.failure.Some? || (Trim(line) != "" && parse(line).Some?)
  {
    if Trim(line) == "" then st
    else
      var obj := parse(line);
      if obj.None? then st
      else if obj.value.Null? then st.(failure := Some(NullTypeMessage))
      else
        var ty := Prop(obj, "type");
        if ty == Some(Str("progress")) then st.(progress := Prop(obj, "current"), total := Prop(obj, "total"))
        else if ty == Some(Str("complete")) then st.(finalData := Prop(obj, "data"))
        else if ty == Some(Str("error")) then st.(failure := Some(ErrorText(Prop(obj, "error"))))
        else st
  }

  /** The lines acted on in order, stopping at the first abort. */
  function Dispatch(lines: seq<string>, parse: string -> Option<Value>, st: Feed): (r: Feed)
    ensures st.failure.Some? ==> r == st
    decreases |lines|
  {
    if |lines| == 0 || st.failure.Some? then st
    else Dispatch(lines[1..], parse, Step(lines[0], parse, st))
  }

  /** Lines can be dispatched in two runs. */
  lemma {:induction false} DispatchAppend(a: seq<string>, b: seq<string>, parse: string -> Option<Value>, st: Feed)
    ensures Dispatch(a + b, parse, st) == Dispatch(b, parse, Dispatch(a, parse, st))
    decreases |a|
  {
    if |a| == 0 {
      assert a + b == b;
    } else if st.failure.None? {
      assert (a + b)[0] == a[0] && (a + b)[1..] == a[1..] + b;
      DispatchAppend(a[1..], b, parse, Step(a[0], parse, st));
    }
  }

  /** One more line. */
  lemma DispatchSnoc(a: seq<string>, line: string, parse: string -> Option<Value>, st: Feed)
    requires Dispatch(a, parse, st).failure.None?
    ensures Dispatch(a + [line], parse, st) == Step(line, parse, Dispatch(a, parse, st))
  {
    DispatchAppend(a, [line], parse, st);
  }

  /** The first `j + 1` elements are the first `j` and then element `j`. */
  lemma PrefixSnoc(lines: seq<string>, j: nat)
    requires j < |lines|
    ensures lines[..j + 1] == lines[..j] + [lines[j]]
  {
  }

  /** Dispatching one more line of `lines` after the first `j`. */
  lemma DispatchNext(lines: seq<string>, j: nat, parse: string -> Option<Value>, st: Feed)
    requires j < |lines| && Dispatch(lines[..j], parse, st).failure.None?
    ensures Dispatch(lines[..j + 1], parse, st) == Step(lines[j], parse, Dispatch(lines[..j], parse, st))
  {
    PrefixSnoc(lines, j);
    DispatchSnoc(lines[..j], lines[j], parse, st);
  }

  /** A line that is blank or not JSON leaves the state as it is. */
  predicate Skipped(line: string, parse: string -> Option<Value>) {
    Trim(line) == "" || parse(line).None?
  }

  /** Blank and unparseable lines can be dropped without changing anything. */
  lemma SkippedLinesIgnored(a: seq<string>, line: string, b: seq<string>, parse: string -> Option<Value>, st: Feed)
    requires Skipped(line, parse)
    ensures Dispatch(a + [line] + b, parse, st) == Dispatch(a + b, parse, st)
  {
    DispatchAppend(a + [line], b, parse, st);
    DispatchAppend(a, b, parse, st);
    var mid := Dispatch(a, parse, st);
    if mid.failure.None? {
      DispatchSnoc(a, line, parse, st);
    } else {
      DispatchAppend(a, [line], parse, st);
    }
  }

  /** The line is an `error` event. */
  predicate ErrorEvent(line: string, parse: string -> Option<Value>) {
    !Skipped(line, parse) && !parse(line).value.Null? && Prop(parse(line), "type") == Some(Str("error"))
  }

  /** An `error` event aborts with its message, whatever follows it — a later
      `complete` included. */
  lemma ErrorAborts(a: seq<string>, line: string, b: seq<string>, parse: string -> Option<Value>, st: Feed)
    requires ErrorEvent(line, parse) && Dispatch(a, parse, st).failure.None?
    ensures Dispatch(a + [line] + b, parse, st).failure == Some(ErrorText(Prop(parse(line), "error")))
  {
    DispatchAppend(a + [line], b, parse, st);
    DispatchSnoc(a, line, parse, st);
  }

  /** The line neither sets the data nor aborts. */
  predicate Quiet(line: string, parse: string -> Option<Value>) {
    Skipped(line, parse)
    || (!parse(line).value.Null?
        && Prop(parse(line), "type") != Some(Str("complete")) && Prop(parse(line), "type") != Some(Str("error")))
  }

  lemma {:induction false} QuietKeepsData(b: seq<string>, parse: string -> Option<Value>, st: Feed)
    requires forall i :: 0 <= i < |b| ==> Quiet(b[i], parse)
    ensures Dispatch(b, parse, st).finalData == st.finalData
    ensures Dispatch(b, parse, st).failure == st.failure
    decreases |b|
  {
    if |b| > 0 && st.failure.None? {
      QuietKeepsData(b[1..], parse, Step(b[0], parse, st));
    }
  }

  /** The line is a `complete` event. */
  predicate CompleteEvent(line: string, parse: string -> Option<Value>) {
    !Skipped(line, parse) && !parse(line).value.Null? && Prop(parse(line), "type") == Some(Str("complete"))
  }

  /** The data kept is that of the last `complete` event: a later one
      overwrites an earlier one, and nothing else touches it. */
  lemma LastCompleteWins(a: seq<string>, line: string, b: seq<string>, parse: string -> Option<Value>, st: Feed)
    requires CompleteEvent(line, parse) && Dispatch(a, parse, st).failure.None?
    requires forall i :: 0 <= i < |b| ==> Quiet(b[i], parse)
    ensures Dispatch(a + [line] + b, parse, st).finalData == Prop(parse(line), "data")
    ensures Dispatch(a + [line] + b, parse, st).failure.None?
  {
    DispatchAppend(a + [line], b, parse, st);
    DispatchSnoc(a, line, parse, st);
    QuietKeepsData(b, parse, Dispatch(a + [line], parse, st));
  }

  /** Without a `complete` event the data stays `null`. */
  lemma {:induction false} NoCompleteNoData(lines: seq<string>, parse: string -> Option<Value>, st: Feed)
    requires forall i :: 0 <= i < |lines| ==> !CompleteEvent(lines[i], parse)
    ensures Dispatch(lines, parse, st).finalData == st.finalData
    decreases |lines|
  {
    if |lines| > 0 && st.failure.None? {
      NoCompleteNoData(lines[1..], parse, Step(lines[0], parse, st));
    }
  }

  /** The text read after chunk `k` is the text before it followed by it. */
  lemma FrameStep(chunks: seq<string>, k: nat)
    requires k < |chunks|
    ensures var before := Concat(chunks[..k]);
            CompleteLines(Concat(chunks[..k + 1])) == CompleteLines(before) + CompleteLines(LastPiece(before) + chunks[k])
            && LastPiece(Concat(chunks[..k + 1])) == LastPiece(LastPiece(before) + chunks[k])
  {
    assert chunks[..k + 1][..k] == chunks[..k];
    CompleteLinesAppend(Concat(chunks[..k]), chunks[k]);
  }

  /** Dispatching stopped after `j` lines, either at their end or at an
      abort, is dispatching all of them. */
  lemma DispatchStopped(lines: seq<string>, j: nat, parse: string -> Option<Value>, st: Feed)
    requires j <= |lines|
    requires j < |lines| ==> Dispatch(lines[..j], parse, st).failure.Some?
    ensures Dispatch(lines[..j], parse, st) == Dispatch(lines, parse, st)
  {
    assert lines == lines[..j] + lines[j..];
    DispatchAppend(lines[..j], lines[j..], parse, st);
  }

  /** Reading chunk `k` dispatches the new complete lines, those of the
      buffered piece followed by the chunk, after the earlier ones. */
  lemma ChunkRead(chunks: seq<string>, k: nat, parse: string -> Option<Value>, st: Feed)
    requires k < |chunks|
    ensures var before := Concat(chunks[..k]);
            Dispatch(CompleteLines(LastPiece(before) + chunks[k]), parse, Dispatch(CompleteLines(before), parse, st))
            == Dispatch(CompleteLines(Concat(chunks[..k + 1])), parse, st)
    ensures LastPiece(LastPiece(Concat(chunks[..k])) + chunks[k]) == LastPiece(Concat(chunks[..k + 1]))
  {
    var before := Concat(chunks[..k]);
    FrameStep(chunks, k);
    DispatchAppend(CompleteLines(before), CompleteLines(LastPiece(before) + chunks[k]), parse, st);
  }

  /** Once reading stops — at the end of the body, or at an abort — the
      state is that of all the body's complete lines. */
  lemma ReadStopped(chunks: seq<string>, k: nat, parse: string -> Option<Value>, st: Feed)
    requires k <= |chunks|
    requires k < |chunks| ==> Dispatch(CompleteLines(Concat(chunks[..k])), parse, st).failure.Some?
    ensures Dispatch(CompleteLines(Concat(chunks[..k])), parse, st) == Dispatch(CompleteLines(Concat(chunks)), parse, st)
  {
    if k < |chunks| {
      assert chunks == chunks[..k] + chunks[k..];
      ConcatAppend(chunks[..k], chunks[k..]);
      var before := Concat(chunks[..k]);
      CompleteLinesAppend(before, Concat(chunks[k..]));
      DispatchAppend(CompleteLines(before), CompleteLines(LastPiece(before) + Concat(chunks[k..])), parse, st);
    } else {
      assert chunks[..k] == chunks;
    }
  }

  // ---------------------------------------------------------------------------
  // The outcome of a download

  /** What the panel shows once a download is over: an error message, or the
      channel data. */
  datatype Shown = Shown(error: string, result: Value)

  /** `err.message || 'Download failed'`. */
  function Failed(message: string): (s: Shown)
    ensures s.error != "" && s.result == Null
  {
    Shown(if message == "" then DefaultErrorMessage else message, Null)
  }

  /** The outcome of `handleDownload` for a fetch and a parser, starting with
      `max` as the expected total: a failed fetch or a non-OK status shows
      its message; otherwise the complete lines of the whole body are
      dispatched, and an abort shows its message, truthy data is the result,
      and anything else is "No data received". */
  function DownloadOutcome(fetched: Result<Response>, parse: string -> Option<Value>, max: int): (s: Shown)
    ensures s.error == "" <==> Truthy(Some(s.result))
    ensures s.error != "" ==> s.result == Null
  {
    if fetched.Err? then Failed(fetched.message)
    else if !fetched.value.ok then Failed(fetched.value.statusText)
    else
      var feed := Dispatch(CompleteLines(Concat(fetched.value.chunks)), parse, Start(max));
      if feed.failure.Some? then Failed(feed.failure.value)
      else if Truthy(feed.finalData) then Shown("", feed.finalData.value)
      else Failed(NoDataMessage)
  }

  /** A body with no newline at all never yields data: its only line is
      never ended, so it is never parsed. */
  lemma UnterminatedBody(r: Response, parse: string -> Option<Value>, max: int)
    requires r.ok && Newline !in Concat(r.chunks)
    ensures DownloadOutcome(Ok(r), parse, max) == Shown(NoDataMessage, Null)
  {
    var text := Concat(r.chunks);
    TrailingTextIgnored("", text);
    assert "" + text == text;
    assert Split("", Newline) == [""];
  }

  /** A body whose lines hold no `complete` event ends in an error. */
  lemma NoCompleteFails(r: Response, parse: string -> Option<Value>, max: int)
    requires r.ok
    requires forall i :: 0 <= i < |CompleteLines(Concat(r.chunks))| ==> !CompleteEvent(CompleteLines(Concat(r.chunks))[i], parse)
    ensures DownloadOutcome(Ok(r), parse, max).error != ""
    ensures DownloadOutcome(Ok(r), parse, max).result == Null
  {
    NoCompleteNoData(CompleteLines(Concat(r.chunks)), parse, Start(max));
  }

  /** The body the panel sends: the URL and the number of videos. */
  function RequestBody(channelUrl: string, maxVideos: int): Record {
    [("channelUrl", Str(channelUrl)), ("maxVideos", Num(maxVideos))]
  }

  /** The server reads back the URL and the number the panel sent. */
  lemma RequestRoundTrip(channelUrl: string, maxVideos: int)
    requires 1 <= maxVideos <= 100
    ensures ChannelIngestion.UrlText(Get(RequestBody(channelUrl, maxVideos), "channelUrl")) == Ok(channelUrl)
    ensures RequestMax(Get(RequestBody(channelUrl, maxVideos), "maxVideos")) == maxVideos
  {
    var body := RequestBody(channelUrl, maxVideos);
    GetAt(body, 0, "channelUrl");
    GetAt(body, 1, "maxVideos");
    if channelUrl == "" {
      assert !Truthy(Some(Str(channelUrl)));
    } else {
      assert Truthy(Some(Str(channelUrl)));
    }
    InRangeKept(maxVideos);
  }

  // ---------------------------------------------------------------------------
  // The component

  /** The panel's state. `progress` and `progressTotal` hold whatever the
      last `progress` event carried, `undefined` included; `result` is `null`
      until a download succeeds. */
  class Downloader {
    var channelUrl: string
    var maxVideos: int
    var progress: Option<Value>
    var progressTotal: Option<Value>
    var loading: bool
    var error: string
    var result: Value

    /** The number input keeps `maxVideos` between 1 and 100. */
    predicate Valid()
      reads this
    {
      1 <= maxVideos <= 100
    }

    /** The initial state. */
    constructor ()
      ensures Valid()
      ensures channelUrl == DefaultChannelUrl && maxVideos == 10
      ensures progress == Some(Num(0)) && progressTotal == Some(Num(0))
      ensures !loading && error == "" && result == Null
    {
      channelUrl := DefaultChannelUrl;
      maxVideos := 10;
      progress := Some(Num(0));
      progressTotal := Some(Num(0));
      loading := false;
      error := "";
      result := Null;
    }

    /** Editing the URL field. */
    method SetChannelUrl(url: string)
      modifies this
      ensures channelUrl == url
      ensures maxVideos == old(maxVideos) && progress == old(progress) && progressTotal == old(progressTotal)
      ensures loading == old(loading) && error == old(error) && result == old(result)
    {
      channelUrl := url;
    }

    /** Editing the "Max videos" field: the text is clamped as the server
      clamps it. */
    method SetMaxVideos(input: string)
      modifies this
      ensures Valid()
      ensures maxVideos == InputMax(input)
      ensures channelUrl == old(channelUrl) && progress == old(progress) && progressTotal == old(progressTotal)
      ensures loading == old(loading) && error == old(error) && result == old(result)
    {
      maxVideos := InputMax(input);
    }

    /** The body of the loop over a chunk's complete lines: skips a blank
        line and a `SyntaxError`, updates the counters on `progress`, keeps
        the data of `complete`, and gives the message that aborts the
        download on `error` or on a line that parses to `null`. */
    method HandleLine(line: string, parse: string -> Option<Value>, finalData: Option<Value>)
      returns (data: Option<Value>, failure: Option<string>)
      modifies this`progress, this`progressTotal
      ensures Feed(progress, progressTotal, data, failure)
              == Step(line, parse, Feed(old(progress), old(progressTotal), finalData, None))
    {
      data, failure := finalData, None;
      if Trim(line) != "" {
        var obj := parse(line);
        if obj.Some? {
          if obj.value.Null? {
            failure := Some(NullTypeMessage);
          } else {
            var ty := Prop(obj, "type");
            if ty == Some(Str("progress")) {
              progress := Prop(obj, "current");
              progressTotal := Prop(obj, "total");
            } else if ty == Some(Str("complete")) {
              data := Prop(obj, "data");
            } else if ty == Some(Str("error")) {
              failure := Some(ErrorText(Prop(obj, "error")));
            }
          }
        }
      }
    }

    /** One chunk read: `buffer += chunk`, split at newlines, keep the last
        piece as the new buffer, and act on the complete lines in order,
        stopping at an abort. */
    method ReadChunk(buffer: string, chunk: string, parse: string -> Option<Value>, finalData: Option<Value>)
      returns (rest: string, data: Option<Value>, failure: Option<string>)
      modifies this`progress, this`progressTotal
      ensures rest == LastPiece(buffer + chunk)
      ensures Feed(progress, progressTotal, data, failure)
              == Dispatch(CompleteLines(buffer + chunk), parse, Feed(old(progress), old(progressTotal), finalData, None))
    {
      ghost var feed0 := Feed(progress, progressTotal, finalData, None);
      var text := buffer + chunk;
      var complete := CompleteLines(text);
      rest := LastPiece(text);
      data, failure := finalData, None;
      var j := 0;
      while j < |complete| && failure.None?
        invariant 0 <= j <= |complete|
        invariant Feed(progress, progressTotal, data, failure) == Dispatch(complete[..j], parse, feed0)
        decreases |complete| - j
      {
        DispatchNext(complete, j, parse, feed0);
        data, failure := HandleLine(complete[j], parse, data);
        j := j + 1;
      }
      DispatchStopped(complete, j, parse, feed0);
    }

    /** The read loop of `handleDownload` over the body's chunks: each chunk
        is read as `ReadChunk` reads it, until the body ends or a line aborts
        the download. */
    method ReadBody(chunks: seq<string>, parse: string -> Option<Value>)
      returns (finalData: Option<Value>, failure: Option<string>)
      modifies this`progress, this`progressTotal
      ensures Feed(progress, progressTotal, finalData, failure)
              == Dispatch(CompleteLines(Concat(chunks)), parse, Feed(old(progress), old(progressTotal), Some(Null), None))
    {
      ghost var st := Feed(progress, progressTotal, Some(Null), None);
      var buffer := "";
      finalData, failure := Some(Null), None;
      var k := 0;
      assert Split("", Newline) == [""];
      while k < |chunks| && failure.None?
        invariant 0 <= k <= |chunks|
        invariant buffer == LastPiece(Concat(chunks[..k]))
        invariant Feed(progress, progressTotal, finalData, failure) == Dispatch(CompleteLines(Concat(chunks[..k])), parse, st)
        decreases |chunks| - k
      {
        ChunkRead(chunks, k, parse, st);
        buffer, finalData, failure := ReadChunk(buffer, chunks[k], parse, finalData);
        k := k + 1;
      }
      ReadStopped(chunks, k, parse, st);
    }

    /** `handleDownload`. While it runs, `progress` and `progressTotal`
        follow the stream's progress events; once it is over, loading is off,
        both counters are back at 0, and the error and the result are the
        outcome of the whole stream. */
    method HandleDownload(fetched: Result<Response>, parse: string -> Option<Value>)
      requires Valid()
      modifies this
      ensures Valid()
      ensures !loading && progress == Some(Num(0)) && progressTotal == Some(Num(0))
      ensures Shown(error, result) == DownloadOutcome(fetched, parse, old(maxVideos))
      ensures channelUrl == old(channelUrl) && maxVideos == old(maxVideos)
    {
      loading := true;
      error := "";
      result := Null;
      progress := Some(Num(0));
      progressTotal := Some(Num(maxVideos));
      var failure: Option<string> := None;
      if fetched.Err? {
        failure := Some(fetched.message);
      } else if !fetched.value.ok {
        failure := Some(fetched.value.statusText);
      } else {
        var finalData;
        finalData, failure := ReadBody(fetched.value.chunks, parse);
        if failure.None? {
          if Truthy(finalData) {
            result := finalData.value;
          } else {
            failure := Some(NoDataMessage);
          }
        }
      }
      if failure.Some? {
        error := if failure.value == "" then DefaultErrorMessage else failure.value;
      }
      loading := false;
      progress := Some(Num(0));
      progressTotal := Some(Num(0));
    }
  }
}
