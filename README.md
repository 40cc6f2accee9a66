# YouTube channel chat: verified model of the core logic

This project is a Dafny model of the deterministic logic inside a chat
application that downloads a YouTube channel's videos and lets a chat model
reason over them. It covers four parts:

- **The tool executor** (`src/services/youtubeTools.js`). The chat model calls
  `compute_stats_json`, `plot_metric_vs_time`, `get_transcript` and
  `play_video` over the downloaded video records. The model covers the ISO 8601
  `PT#H#M#S` duration parser, the field-name resolver with its alias table, the
  numeric value extraction, count, min, max, mean, variance and median, the
  video selector, and the dispatcher's result-or-`{error}` shape.
- **The channel route** `POST /api/youtube/channel` (`server/index.js`). The
  model covers the channel-URL classifier, the `maxVideos` clamp, the
  pagination loop over the uploads playlist, the batching loop in batches of
  at most 50 ids with its progress objects, the per-video record, and the rule
  that every run writes exactly one terminal object. It also covers message
  normalisation in `POST`/`GET /api/messages` and `buildImageParts`.
- **Transcript retrieval** (`server/transcript.js`): `toText`, the video-id
  normalisation and the language fallback chain.
- **The download panel** (`src/components/YouTubeChannelDownload.js`): the
  newline-delimited JSON (NDJSON) reader. It splits chunks into lines and
  carries the unfinished last line over to the next chunk. It dispatches on
  `progress`, `complete` and `error` objects, and it clamps the
  "Max videos" input.

## How the model is organised

Every JavaScript value the core reads is a `JsValues.Value`. `undefined` is
`Option.None`, and an object is an ordered list of properties. Upstream
services are inputs, not calls:

- the channel lookup is a function of the parsed identifier;
- the uploads listing is the sequence of page responses, in request order;
- the metadata service is a function of an id batch;
- the caption service is a function of a video id and a language;
- `JSON.parse` is a partial function (`None` is a `SyntaxError`);
- date parsing and day formatting are function-valued parameters.

The modules follow the source's files:

- `Durations`, `FieldResolver`, `Statistics`, `Sorting`, `VideoSelector` and
  `YouTubeTools` model `youtubeTools.js`.
- `ChannelIdentifier`, `MaxVideos`, `ChannelIngestion`, `Messages` and
  `ImageParts` model `server/index.js`.
- `Transcript` models `server/transcript.js`.
- `ChannelDownload` models the download panel.
- `JsText` (trim, `parseInt`, split and join) and `JsValues` (property reads
  and object literals) model the JavaScript built-ins these files rely on.
  `Wrappers` holds `Option` and `Result`.

Code that changes state step by step is written as methods with loops and
invariants, each proved equal to a function that specifies it:

- `ChannelIngestion.CollectVideoIds` is the pagination loop, specified by
  `Pagination`.
- `ChannelIngestion.FetchVideos` and `ChannelIngestion.FetchBatch` are the
  batching loops, specified by `Batching`.
- `Transcript.GetTranscriptWithFallback` is the language loop, specified by
  `FallbackTranscript`.
- The panel is the class `ChannelDownload.Downloader`. Its fields are the
  component's state. `HandleLine`, `ReadChunk`, `ReadBody` and
  `HandleDownload` are proved equal to `Step`, `Dispatch` and
  `DownloadOutcome`.

The rest of the core is pure and is written as functions.

The model keeps three quirks of the source as the source has them:

- **The reserved-path test is a prefix test.** A bare channel path that
  starts with a reserved word is rejected. Any segment starting with `v` is
  one of these, so `youtube.com/Veritasium` is rejected (`ReservedPrefixQuirk`).
- **The ordinal patterns are anchored on one side only.** `/^first|1(st)?$/`
  matches "starts with `first`" or "ends with `1`/`1st`". So `"11"` and `"21"`
  select the first video (`ElevenIsFirst`).
- **A line that parses to `null` aborts the download.** Reading its `type`
  throws a `TypeError`, and the catch block rethrows it.

## Model

| member | source | states |
|---|---|---|
| Durations.DurationRoundTrip | src/services/youtubeTools.js:89-99 | `PT[#H][#M][#S]` parses to H·3600 + M·60 + S, a missing component counting 0; `"PT"` is 0 |
| Durations.NotADuration | src/services/youtubeTools.js:90 | anything but a string starting with `PT` gives null |
| Durations.HoursMinutesSeconds | src/services/youtubeTools.js:89-99 | `"PT1H2M3S"` is 3723 seconds |
| Durations.MinutesSeconds | src/services/youtubeTools.js:89-99 | `"PT15M33S"` is 933 seconds |
| Durations.SecondsOnly | src/services/youtubeTools.js:89-99 | `"PT45S"` is 45 seconds |
| FieldResolver.RemoveSeparators | src/services/youtubeTools.js:117 | the result is no longer than the input and holds no white space, `_` or `-` |
| FieldResolver.RemoveSeparatorsOne | src/services/youtubeTools.js:117 | a single character is dropped exactly when it is white space, `_` or `-`, and kept otherwise |
| FieldResolver.RemoveSeparatorsAppend | src/services/youtubeTools.js:117 | removal distributes over concatenation, so with `RemoveSeparatorsOne` every other character is kept, in order |
| FieldResolver.NormIdempotent | src/services/youtubeTools.js:117 | normalising twice is normalising once |
| FieldResolver.ResolveField | src/services/youtubeTools.js:112-125 | the result is the name itself, a key of the first record, or an alias target |
| FieldResolver.ResolveNonString | src/services/youtubeTools.js:113 | a name that is not a non-empty string is returned as is |
| FieldResolver.ResolveExactKey | src/services/youtubeTools.js:114-116 | an exact key of the first record is returned unchanged |
| FieldResolver.ResolveAliasKey | src/services/youtubeTools.js:117-120 | next, the alias of the normalised name wins when it is a key |
| FieldResolver.ResolveNormalisedKey | src/services/youtubeTools.js:121-122 | next, the first key with the same normalised form wins |
| FieldResolver.ResolveFallback | src/services/youtubeTools.js:123-124 | with no key matching, the unverified alias, else the name |
| FieldResolver.ResolveLikes | src/services/youtubeTools.js:101-105 | `"Likes"` resolves to `like_count` when records carry that key |
| FieldResolver.FindNormalised | src/services/youtubeTools.js:121 | `keys.find`: a key with the target normal form, and none exists when nothing is found |
| FieldResolver.CamelSnakeInverse | src/services/youtubeTools.js:107-110 | the camel-case lookup and the reverse snake-case search are inverse to each other |
| FieldResolver.GetMetricValue | src/services/youtubeTools.js:134-142 | never null; a present field of the metric's own name is returned as is |
| FieldResolver.MetricBridge | src/services/youtubeTools.js:137-140 | a snake-case metric falls back to its camel-case field, and a camel-case one to its snake-case field |
| FieldResolver.MetricMissing | src/services/youtubeTools.js:134-142 | a metric with no twin and no field of its own gives undefined |
| Statistics.NumericValues | src/services/youtubeTools.js:144-155 | never more values than records |
| Statistics.SourceIndices | src/services/youtubeTools.js:144-155 | each value is the extracted number of a record at a known position |
| Statistics.SourceIndicesIncreasing | src/services/youtubeTools.js:144-155 | those positions increase, so input order is kept |
| Statistics.SourceIndicesComplete | src/services/youtubeTools.js:144-155 | every record that yields a number contributes it, so nothing usable is dropped |
| Statistics.NumbersKept | src/services/youtubeTools.js:148 | records holding numbers contribute them unchanged, one each |
| Statistics.NumericValuesAppend | src/services/youtubeTools.js:144-155 | the values of a concatenation are the concatenation of the values |
| Statistics.MinOf | src/services/youtubeTools.js:187 | `Math.min`: an element no larger than any other |
| Statistics.MaxOf | src/services/youtubeTools.js:188 | `Math.max`: an element no smaller than any other |
| Statistics.Variance | src/services/youtubeTools.js:180 | the population variance is non-negative |
| Statistics.SortedEnds | src/services/youtubeTools.js:179-188 | the ascending copy starts at the minimum and ends at the maximum |
| Statistics.MedianBounds | src/services/youtubeTools.js:157-160 | min ≤ median ≤ max |
| Statistics.MeanBounds | src/services/youtubeTools.js:178 | min ≤ mean ≤ max |
| Statistics.SortedUnique | src/services/youtubeTools.js:179 | two ascending sequences with the same elements are equal |
| Statistics.MedianOrderIndependent | src/services/youtubeTools.js:157-160 | reordering the values leaves the median unchanged |
| Sorting.SortByCorrect | src/services/youtubeTools.js:179 | the sort orders by key and is a permutation of its input |
| Sorting.SortByElement | src/services/youtubeTools.js:226-227 | every sorted element is an input element |
| Sorting.FirstMinIndex | src/services/youtubeTools.js:226 | the earliest position holding the least key |
| Sorting.SortHeadIsFirstMin | src/services/youtubeTools.js:226-227 | the stable sort puts the earliest least-key element first |
| VideoSelector.FindByTitle | src/services/youtubeTools.js:236 | the first record whose lower-cased title contains the selector, and none when no title does |
| VideoSelector.Select | src/services/youtubeTools.js:223-239 | a selected record is one of the records |
| VideoSelector.MostViewedPick | src/services/youtubeTools.js:225-227 | "most viewed" picks the earliest record with the largest view count (missing counting 0) |
| VideoSelector.ViewsCoerced | src/services/youtubeTools.js:226 | a view count sent as a number or as its decimal text weighs that number, and `true` weighs 1 |
| VideoSelector.MostViewedSpellings | src/services/youtubeTools.js:225 | `/^most\s*viewed$/` accepts "most viewed", "mostviewed" and "most   viewed" |
| VideoSelector.ElevenIsFirst | src/services/youtubeTools.js:230 | `"11"` selects the first record, because of how the regular expression binds |
| VideoSelector.DigitsNotOrdinal | src/services/youtubeTools.js:230-232 | digits ending in something other than 1, 2 or 3 match no ordinal pattern |
| VideoSelector.ChooseNumber | src/services/youtubeTools.js:233-235 | such a number N is read as position N−1 |
| VideoSelector.NumberSelects | src/services/youtubeTools.js:234-238 | that number picks record N−1 when it exists, else nothing |
| VideoSelector.EmptySelectorPicksFirst | src/services/youtubeTools.js:223-236 | the empty selector picks the first record |
| VideoSelector.TitleSearchPick | src/services/youtubeTools.js:236 | a title search succeeds exactly when some title contains the selector, and picks the first such record |
| YouTubeTools.StatsOutcome | src/services/youtubeTools.js:171-190 | an error naming the field and the first record's keys exactly when no value is found; otherwise count = number of values, min/max are values, min ≤ median ≤ max, min ≤ mean ≤ max, variance ≥ 0 |
| YouTubeTools.PointOf | src/services/youtubeTools.js:196-204 | a record gives one point exactly when it has both coordinates, and the point holds them |
| YouTubeTools.CollectBy | src/services/youtubeTools.js:194-206 | no more points than records |
| YouTubeTools.CollectByFrom | src/services/youtubeTools.js:194-206 | each point comes from a record having both coordinates |
| YouTubeTools.CollectByAppend | src/services/youtubeTools.js:194-206 | collecting distributes over concatenation: each record contributes in place |
| YouTubeTools.CollectPoints | src/services/youtubeTools.js:194-206 | no more points than records, and each point is the date and value of some record |
| YouTubeTools.CollectPointsAppend | src/services/youtubeTools.js:194-206 | the points of a concatenation are those of each part in turn; with `CollectPointsOne`, every record with a date and a usable value contributes its point, in record order |
| YouTubeTools.CollectPointsOne | src/services/youtubeTools.js:196-204 | a record contributes its point exactly when it has a date and a usable value |
| YouTubeTools.ChartPoints | src/services/youtubeTools.js:207 | the points sorted by timestamp are a permutation of the collected points |
| YouTubeTools.ChartPointsCount | src/services/youtubeTools.js:194-207 | sorting keeps the number of points, at most one per record |
| YouTubeTools.PlotError | src/services/youtubeTools.js:208-211 | the plot is an error naming the metric exactly when no point survives |
| YouTubeTools.PlotOutcome | src/services/youtubeTools.js:192-220 | a chart carries the resolved metric and one entry per sorted point, in non-decreasing time order, each the day of its timestamp and its value |
| YouTubeTools.TranscriptOutcome | src/services/youtubeTools.js:240-259 | a found video gives its id and title with either no transcript and the error, or the text, where an array becomes its segments joined with single spaces |
| YouTubeTools.VideoToolsAgree | src/services/youtubeTools.js:222-308 | `get_transcript` and `play_video` pick the same video and fail on the same selectors with the same error |
| YouTubeTools.UnknownTool | src/services/youtubeTools.js:310-311 | any other tool name, `generateImage` included, gives "Unknown tool: …" |
| YouTubeTools.RecordsOfShapes | src/services/youtubeTools.js:167-168 | the records are read from `{videos: [...]}`, from a bare array, and are empty when absent |
| ChannelIdentifier.RunLen | server/index.js:176 | the longest run of allowed characters at the start |
| ChannelIdentifier.FirstMatch | server/index.js:176-183 | the leftmost position from a start where the prefix is followed by an allowed character, and none when no position matches |
| ChannelIdentifier.MatchAfter | server/index.js:176-183 | absent exactly when no position matches; otherwise the longest run of allowed characters after the prefix at the leftmost match, non-empty |
| ChannelIdentifier.PathRunUnique | server/index.js:184 | only the longest run of id characters can be followed by `/`, `?` or the end, so backtracking never gives a shorter segment |
| ChannelIdentifier.FirstPathMatch | server/index.js:184 | the leftmost position where the domain is followed by a segment ending at `/`, `?` or the end, and none when no position matches |
| ChannelIdentifier.MatchPath | server/index.js:184 | absent exactly when no position matches; otherwise the whole segment of id characters after the domain at the leftmost match, followed by `/`, `?` or the end |
| ChannelIdentifier.ParseChannelIdentifier | server/index.js:174-187 | an error carries the usage message; a value is non-empty, made of the pattern's characters, and follows its pattern in the trimmed URL |
| ChannelIdentifier.PatternPriority | server/index.js:175-183 | the patterns are tried in order: `/channel/` id, then `@` handle, then `/user/`, then `/c/`; the first that matches gives the result |
| ChannelIdentifier.PathFallback | server/index.js:184-186 | with no prefixed match, the URL is accepted as a custom name exactly when the path matches and is not reserved |
| ChannelIdentifier.ReservedPrefixQuirk | server/index.js:172 | any segment starting with `v` is reserved |
| ChannelIdentifier.NotReserved | server/index.js:172 | a segment whose first letter starts no reserved word is not reserved |
| ChannelIdentifier.NoYouTubeRejected | server/index.js:174-186 | a URL without `youtube.com/` is rejected |
| ChannelIdentifier.CapturesName | server/index.js:176-183 | in `https://www.youtube.com/` followed by a pattern and a name running to the end, the pattern captures the whole name |
| ChannelIdentifier.AcceptsChannelId | server/index.js:176-177 | `https://www.youtube.com/channel/ID` parses to the channel id `ID` |
| ChannelIdentifier.AcceptsHandle | server/index.js:178-179 | `https://www.youtube.com/@name` parses to the handle `name` |
| ChannelIdentifier.UserUrlEarlier | server/index.js:176-179 | in a `/user/` URL neither the id nor the handle pattern matches |
| ChannelIdentifier.AcceptsUser | server/index.js:180-181 | `https://www.youtube.com/user/name` parses to the user name `name` |
| ChannelIdentifier.CustomUrlEarlier | server/index.js:176-181 | in a `/c/` URL none of the id, handle and user patterns matches |
| ChannelIdentifier.AcceptsCustom | server/index.js:182-183 | `https://www.youtube.com/c/name` parses to the custom name `name` |
| ChannelIdentifier.BarePathCaptured | server/index.js:184 | the bare-path pattern captures the whole name of `https://www.youtube.com/name` |
| ChannelIdentifier.AcceptsBarePath | server/index.js:184-186 | `https://www.youtube.com/name` parses to the custom name `name`, or to the usage error when the name starts with a reserved word |
| MaxVideos.ClampMax | server/index.js:245 | the result is within [1, 100]; NaN or 0 gives 10, a negative number 1, an in-range number itself, and more than 100 gives 100 |
| MaxVideos.RequestMax | server/index.js:245 | the server's `max` is within [1, 100] |
| MaxVideos.InputMax | src/components/YouTubeChannelDownload.js:108 | the panel's value is within [1, 100] |
| MaxVideos.MissingGivesDefault | server/index.js:244-245 | a missing `maxVideos` gives 10 |
| MaxVideos.InRangeKept | server/index.js:245 | a number in range, or its decimal text, is kept |
| MaxVideos.ClientServerAgree | server/index.js:245 | the panel and the server clamp the same text to the same number |
| MaxVideos.ClampIdempotent | server/index.js:245 | clamping a clamped value changes nothing |
| ChannelIngestion.PageIdsBounded | server/index.js:261-264 | a page gives at most one id per item, and never an empty one |
| ChannelIngestion.PageIdsFaithful | server/index.js:262-264 | every id comes from the page, and a page whose items all carry ids keeps them all in order |
| ChannelIngestion.Pagination | server/index.js:251-267 | no more requests than pages in the listing |
| ChannelIngestion.CollectVideoIds | server/index.js:251-267 | the loop's ids, or failure, and its request sizes are those of `Pagination` |
| ChannelIngestion.PaginationAskRange | server/index.js:253-257 | every request asks for 1 to 50 items, and none is sent once `max` ids are in |
| ChannelIngestion.PaginationAsks | server/index.js:257 | request j asks for min(50, max − ids collected before it) |
| ChannelIngestion.PaginationStops | server/index.js:253-266 | a failure is the last request and carries its message; success means `max` reached or a page without a next token or items |
| ChannelIngestion.PaginationPagesOk | server/index.js:254-260 | every page read on the way to success succeeded |
| ChannelIngestion.PaginationIds | server/index.js:261-264 | the ids are those of the pages read, in page order, with id-less items skipped |
| ChannelIngestion.PaginationBounded | server/index.js:253-267 | if no page returns more than it was asked for, at most `max` ids are collected |
| ChannelIngestion.Thumbnail | server/index.js:297 | the thumbnail is the high, medium or default URL, or null |
| ChannelIngestion.ThumbnailFallback | server/index.js:297 | high wins when truthy, then medium, then default, then null |
| ChannelIngestion.BuildRecord | server/index.js:286-298 | `video_url` is the watch prefix followed by the id; the transcript is null exactly when the fetched text is empty |
| ChannelIngestion.RecordDefaults | server/index.js:288-295 | counters are the parsed leading integer or 0; missing strings become `''`, missing dates null; the id is the item's |
| ChannelIngestion.CounterExamples | server/index.js:293-295 | a missing statistic counts 0, and a decimal one counts its value |
| ChannelIngestion.Fields | server/index.js:286-298 | the written record has 11 properties, or 10 without an id |
| ChannelIngestion.FieldsText | server/index.js:287-296 | id, title, transcript and URL read back as written |
| ChannelIngestion.FieldsCounters | server/index.js:293-295 | the three counters read back as numbers |
| ChannelIngestion.FetchedRecord | server/index.js:284-298 | a record carries the fetched text or the unavailable marker, never null, and its watch URL |
| ChannelIngestion.SlicesCover | server/index.js:270-300 | the batches concatenate to the ids in order; each has 1 to 50 ids, and all but the last have 50 |
| ChannelIngestion.FetchBatch | server/index.js:279-299 | the inner loop fetches every item of the batch with its transcript progress objects |
| ChannelIngestion.FetchVideos | server/index.js:269-301 | the batching loop's records, failure and progress objects are those of `Batching` |
| ChannelIngestion.BatchingProgress | server/index.js:271-284 | the loop writes only progress objects whose total is the number of ids |
| ChannelIngestion.BatchingTranscriptCount | server/index.js:284-286 | the `transcript` objects count 1, 2, … in order, one per record, written before it |
| ChannelIngestion.BatchingComplete | server/index.js:270-301 | without a failure, every batch was answered and every returned item was fetched, in order |
| ChannelIngestion.BatchingFailure | server/index.js:273-278 | a failure is the first failed batch's message, after the items of the earlier batches |
| ChannelIngestion.ErrorEvent | server/index.js:308 | the catch block's error object always has a message |
| ChannelIngestion.ChannelResult | server/index.js:303 | the result data is an object |
| ChannelIngestion.ChannelResultRead | server/index.js:303 | the result carries the channel title and id, and one record per fetched item, in order |
| ChannelIngestion.HandleChannelRequest | server/index.js:235-311 | the route writes exactly the stream `ChannelStream` describes |
| ChannelIngestion.StreamFor | server/index.js:246-310 | the route's work once the key is set is the stream `ChannelStream` describes |
| ChannelIngestion.StreamOneTerminal | server/index.js:239-310 | exactly one `complete` or `error` object is written, as the last one, and an error has a message |
| ChannelIngestion.StreamEarlyExits | server/index.js:239-249 | a missing key or a bad URL is the only object; otherwise the `channel` progress object with `max` comes first, and a failed lookup follows it directly |
| ChannelIngestion.StreamComplete | server/index.js:251-305 | `complete` only when every request succeeded, with the channel title and the records of every batch in order |
| Messages.ImageListIdempotent | server/index.js:527-531 | wrapping a stored image list again changes nothing |
| Messages.StoredMessage | server/index.js:495-496 | rejected exactly without `session_id`, without `role`, or with `content` undefined |
| Messages.StoredFields | server/index.js:497-507 | role, content, timestamp; `imageData` exactly when truthy and then as an array; charts, toolCalls, generatedImages exactly when non-empty; no other key |
| Messages.StoredReads | server/index.js:497-507 | each property of the stored message is the one the literal writes |
| Messages.StoredKeys | server/index.js:497-507 | a stored message has only the seven literal keys |
| Messages.GeneratedImage | server/index.js:533-534 | an object of exactly `imageBase64` and `mimeType`: the payload is the primary key unless null or undefined, else the secondary; the MIME type is the given one when truthy, else PNG |
| Messages.GeneratedImages | server/index.js:532-534 | undefined exactly when the list has no length and the legacy image is falsy; otherwise one image per list element, preferring `imageBase64`, or the legacy image alone, preferring `data` |
| Messages.LoadMessages | server/index.js:520-548 | error exactly without a session id; otherwise one entry per stored message, and none without a document |
| Messages.LoadedFields | server/index.js:535-546 | an entry has id `docId-i` and the role, content, timestamp, images, charts, toolCalls and generated images read from the message |
| Messages.DistinctIds | server/index.js:536 | entries of one session have distinct ids |
| Messages.RoundTrip | server/index.js:492-547 | a stored message reads back with its role, content, timestamp, images, charts, tool calls and generated images |
| Messages.StoredNoLegacy | server/index.js:532-534 | a stored message's generated images come from `generatedImages` alone |
| Messages.PayloadPreference | server/index.js:533-534 | a list prefers `imageBase64`; the legacy single image prefers `data` |
| ImageParts.TextPart | server/index.js:365 | throws exactly for a truthy non-string prompt; otherwise a single `text` property |
| ImageParts.BuildImageParts | server/index.js:364-378 | two parts when the anchor has data, else one; the text part is last |
| ImageParts.PromptUsed | server/index.js:365 | a string prompt is sent after the prefix exactly when it has a non-space character, else the reference sentence |
| ImageParts.PrefixedNotReference | server/index.js:365 | a prefixed prompt never reads as the reference sentence |
| ImageParts.NoPromptReference | server/index.js:365 | a missing prompt gives the reference sentence |
| ImageParts.ImageFirst | server/index.js:366-375 | the image comes first with the anchor's data, and PNG when no MIME type is given |
| ImageParts.AnchorSent | server/index.js:387-391 | an image part is sent exactly when the client sent an anchor with data or a base64 anchor |
| ImageParts.Base64Anchor | server/index.js:389-390 | a base64 anchor is sent with its data and MIME type, PNG by default |
| ImageParts.GenerateOutcome | server/index.js:364-391 | refused exactly without a prompt and a base64 anchor, or for a truthy non-string prompt; otherwise two parts exactly when an anchor with data or a base64 anchor came, the last one the prefixed prompt when it has a non-space character, else the reference sentence |
| ImageParts.AnchorObjectAlone | server/index.js:383 | an anchor object alone does not pass the route's request test |
| ImageParts.AnchorOnlyRequest | server/index.js:383-391 | an anchor-only request asks with the reference sentence |
| Transcript.ToText | server/transcript.js:8-11 | text only for an array; the text is non-empty and trimmed |
| Transcript.ToTextSome | server/transcript.js:9-10 | text exactly when the list is an array whose joined segments have a non-space character |
| Transcript.IdStart | server/transcript.js:14 | where the captured eleven id characters start |
| Transcript.LastMarker | server/transcript.js:14 | the greedy `^.*` takes the last `v=` or `/` followed by eleven id characters |
| Transcript.NormaliseVideoId | server/transcript.js:14 | the id is left unchanged or reduced to eleven id characters |
| Transcript.NormaliseEndingId | server/transcript.js:14 | a URL ending in `v=ID` or `/ID` gives ID |
| Transcript.NormaliseBareId | server/transcript.js:14 | a bare eleven-character id is kept |
| Transcript.TryLanguages | server/transcript.js:19-30 | always a non-empty string |
| Transcript.FallbackTranscript | server/transcript.js:13-31 | always a non-empty string |
| Transcript.GetTranscriptWithFallback | server/transcript.js:13-31 | the loop returns what `FallbackTranscript` describes |
| Transcript.UnusableIdNoFetch | server/transcript.js:15 | an id not reducing to eleven characters gives the marker without fetching |
| Transcript.FirstLanguageWins | server/transcript.js:19-25 | the first language, in the fixed order, that yields text wins; earlier failures are swallowed |
| Transcript.AllLanguagesFail | server/transcript.js:19-30 | when every language fails or is empty, the marker comes back |
| JsText.TrimEmptyIffBlank | src/components/YouTubeChannelDownload.js:41 | a line trims to empty exactly when it is all white space |
| JsText.ParseIntOfIntToString | server/index.js:245 | `parseInt` reads back the decimal text of an integer |
| JsText.NumberOfIntToString | src/services/youtubeTools.js:226 | `Number` reads back the decimal text of an integer, and white space alone as 0 |
| JsText.JoinSplit | src/components/YouTubeChannelDownload.js:38 | joining the pieces of a split gives back the text |
| ChannelDownload.FramingLossless | src/components/YouTubeChannelDownload.js:37-39 | the complete lines and the buffer rebuild the text read |
| ChannelDownload.CompleteLinesAppend | src/components/YouTubeChannelDownload.js:37-39 | reading a chunk keeps the complete lines and frames the buffer followed by the chunk |
| ChannelDownload.TrailingTextIgnored | src/components/YouTubeChannelDownload.js:35-39 | text after the last newline is never a line |
| ChannelDownload.LastPieceHasNoNewline | src/components/YouTubeChannelDownload.js:39 | the buffer holds no newline |
| ChannelDownload.Step | src/components/YouTubeChannelDownload.js:41-55 | only a non-blank line that parses can abort |
| ChannelDownload.Dispatch | src/components/YouTubeChannelDownload.js:40-56 | once aborted, nothing changes |
| ChannelDownload.DispatchAppend | src/components/YouTubeChannelDownload.js:34-57 | lines can be dispatched in two runs, which is why chunk boundaries do not matter |
| ChannelDownload.SkippedLinesIgnored | src/components/YouTubeChannelDownload.js:41-53 | blank and unparseable lines change nothing |
| ChannelDownload.ErrorAborts | src/components/YouTubeChannelDownload.js:49-54 | an `error` object aborts with its message, whatever follows |
| ChannelDownload.QuietKeepsData | src/components/YouTubeChannelDownload.js:44-51 | lines other than `complete` and aborts leave the data |
| ChannelDownload.LastCompleteWins | src/components/YouTubeChannelDownload.js:47-48 | the last `complete` object's data is kept |
| ChannelDownload.NoCompleteNoData | src/components/YouTubeChannelDownload.js:32-48 | without a `complete` object the data stays null |
| ChannelDownload.ReadStopped | src/components/YouTubeChannelDownload.js:34-57 | once reading stops, the state is that of all the body's complete lines |
| ChannelDownload.Failed | src/components/YouTubeChannelDownload.js:65 | an error message is never empty and shows no result |
| ChannelDownload.DownloadOutcome | src/components/YouTubeChannelDownload.js:22-65 | an error exactly when there is no truthy result |
| ChannelDownload.UnterminatedBody | src/components/YouTubeChannelDownload.js:35-62 | a body with no newline ends in "No data received" |
| ChannelDownload.NoCompleteFails | src/components/YouTubeChannelDownload.js:59-62 | a body without `complete` ends in an error |
| ChannelDownload.RequestRoundTrip | src/components/YouTubeChannelDownload.js:26 | the server reads back the URL and the count the panel sent |
| ChannelDownload.Downloader.constructor | src/components/YouTubeChannelDownload.js:7-13 | the initial state |
| ChannelDownload.Downloader.SetChannelUrl | src/components/YouTubeChannelDownload.js:96 | editing the URL changes nothing else |
| ChannelDownload.Downloader.SetMaxVideos | src/components/YouTubeChannelDownload.js:108 | the input is clamped to [1, 100] as the server clamps it |
| ChannelDownload.Downloader.HandleLine | src/components/YouTubeChannelDownload.js:41-55 | one line acts as `Step` |
| ChannelDownload.Downloader.ReadChunk | src/components/YouTubeChannelDownload.js:37-56 | the buffer becomes the last piece, and the complete lines act as `Dispatch` |
| ChannelDownload.Downloader.ReadBody | src/components/YouTubeChannelDownload.js:31-57 | the chunks act as `Dispatch` on the complete lines of the whole body |
| ChannelDownload.Downloader.HandleDownload | src/components/YouTubeChannelDownload.js:15-71 | at the end loading is off, progress and total are 0, and error and result are `DownloadOutcome` |

## Left out

- HTTP, MongoDB and Express plumbing are left out: routing, status codes, the users, sessions and login routes, and `updateOne`/`findOne`. The message routes are modelled from the request body to the stored object and from the stored document to the response list.
- The upstream YouTube, caption and image-model calls (`fetchYouTubeJson`, `getChannelIdAndUploadsPlaylist`, `fetchTranscript`, the Gemini and Replicate fallbacks) are inputs, not calls. The channel lookup is one function of the identifier, so its two-request search for handles is not modelled.
- `ChannelIngestion.CollectVideoIds`: the listing is a finite sequence of page responses that ends with a page asking for no more. A listing that keeps offering next tokens forever is not modelled.
- Floating point is left out. Numbers are integers, so mean and variance are exact reals with no `toFixed(4)` rounding, and `Math.sqrt` (`std`) is not modelled.
- `Statistics.NumericValues`: `parseFloat` is read as the integer-prefix parse. Fractions, exponents and `Infinity` are not modelled.
- `Statistics.NumericValues`: a `release_date` that `new Date` cannot read yields NaN in the source, and NaN is not `null`, so the source keeps it. The model drops it.
- Date parsing (`new Date(t).getTime()`) and day formatting (`toISOString().slice(0, 10)`) are function-valued parameters.
- Property reads on `null` or `undefined`, `.map` of a non-array and `toLowerCase` of a non-string title throw in the source. The model reads the missing property as absent instead.
- The one exception is a stream line parsing to `null`, which aborts the download as the source does.
- Lookups that reach `Object.prototype` are not modelled, for example `METRIC_ALIASES["constructor"]`.
- Text decoding of byte chunks (`TextDecoder`) is left out. The body is given as decoded text chunks.
- The React rendering, `handleDownloadJson`, `App.js`, the chart, image and play-video components, `scripts/download-veritasium.js` and `src/services/imageGeneration.js` are not part of this model.
- `YOUTUBE_TOOL_DECLARATIONS` is constant data. Only the tool names matter for dispatch.
- `JsText.Lower`, `VideoSelector.FindByTitle`, `VideoSelector.TitleSearchPick`, `FieldResolver.Norm`: `toLowerCase` is modelled on ASCII letters only. A non-ASCII title that differs from the selector only in case (`"École"` against `"école"`) is found by the source and not by the model, because Unicode case mapping is not modelled.
- `Transcript.UsableId`: text lengths are counted in characters (code points), while JavaScript's `length` counts UTF-16 units. An eleven-character id holding a character outside the Basic Multilingual Plane is fetched by the model, while the source returns the marker.
- `VideoSelector.Views`, `VideoSelector.MostViewedPick`: the comparator's subtraction is modelled for numbers, booleans and strings holding an optionally signed integer or only white space. A string `Number` reads as NaN or as a fraction, and an array or object, is read as 0. In the source, NaN makes the comparator inconsistent, and the order `sort` then produces is left to the engine.
- `ChannelIngestion.FetchedRecord`, `ChannelIngestion.VideoIdText`: a truthy `id` that is not a string is read as the empty id, so the model records the unavailable marker and carries on. In the source, `(videoId || '').replace(...)` at server/transcript.js:14 runs outside the `try` and throws, and the route then writes an error object.
- `YouTubeTools.RecordsOf`: an array element that is not an object becomes a record without properties, which a selector can pick. In the source, a falsy element either fails the `arr[idx]` test, giving "Could not find video", or makes `find` or `sort` throw when a property is read from it.
- `JsValues.Keys`: an object's keys are listed in insertion order. `Object.keys` lists integer-like keys first, in ascending order, so the key list of `compute_stats_json`'s error and the order `keys.find` searches differ for records with such keys.
- Concurrency is left out. The route's `await`s run in order, and no two downloads interleave.
