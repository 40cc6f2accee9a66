/**
 * The chat message routes of server/index.js: POST /api/messages turns a
 * request body into the message pushed onto a session document, and
 * GET /api/messages turns a session document's stored messages into the
 * list the client renders. The database is left out: the stored message
 * and the session document read back are values, and the clock's ISO
 * timestamp is a parameter.
 */
module Messages {
  import opened Wrappers
  import opened JsText
  import opened JsValues

  const RequiredMessage: string := "session_id, role, content required"
  const SessionRequiredMessage: string := "session_id required"
  const DefaultMime: string := "image/png"

  /** `x?.length`: an array's or a string's length, an object's `length`
      property, `undefined` for anything else. */
  function LengthOf(x: Option<Value>): Option<Value> {
    match x
    case Some(Arr(items)) => Some(Num(|items|))
    case Some(Str(s)) => Some(Num(|s|))
    case Some(Obj(fs)) => Get(fs, "length")
    case _ => None
  }

  /** `x?.length` is truthy. */
  predicate HasLength(x: Option<Value>) {
    Truthy(LengthOf(x))
  }

  /** `x` when its length is truthy, else `undefined`. */
  function IfHasLength(x: Option<Value>): (r: Option<Value>)
    ensures r.Some? <==> HasLength(x)
    ensures r.Some? ==> r == x
  {
    if HasLength(x) then x else None
  }

  /** `x ? (Array.isArray(x) ? x : [x]) : []`: the images of an `imageData`
      that may be one image or a list of them. */
  function ImageList(x: Option<Value>): (l: seq<Value>)
    ensures !Truthy(x) ==> l == []
    ensures Truthy(x) && x.value.Arr? ==> l == x.value.items
    ensures Truthy(x) && !x.value.Arr? ==> l == [x.value]
  {
    if !Truthy(x) then []
    else if x.value.Arr? then x.value.items
    else [x.value]
  }

  /** Wrapping the list again changes nothing: a stored `imageData` is already an array. */
  lemma ImageListIdempotent(x: Option<Value>)
    requires Truthy(x)
    ensures ImageList(Some(Arr(ImageList(x)))) == ImageList(x)
  {
  }

  // ---------------------------------------------------------------------------
  // POST /api/messages

  /** The message the POST route pushes, or the 400 error. The session id,
      role and content are required; `content` may be any value but
      `undefined`, even `null` or "". `imageData` is kept only when truthy and
      always as an array; `charts`, `toolCalls` and `generatedImages` only
      when their length is truthy. */
  function StoredMessage(body: Record, timestamp: string): (r: Result<Record>)
    ensures r.Err? <==> !Truthy(Get(body, "session_id")) || !Truthy(Get(body, "role")) || Get(body, "content").None?
    ensures r.Err? ==> r.message == RequiredMessage
  {
    var role := Get(body, "role");
    var content := Get(body, "content");
    if !Truthy(Get(body, "session_id")) || !Truthy(role) || content.None? then Err(RequiredMessage)
    else
      Ok(Props(StoredProps(body, timestamp)))
  }

  /** The object literal the POST route builds, once the checks pass. */
  function StoredProps(body: Record, timestamp: string): seq<(string, Option<Value>)> {
    var imageData := Get(body, "imageData");
    [("role", Get(body, "role")), ("content", Get(body, "content")), ("timestamp", Some(Str(timestamp))),
     ("imageData", if Truthy(imageData) then Some(Arr(ImageList(imageData))) else None),
     ("charts", IfHasLength(Get(body, "charts"))),
     ("toolCalls", IfHasLength(Get(body, "toolCalls"))),
     ("generatedImages", IfHasLength(Get(body, "generatedImages")))]
  }

  /** The keys a stored message can have. */
  predicate StoredKey(k: string) {
    k == "role" || k == "content" || k == "timestamp" || k == "imageData"
    || k == "charts" || k == "toolCalls" || k == "generatedImages"
  }

  /** What a stored message holds: the role, the content and the timestamp;
      `imageData` exactly when the body's is truthy, then always as an array
      (an empty array, being truthy, is kept); each optional collection exactly when its length is truthy, then
      as sent; and nothing else — the session id is not copied. */
  lemma StoredFields(body: Record, timestamp: string)
    requires StoredMessage(body, timestamp).Ok?
    ensures var rec := StoredMessage(body, timestamp).value;
            Get(rec, "role") == Get(body, "role") && Get(rec, "content") == Get(body, "content")
            && Get(rec, "timestamp") == Some(Str(timestamp))
            && (Get(rec, "imageData").Some? <==> Truthy(Get(body, "imageData")))
            && (Get(rec, "imageData").Some? ==> Get(rec, "imageData").value == Arr(ImageList(Get(body, "imageData"))))
            && (Get(rec, "charts").Some? <==> HasLength(Get(body, "charts")))
            && (Get(rec, "toolCalls").Some? <==> HasLength(Get(body, "toolCalls")))
            && (Get(rec, "generatedImages").Some? <==> HasLength(Get(body, "generatedImages")))
            && (Get(rec, "charts").Some? ==> Get(rec, "charts") == Get(body, "charts"))
            && (Get(rec, "toolCalls").Some? ==> Get(rec, "toolCalls") == Get(body, "toolCalls"))
            && (Get(rec, "generatedImages").Some? ==> Get(rec, "generatedImages") == Get(body, "generatedImages"))
            && (forall k :: k in Keys(rec) ==> StoredKey(k))
  {
    StoredReads(body, timestamp);
    StoredKeys(body, timestamp);
  }

  /** Each property of the stored message is the one the literal writes. */
  lemma StoredReads(body: Record, timestamp: string)
    requires StoredMessage(body, timestamp).Ok?
    ensures var rec := StoredMessage(body, timestamp).value;
            var ps := StoredProps(body, timestamp);
            Get(rec, "role") == ps[0].1 && Get(rec, "content") == ps[1].1 && Get(rec, "timestamp") == ps[2].1
            && Get(rec, "imageData") == ps[3].1 && Get(rec, "charts") == ps[4].1
            && Get(rec, "toolCalls") == ps[5].1 && Get(rec, "generatedImages") == ps[6].1
  {
    var ps := StoredProps(body, timestamp);
    StoredNames(body, timestamp);
    GetPropsAll(ps);
  }

  /** The seven names of the literal, each written once. */
  lemma StoredNames(body: Record, timestamp: string)
    ensures var ps := StoredProps(body, timestamp);
            |ps| == 7 && ps[0].0 == "role" && ps[1].0 == "content" && ps[2].0 == "timestamp"
            && ps[3].0 == "imageData" && ps[4].0 == "charts" && ps[5].0 == "toolCalls"
            && ps[6].0 == "generatedImages" && DistinctKeys(ps)
  {
  }

  /** The stored message has no property but the seven it is built from. */
  lemma StoredKeys(body: Record, timestamp: string)
    requires StoredMessage(body, timestamp).Ok?
    ensures forall k :: k in Keys(StoredMessage(body, timestamp).value) ==> StoredKey(k)
  {
    var rec := StoredMessage(body, timestamp).value;
    var ps := StoredProps(body, timestamp);
    assert rec == Props(ps);
    forall k | k in Keys(rec) ensures StoredKey(k) {
      GetProps(ps, k);
      LookupNamed(ps, k);
    }
  }

  // ---------------------------------------------------------------------------
  // GET /api/messages

  /** A session document as the GET route reads it: its id as text and its
      `messages` property, if any. */
  datatype SessionDoc = SessionDoc(id: string, messages: Option<Value>)

  /** `x ?? y`. */
  function Coalesce(x: Option<Value>, y: Option<Value>): (r: Option<Value>)
    ensures Present(x) ==> r == x
    ensures !Present(x) ==> r == y
  {
    if Present(x) then x else y
  }

  /** One entry of `images`: the image's `data` and `mimeType`, nothing else. */
  function ImageRef(img: Value): (r: Value)
    ensures r.Obj?
    ensures Get(r.fields, "data") == Prop(Some(img), "data")
    ensures Get(r.fields, "mimeType") == Prop(Some(img), "mimeType")
    ensures forall k :: k in Keys(r.fields) ==> k == "data" || k == "mimeType"
  {
    var ps := [("data", Prop(Some(img), "data")), ("mimeType", Prop(Some(img), "mimeType"))];
    GetPropsAll(ps);
    assert Get(Props(ps), ps[0].0) == ps[0].1 && Get(Props(ps), ps[1].0) == ps[1].1;
    KeysOfProps(ps);
    Obj(Props(ps))
  }

  /** `images`: `undefined` for an empty list. */
  function Images(arr: seq<Value>): (r: Option<Value>)
    ensures r.Some? <==> |arr| > 0
    ensures r.Some? ==> r.value.Arr? && |r.value.items| == |arr|
                        && forall k :: 0 <= k < |arr| ==> r.value.items[k] == ImageRef(arr[k])
  {
    if |arr| > 0 then Some(Arr(seq(|arr|, k requires 0 <= k < |arr| => ImageRef(arr[k])))) else None
  }

  /** A generated image whose payload is read from `primary`, then `secondary`
      (`??`), and whose MIME type defaults to PNG. */
  function GeneratedImage(g: Value, primary: string, secondary: string): (r: Value)
    ensures r.Obj?
    ensures Present(Prop(Some(g), primary)) ==> Get(r.fields, "imageBase64") == Prop(Some(g), primary)
    ensures !Present(Prop(Some(g), primary)) ==> Get(r.fields, "imageBase64") == Prop(Some(g), secondary)
    ensures Truthy(Prop(Some(g), "mimeType")) ==> Get(r.fields, "mimeType") == Prop(Some(g), "mimeType")
    ensures !Truthy(Prop(Some(g), "mimeType")) ==> Get(r.fields, "mimeType") == Some(Str(DefaultMime))
    ensures forall k :: k in Keys(r.fields) ==> k == "imageBase64" || k == "mimeType"
  {
    var mime := OrElse(Prop(Some(g), "mimeType"), Str(DefaultMime));
    var ps := [("imageBase64", Coalesce(Prop(Some(g), primary), Prop(Some(g), secondary))), ("mimeType", Some(mime))];
    GetPropsAll(ps);
    assert Get(Props(ps), ps[0].0) == ps[0].1 && Get(Props(ps), ps[1].0) == ps[1].1;
    KeysOfProps(ps);
    Obj(Props(ps))
  }

  /** The elements `map` visits: an array's items. */
  function ItemsOf(x: Option<Value>): seq<Value> {
    if x.Some? && x.value.Arr? then x.value.items else []
  }

  /** A message's list of generated images, each read preferring `imageBase64`. */
  function GeneratedList(items: seq<Value>): (r: Value)
    ensures r.Arr? && |r.items| == |items|
    ensures forall k :: 0 <= k < |items| ==> r.items[k] == GeneratedImage(items[k], "imageBase64", "data")
  {
    Arr(seq(|items|, k requires 0 <= k < |items| => GeneratedImage(items[k], "imageBase64", "data")))
  }

  /** `generatedImages` of an entry: the message's list when its length is
      truthy, each image preferring `imageBase64` over `data`; otherwise the
      older single `generatedImage`, preferring `data` over `imageBase64`;
      otherwise `undefined`. */
  function GeneratedImages(m: Value): (r: Option<Value>)
    ensures var gs := Prop(Some(m), "generatedImages");
            r.None? <==> !HasLength(gs) && !Truthy(Prop(Some(m), "generatedImage"))
    ensures var gs := Prop(Some(m), "generatedImages");
            HasLength(gs) ==>
              r.Some? && r.value.Arr? && |r.value.items| == |ItemsOf(gs)|
              && forall k :: 0 <= k < |ItemsOf(gs)| ==> r.value.items[k] == GeneratedImage(ItemsOf(gs)[k], "imageBase64", "data")
    ensures var legacy := Prop(Some(m), "generatedImage");
            !HasLength(Prop(Some(m), "generatedImages")) && Truthy(legacy) ==>
              r == Some(Arr([GeneratedImage(legacy.value, "data", "imageBase64")]))
  {
    var gs := Prop(Some(m), "generatedImages");
    if HasLength(gs) then Some(GeneratedList(ItemsOf(gs)))
    else
      var legacy := Prop(Some(m), "generatedImage");
      if Truthy(legacy) then Some(Arr([GeneratedImage(legacy.value, "data", "imageBase64")])) else None
  }

  /** `${doc._id}-${i}`. */
  function MessageId(docId: string, i: nat): string {
    docId + "-" + NatToString(i)
  }

  /** The object literal built for stored message `m` at position `i`. */
  function LoadedProps(m: Value, docId: string, i: nat): seq<(string, Option<Value>)> {
    [("id", Some(Str(MessageId(docId, i)))),
     ("role", Prop(Some(m), "role")),
     ("content", Prop(Some(m), "content")),
     ("timestamp", Prop(Some(m), "timestamp")),
     ("images", Images(ImageList(Prop(Some(m), "imageData")))),
     ("charts", IfHasLength(Prop(Some(m), "charts"))),
     ("toolCalls", IfHasLength(Prop(Some(m), "toolCalls"))),
     ("generatedImages", GeneratedImages(m))]
  }

  /** The entry built for stored message `m` at position `i`. */
  function LoadedMessage(m: Value, docId: string, i: nat): Record {
    Props(LoadedProps(m, docId, i))
  }

  /** `doc?.messages || []`. */
  function RawMessages(doc: Option<SessionDoc>): seq<Value> {
    if doc.Some? then ItemsOf(doc.value.messages) else []
  }

  /** The GET route: the 400 error without a session id, else one entry per
      stored message, in order. A missing document gives an empty list. */
  function LoadMessages(sessionId: Option<Value>, doc: Option<SessionDoc>): (r: Result<seq<Value>>)
    ensures r.Err? <==> !Truthy(sessionId)
    ensures r.Err? ==> r.message == SessionRequiredMessage
    ensures r.Ok? ==> |r.value| == |RawMessages(doc)|
    ensures r.Ok? && doc.None? ==> r.value == []
  {
    if !Truthy(sessionId) then Err(SessionRequiredMessage)
    else
      var raw := RawMessages(doc);
      var docId := if doc.Some? then doc.value.id else "";
      Ok(seq(|raw|, i requires 0 <= i < |raw| => Obj(LoadedMessage(raw[i], docId, i))))
  }

  /** Fields of an entry: its `id`, and the seven properties read from the
      stored message. */
  lemma LoadedFields(m: Value, docId: string, i: nat)
    ensures var e := LoadedMessage(m, docId, i);
            Get(e, "id") == Some(Str(MessageId(docId, i)))
            && Get(e, "role") == Prop(Some(m), "role")
            && Get(e, "content") == Prop(Some(m), "content")
            && Get(e, "timestamp") == Prop(Some(m), "timestamp")
            && Get(e, "images") == Images(ImageList(Prop(Some(m), "imageData")))
            && Get(e, "charts") == IfHasLength(Prop(Some(m), "charts"))
            && Get(e, "toolCalls") == IfHasLength(Prop(Some(m), "toolCalls"))
            && Get(e, "generatedImages") == GeneratedImages(m)
  {
    var ps := LoadedProps(m, docId, i);
    GetPropsAll(ps);
    assert ps[0].0 == "id" && ps[1].0 == "role" && ps[2].0 == "content" && ps[3].0 == "timestamp";
    assert ps[4].0 == "images" && ps[5].0 == "charts" && ps[6].0 == "toolCalls" && ps[7].0 == "generatedImages";
    assert Get(LoadedMessage(m, docId, i), "id") == ps[0].1;
    assert Get(LoadedMessage(m, docId, i), "role") == ps[1].1 && Get(LoadedMessage(m, docId, i), "content") == ps[2].1;
    assert Get(LoadedMessage(m, docId, i), "timestamp") == ps[3].1 && Get(LoadedMessage(m, docId, i), "images") == ps[4].1;
    assert Get(LoadedMessage(m, docId, i), "charts") == ps[5].1 && Get(LoadedMessage(m, docId, i), "toolCalls") == ps[6].1;
    assert Get(LoadedMessage(m, docId, i), "generatedImages") == ps[7].1;
  }

  /** Entries of one session have distinct ids. */
  lemma DistinctIds(docId: string, i: nat, j: nat)
    requires i != j
    ensures MessageId(docId, i) != MessageId(docId, j)
  {
    var p := docId + "-";
    assert MessageId(docId, i)[|p|..] == NatToString(i);
    assert MessageId(docId, j)[|p|..] == NatToString(j);
    NatToStringInjective(i, j);
  }

  /** A message stored by the POST route reads back through the GET route
      with the role, content and timestamp it was given, its images as
      `{data, mimeType}` pairs, its charts and tool calls as sent, and its
      generated images with the PNG default applied. */
  lemma RoundTrip(body: Record, timestamp: string, docId: string, i: nat)
    requires StoredMessage(body, timestamp).Ok?
    ensures var e := LoadedMessage(Obj(StoredMessage(body, timestamp).value), docId, i);
            Get(e, "role") == Get(body, "role") && Get(e, "content") == Get(body, "content")
            && Get(e, "timestamp") == Some(Str(timestamp))
            && Get(e, "images") == Images(ImageList(Get(body, "imageData")))
            && Get(e, "charts") == IfHasLength(Get(body, "charts"))
            && Get(e, "toolCalls") == IfHasLength(Get(body, "toolCalls"))
            && Get(e, "generatedImages")
               == if HasLength(Get(body, "generatedImages")) then Some(GeneratedList(ItemsOf(Get(body, "generatedImages")))) else None
  {
    var rec := StoredMessage(body, timestamp).value;
    StoredFields(body, timestamp);
    LoadedFields(Obj(rec), docId, i);
    var imageData := Get(body, "imageData");
    if Truthy(imageData) {
      ImageListIdempotent(imageData);
    }
    StoredNoLegacy(body, timestamp);
  }

  /** A stored message never has the older `generatedImage` property, so its
      generated images come from `generatedImages` alone. */
  lemma StoredNoLegacy(body: Record, timestamp: string)
    requires StoredMessage(body, timestamp).Ok?
    ensures GeneratedImages(Obj(StoredMessage(body, timestamp).value))
            == if HasLength(Get(body, "generatedImages")) then Some(GeneratedList(ItemsOf(Get(body, "generatedImages")))) else None
  {
    StoredFields(body, timestamp);
    assert !StoredKey("generatedImage");
  }

  /** The GET route lists the stored messages in order, each entry built from
      the message at its position. */
  lemma LoadedEntries(sessionId: Option<Value>, doc: SessionDoc, i: nat)
    requires Truthy(sessionId) && i < |RawMessages(Some(doc))|
    ensures LoadMessages(sessionId, Some(doc)).value[i] == Obj(LoadedMessage(RawMessages(Some(doc))[i], doc.id, i))
  {
  }

  /** The list's images and generated images follow the message: a list
      message prefers `imageBase64`, the older single image prefers `data`. */
  lemma PayloadPreference(g: Value, a: Value, b: Value)
    requires g == Obj([("imageBase64", a), ("data", b)]) && a != Null && b != Null
    ensures GeneratedImages(Obj([("generatedImages", Arr([g]))])) == Some(GeneratedList([g]))
    ensures Get(GeneratedImage(g, "imageBase64", "data").fields, "imageBase64") == Some(a)
    ensures GeneratedImages(Obj([("generatedImage", g)])) == Some(Arr([GeneratedImage(g, "data", "imageBase64")]))
    ensures Get(GeneratedImage(g, "data", "imageBase64").fields, "imageBase64") == Some(b)
  {
    var gs := Obj([("generatedImages", Arr([g]))]);
    assert Prop(Some(gs), "generatedImages") == Some(Arr([g]));
    assert Get(g.fields, "data") == Some(b);
    assert Prop(Some(Obj([("generatedImage", g)])), "generatedImages").None?;
  }
}
