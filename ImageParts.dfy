/**
 * The request parts POST /api/generate-image of server/index.js sends to the
 * image model: `buildImageParts`, which puts the reference image (when there
 * is one) before the text, and the route's normalisation of the two ways a
 * client can pass that image.
 */
module ImageParts {
  import opened Wrappers
  import opened JsText
  import opened JsValues

  const PromptPrefix: string := "Generate an image: "
  const ReferenceText: string := "Generate an image based on this reference."
  const DefaultMime: string := "image/png"
  /** What `prompt.trim()` throws for a truthy prompt that is not a string. */
  const TrimMessage: string := "prompt.trim is not a function"

  /** The `text` part: the prompt after the prefix, or the reference
      instruction when the prompt is empty or only white space. */
  function TextPart(prompt: Value): (r: Result<Value>)
    ensures r.Err? <==> Truthy(Some(prompt)) && !prompt.Str?
    ensures r.Ok? ==> r.value.Obj? && |r.value.fields| == 1 && r.value.fields[0].0 == "text"
  {
    if !Truthy(Some(prompt)) then Ok(Obj([("text", Str(ReferenceText))]))
    else if !prompt.Str? then Err(TrimMessage)
    else if Trim(prompt.s) != "" then Ok(Obj([("text", Str(PromptPrefix + prompt.s))]))
    else Ok(Obj([("text", Str(ReferenceText))]))
  }

  /** The `inline_data` part for an anchor image whose `data` is truthy. */
  function ImagePart(anchor: Option<Value>): Value
    requires Truthy(Prop(anchor, "data"))
  {
    Obj([("inline_data", Obj([("mime_type", OrElse(Prop(anchor, "mimeType"), Str(DefaultMime))),
                             ("data", Prop(anchor, "data").value)]))])
  }

  /** `buildImageParts(prompt, anchorImage)`. */
  function BuildImageParts(prompt: Value, anchor: Option<Value>): (r: Result<seq<Value>>)
    ensures r.Err? <==> TextPart(prompt).Err?
    ensures r.Ok? ==> |r.value| == (if Truthy(Prop(anchor, "data")) then 2 else 1)
    ensures r.Ok? ==> r.value[|r.value| - 1] == TextPart(prompt).value
  {
    var text := TextPart(prompt);
    if text.Err? then Err(text.message)
    else if Truthy(Prop(anchor, "data")) then Ok([ImagePart(anchor), text.value])
    else Ok([text.value])
  }

  /** The text read from a text part. */
  function TextOf(part: Value): Option<Value> {
    Prop(Some(part), "text")
  }

  /** A prompt sent after the prefix never reads as the reference
      instruction. */
  lemma PrefixedNotReference(p: string)
    ensures PromptPrefix + p != ReferenceText
  {
    var used := PromptPrefix + p;
    assert used[18] == PromptPrefix[18] == ' ';
    assert ReferenceText[18] == 'b';
  }

  /** A string prompt is used exactly when it has a character other than
      white space; otherwise the reference instruction is sent. */
  lemma PromptUsed(p: string)
    ensures TextPart(Str(p)).Ok?
    ensures var text := TextOf(TextPart(Str(p)).value);
            (text == Some(Str(PromptPrefix + p)) <==> exists i :: 0 <= i < |p| && !IsSpace(p[i]))
            && (text == Some(Str(ReferenceText)) <==> forall i :: 0 <= i < |p| ==> IsSpace(p[i]))
  {
    var t := TextPart(Str(p)).value;
    GetAt(t.fields, 0, "text");
    TrimEmptyIffBlank(p);
    PrefixedNotReference(p);
  }

  /** A prompt that is missing (the route passes `prompt || ''`) gives the
      reference instruction. */
  lemma NoPromptReference(prompt: Value)
    requires !Truthy(Some(prompt))
    ensures TextPart(prompt).Ok? && TextOf(TextPart(prompt).value) == Some(Str(ReferenceText))
  {
    GetAt(TextPart(prompt).value.fields, 0, "text");
  }

  /** The image comes first and carries the anchor's data, with PNG as the
      MIME type when the anchor names none. */
  lemma ImageFirst(prompt: Value, anchor: Option<Value>)
    requires TextPart(prompt).Ok? && Truthy(Prop(anchor, "data"))
    ensures var parts := BuildImageParts(prompt, anchor).value;
            var inline := Prop(Some(parts[0]), "inline_data");
            Prop(inline, "data") == Prop(anchor, "data")
            && Prop(inline, "mime_type") == Some(OrElse(Prop(anchor, "mimeType"), Str(DefaultMime)))
            && (!Truthy(Prop(anchor, "mimeType")) ==> Prop(inline, "mime_type") == Some(Str(DefaultMime)))
  {
    var part := ImagePart(anchor);
    GetAt(part.fields, 0, "inline_data");
    var inline := part.fields[0].1;
    GetAt(inline.fields, 0, "mime_type");
    GetAt(inline.fields, 1, "data");
  }

  // ---------------------------------------------------------------------------
  // The route's anchor

  /** `anchorImage?.data ? anchorImage : anchorImageBase64 ? {data: anchorImageBase64,
      mimeType: mimeType || 'image/png'} : null`. */
  function NormalisedAnchor(anchorImage: Option<Value>, anchorBase64: Option<Value>, mimeType: Option<Value>): Option<Value> {
    if Truthy(Prop(anchorImage, "data")) then anchorImage
    else if Truthy(anchorBase64) then Some(Obj([("data", anchorBase64.value), ("mimeType", OrElse(mimeType, Str(DefaultMime)))]))
    else Some(Null)
  }

  /** The request carries an image part exactly when the client sent an
      anchor object with data or a base64 anchor; the object wins when both
      are sent. */
  lemma AnchorSent(prompt: Value, anchorImage: Option<Value>, anchorBase64: Option<Value>, mimeType: Option<Value>)
    requires TextPart(prompt).Ok?
    ensures var parts := BuildImageParts(prompt, NormalisedAnchor(anchorImage, anchorBase64, mimeType)).value;
            (|parts| == 2 <==> Truthy(Prop(anchorImage, "data")) || Truthy(anchorBase64))
            && (Truthy(Prop(anchorImage, "data")) ==> parts[0] == ImagePart(anchorImage))
  {
    if !Truthy(Prop(anchorImage, "data")) && Truthy(anchorBase64) {
      var a := NormalisedAnchor(anchorImage, anchorBase64, mimeType);
      GetAt(a.value.fields, 0, "data");
    }
  }

  /** A base64 anchor is sent with its data and its MIME type, PNG when none
      is given. */
  lemma Base64Anchor(prompt: Value, anchorImage: Option<Value>, anchorBase64: Option<Value>, mimeType: Option<Value>)
    requires TextPart(prompt).Ok? && !Truthy(Prop(anchorImage, "data")) && Truthy(anchorBase64)
    ensures var a := NormalisedAnchor(anchorImage, anchorBase64, mimeType);
            Prop(a, "data") == anchorBase64 && Prop(a, "mimeType") == Some(OrElse(mimeType, Str(DefaultMime)))
  {
    var a := NormalisedAnchor(anchorImage, anchorBase64, mimeType);
    GetAt(a.value.fields, 0, "data");
    GetAt(a.value.fields, 1, "mimeType");
  }

  const RequiredMessage: string := "prompt or anchorImageBase64 required"

  /** The request check and the parts the route builds for the image model:
      a 400 when neither a prompt nor a base64 anchor is sent, otherwise
      `buildImageParts(prompt || '', anchorImageNormalized)`. */
  function GenerateParts(prompt: Option<Value>, anchorImage: Option<Value>, anchorBase64: Option<Value>, mimeType: Option<Value>): (r: Result<seq<Value>>)
    ensures !Truthy(prompt) && !Truthy(anchorBase64) ==> r == Err(RequiredMessage)
    ensures Truthy(prompt) || Truthy(anchorBase64) ==>
              r == BuildImageParts(OrElse(prompt, Str("")), NormalisedAnchor(anchorImage, anchorBase64, mimeType))
  {
    if !Truthy(prompt) && !Truthy(anchorBase64) then Err(RequiredMessage)
    else BuildImageParts(OrElse(prompt, Str("")), NormalisedAnchor(anchorImage, anchorBase64, mimeType))
  }

  /** What the route does with a request, over every input: it refuses a
      request with neither a prompt nor a base64 anchor, and one whose prompt
      is truthy but not a string (`prompt.trim()` throws); otherwise it sends
      an image part exactly when an anchor object with data or a base64 anchor
      came, and ends with the prefixed prompt when the prompt is a string with
      a character other than white space, the reference instruction if not. */
  lemma GenerateOutcome(prompt: Option<Value>, anchorImage: Option<Value>, anchorBase64: Option<Value>, mimeType: Option<Value>)
    ensures var r := GenerateParts(prompt, anchorImage, anchorBase64, mimeType);
            r.Err? <==> (!Truthy(prompt) && !Truthy(anchorBase64)) || (Truthy(prompt) && !prompt.value.Str?)
    ensures var r := GenerateParts(prompt, anchorImage, anchorBase64, mimeType);
            r.Ok? ==> (|r.value| == 2 <==> Truthy(Prop(anchorImage, "data")) || Truthy(anchorBase64))
    ensures var r := GenerateParts(prompt, anchorImage, anchorBase64, mimeType);
            r.Ok? ==>
              TextOf(r.value[|r.value| - 1]) ==
                (if prompt.Some? && prompt.value.Str? && exists i :: 0 <= i < |prompt.value.s| && !IsSpace(prompt.value.s[i])
                 then Some(Str(PromptPrefix + prompt.value.s))
                 else Some(Str(ReferenceText)))
  {
    var p := OrElse(prompt, Str(""));
    if Truthy(prompt) || Truthy(anchorBase64) {
      if TextPart(p).Ok? {
        AnchorSent(p, anchorImage, anchorBase64, mimeType);
        if p.Str? {
          PromptUsed(p.s);
        } else {
          NoPromptReference(p);
        }
      }
    }
  }

  /** An anchor object alone does not get past the route's request test: without a prompt or
      a base64 anchor the request is refused even when the object has data. */
  lemma AnchorObjectAlone(anchorImage: Option<Value>, mimeType: Option<Value>)
    ensures GenerateParts(None, anchorImage, None, mimeType) == Err(RequiredMessage)
  {
  }

  /** A request that passes that test and has no prompt asks for an image
      from the base64 anchor alone: the image part, then the reference
      instruction. */
  lemma AnchorOnlyRequest(anchorImage: Option<Value>, anchorBase64: Option<Value>, mimeType: Option<Value>)
    requires Truthy(anchorBase64)
    ensures var r := GenerateParts(None, anchorImage, anchorBase64, mimeType);
            r.Ok? && |r.value| == 2 && TextOf(r.value[1]) == Some(Str(ReferenceText))
  {
    AnchorSent(Str(""), anchorImage, anchorBase64, mimeType);
    NoPromptReference(Str(""));
  }
}
