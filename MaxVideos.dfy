/**
 * The `maxVideos` clamp shared by the channel route of server/index.js and
 * the input field of src/components/YouTubeChannelDownload.js:
 * `Math.min(Math.max(1, parseInt(x, 10) || 10), 100)`.
 */
module MaxVideos {
  import opened Wrappers
  import opened JsText
  import opened JsValues

  /** The clamp applied to what `parseInt` read (`None` is NaN). */
  function ClampMax(n: Option<int>): (m: int)
    ensures 1 <= m <= 100
    ensures n.None? || n == Some(0) ==> m == 10
    ensures n.Some? && n.value < 0 ==> m == 1
    ensures n.Some? && 1 <= n.value <= 100 ==> m == n.value
    ensures n.Some? && n.value > 100 ==> m == 100
  {
    var x := if n.None? || n.value == 0 then 10 else n.value;
    if x < 1 then 1 else if x > 100 then 100 else x
  }

  /** The server's `max` from the request body's `maxVideos`. */
  function RequestMax(maxVideos: Option<Value>): (m: int)
    ensures 1 <= m <= 100
  {
    ClampMax(ParseIntOf(maxVideos))
  }

  /** The client's `maxVideos` from the text of the number input. */
  function InputMax(input: string): (m: int)
    ensures 1 <= m <= 100
  {
    ClampMax(ParseIntPrefix(input))
  }

  /** A missing `maxVideos` reads as the text "undefined", which is NaN, and
      so gives 10. */
  lemma MissingGivesDefault()
    ensures RequestMax(None) == 10
  {
    LetterNoNumber(StringOf(None));
  }

  /** A number already in range is kept, and so is its decimal spelling in
      the input field. */
  lemma InRangeKept(n: int)
    requires 1 <= n <= 100
    ensures RequestMax(Some(Num(n))) == n
    ensures InputMax(IntToString(n)) == n
  {
    ParseFloatOfNumber(n);
    ParseIntOfIntToString(n);
  }

  /** The client and the server clamp the same text to the same number. */
  lemma ClientServerAgree(input: string)
    ensures RequestMax(Some(Str(input))) == InputMax(input)
  {
  }

  /** Clamping is idempotent: a clamped value sent back is kept. */
  lemma ClampIdempotent(n: Option<int>)
    ensures ClampMax(Some(ClampMax(n))) == ClampMax(n)
  {
  }
}
