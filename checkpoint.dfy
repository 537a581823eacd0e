/** The checkpoint payload stored in the coordination store: a versioned
    `format=json;` header followed by the serialized position, with a legacy
    fallback for payloads written without the header. Buffers are modelled as
    the strings they hold (`Buffer.from` and `toString("utf8")` are identities
    here). */
module Checkpoint {
  import opened Wrappers
  import opened Text
  import opened Json

  /** `FORMAT_HEADER` */
  const FormatHeader: string := "format=json;"

  /** The value `getLastPosition` resolves to: a parsed JSON value, or the raw
      legacy buffer. JavaScript's `null` is `Parsed(JNull)`, so a stored
      `null` and "no usable position" look alike, as they do in the source. */
  datatype Fetched = Parsed(value: Json) | Raw(data: string)

  /** `null`: no position. */
  const NoPosition: Fetched := Parsed(JNull)

  /** The node value `savePosition` writes for `position`. */
  function Encode(position: Json): (payload: string)
    ensures StartsWith(payload, FormatHeader)
  {
    FormatHeader + Serialize(position)
  }

  /** What a node's data decodes to. `None` is node data that is not a
      buffer; a header whose remainder does not parse gives `null` (the parse
      error is caught and logged); data without the header is returned as it
      is. */
  function Decode(data: Option<string>): (position: Fetched)
    ensures position.Raw? <==> data.Some? && !StartsWith(data.value, FormatHeader)
    ensures position.Raw? ==> data == Some(position.data)
  {
    match data
    case None => NoPosition
    case Some(value) =>
      if StartsWith(value, FormatHeader) then
        match Parse(value[|FormatHeader|..])
        case Some(j) => Parsed(j)
        case None => NoPosition
      else Raw(value)
  }

  /** Decoding an encoded position gives the position back. */
  lemma DecodeEncode(position: Json)
    ensures Decode(Some(Encode(position))) == Parsed(position)
  {
    var payload := Encode(position);
    assert payload[|FormatHeader|..] == Serialize(position);
    RoundTrip(position);
  }

  /** Legacy payloads without the header come back unchanged. */
  lemma LegacyPassthrough(data: string)
    requires !StartsWith(data, FormatHeader)
    ensures Decode(Some(data)) == Raw(data)
  {
  }

  /** A versioned payload whose remainder is not JSON gives `null`. */
  lemma CorruptIsNoPosition(data: string)
    requires StartsWith(data, FormatHeader) && Parse(data[|FormatHeader|..]).None?
    ensures Decode(Some(data)) == NoPosition
  {
  }
}
