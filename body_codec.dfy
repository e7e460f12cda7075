/** The body half of `AbstractRequest`/`AbstractResponse`: `body?`, the
    memoised `event_model_body` (JSON when the body parses, Base64 with
    transfer encoding "base64" when it does not) and
    `event_model_body_transfer_encoding`.

    `JSON.parse` and `Base64.encode64` are library codecs; the model takes
    them as functions fixed when the wrapper is built. */
module BodyCodec {

  import opened Wrappers

  /** A value `JSON.parse` can return. */
  datatype Json =
    | JNull
    | JBool(b: bool)
    | JNumber(n: int)
    | JString(s: string)
    | JArray(items: seq<Json>)
    | JObject(members: seq<(string, Json)>)

  /** What the event carries as its body. */
  datatype EventBody = Parsed(json: Json) | Encoded(base64: string)

  const Base64Encoding: string := "base64"

  /** Ruby truthiness of a decoded body: only a parsed `null` or `false` is
      falsy; a String (the Base64 text) always is truthy. */
  predicate Truthy(v: EventBody) {
    !(v == Parsed(JNull) || v == Parsed(JBool(false)))
  }

  /** `body?`: the body is neither nil nor empty. */
  predicate HasBody(body: Option<string>)
    ensures body.None? ==> !HasBody(body)
    ensures body == Some([]) ==> !HasBody(body)
    ensures body.Some? && |body.value| > 0 ==> HasBody(body)
  {
    body.Some? && body.value != []
  }

  /** What decoding `raw` yields: the parsed JSON, or the Base64 text when
      parsing fails. */
  function Decode(raw: string, parse: string -> Option<Json>, encode64: string -> string): EventBody {
    match parse(raw)
    case Some(j) => Parsed(j)
    case None => Encoded(encode64(raw))
  }

  /** The transfer encoding that goes with `Decode`: unset (nil, never
      "none") for JSON, "base64" otherwise. */
  function EncodingFor(raw: string, parse: string -> Option<Json>): Option<string> {
    if parse(raw).Some? then None else Some(Base64Encoding)
  }

  /** The encoding is set exactly when the event body is Base64 text, and
      that text is the encoding of the raw body. */
  lemma EncodingMatchesBody(raw: string, parse: string -> Option<Json>, encode64: string -> string)
    ensures EncodingFor(raw, parse) == Some(Base64Encoding) <==> Decode(raw, parse, encode64).Encoded?
    ensures EncodingFor(raw, parse).None? <==> parse(raw).Some?
    ensures parse(raw).Some? ==> Decode(raw, parse, encode64) == Parsed(parse(raw).value)
    ensures Decode(raw, parse, encode64).Encoded? ==> Decode(raw, parse, encode64).base64 == encode64(raw)
  {
  }

  /** The instance variables one request or response wrapper keeps for its
      body: `@event_body` (`@event_model_body` on responses) and
      `@event_model_body_transfer_encoding`. */
  class BodyMemo {
    const body: Option<string>
    const parse: string -> Option<Json>
    const encode64: string -> string

    var cached: Option<EventBody>
    var transferEncoding: Option<string>
    /** How many times the codec has run on this wrapper. */
    ghost var decodes: nat

    ghost predicate Valid()
      reads this
    {
      && (cached.Some? ==>
            HasBody(body) && cached.value == Decode(body.value, parse, encode64) && Truthy(cached.value))
      && (transferEncoding.Some? ==> HasBody(body) && transferEncoding == EncodingFor(body.value, parse))
      && (decodes > 0 ==> HasBody(body) && transferEncoding == EncodingFor(body.value, parse))
      && (decodes == 0 ==> cached.None? && transferEncoding.None?)
      // `||=` keeps a truthy value, so such a body is decoded at most once
      && (HasBody(body) && Truthy(Decode(body.value, parse, encode64)) ==> decodes <= 1)
      && (cached.None? && HasBody(body) && Truthy(Decode(body.value, parse, encode64)) ==> decodes == 0)
    }

    constructor (body: Option<string>, parse: string -> Option<Json>, encode64: string -> string)
      ensures Valid()
      ensures this.body == body && this.parse == parse && this.encode64 == encode64
      ensures cached.None? && transferEncoding.None? && decodes == 0
    {
      this.body := body;
      this.parse := parse;
      this.encode64 := encode64;
      cached := None;
      transferEncoding := None;
      decodes := 0;
    }

    /** `event_model_body`: nil without a body; otherwise the cached value,
        or a fresh decode that sets the encoding to "base64" when parsing
        fails. Every call returns the same value. */
    method EventModelBody() returns (r: Option<EventBody>)
      requires Valid()
      modifies this
      ensures Valid()
      ensures r == if HasBody(body) then Some(Decode(body.value, parse, encode64)) else None
      ensures HasBody(body) ==> transferEncoding == EncodingFor(body.value, parse)
      ensures !HasBody(body) ==> transferEncoding.None? && decodes == 0
      ensures decodes == old(decodes) + (if HasBody(body) && old(cached).None? then 1 else 0)
    {
      if !HasBody(body) {
        return None;
      }
      if cached.Some? {
        return cached;
      }
      var v: EventBody;
      match parse(body.value) {
        case Some(j) =>
          v := Parsed(j);
        case None =>
          transferEncoding := Some(Base64Encoding);
          v := Encoded(encode64(body.value));
      }
      decodes := decodes + 1;
      if Truthy(v) {
        cached := Some(v);
      }
      r := Some(v);
    }

    /** `event_model_body_transfer_encoding`: forces the decode first, so the
        encoding always agrees with the body. */
    method EventModelBodyTransferEncoding() returns (e: Option<string>)
      requires Valid()
      modifies this
      ensures Valid()
      ensures e == if HasBody(body) then EncodingFor(body.value, parse) else None
      ensures decodes == old(decodes) + (if HasBody(body) && old(cached).None? then 1 else 0)
    {
      var _ := EventModelBody();
      e := transferEncoding;
    }
  }
}
