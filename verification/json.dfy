/** The values a session or a request body holds (Go's `any` after a JSON
    round trip) and an abstract codec standing for encoding/json.

    Encoding is modelled as tagging the document rather than producing text:
    what matters to the session store is that Marshal fails on values JSON
    cannot represent, that Unmarshal fails on text that is not a JSON object,
    and that decoding an encoded document gives it back. */
module Json {
  import opened Wrappers

  datatype Value =
    | Null
    | Bool(b: bool)
    | Num(n: int)
    | Str(s: string)
    | List(items: seq<Value>)
    | Obj(fields: map<string, Value>)
      /** A Go value json.Marshal rejects (a func, a channel, a complex number). */
    | Unsupported

  /** A JSON object: `map[string]any`. */
  type Doc = map<string, Value>

  /** What a store holds: the bytes json.Marshal produced for a document, or
      any other text. */
  datatype Blob = Encoded(doc: Doc) | Malformed(text: string)

  const UnsupportedValueError := "json: unsupported value"
  const SyntaxError := "invalid character looking for beginning of value"

  /** True when json.Marshal accepts `v`: no part of it is Unsupported. */
  predicate Encodable(v: Value)
  {
    match v
    case Unsupported => false
    case List(items) => forall i :: 0 <= i < |items| ==> Encodable(items[i])
    case Obj(fields) => forall k :: k in fields ==> Encodable(fields[k])
    case _ => true
  }

  predicate EncodableDoc(d: Doc)
  {
    forall k :: k in d ==> Encodable(d[k])
  }

  /** json.Marshal of a document. */
  function Encode(d: Doc): (r: Result<Blob, string>)
    ensures r.Success? <==> EncodableDoc(d)
    ensures r.Failure? ==> r.error == UnsupportedValueError
  {
    if EncodableDoc(d) then Success(Encoded(d)) else Failure(UnsupportedValueError)
  }

  /** json.Unmarshal into a map. */
  function Decode(b: Blob): (r: Result<Doc, string>)
    ensures r.Success? <==> b.Encoded?
  {
    match b
    case Encoded(d) => Success(d)
    case Malformed(_) => Failure(SyntaxError)
  }

  /** Decoding what was encoded gives the document back. The law holds by
      construction, as an encoded blob carries its document. */
  lemma {:induction false} DecodeEncode(d: Doc)
    requires EncodableDoc(d)
    ensures Encode(d).Success? && Decode(Encode(d).value) == Success(d)
  {
  }

  /** Storing an encodable value in an encodable document keeps it
      encodable. */
  lemma {:induction false} EncodableUpdate(d: Doc, k: string, v: Value)
    requires EncodableDoc(d) && Encodable(v)
    ensures EncodableDoc(d[k := v])
  {
  }
}
