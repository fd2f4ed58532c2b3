/**
 * JSON-like values: the field values of a stored document, and the bodies of
 * the HTTP responses built from them.
 */
module Json {
  /** `Bytes` is a stored byte string; `Opaque` stands for the value kinds
      the model never inspects (floats, timestamps, document references,
      geographic points). */
  datatype Value =
    | Null
    | Bool(b: bool)
    | Int(i: int)
    | Str(s: string)
    | Bytes(octets: seq<bv8>)
    | Array(items: seq<Value>)
    | Object(fields: map<string, Value>)
    | Opaque

  /** A document's fields, or a JSON object's members. */
  type Fields = map<string, Value>
}
