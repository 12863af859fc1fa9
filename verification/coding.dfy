/** Swift `Codable` keyed containers, as far as the model's codecs use them: every key holds
    one typed value, and decoding a key fails when it is missing, null or of another type. */
module Coding {
  import opened Wrappers
  import opened Tensors

  /** The value stored under one key. `Float` and `Double` share `FloatValue`; a CGImage's
      base64 PNG text is kept opaque as the image it came from. */
  datatype Value =
    | IntValue(i: int)
    | FloatValue(f: real)
    | StringValue(s: string)
    | SizeValue(width: int, height: int)
    | FloatsValue(floats: seq<real>)
    | BytesValue(bytes: seq<Byte>)
    | PngValue(image: nat)
    | NullValue

  /** A keyed container: coding-key raw value to encoded value. */
  type Container = map<string, Value>

  /** `DecodingError` cases a keyed decode can throw. */
  datatype DecodingError =
    | KeyNotFound(key: string)
    | ValueNotFound(key: string)
    | TypeMismatch(key: string)
    | DataCorrupted(key: string)

  /** The non-null value under `key`. */
  function Lookup(c: Container, key: string): (r: Result<Value, DecodingError>)
    ensures r.Success? <==> key in c && c[key] != NullValue
    ensures r.Success? ==> r.value == c[key]
  {
    if key !in c then Failure(KeyNotFound(key))
    else if c[key] == NullValue then Failure(ValueNotFound(key))
    else Success(c[key])
  }

  function DecodeInt(c: Container, key: string): (r: Result<int, DecodingError>)
    ensures r.Success? <==> key in c && c[key].IntValue?
    ensures r.Success? ==> c[key] == IntValue(r.value)
  {
    var v :- Lookup(c, key);
    if v.IntValue? then Success(v.i) else Failure(TypeMismatch(key))
  }

  function DecodeFloat(c: Container, key: string): (r: Result<real, DecodingError>)
    ensures r.Success? <==> key in c && c[key].FloatValue?
    ensures r.Success? ==> c[key] == FloatValue(r.value)
  {
    var v :- Lookup(c, key);
    if v.FloatValue? then Success(v.f) else Failure(TypeMismatch(key))
  }

  function DecodeString(c: Container, key: string): (r: Result<string, DecodingError>)
    ensures r.Success? <==> key in c && c[key].StringValue?
    ensures r.Success? ==> c[key] == StringValue(r.value)
  {
    var v :- Lookup(c, key);
    if v.StringValue? then Success(v.s) else Failure(TypeMismatch(key))
  }

  /** A `CGSize`, returned as its (width, height). */
  function DecodeSize(c: Container, key: string): (r: Result<(int, int), DecodingError>)
    ensures r.Success? <==> key in c && c[key].SizeValue?
    ensures r.Success? ==> c[key] == SizeValue(r.value.0, r.value.1)
  {
    var v :- Lookup(c, key);
    if v.SizeValue? then Success((v.width, v.height)) else Failure(TypeMismatch(key))
  }

  function DecodeFloats(c: Container, key: string): (r: Result<seq<real>, DecodingError>)
    ensures r.Success? <==> key in c && c[key].FloatsValue?
    ensures r.Success? ==> c[key] == FloatsValue(r.value)
  {
    var v :- Lookup(c, key);
    if v.FloatsValue? then Success(v.floats) else Failure(TypeMismatch(key))
  }

  function DecodeBytes(c: Container, key: string): (r: Result<seq<Byte>, DecodingError>)
    ensures r.Success? <==> key in c && c[key].BytesValue?
    ensures r.Success? ==> c[key] == BytesValue(r.value)
  {
    var v :- Lookup(c, key);
    if v.BytesValue? then Success(v.bytes) else Failure(TypeMismatch(key))
  }

  function DecodePng(c: Container, key: string): (r: Result<nat, DecodingError>)
    ensures r.Success? <==> key in c && c[key].PngValue?
    ensures r.Success? ==> c[key] == PngValue(r.value)
  {
    var v :- Lookup(c, key);
    if v.PngValue? then Success(v.image) else Failure(TypeMismatch(key))
  }
}
