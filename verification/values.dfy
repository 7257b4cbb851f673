/** The Go vocabulary the logger is written in: bytes, optional values,
    errors, dynamically typed values and the (count, error) pair that every
    Logger returns. */
module Values {

  /** A Go `byte`. */
  newtype byte = x: int | 0 <= x < 256

  datatype Option<T> = None | Some(value: T)

  /** A Go `(T, error)` pair where exactly one side is meaningful. */
  datatype Result<T> = Ok(value: T) | Fail(error: GoError)

  /** A Go `error`. Free-form errors carry their text; the error `basic.Log`
      builds for a non-2xx response keeps the three values it formats. */
  datatype GoError =
    | Text(text: string)
    | BadStatus(status: int, endpoint: string, body: seq<byte>)

  /** What `encoding/json` decodes into an `interface{}`: nil, bool, float64,
      string, []interface{} and map[string]interface{}. */
  datatype Json =
    | Null
    | Bool(b: bool)
    | Num(n: real)
    | Str(s: string)
    | Arr(items: seq<Json>)
    | Obj(fields: map<string, Json>)

  /** A Go `interface{}` value. `Plain(Null)` is the nil interface and
      `Plain(Str(s))` a Go string; `Custom` is a value of a user-defined type
      (a struct, possibly with a `String` method), known only by identity:
      how it encodes and prints is up to the marshal and sprint collaborators. */
  datatype Value = Plain(j: Json) | Custom(id: nat)

  const Nil: Value := Plain(Null)

  /** The `(int, error)` pair returned by `Logger.Log` and `io.Writer.Write`. */
  datatype Reply = Reply(n: int, err: Option<GoError>)

  /** Go's `string(p)`: a Go string holds the bytes unchanged; here each byte
      becomes the character with the same code. */
  function BytesToString(b: seq<byte>): (s: string)
    ensures |s| == |b|
    ensures forall i :: 0 <= i < |b| ==> s[i] as int == b[i] as int
  {
    if b == [] then "" else [b[0] as int as char] + BytesToString(b[1..])
  }

  /** Every character of `s` fits in one byte. */
  predicate IsByteString(s: string) {
    forall i :: 0 <= i < |s| ==> s[i] as int < 256
  }

  /** Go's `[]byte(s)` for a string whose characters are single bytes. */
  function StringToBytes(s: string): (b: seq<byte>)
    requires IsByteString(s)
    ensures |b| == |s|
    ensures forall i :: 0 <= i < |s| ==> b[i] as int == s[i] as int
  {
    if s == "" then [] else [s[0] as int as byte] + StringToBytes(s[1..])
  }

  /** `string(p)` loses nothing: converting back gives the same bytes. */
  lemma BytesStringRoundTrip(b: seq<byte>)
    ensures IsByteString(BytesToString(b))
    ensures StringToBytes(BytesToString(b)) == b
  {
  }

  lemma StringBytesRoundTrip(s: string)
    requires IsByteString(s)
    ensures BytesToString(StringToBytes(s)) == s
  {
  }
}
