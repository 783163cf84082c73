/**
 * The JavaScript values that cross the core's boundary: payloads handed to
 * `send`, `_data` and the event handlers, and the fields of an options record.
 */
module JsValues {

  newtype byte = x: int | 0 <= x < 256

  /** The contents of a Node `Buffer`. */
  type Bytes = seq<byte>

  /**
   * A JavaScript value, as far as the core inspects it.
   * `Null` stands for both `null` and `undefined`: every test the core makes
   * (truthiness, `typeof`, `instanceof Buffer`) treats the two alike.
   * `Bytes` is a `Buffer` instance, `ErrorObj` an `Error` with its `message`
   * property, `Ref` an object whose identity the model tracks (a client handed
   * to a handler), `Other` any other object (a plain object, an array, a function).
   */
  datatype JsValue =
    | Null
    | Bool(b: bool)
    | Num(n: int)
    | Str(s: string)
    | Bytes(data: Bytes)
    | ErrorObj(message: JsValue)
    | Other
    | Ref(obj: object)

  /** JavaScript truthiness: `null`, `false`, `0` and `""` are falsy, every object is truthy. */
  predicate Truthy(v: JsValue)
  {
    match v
    case Null => false
    case Bool(b) => b
    case Num(n) => n != 0
    case Str(s) => s != ""
    case _ => true
  }

  /** The value of the property access `v.message` (`undefined` unless `v` is an `Error`). */
  function MessageOf(v: JsValue): JsValue
  {
    if v.ErrorObj? then v.message else Null
  }

  /** The UTF-8 encoding of one Unicode scalar value. */
  function EncodeChar(c: char): (r: Bytes)
    ensures 1 <= |r| <= 4
    ensures (c as int < 0x80) <==> |r| == 1
    ensures c as int < 0x80 ==> r[0] as int == c as int
  {
    var n := c as int;
    if n < 0x80 then
      [n as byte]
    else if n < 0x800 then
      [(0xC0 + n / 64) as byte, (0x80 + n % 64) as byte]
    else if n < 0x1_0000 then
      [(0xE0 + n / 4096) as byte, (0x80 + (n / 64) % 64) as byte, (0x80 + n % 64) as byte]
    else
      [(0xF0 + n / 262144) as byte, (0x80 + (n / 4096) % 64) as byte,
       (0x80 + (n / 64) % 64) as byte, (0x80 + n % 64) as byte]
  }

  /** `Buffer.from(s)`: the UTF-8 encoding of a string, character by character. */
  function Utf8(s: string): (r: Bytes)
    ensures |s| <= |r| <= 4 * |s|
    ensures (forall i :: 0 <= i < |s| ==> s[i] as int < 0x80) ==>
              |r| == |s| && forall i :: 0 <= i < |s| ==> r[i] as int == s[i] as int
  {
    if s == [] then [] else EncodeChar(s[0]) + Utf8(s[1..])
  }
}
