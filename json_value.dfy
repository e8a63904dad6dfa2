/** Values as Python's json module hands them to the protocol layer, the bytes
    they travel as, and the json library itself, which this model treats as an
    abstract codec: `dumps` and `loads` are parameters, and the only thing the
    protocol relies on is that a well-behaved codec round-trips what it accepts.
 */
module JsonValue {

  newtype byte = x: int | 0 <= x < 256

  /** A Python 2 byte string: what is written to and read from a socket. */
  type Bytes = seq<byte>

  /** A decoded JSON document. Floats are not modelled. */
  datatype Json =
    | Null
    | Bool(b: bool)
    | Int(i: int)
    | Str(s: string)
    | Arr(items: seq<Json>)
    | Obj(fields: map<string, Json>)

  /** What `json.dumps` / `json.loads` give back: a value, or a ValueError with its text. */
  datatype Coded<T> = Done(value: T) | ValueError(message: string)

  /** The json library as seen through `json.dumps` and `json.loads`. */
  datatype Codec = Codec(dumps: Json -> Coded<Bytes>, loads: Bytes -> Coded<Json>)

  /** A codec that encodes every value to a non-empty text and decodes that text
      back to the same value (a JSON text is never empty). */
  ghost predicate Lossless(c: Codec)
  {
    forall v {:trigger c.dumps(v)} ::
      && c.dumps(v).Done?
      && c.dumps(v).value != []
      && c.loads(c.dumps(v).value) == Done(v)
  }
}
