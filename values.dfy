/** The value model shared by every other module: the closed set of shapes a
    decoded configuration tree can hold, the error kinds the accessors report,
    and the two ways a Go call can end (it returns, or it panics). */
module Values {

  datatype Option<+T> = None | Some(value: T)

  /** One value of a decoded document. `Float` is a JSON number (a Go float64,
      modelled as a real), `Int` a native integer as produced by YAML, `Null`
      an explicit null, and `Other` any Go value outside the document model
      (a channel, say). */
  datatype Value =
    | Str(s: string)
    | Bool(b: bool)
    | Float(f: real)
    | Int(i: int)
    | Null
    | Arr(items: seq<Value>)
    | Obj(fields: map<string, Value>)
    | Other

  /** A ConfigNode: one level of the document, keyed by string. */
  type Node = map<string, Value>

  /** The error kinds the library reports; the text of the messages is not
      modelled, except for MissingPathError whose message is part of its type. */
  datatype Error =
    | NilDocument                  // "supplied ConfigNode is nil"
    | NoSuchPath                   // errors.New("No such path …") and friends
    | NotConvertible               // the value is present but has another shape
    | BadElement(index: nat)       // a typed array accessor met a foreign element
    | MissingPath(message: string) // MissingPathError; Error() is `message`
    | UnsupportedKind              // SetField on a field kind it cannot fill
    | EmptyMapArray                // an empty array used as a map value
    | BadMapArray                  // an array whose first element is neither a string nor null, as a map value
    | NotMarshalable               // json.Marshal refused the object
    | NotPopulatable               // json.Unmarshal refused the data (corrected Populate only)

  /** A Go call returning `(T, error)`: `err == None` is a nil error. `Panic`
      is a run-time panic, which the model keeps apart from every error. */
  datatype Outcome<T> = Return(value: T, err: Option<Error>) | Panic {
    predicate Succeeded() { Return? && err.None? }
    predicate Failed() { Return? && err.Some? }
  }

  /** A Go call returning a plain value or panicking. */
  datatype Completion<T> = Normal(value: T) | Panicked

  /** A document held by reference: Go maps are references, so a selector and
      its creator share the same document and see each other's writes. */
  class Document {
    var root: Node

    constructor (root: Node)
      ensures this.root == root
    {
      this.root := root;
    }
  }

  /** Go's `int(f)` for a float64 in range: truncation toward zero. */
  function Trunc(f: real): (i: int)
    ensures 0.0 <= f ==> i as real <= f < i as real + 1.0
    ensures f < 0.0 ==> i as real - 1.0 < f <= i as real
  {
    if 0.0 <= f then f.Floor else -((-f).Floor)
  }

  /** The whole tree holds only serialisable values (no `Other` anywhere). */
  predicate Serializable(v: Value)
  {
    match v
    case Other => false
    case Arr(items) => forall i | 0 <= i < |items| :: Serializable(items[i])
    case Obj(fields) => forall k | k in fields :: Serializable(fields[k])
    case _ => true
  }
}
