/** The value union stored in columns, the column type tags, and the error
    kinds that the engine's panics are modelled by. */
module Values {

  datatype Option<T> = None | Some(value: T)

  const MinI32: int := -0x8000_0000
  const MaxI32: int := 0x7fff_ffff

  /** A value of Rust's `i32`. */
  type Int32 = x: int | MinI32 <= x <= MaxI32

  /** The closed value union of the engine (`TYPES`). The counter of a
      `Serial` cell is kept unbounded: i32 wrap-around is not modelled. */
  datatype Value =
    | Serial(counter: int)
    | I32(number: Int32)
    | String(text: string)
    | Uidv4(uuid: string)

  /** The declared type of a column; the source keeps it as one of four
      type tags. */
  datatype Kind = StringKind | IntKind | SerialKind | UuidKind

  /** The type tag a column of kind `k` is created with. */
  function KindTag(k: Kind): (tag: string)
    ensures ParseKind(tag) == Some(k)
  {
    match k
    case StringKind => "string"
    case IntKind => "int"
    case SerialKind => "serial"
    case UuidKind => "uuid_v4"
  }

  /** The match on the type tag in `Column::new`: exactly four tags are
      recognised, any other one is refused. */
  function ParseKind(tag: string): (r: Option<Kind>)
    ensures r.Some? <==> (tag == "string" || tag == "int" || tag == "serial" || tag == "uuid_v4")
  {
    if tag == "string" then Some(StringKind)
    else if tag == "int" then Some(IntKind)
    else if tag == "serial" then Some(SerialKind)
    else if tag == "uuid_v4" then Some(UuidKind)
    else None
  }

  /** The tag of a recognised kind is the tag it was parsed from. */
  lemma ParseKindInverse(tag: string)
    requires ParseKind(tag).Some?
    ensures KindTag(ParseKind(tag).value) == tag
  {
  }

  /** Each `panic!` of the engine becomes one of these error kinds. */
  datatype Error =
    | UnsupportedType       // an unknown column type tag
    | IndexOutOfBounds      // a row or cell index at or past the end
    | RowLengthMismatch     // a row whose arity is not the column count
    | ColumnNotFound        // no column has the requested name
    | PrimaryKeyAlreadySet  // a second primary key was requested
    | InvalidInteger        // an `int` text cell that does not parse

  /** The result of an operation that changes state and returns nothing. */
  datatype Outcome = Ok | Fail(error: Error)

  /** The result of an operation that produces a value. */
  datatype Result<T> = Success(value: T) | Failure(error: Error)
}
