/**
 * The dynamically typed `interface{}` values that flow through the spy,
 * as a closed tagged union. Each Go kind that the matchers or the typed
 * accessors distinguish is its own variant, so "an int 1" and "an int64 1"
 * are different values.
 */
module Values {

  /** Go's fixed-width integer ranges (Go `int` and `uint` are taken as 64-bit). */
  type Int32 = x: int | -0x8000_0000 <= x < 0x8000_0000
  type Int64 = x: int | -0x8000_0000_0000_0000 <= x < 0x8000_0000_0000_0000
  type Uint64 = x: int | 0 <= x < 0x1_0000_0000_0000_0000

  /** A mutable variable that a Go pointer argument points at. */
  class Cell {
    var value: Value

    constructor (v: Value)
      ensures value == v
    {
      value := v;
    }
  }

  /**
   * `Nil` is the nil interface value. `Ptr(null)` is a typed nil pointer,
   * which in Go is a non-nil interface value. `Error(msg)` is a non-nil
   * `error`; `Opaque` stands for every other kind (structs, functions, ...).
   */
  datatype Value =
    | Nil
    | Bool(b: bool)
    | Str(s: string)
    | Int(i: Int64)
    | Int32(i32: Int32)
    | Int64(i64: Int64)
    | Uint(u: Uint64)
    | Uint64(u64: Uint64)
    | Ptr(cell: Cell?)
    | Error(msg: string)
    | Opaque(id: nat)

  /** The dynamic type of a value, as a Go type assertion `a.(T)` inspects it. */
  datatype Kind =
    | NilKind | BoolKind | StringKind | IntKind | Int32Kind | Int64Kind
    | UintKind | Uint64Kind | PtrKind | ErrorKind | OpaqueKind

  function KindOf(v: Value): Kind {
    match v
    case Nil => NilKind
    case Bool(_) => BoolKind
    case Str(_) => StringKind
    case Int(_) => IntKind
    case Int32(_) => Int32Kind
    case Int64(_) => Int64Kind
    case Uint(_) => UintKind
    case Uint64(_) => Uint64Kind
    case Ptr(_) => PtrKind
    case Error(_) => ErrorKind
    case Opaque(_) => OpaqueKind
  }
}
