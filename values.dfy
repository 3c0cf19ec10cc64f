/**
 * The Python values that flow through the pipeline: environ values, header
 * values, decoded JSON and the handler's result, with Python's truthiness
 * written out as a predicate.
 */
module Values {
  newtype byte = x: int | 0 <= x < 256

  /**
   * A Python value. `Decimal` is a float held as its decimal spelling
   * (sign, digits before and after the point) rather than as a real number;
   * `Bytes` stands for both `bytes` and `bytearray`.
   */
  datatype Value =
    | Null                                   // None
    | Bytes(bytes: seq<byte>)
    | Str(s: string)
    | Bool(b: bool)
    | Int(i: int)
    | Decimal(negative: bool, whole: string, frac: string)
    | List(items: seq<Value>)
    | Dict(entries: seq<(Value, Value)>)

  predicate AllZeros(s: string) { forall i :: 0 <= i < |s| ==> s[i] == '0' }

  /** `bool(v)`: None, empty containers, False, 0 and 0.0 are falsy, everything else is truthy. */
  predicate Truthy(v: Value) {
    match v
    case Null => false
    case Bytes(b) => |b| > 0
    case Str(s) => |s| > 0
    case Bool(b) => b
    case Int(i) => i != 0
    case Decimal(_, whole, frac) => !(AllZeros(whole) && AllZeros(frac))
    case List(items) => |items| > 0
    case Dict(entries) => |entries| > 0
  }

  /** A number below zero: the only values `max(v, 0)` replaces by 0. */
  predicate IsNegative(v: Value) {
    (v.Int? && v.i < 0) || (v.Decimal? && v.negative && Truthy(v))
  }
}
