/**
 DXF code pairs: one integer group code plus a typed payload, the errors the
 entity engine reports, and the small numeric conversions the engine performs
 on payloads (Rust `as` casts and flag bits).
 */
module CodePairs {

  /** A 64-bit float payload. The engine only copies and compares these values,
      so the model keeps them opaque: no arithmetic is ever done on them. NaN
      and negative zero are not represented. */
  datatype F64 = F64(value: real)

  function Zero(): F64 { F64(0.0) }
  function One(): F64 { F64(1.0) }

  type I16 = x: int | -0x8000 <= x < 0x8000
  type I32 = x: int | -0x8000_0000 <= x < 0x8000_0000
  type I64 = x: int | -0x8000_0000_0000_0000 <= x < 0x8000_0000_0000_0000

  /** Unsigned 32-bit word (Rust `u32`). */
  type U32 = x: int | 0 <= x < 0x1_0000_0000

  /** A cross-reference handle; handle 0 is the empty handle. */
  datatype Handle = Handle(id: nat)

  function EmptyHandle(): Handle { Handle(0) }

  datatype Value =
    | Str(str: string)
    | Double(f64: F64)
    | Short(i16: I16)
    | Integer(i32: I32)
    | Long(i64: I64)
    | Boolean(flag: bool)
    | Binary(bytes: seq<bv8>)
    | HandleRef(handle: Handle)

  /** One record of the stream; `offset` is its position in the source text,
      kept only for diagnostics. */
  datatype CodePair = CodePair(code: int, value: Value, offset: nat)

  datatype DxfError =
    | UnexpectedCodePair(pair: CodePair, message: string)
    | UnexpectedEndOfInput
    | UnexpectedEnumValue(offset: nat)
    | UnexpectedEmptySet
    | WrongValueType(offset: nat)

  datatype Option<+T> = None | Some(value: T)

  /** `DxfResult<T>`; failure-compatible so that `:-` plays the part of Rust's `?`. */
  datatype Result<+T> = Ok(value: T) | Err(error: DxfError) {
    predicate IsFailure() { Err? }
    function PropagateFailure<U>(): Result<U>
      requires Err?
    {
      Err(error)
    }
    function Extract(): T
      requires Ok?
    {
      value
    }
  }

  /** What the tokenizer hands to the stream: a pair or a read error. */
  type Item = Result<CodePair>

  /** Code 0 starts an entity and carries its type name. */
  predicate IsTag(item: Item) {
    item.Ok? && item.value.code == 0
  }

  // Pair constructors, as written by the encoder (offsets are irrelevant on output).

  function StrPair(code: int, s: string): CodePair { CodePair(code, Str(s), 0) }
  function F64Pair(code: int, f: F64): CodePair { CodePair(code, Double(f), 0) }
  function I16Pair(code: int, i: I16): CodePair { CodePair(code, Short(i), 0) }
  function I32Pair(code: int, i: I32): CodePair { CodePair(code, Integer(i), 0) }

  // Typed payload accessors: a payload of the wrong type is a type-mismatch error
  // located at the pair's offset.

  function AssertString(p: CodePair): (r: Result<string>)
    ensures r.Ok? <==> p.value.Str?
    ensures r.Ok? ==> r.value == p.value.str
    ensures r.Err? ==> r.error == WrongValueType(p.offset)
  {
    if p.value.Str? then Ok(p.value.str) else Err(WrongValueType(p.offset))
  }

  function AssertF64(p: CodePair): (r: Result<F64>)
    ensures r.Ok? <==> p.value.Double?
    ensures r.Ok? ==> r.value == p.value.f64
    ensures r.Err? ==> r.error == WrongValueType(p.offset)
  {
    if p.value.Double? then Ok(p.value.f64) else Err(WrongValueType(p.offset))
  }

  function AssertI16(p: CodePair): (r: Result<I16>)
    ensures r.Ok? <==> p.value.Short?
    ensures r.Ok? ==> r.value == p.value.i16
    ensures r.Err? ==> r.error == WrongValueType(p.offset)
  {
    if p.value.Short? then Ok(p.value.i16) else Err(WrongValueType(p.offset))
  }

  function AssertI32(p: CodePair): (r: Result<I32>)
    ensures r.Ok? <==> p.value.Integer?
    ensures r.Ok? ==> r.value == p.value.i32
    ensures r.Err? ==> r.error == WrongValueType(p.offset)
  {
    if p.value.Integer? then Ok(p.value.i32) else Err(WrongValueType(p.offset))
  }

  /** Boolean flags travel as 16-bit integers: 1 means true. */
  function AsBool(v: I16): bool { v == 1 }

  function BoolAsI16(b: bool): (r: I16)
    ensures AsBool(r) == b
  {
    if b then 1 else 0
  }

  /** Rust `x as i16` on a wider integer: keeps the low 16 bits. */
  function WrapI16(x: int): (r: I16)
    ensures -0x8000 <= x < 0x8000 ==> r == x
    ensures (r - x) % 0x1_0000 == 0
  {
    var m := x % 0x1_0000;
    if m >= 0x8000 then m - 0x1_0000 else m
  }

  /** Rust `f as i32`: truncation toward zero, saturating at the i32 bounds. */
  function F64ToI32(f: F64): (r: I32)
    ensures 0.0 <= f.value < 0x8000_0000 as real ==> r as real <= f.value < r as real + 1.0
    ensures -(0x8000_0000 as real) < f.value <= 0.0 ==> r as real - 1.0 < f.value <= r as real
    ensures f.value >= 0x8000_0000 as real ==> r == 0x7FFF_FFFF
    ensures f.value <= -(0x8000_0000 as real) ==> r == -0x8000_0000
  {
    var t := if f.value >= 0.0 then f.value.Floor else -((-f.value).Floor);
    if t > 0x7FFF_FFFF then 0x7FFF_FFFF
    else if t < -0x8000_0000 then -0x8000_0000
    else t
  }
}
