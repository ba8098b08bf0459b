/** Destination kinds (Go's `reflect.Kind`) and the values a field can hold. */
module Kinds {

  datatype Kind =
    | Invalid | Bool
    | Int | Int8 | Int16 | Int32 | Int64
    | Uint | Uint8 | Uint16 | Uint32 | Uint64 | Uintptr
    | Float32 | Float64 | Complex64 | Complex128
    | Array | Chan | Func | Interface | Map | Pointer | Slice | String | Struct | UnsafePointer

  /** The text `Kind.String()` gives for each kind (a 64-bit platform is assumed). */
  function Name(k: Kind): string
  {
    match k
    case Invalid => "invalid"
    case Bool => "bool"
    case Int => "int"
    case Int8 => "int8"
    case Int16 => "int16"
    case Int32 => "int32"
    case Int64 => "int64"
    case Uint => "uint"
    case Uint8 => "uint8"
    case Uint16 => "uint16"
    case Uint32 => "uint32"
    case Uint64 => "uint64"
    case Uintptr => "uintptr"
    case Float32 => "float32"
    case Float64 => "float64"
    case Complex64 => "complex64"
    case Complex128 => "complex128"
    case Array => "array"
    case Chan => "chan"
    case Func => "func"
    case Interface => "interface"
    case Map => "map"
    case Pointer => "ptr"
    case Slice => "slice"
    case String => "string"
    case Struct => "struct"
    case UnsafePointer => "unsafe.Pointer"
  }

  predicate IsSigned(k: Kind) { k in {Int, Int8, Int16, Int32, Int64} }
  predicate IsUnsigned(k: Kind) { k in {Uint, Uint8, Uint16, Uint32, Uint64, Uintptr} }
  predicate IsFloat(k: Kind) { k in {Float32, Float64} }
  predicate IsComplex(k: Kind) { k in {Complex64, Complex128} }

  /** Width in bits of an integer kind (`int`, `uint` and `uintptr` are 64 bits wide). */
  function Bits(k: Kind): (b: nat)
    requires IsSigned(k) || IsUnsigned(k)
    ensures b in {8, 16, 32, 64}
  {
    if k in {Int8, Uint8} then 8
    else if k in {Int16, Uint16} then 16
    else if k in {Int32, Uint32} then 32
    else 64
  }

  function Pow2(b: nat): (p: nat)
    ensures p > 0
  {
    if b == 0 then 1 else 2 * Pow2(b - 1)
  }

  lemma {:induction false} Pow2Add(a: nat, b: nat)
    ensures Pow2(a + b) == Pow2(a) * Pow2(b)
    decreases a
  {
    if a > 0 {
      Pow2Add(a - 1, b);
    }
  }

  /** The powers of two at the integer widths. */
  lemma Pow2Widths()
    ensures Pow2(7) == 0x80 && Pow2(8) == 0x100
    ensures Pow2(15) == 0x8000 && Pow2(16) == 0x1_0000
    ensures Pow2(31) == 0x8000_0000 && Pow2(32) == 0x1_0000_0000
    ensures Pow2(63) == 0x8000_0000_0000_0000 && Pow2(64) == 0x1_0000_0000_0000_0000
  {
    assert Pow2(8) == 0x100;
    Pow2Add(8, 8);
    Pow2Add(16, 16);
    Pow2Add(32, 32);
  }

  /** Two's-complement truncation of `x` to a signed `b`-bit integer, as Go's conversions do. */
  function WrapSigned(x: int, b: nat): (r: int)
    requires b > 0
    ensures -(Pow2(b - 1) as int) <= r < Pow2(b - 1)
    ensures -(Pow2(b - 1) as int) <= x < Pow2(b - 1) ==> r == x
  {
    var half := Pow2(b - 1);
    ModBounds(x + half, 2 * half);
    (x + half) % (2 * half) - half
  }

  /** Truncation of `x` to an unsigned `b`-bit integer. */
  function WrapUnsigned(x: int, b: nat): (r: nat)
    ensures r < Pow2(b)
    ensures 0 <= x < Pow2(b) ==> r == x
  {
    ModBounds(x, Pow2(b));
    x % Pow2(b)
  }

  lemma ModBounds(x: int, m: int)
    requires m > 0
    ensures 0 <= x % m < m
    ensures 0 <= x < m ==> x % m == x
  {
  }

  /** A float64 (precision is not modelled; non-finite values are kept apart). */
  datatype Float = Num(x: real) | NaN | PosInf | NegInf

  /** The content of a scalar field; `Unset` is the state a field has before anything is written. */
  datatype Value =
    | Unset
    | IntV(i: int)
    | UintV(u: nat)
    | FloatV(f: Float)
    | ComplexV(re: Float, im: Float)
    | StrV(s: string)
    | BoolV(b: bool)

  /** `x` is a value a field of kind `k` can hold: of the kind's own sort and, for an integer
      kind, within its width. `Unset` fits no kind. */
  predicate Fits(k: Kind, x: Value)
  {
    match x
    case Unset => false
    case IntV(i) => IsSigned(k) && -(Pow2(Bits(k) - 1) as int) <= i < Pow2(Bits(k) - 1)
    case UintV(u) => IsUnsigned(k) && u < Pow2(Bits(k))
    case FloatV(_) => IsFloat(k)
    case ComplexV(_, _) => IsComplex(k)
    case StrV(_) => k == String
    case BoolV(_) => k == Bool
  }
}
