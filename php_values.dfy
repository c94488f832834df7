/**
 * The part of PHP's value semantics that the encoded expressions rely on:
 * non-negative integers, byte strings, the float INF, and the conversions
 * the operators `.` (concatenation) and `^` (exclusive or) apply to them.
 */
module PhpValues {

  /** A PHP string is a sequence of bytes. */
  type Byte = b: nat | b < 256

  datatype Option<+T> = None | Some(value: T)

  /** PHP_INT_MAX on a 64-bit build. */
  const PHP_INT_MAX: nat := 0x7FFF_FFFF_FFFF_FFFF

  /** A value an encoded expression can have. Integers never go negative here. */
  datatype Value =
    | Int(n: nat)
    | Str(bytes: seq<Byte>)
    | Inf

  // ---------------------------------------------------------------------------
  // Exclusive or on integers, bit by bit

  /** `a ^ b` on non-negative integers, computed from the lowest bit up. */
  function NatXor(a: nat, b: nat): nat
    decreases a + b
  {
    if a == 0 then b
    else if b == 0 then a
    else 2 * NatXor(a / 2, b / 2) + (if a % 2 == b % 2 then 0 else 1)
  }

  function Pow2(k: nat): (r: nat)
    ensures r >= 1
  {
    if k == 0 then 1 else 2 * Pow2(k - 1)
  }

  /** Exclusive or never sets a bit above the operands' highest bit. */
  lemma {:induction false} NatXorBound(a: nat, b: nat, k: nat)
    requires a < Pow2(k) && b < Pow2(k)
    ensures NatXor(a, b) < Pow2(k)
    decreases k
  {
    if a != 0 && b != 0 {
      NatXorBound(a / 2, b / 2, k - 1);
    }
  }

  lemma {:induction false} NatXorCommutes(a: nat, b: nat)
    ensures NatXor(a, b) == NatXor(b, a)
    decreases a + b
  {
    if a != 0 && b != 0 {
      NatXorCommutes(a / 2, b / 2);
    }
  }

  /** Every integer the encoder's XORs produce stays a PHP integer. */
  lemma PhpIntXor(a: nat, b: nat)
    requires a <= PHP_INT_MAX && b <= PHP_INT_MAX
    ensures NatXor(a, b) <= PHP_INT_MAX
  {
    Pow2At63();
    NatXorBound(a, b, 63);
  }

  /** 2^63 is one more than PHP_INT_MAX. */
  lemma Pow2At63()
    ensures Pow2(63) == PHP_INT_MAX + 1
  {
    var p8 := Pow2(8);
    assert p8 == 0x100;
    Pow2Add(8, 8);
    var p16 := Pow2(16);
    assert p16 == 0x1_0000;
    Pow2Add(16, 16);
    var p32 := Pow2(32);
    assert p32 == 0x1_0000_0000;
    assert Pow2(7) == 0x80;
    Pow2Add(7, 8);
    Pow2Add(15, 16);
    Pow2Add(31, 32);
    assert Pow2(15) == 0x8000;
    assert Pow2(31) == 0x8000_0000;
  }

  lemma {:induction false} Pow2Add(j: nat, k: nat)
    ensures Pow2(j + k) == Pow2(j) * Pow2(k)
    decreases k
  {
    if k > 0 {
      Pow2Add(j, k - 1);
    }
  }

  // ---------------------------------------------------------------------------
  // Decimal strings

  predicate IsDigit(b: Byte) {
    0x30 <= b <= 0x39
  }

  predicate IsDigitString(s: seq<Byte>) {
    |s| > 0 && forall i :: 0 <= i < |s| ==> IsDigit(s[i])
  }

  function DigitValue(b: Byte): (d: nat)
    requires IsDigit(b)
    ensures d < 10
  {
    b - 0x30
  }

  function DigitByte(d: nat): (b: Byte)
    requires d < 10
    ensures IsDigit(b) && DigitValue(b) == d
  {
    d + 0x30
  }

  /** `(string)$n` for a non-negative integer: its decimal digits, most significant first. */
  function DecimalBytes(n: nat): (r: seq<Byte>)
    ensures IsDigitString(r)
    ensures |r| > 1 ==> r[0] != 0x30
    ensures n < 10 <==> |r| == 1
  {
    if n < 10 then [DigitByte(n)] else DecimalBytes(n / 10) + [DigitByte(n % 10)]
  }

  /** The integer a string of decimal digits denotes. */
  function DecimalValue(s: seq<Byte>): nat
    requires forall i :: 0 <= i < |s| ==> IsDigit(s[i])
  {
    if s == [] then 0
    else 10 * DecimalValue(s[..|s| - 1]) + DigitValue(s[|s| - 1])
  }

  /** Reading back the decimal string of n gives n. */
  lemma {:induction false} DecimalRoundTrip(n: nat)
    ensures DecimalValue(DecimalBytes(n)) == n
  {
    var r := DecimalBytes(n);
    if n >= 10 {
      DecimalRoundTrip(n / 10);
      assert r[..|r| - 1] == DecimalBytes(n / 10);
    }
  }

  // ---------------------------------------------------------------------------
  // Conversions applied by the operators

  /** The string PHP makes of a value when it is an operand of `.`. */
  function ToStr(v: Value): seq<Byte> {
    match v
    case Int(n) => DecimalBytes(n)
    case Str(s) => s
    case Inf => [0x49, 0x4E, 0x46] // "INF"
  }

  /**
   * The integer PHP makes of a value when it is an operand of `^` next to an
   * integer. A string converts when it is all decimal digits and fits a PHP
   * integer; other strings and INF are outside this model (None).
   */
  function ToInt(v: Value): (r: Option<nat>)
    ensures r.Some? ==> r.value <= PHP_INT_MAX || v.Int?
  {
    match v
    case Int(n) => Some(n)
    case Str(s) =>
      if IsDigitString(s) && DecimalValue(s) <= PHP_INT_MAX then Some(DecimalValue(s)) else None
    case Inf => None
  }

  /** `$a ^ $b` on two one-byte strings. */
  function ByteXor(a: Byte, b: Byte): Byte {
    NatXorBound(a, b, 8);
    NatXor(a, b)
  }

  /** `$a ^ $b` on two strings: byte by byte, as long as the shorter one. */
  function XorBytes(a: seq<Byte>, b: seq<Byte>): (r: seq<Byte>)
    ensures |r| == if |a| <= |b| then |a| else |b|
    ensures forall i :: 0 <= i < |r| ==> r[i] == ByteXor(a[i], b[i])
  {
    if a == [] || b == [] then [] else [ByteXor(a[0], b[0])] + XorBytes(a[1..], b[1..])
  }

  /** `$a ^ $b` on two values: string XOR for two strings, integer XOR otherwise. */
  function XorValues(a: Value, b: Value): Option<Value> {
    if a.Str? && b.Str? then Some(Str(XorBytes(a.bytes, b.bytes)))
    else match (ToInt(a), ToInt(b))
      case (Some(x), Some(y)) => Some(Int(NatXor(x, y)))
      case _ => None
  }

  /** ASCII lower-casing, as PHP does when it looks up a function name. */
  function LowerByte(b: Byte): Byte {
    if 0x41 <= b <= 0x5A then b + 0x20 else b
  }

  /** True when the string names the built-in `chr`, in any letter case. */
  predicate NamesChr(name: seq<Byte>) {
    |name| == 3 && LowerByte(name[0]) == 0x63 && LowerByte(name[1]) == 0x68 && LowerByte(name[2]) == 0x72
  }

  /** `chr($n)`: the one-byte string whose byte is n modulo 256. */
  function Chr(n: nat): (r: seq<Byte>)
    ensures |r| == 1 && r[0] == n % 256
  {
    [n % 256]
  }

  /** chr of a byte value is the one-byte string holding that byte. */
  lemma ChrOfByte(b: Byte)
    ensures Chr(b) == [b]
  {
    assert b % 256 == b;
  }
}
