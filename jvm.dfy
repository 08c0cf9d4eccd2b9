/** Value types and integer semantics of the JVM that the recorder relies on:
    optional values and results, unsigned bytes, 32-bit `Int` wrap-around and
    truncating division. */
module Jvm {

  datatype Option<+T> = None | Some(value: T)

  datatype Result<+T, +E> = Ok(value: T) | Err(error: E)

  /** A byte as its unsigned bit pattern (what `toByte()` stores). */
  type Byte = b: int | 0 <= b < 256

  const TwoTo16: int := 0x1_0000
  const TwoTo32: int := 0x1_0000_0000
  const IntMin: int := -0x8000_0000
  const IntMax: int := 0x7fff_ffff

  /** The value range of a Kotlin `Int` / Java `int`. */
  predicate IsInt(x: int) {
    IntMin <= x <= IntMax
  }

  /** The value range of a Kotlin `Short`. */
  predicate IsShort(x: int) {
    -0x8000 <= x <= 0x7fff
  }

  /** Two's-complement wrap-around of an `Int` operation whose exact result is `x`. */
  function Wrap32(x: int): (r: int)
    ensures IsInt(r)
    ensures (r - x) % TwoTo32 == 0
    ensures IsInt(x) ==> r == x
  {
    var m := x % TwoTo32;
    if m <= IntMax then m else m - TwoTo32
  }

  /** `a / b` on `Int`: rounds toward zero (Dafny's `/` is Euclidean). */
  function DivTrunc(a: int, b: int): (q: int)
    requires b > 0
    ensures a >= 0 ==> 0 <= a - q * b < b
    ensures a < 0 ==> -b < a - q * b <= 0
  {
    if a >= 0 then a / b else -((-a) / b)
  }

  /** The signed value of a byte, as Java reads an element of a `byte[]`. */
  function SignedByte(b: Byte): (v: int)
    ensures -128 <= v <= 127
    ensures (v - b) % 256 == 0
  {
    if b < 128 then b else b - 256
  }

  /** Quotient and remainder are determined by `v == q * d + r` with `0 <= r < d`. */
  lemma ModUnique(v: int, d: int, q: int, r: int)
    requires d > 0 && 0 <= r < d && v == q * d + r
    ensures v % d == r && v / d == q
  {
    var q', r' := v / d, v % d;
    assert v == q' * d + r';
    assert (q - q') * d == r' - r;
    if q > q' {
      assert (q - q') * d >= d by { MulAtLeast(q - q', d); }
      assert false;
    } else if q < q' {
      assert (q' - q) * d >= d by { MulAtLeast(q' - q, d); }
      assert false;
    }
  }

  lemma MulAtLeast(k: int, d: int)
    requires k >= 1 && d > 0
    ensures k * d >= d
  {
  }
}
