/**
 * Java-language values that the health-connect model copies around: nullable
 * references, thrown exceptions, the `double` and `int` primitives, and the
 * `Objects.hash` combination used by the records' `hashCode` methods.
 */
module JavaLang {

  /** A nullable Java reference: `None` is `null`. */
  datatype Option<+T> = None | Some(value: T)

  /** The exceptions the modelled code throws. */
  datatype JavaException =
    | NullPointerException
    | IllegalArgumentException(message: string)
    | ArrayIndexOutOfBoundsException

  /** The outcome of a Java call that returns a value or throws. */
  datatype Result<+T> = Ok(value: T) | Thrown(exception: JavaException)

  /** The outcome of a Java call that returns nothing or throws. */
  datatype Outcome = Normal | Abrupt(exception: JavaException)

  /**
   * A Java `double`, kept as its IEEE 754 binary64 bit pattern. The model
   * never computes with doubles; it copies them and compares them the way
   * Java's primitive `==` does.
   */
  datatype Double = Double(bits: bv64)

  const ExponentMask: bv64 := 0x7FF0_0000_0000_0000
  const FractionMask: bv64 := 0x000F_FFFF_FFFF_FFFF
  const MagnitudeMask: bv64 := 0x7FFF_FFFF_FFFF_FFFF

  /** `Double.NaN` and `0.0` as Java spells them. */
  const CanonicalNaN := Double(0x7FF8_0000_0000_0000)
  const PositiveZero := Double(0)
  const NegativeZero := Double(0x8000_0000_0000_0000)

  predicate IsNaN(d: Double) {
    d.bits & ExponentMask == ExponentMask && d.bits & FractionMask != 0
  }

  predicate IsZero(d: Double) {
    d.bits & MagnitudeMask == 0
  }

  /**
   * Java's primitive `a == b` on doubles: a NaN equals nothing (not even
   * itself) and the two zeros are equal; otherwise equal bit patterns.
   */
  predicate DoubleEquals(a: Double, b: Double) {
    !IsNaN(a) && !IsNaN(b) && (a.bits == b.bits || (IsZero(a) && IsZero(b)))
  }

  /** A Java `int`. */
  newtype int32 = x: int | -0x8000_0000 <= x < 0x8000_0000

  /** Java's narrowing of an integer to `int`: arithmetic modulo 2^32, two's complement. */
  function WrapInt32(x: int): (r: int32)
    ensures (r as int - x) % 0x1_0000_0000 == 0
  {
    ((x + 0x8000_0000) % 0x1_0000_0000 - 0x8000_0000) as int32
  }

  /**
   * `Objects.hash(h0, h1, ...)` over the elements' hash codes, i.e.
   * `Arrays.hashCode`: start at 1 and fold `31 * acc + h` in `int` arithmetic.
   */
  function ObjectsHash(hashes: seq<int32>): int32
  {
    if |hashes| == 0 then 1
    else WrapInt32(31 * ObjectsHash(hashes[..|hashes| - 1]) as int + hashes[|hashes| - 1] as int)
  }

  /**
   * `Double.hashCode(d)`: the bits of `doubleToLongBits(d)` (every NaN
   * collapsed to the canonical one) folded as `(int) (bits ^ (bits >>> 32))`.
   */
  function DoubleHashCode(d: Double): int32
  {
    var bits := if IsNaN(d) then CanonicalNaN.bits else d.bits;
    WrapInt32(((bits ^ (bits >> 32)) & 0xFFFF_FFFF) as int)
  }

  /** An instant on the time line, as `java.time.Instant` holds it. */
  datatype Instant = Instant(epochSecond: int, nano: int)

  /** A `java.time.ZoneOffset`, by its total seconds from UTC. */
  datatype ZoneOffset = ZoneOffset(totalSeconds: int)

  /**
   * A record's `Metadata`. Its class is not part of this model; the model
   * only stores and compares it.
   */
  datatype Metadata = Metadata(id: string)

  /**
   * The next element of a collection whose iteration order is not specified
   * (`ArrayMap`, `ArraySet`): any element at all.
   */
  method AnyElement<X(==)>(s: set<X>) returns (x: X)
    requires s != {}
    ensures x in s
  {
    x :| x in s;
  }
}
