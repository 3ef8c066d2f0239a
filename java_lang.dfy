/**
 * The few notions of the Java language that the model needs written out:
 * references that may be null, signed bytes, 32-bit `int` arithmetic with
 * wrap-around, the 31-multiplier hash fold of `java.util.Arrays`, and the
 * runtime exceptions the modelled code can raise.
 */
module JavaLang {

  /** A Java reference that may be `null`. */
  datatype Nullable<+T> = Null | Value(value: T)

  /** A Java `String` reference. */
  type JString = Nullable<string>

  /** A Java `byte`: a signed 8-bit value. */
  type JByte = b: int | -128 <= b < 128

  /** A Java `byte[]` reference, compared and hashed by content. */
  type JBytes = Nullable<seq<JByte>>

  const INT_MIN: int := -0x8000_0000
  const INT_MAX: int := 0x7fff_ffff

  predicate IsInt32(x: int) {
    INT_MIN <= x <= INT_MAX
  }

  /** The value a Java `int` holds after an exact result `x` is wrapped to 32 bits. */
  function Int32(x: int): (r: int)
    ensures IsInt32(r)
    ensures (r - x) % 0x1_0000_0000 == 0
    ensures IsInt32(x) ==> r == x
  {
    (x - INT_MIN) % 0x1_0000_0000 + INT_MIN
  }

  /**
   * `result = 31 * result + h` over `hashes`, left to right, in `int`
   * arithmetic: the loop of `Arrays.hashCode` and of hand-written `hashCode`
   * methods.
   */
  function HashFold(seed: int, hashes: seq<int>): (r: int)
    requires IsInt32(seed)
    ensures IsInt32(r)
    ensures hashes == [] ==> r == seed
    decreases |hashes|
  {
    if hashes == [] then seed else HashFold(Int32(31 * seed + hashes[0]), hashes[1..])
  }

  /** `Arrays.hashCode(byte[])`: 0 for null, else the fold from 1 over the signed byte values. */
  function BytesHash(b: JBytes): (r: int)
    ensures IsInt32(r)
    ensures b == Null ==> r == 0
  {
    match b
    case Null => 0
    case Value(bs) => HashFold(1, bs)
  }

  /** `Objects.hashCode(String)`, given the (uninterpreted) `String.hashCode`. */
  function StringHash(s: JString, stringHash: string -> int): (r: int)
    ensures IsInt32(r)
    ensures s == Null ==> r == 0
  {
    match s
    case Null => 0
    case Value(v) => Int32(stringHash(v))
  }

  /**
   * The runtime exceptions the modelled code can raise, and the
   * `IllegalArgumentException` that Spring's class-name resolution throws for
   * a type name it cannot load.
   */
  datatype JavaException =
    | NullPointerException
    | ArrayIndexOutOfBoundsException(index: int)
    | IllegalArgumentException(message: string)

  /** The outcome of a Java call that either returns a value or throws. */
  datatype Result<+T> = Success(value: T) | Failure(error: JavaException)
}
