/**
 * The fragments of java.lang (and java.util) that the evaluator and the
 * sketch builders rely on: option/result wrappers for code that may throw,
 * the exception class hierarchy that `catch` and `Class.isAssignableFrom`
 * consult, and 32/64-bit two's-complement integer arithmetic as fixed by
 * sections 15.17-15.19 of the Java Language Specification.
 */
module Java {

  datatype Option<+T> = None | Some(value: T)

  /** The exception classes the modelled code can throw or catch. */
  datatype ExcClass =
    | Throwable
    | Error
    | Exception
    | RuntimeException
    | ArithmeticException
    | ClassCastException
    | NullPointerException
    | IllegalArgumentException
    | NumberFormatException
    | IndexOutOfBoundsException
    | ArrayIndexOutOfBoundsException
    | StringIndexOutOfBoundsException
    | NegativeArraySizeException
    | NoSuchElementException

  /** A computation that either yields a value or throws an exception of some class. */
  datatype Result<+T> = Ok(value: T) | Err(exc: ExcClass)

  /** The direct superclass; `Throwable` has none. */
  function Parent(c: ExcClass): Option<ExcClass>
  {
    match c
    case Throwable => None
    case Error => Some(Throwable)
    case Exception => Some(Throwable)
    case RuntimeException => Some(Exception)
    case NumberFormatException => Some(IllegalArgumentException)
    case ArrayIndexOutOfBoundsException => Some(IndexOutOfBoundsException)
    case StringIndexOutOfBoundsException => Some(IndexOutOfBoundsException)
    case NoSuchElementException => Some(RuntimeException)
    case _ => Some(RuntimeException)
  }

  /** Distance to `Throwable` in the class tree. */
  function Depth(c: ExcClass): nat
  {
    match c
    case Throwable => 0
    case Error => 1
    case Exception => 1
    case RuntimeException => 2
    case NumberFormatException => 4
    case ArrayIndexOutOfBoundsException => 4
    case StringIndexOutOfBoundsException => 4
    case _ => 3
  }

  lemma ParentIsShallower(c: ExcClass)
    ensures Parent(c).None? <==> c == Throwable
    ensures Parent(c).Some? ==> Depth(Parent(c).value) + 1 == Depth(c)
  {
  }

  /** `sup.isAssignableFrom(sub)`: `sub` is `sup` or one of its descendants. */
  predicate SubclassOf(sub: ExcClass, sup: ExcClass)
    decreases Depth(sub)
  {
    ParentIsShallower(sub);
    sub == sup || (Parent(sub).Some? && SubclassOf(Parent(sub).value, sup))
  }

  lemma {:induction false} SubclassOfDepth(sub: ExcClass, sup: ExcClass)
    requires SubclassOf(sub, sup)
    ensures Depth(sup) <= Depth(sub)
    decreases Depth(sub)
  {
    ParentIsShallower(sub);
    if sub != sup {
      SubclassOfDepth(Parent(sub).value, sup);
    }
  }

  /** Every exception class descends from `Throwable`: a `catch (Throwable e)` catches everything. */
  lemma {:induction false} EverythingIsThrowable(c: ExcClass)
    ensures SubclassOf(c, Throwable)
    decreases Depth(c)
  {
    ParentIsShallower(c);
    if c != Throwable {
      EverythingIsThrowable(Parent(c).value);
    }
  }

  lemma {:induction false} SubclassTransitive(a: ExcClass, b: ExcClass, c: ExcClass)
    requires SubclassOf(a, b) && SubclassOf(b, c)
    ensures SubclassOf(a, c)
    decreases Depth(a)
  {
    ParentIsShallower(a);
    if a != b {
      SubclassTransitive(Parent(a).value, b, c);
    }
  }

  lemma {:induction false} SubclassAntisymmetric(a: ExcClass, b: ExcClass)
    requires SubclassOf(a, b) && SubclassOf(b, a)
    ensures a == b
  {
    ParentIsShallower(a);
    if a != b {
      SubclassOfDepth(Parent(a).value, b);
      SubclassOfDepth(b, a);
    }
  }

  /*------------------- two's-complement integers -------------------*/

  const TWO_32: int := 0x1_0000_0000
  const TWO_64: int := 0x1_0000_0000_0000_0000

  type int32 = x: int | -0x8000_0000 <= x < 0x8000_0000
  type int64 = x: int | -0x8000_0000_0000_0000 <= x < 0x8000_0000_0000_0000

  /** Narrowing to 32 bits: the int32 congruent to `x` modulo 2^32. */
  function Wrap32(x: int): (r: int32)
    ensures (r - x) % TWO_32 == 0
    ensures -0x8000_0000 <= x < 0x8000_0000 ==> r == x
  {
    (x + 0x8000_0000) % TWO_32 - 0x8000_0000
  }

  /** Narrowing to 64 bits: the int64 congruent to `x` modulo 2^64. */
  function Wrap64(x: int): (r: int64)
    ensures (r - x) % TWO_64 == 0
    ensures -0x8000_0000_0000_0000 <= x < 0x8000_0000_0000_0000 ==> r == x
  {
    (x + 0x8000_0000_0000_0000) % TWO_64 - 0x8000_0000_0000_0000
  }

  function Abs(x: int): nat { if x < 0 then -x else x }

  /** Integer division rounding toward zero (JLS 15.17.2), before narrowing. */
  function TruncDiv(a: int, b: int): int
    requires b != 0
  {
    var q := Abs(a) / Abs(b);
    if (a < 0) == (b < 0) then q else -q
  }

  /** The remainder that goes with `TruncDiv` (JLS 15.17.3). */
  function TruncRem(a: int, b: int): (r: int)
    requires b != 0
    ensures a == b * TruncDiv(a, b) + r
    ensures Abs(r) < Abs(b)
    ensures r != 0 ==> (r < 0 <==> a < 0)
  {
    var q := Abs(a) / Abs(b);
    var m := Abs(a) % Abs(b);
    assert Abs(a) == Abs(b) * q + m;
    if a < 0 then -m else m
  }

  function Pow2(k: nat): (r: nat)
    ensures r >= 1
  {
    if k == 0 then 1 else 2 * Pow2(k - 1)
  }

  /**
   * The shift distance actually used by Java: the low 5 bits for `int`,
   * the low 6 bits for `long` (JLS 15.19). On two's-complement values,
   * `n & 31` equals the Euclidean `n % 32`.
   */
  function ShiftDistance(n: int, width: nat): (k: nat)
    requires width == 32 || width == 64
    ensures k < width
  {
    n % width
  }

  /** `a << n` on int (width 32) or long (width 64). */
  function ShiftLeft(a: int, n: int, width: nat): int
    requires width == 32 || width == 64
  {
    var v := a * Pow2(ShiftDistance(n, width));
    if width == 32 then Wrap32(v) else Wrap64(v)
  }

  /** `a >> n`: arithmetic shift, that is floor division by a power of two. */
  function ShiftRight(a: int, n: int, width: nat): int
    requires width == 32 || width == 64
  {
    var v := a / Pow2(ShiftDistance(n, width));
    if width == 32 then Wrap32(v) else Wrap64(v)
  }

  /** `a >>> n`: logical shift of the unsigned reading of `a`. */
  function UnsignedShiftRight(a: int, n: int, width: nat): int
    requires width == 32 || width == 64
  {
    var u := if width == 32 then a % TWO_32 else a % TWO_64;
    var v := u / Pow2(ShiftDistance(n, width));
    if width == 32 then Wrap32(v) else Wrap64(v)
  }
}
