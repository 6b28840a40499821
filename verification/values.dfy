/**
 * Runtime values of the sketch language and the operator families bound in
 * its expression nodes. The operator classes (AriOp, ShiftOp, RelOp, LogOp,
 * IncDecOp) are not part of this model; their `apply` is given the Java
 * meaning of the corresponding primitive operator on the boxed operands.
 */
module Values {
  import opened Java

  /** Element kind of a primitive array. */
  datatype NumKind = KInt | KLong | KDouble

  /**
   * A value on the evaluator's operand stack or in the binding environment.
   * Doubles are kept as their raw 64-bit pattern and never inspected here;
   * objects of other classes are opaque references.
   */
  datatype Value =
    | BoolV(b: bool)
    | IntV(i: int32)
    | LongV(l: int64)
    | DoubleV(bits: int64)
    | ArrV(elem: NumKind, elems: seq<Value>)
    | RefV(cls: string, addr: nat)
    | NullV

  datatype AriOp = ADD | SUB | MUL | DIV | MOD
  datatype ShiftOp = SHIFTL | SHIFTR | USHIFTR
  datatype RelOp = LT | LE | GT | GE | EQ | NE
  datatype LogOp = AND | OR

  /** `values()` of each operator enum, in declaration order. */
  const AriOps: seq<AriOp> := [ADD, SUB, MUL, DIV, MOD]
  const ShiftOps: seq<ShiftOp> := [SHIFTL, SHIFTR, USHIFTR]
  const RelOps: seq<RelOp> := [LT, LE, GT, GE, EQ, NE]
  const LogOps: seq<LogOp> := [AND, OR]

  /** IEEE-754 double arithmetic is not modelled; it is supplied from outside. */
  datatype FloatOps = FloatOps(
    ari: (AriOp, int64, int64) -> int64,
    rel: (RelOp, int64, int64) -> bool,
    inc: int64 -> int64)

  /** The exception a numeric operator raises on an operand of the wrong class. */
  function BadOperand(l: Value, r: Value): ExcClass
  {
    if l.NullV? || r.NullV? then NullPointerException else ClassCastException
  }

  /** Narrowing to the width of int (32) or long (64). */
  function Narrow(x: int, width: nat): int
    requires width == 32 || width == 64
  {
    if width == 32 then Wrap32(x) as int else Wrap64(x) as int
  }

  /** `op.apply(left, right)` on two ints (width 32) or two longs (width 64). */
  function IntegralAri(op: AriOp, a: int, b: int, width: nat): (r: Result<int>)
    requires width == 32 || width == 64
    ensures r.Err? <==> (op == DIV || op == MOD) && b == 0
    ensures r.Err? ==> r.exc == ArithmeticException
    ensures r.Ok? && width == 32 ==> -0x8000_0000 <= r.value < 0x8000_0000
    ensures r.Ok? && width == 64 ==> -0x8000_0000_0000_0000 <= r.value < 0x8000_0000_0000_0000
  {
    match op
    case ADD => Ok(Narrow(a + b, width))
    case SUB => Ok(Narrow(a - b, width))
    case MUL => Ok(Narrow(a * b, width))
    case DIV => if b == 0 then Err(ArithmeticException) else Ok(Narrow(TruncDiv(a, b), width))
    case MOD => if b == 0 then Err(ArithmeticException) else Ok(Narrow(TruncRem(a, b), width))
  }

  function ApplyAri(fp: FloatOps, op: AriOp, l: Value, r: Value): (res: Result<Value>)
    ensures res.Ok? ==> (res.value.IntV? <==> l.IntV?) && (res.value.LongV? <==> l.LongV?)
    ensures res.Err? && res.exc == ArithmeticException ==> (op == DIV || op == MOD) && (r == IntV(0) || r == LongV(0))
  {
    if l.IntV? && r.IntV? then
      var x := IntegralAri(op, l.i, r.i, 32);
      if x.Ok? then Ok(IntV(x.value)) else Err(x.exc)
    else if l.LongV? && r.LongV? then
      var x := IntegralAri(op, l.l, r.l, 64);
      if x.Ok? then Ok(LongV(x.value)) else Err(x.exc)
    else if l.DoubleV? && r.DoubleV? then Ok(DoubleV(fp.ari(op, l.bits, r.bits)))
    else Err(BadOperand(l, r))
  }

  /** `op.apply(left, distance)`: the distance is already an int. */
  function ApplyShift(op: ShiftOp, l: Value, n: int32): Result<Value>
  {
    if l.IntV? then
      Ok(IntV(match op
        case SHIFTL => ShiftLeft(l.i, n, 32)
        case SHIFTR => ShiftRight(l.i, n, 32)
        case USHIFTR => UnsignedShiftRight(l.i, n, 32)))
    else if l.LongV? then
      Ok(LongV(match op
        case SHIFTL => ShiftLeft(l.l, n, 64)
        case SHIFTR => ShiftRight(l.l, n, 64)
        case USHIFTR => UnsignedShiftRight(l.l, n, 64)))
    else Err(BadOperand(l, IntV(n)))
  }

  function Compare(op: RelOp, a: int, b: int): bool
  {
    match op
    case LT => a < b
    case LE => a <= b
    case GT => a > b
    case GE => a >= b
    case EQ => a == b
    case NE => a != b
  }

  function ApplyRel(fp: FloatOps, op: RelOp, l: Value, r: Value): (res: Result<Value>)
    ensures res.Ok? ==> res.value.BoolV?
    ensures res.Err? <==> !((l.IntV? && r.IntV?) || (l.LongV? && r.LongV?) || (l.DoubleV? && r.DoubleV?))
  {
    if l.IntV? && r.IntV? then Ok(BoolV(Compare(op, l.i, r.i)))
    else if l.LongV? && r.LongV? then Ok(BoolV(Compare(op, l.l, r.l)))
    else if l.DoubleV? && r.DoubleV? then Ok(BoolV(fp.rel(op, l.bits, r.bits)))
    else Err(BadOperand(l, r))
  }

  function ApplyLog(op: LogOp, a: bool, b: bool): bool
  {
    match op
    case AND => a && b
    case OR => a || b
  }

  /** The left value alone decides the logic operator: `false && _`, `true || _`. */
  predicate Decides(op: LogOp, left: bool)
  {
    (op == AND && !left) || (op == OR && left)
  }

  lemma DecidesMeansResult(op: LogOp, left: bool, right: bool)
    requires Decides(op, left)
    ensures ApplyLog(op, left, right) == left
  {
  }

  /** `IncDecOp.PRE_INC.apply(v)`: v + 1 in the value's own width. */
  function PreIncValue(fp: FloatOps, v: Value): (r: Result<Value>)
    ensures v.IntV? ==> r == Ok(IntV(Wrap32(v.i + 1)))
    ensures v.LongV? ==> r == Ok(LongV(Wrap64(v.l + 1)))
    ensures r.Err? <==> !(v.IntV? || v.LongV? || v.DoubleV?)
  {
    match v
    case IntV(i) => Ok(IntV(Wrap32(i + 1)))
    case LongV(l) => Ok(LongV(Wrap64(l + 1)))
    case DoubleV(d) => Ok(DoubleV(fp.inc(d)))
    case _ => Err(BadOperand(v, v))
  }

  /** `Array.get(arr, i)` from java.lang.reflect. */
  function ArrayGet(arr: Value, i: int): (r: Result<Value>)
    ensures r.Ok? <==> arr.ArrV? && 0 <= i < |arr.elems|
    ensures r.Ok? ==> r.value == arr.elems[i]
    ensures arr.ArrV? && !(0 <= i < |arr.elems|) ==> r == Err(ArrayIndexOutOfBoundsException)
  {
    match arr
    case NullV => Err(NullPointerException)
    case ArrV(_, elems) =>
      if 0 <= i < |elems| then Ok(elems[i]) else Err(ArrayIndexOutOfBoundsException)
    case _ => Err(IllegalArgumentException)
  }

  /** The value can be stored in an array of this element kind. */
  predicate FitsElement(k: NumKind, v: Value)
  {
    match k
    case KInt => v.IntV?
    case KLong => v.LongV?
    case KDouble => v.DoubleV?
  }

  /** `Array.set(arr, i, v)`, returning the updated array value. */
  function ArraySet(arr: Value, i: int, v: Value): (r: Result<Value>)
    ensures r.Ok? <==> arr.ArrV? && 0 <= i < |arr.elems| && FitsElement(arr.elem, v)
    ensures r.Ok? ==> r.value == arr.(elems := arr.elems[i := v])
  {
    match arr
    case NullV => Err(NullPointerException)
    case ArrV(k, elems) =>
      if !(0 <= i < |elems|) then Err(ArrayIndexOutOfBoundsException)
      else if !FitsElement(k, v) then Err(IllegalArgumentException)
      else Ok(ArrV(k, elems[i := v]))
    case _ => Err(IllegalArgumentException)
  }

  /** Reading back an element just stored yields the stored value. */
  lemma ArraySetThenGet(arr: Value, i: int, v: Value, j: int)
    requires ArraySet(arr, i, v).Ok?
    ensures ArrayGet(ArraySet(arr, i, v).value, j) ==
      (if j == i then Ok(v) else ArrayGet(arr, j))
  {
  }

  /**
   * The `apply` methods of the operator classes that EvalVisitor calls on
   * its operands. The evaluator is defined for any such family; `JavaOps`
   * is the one with Java's primitive-operator meaning.
   */
  datatype Ops = Ops(
    ari: (AriOp, Value, Value) -> Result<Value>,
    shift: (ShiftOp, Value, int32) -> Result<Value>,
    rel: (RelOp, Value, Value) -> Result<Value>,
    preInc: Value -> Result<Value>)

  function JavaOps(fp: FloatOps): (o: Ops)
    ensures forall op, l, r :: o.ari(op, l, r) == ApplyAri(fp, op, l, r)
    ensures forall op, l, n :: o.shift(op, l, n) == ApplyShift(op, l, n)
    ensures forall op, l, r :: o.rel(op, l, r) == ApplyRel(fp, op, l, r)
    ensures forall v :: o.preInc(v) == PreIncValue(fp, v)
  {
    Ops(
      (op, l, r) => ApplyAri(fp, op, l, r),
      (op: ShiftOp, l: Value, n: int32) => ApplyShift(op, l, n),
      (op, l, r) => ApplyRel(fp, op, l, r),
      v => PreIncValue(fp, v))
  }
}
