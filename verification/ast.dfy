/**
 * Fully resolved expression and statement trees, as the evaluator receives
 * them: every identifier carries the binding name the driver chose and every
 * operator node carries one bound operator.
 */
module Ast {
  import opened Java
  import opened Values
  import opened Ids

  /** The literal node classes; the mutable ones hold the driver's current choice. */
  datatype LitKind =
    | BoolValKind | ImBoolValKind
    | IntValKind | ImIntValKind
    | LongValKind
    | DoubleValKind | ImDoubleValKind
    | IntArrValKind

  datatype Exp =
    | Ident(id: IdNode, binding: string)
    | Lit(kind: LitKind, val: Value)
    | ArrAccess(arr: Exp, index: Exp)
    | BAri(left: Exp, aop: AriOp, right: Exp)
    | Shift(left: Exp, sop: ShiftOp, right: Exp)
    | Log(left: Exp, lop: LogOp, right: Exp)
    | Rel(left: Exp, rop: RelOp, right: Exp)
    | PreInc(target: Target)
    | Assign(target: Target, value: Exp)

  /** The index of an assignable array element: a fixed int or an int identifier. */
  datatype Index = LitIndex(n: int32) | VarIndex(id: IdNode, binding: string)

  /** An assignable expression: an identifier or an element of an array identifier. */
  datatype Target =
    | TId(id: IdNode, binding: string)
    | TElem(arr: IdNode, arrBinding: string, index: Index)

  datatype Stmt =
    | ExprStmt(e: Exp)
    | If(cond: Exp, thn: Stmt, els: Option<Stmt>)
    | While(cond: Exp, body: Stmt)
    | Block(stmts: seq<Stmt>)
    | Try(body: Stmt, caught: ExcClass, handler: Stmt, fin: Option<Stmt>)

  function IndexExp(i: Index): Exp
  {
    match i
    case LitIndex(n) => Lit(ImIntValKind, IntV(n))
    case VarIndex(id, b) => Ident(id, b)
  }

  /** The expression a target is when it is read. */
  function TargetExp(t: Target): (e: Exp)
    ensures e.Ident? || (e.ArrAccess? && e.arr.Ident? && (e.index.Ident? || e.index.Lit?))
  {
    match t
    case TId(id, b) => Ident(id, b)
    case TElem(a, b, i) => ArrAccess(Ident(a, b), IndexExp(i))
  }

  /** The binding name a write to the target changes. */
  function TargetName(t: Target): string
  {
    match t
    case TId(_, b) => b
    case TElem(_, b, _) => b
  }

  function TargetSize(t: Target): nat
  {
    if t.TId? then 1 else 3
  }

  /** Node count, used as the termination measure of evaluation. */
  function Size(e: Exp): (n: nat)
    ensures n >= 1
  {
    match e
    case Ident(_, _) => 1
    case Lit(_, _) => 1
    case ArrAccess(a, i) => 1 + Size(a) + Size(i)
    case BAri(l, _, r) => 1 + Size(l) + Size(r)
    case Shift(l, _, r) => 1 + Size(l) + Size(r)
    case Log(l, _, r) => 1 + Size(l) + Size(r)
    case Rel(l, _, r) => 1 + Size(l) + Size(r)
    case PreInc(t) => 1 + TargetSize(t)
    case Assign(t, v) => 1 + TargetSize(t) + Size(v)
  }

  lemma TargetExpSize(t: Target)
    ensures Size(TargetExp(t)) == TargetSize(t)
  {
  }

  /**
   * The node classes whose `visit` returns false while the short-circuit
   * flag is set: BoolId, BoolVal, ImBoolVal, LogExp and RelExp.
   */
  predicate SkippedWhenShortCircuit(e: Exp)
  {
    match e
    case Ident(id, _) => id.kind == BoolIdKind
    case Lit(k, _) => k == BoolValKind || k == ImBoolValKind
    case Log(_, _, _) => true
    case Rel(_, _, _) => true
    case _ => false
  }

  /**
   * Every logic node's right operand is of a class that the short-circuit
   * flag skips, so a decided left operand really suppresses the right one.
   */
  predicate ShortCircuitSafe(e: Exp)
  {
    match e
    case Ident(_, _) => true
    case Lit(_, _) => true
    case ArrAccess(a, i) => ShortCircuitSafe(a) && ShortCircuitSafe(i)
    case BAri(l, _, r) => ShortCircuitSafe(l) && ShortCircuitSafe(r)
    case Shift(l, _, r) => ShortCircuitSafe(l) && ShortCircuitSafe(r)
    case Log(l, _, r) => SkippedWhenShortCircuit(r) && ShortCircuitSafe(l) && ShortCircuitSafe(r)
    case Rel(l, _, r) => ShortCircuitSafe(l) && ShortCircuitSafe(r)
    case PreInc(_) => true
    case Assign(_, v) => ShortCircuitSafe(v)
  }

  /** The binding names an expression may write. */
  function Writes(e: Exp): set<string>
  {
    match e
    case Ident(_, _) => {}
    case Lit(_, _) => {}
    case ArrAccess(a, i) => Writes(a) + Writes(i)
    case BAri(l, _, r) => Writes(l) + Writes(r)
    case Shift(l, _, r) => Writes(l) + Writes(r)
    case Log(l, _, r) => Writes(l) + Writes(r)
    case Rel(l, _, r) => Writes(l) + Writes(r)
    case PreInc(t) => {TargetName(t)}
    case Assign(t, v) => {TargetName(t)} + Writes(v)
  }

  function StmtWrites(s: Stmt): set<string>
  {
    match s
    case ExprStmt(e) => Writes(e)
    case If(c, t, el) => Writes(c) + StmtWrites(t) + (if el.Some? then StmtWrites(el.value) else {})
    case While(c, b) => Writes(c) + StmtWrites(b)
    case Block(ss) => SeqWrites(ss)
    case Try(b, _, h, f) => StmtWrites(b) + StmtWrites(h) + (if f.Some? then StmtWrites(f.value) else {})
  }

  function SeqWrites(ss: seq<Stmt>): set<string>
  {
    if ss == [] then {} else StmtWrites(ss[0]) + SeqWrites(ss[1..])
  }

  /**
   * Statements the stack-free semantics describes exactly: every expression
   * is short-circuit safe and every loop condition writes nothing.
   */
  predicate SafeStmt(s: Stmt)
  {
    match s
    case ExprStmt(e) => ShortCircuitSafe(e)
    case If(c, t, el) => ShortCircuitSafe(c) && SafeStmt(t) && (el.Some? ==> SafeStmt(el.value))
    case While(c, b) => ShortCircuitSafe(c) && Writes(c) == {} && SafeStmt(b)
    case Block(ss) => SafeSeq(ss)
    case Try(b, _, h, f) => SafeStmt(b) && SafeStmt(h) && (f.Some? ==> SafeStmt(f.value))
  }

  predicate SafeSeq(ss: seq<Stmt>)
  {
    ss == [] || (SafeStmt(ss[0]) && SafeSeq(ss[1..]))
  }

  /** No try statement anywhere inside. */
  predicate TryFree(s: Stmt)
  {
    match s
    case ExprStmt(_) => true
    case If(_, t, el) => TryFree(t) && (el.Some? ==> TryFree(el.value))
    case While(_, b) => TryFree(b)
    case Block(ss) => TryFreeSeq(ss)
    case Try(_, _, _, _) => false
  }

  predicate TryFreeSeq(ss: seq<Stmt>)
  {
    ss == [] || (TryFree(ss[0]) && TryFreeSeq(ss[1..]))
  }
}
