/**
 * What EvalVisitor does, as functions of its state: the operand stack (top
 * at the end of the sequence), the short-circuit flag and the binding
 * environment that `getVal`/`updateVal` read and write. Each node is
 * evaluated by the accept protocol: `visit(node)`; if that returns true, the
 * children in order; then `endVisit(node)`. A thrown exception stops the
 * walk and leaves the state exactly as it was at the throw.
 */
module Machine {
  import opened Java
  import opened Values
  import opened Ids
  import opened Ast

  type Env = map<string, Value>

  /** How a statement or expression ends. `OutOfFuel` bounds `while` loops and is not a Java outcome. */
  datatype Outcome = Normal | Thrown(exc: ExcClass) | OutOfFuel

  datatype State = State(stack: seq<Value>, sc: bool, env: Env)

  datatype Step = Step(out: Outcome, st: State)

  /** A name absent from the environment reads as null. */
  function Lookup(env: Env, name: string): Value
  {
    if name in env then env[name] else NullV
  }

  function Push(st: State, v: Value): State
  {
    st.(stack := st.stack + [v])
  }

  datatype Popped = Popped(out: Outcome, v: Value, st: State)

  /** `stack.pop()`: the top value, or NoSuchElementException on an empty deque. */
  function Pop(st: State): (p: Popped)
    ensures p.out.Normal? <==> |st.stack| > 0
    ensures p.out.Normal? ==> st.stack == p.st.stack + [p.v]
    ensures !p.out.Normal? ==> p.out == Thrown(NoSuchElementException) && p.st == st
    ensures p.st.sc == st.sc && p.st.env == st.env
  {
    if |st.stack| == 0 then Popped(Thrown(NoSuchElementException), NullV, st)
    else Popped(Normal, st.stack[|st.stack| - 1], st.(stack := st.stack[..|st.stack| - 1]))
  }

  /** `stack.peek()`: the top value, or null on an empty deque. */
  function Peek(st: State): (v: Value)
    ensures Pop(st).out.Normal? ==> v == Pop(st).v
    ensures !Pop(st).out.Normal? ==> v == NullV
  {
    if |st.stack| == 0 then NullV else st.stack[|st.stack| - 1]
  }

  /** `castToInteger`: `validateCast` throws a RuntimeException unless the value is an Integer. */
  function CastToInteger(v: Value): (r: Result<int32>)
    ensures r.Ok? <==> v.IntV?
    ensures r.Ok? ==> r.value == v.i
    ensures r.Err? ==> r.exc == RuntimeException
  {
    if v.IntV? then Ok(v.i) else Err(RuntimeException)
  }

  /** `castToBoolean` (and `cast(_, Boolean.class)`): RuntimeException unless a Boolean. */
  function CastToBoolean(v: Value): (r: Result<bool>)
    ensures r.Ok? <==> v.BoolV?
    ensures r.Ok? ==> r.value == v.b
    ensures r.Err? ==> r.exc == RuntimeException
  {
    if v.BoolV? then Ok(v.b) else Err(RuntimeException)
  }

  /** `(boolean) obj`: a checked cast to Boolean followed by unboxing. */
  function UnboxBoolean(v: Value): (r: Result<bool>)
    ensures r.Ok? <==> v.BoolV?
    ensures r.Ok? ==> r.value == v.b
    ensures r.Err? ==> r.exc == (if v.NullV? then NullPointerException else ClassCastException)
  {
    match v
    case BoolV(b) => Ok(b)
    case NullV => Err(NullPointerException)
    case _ => Err(ClassCastException)
  }

  /** `visit(node)`: false only for the five overrides, and only while the flag is set. */
  predicate Visits(e: Exp, sc: bool)
    ensures !sc ==> Visits(e, sc)
    ensures e.ArrAccess? || e.BAri? || e.Shift? || e.PreInc? || e.Assign? ==> Visits(e, sc)
    ensures sc && (e.Log? || e.Rel?) ==> !Visits(e, sc)
  {
    !(sc && SkippedWhenShortCircuit(e))
  }

  /** `endVisitTerminalNode`: push the node's current value. */
  function EndVisitTerminal(e: Exp, st: State): (r: Step)
    requires e.Ident? || e.Lit?
    ensures r.out == Normal && r.st.env == st.env && r.st.sc == st.sc
    ensures |r.st.stack| == |st.stack| + 1 && r.st.stack[..|st.stack|] == st.stack
  {
    var v := if e.Ident? then Lookup(st.env, e.binding) else e.val;
    Step(Normal, Push(st, v))
  }

  /** `endVisit(BAriExp)`: pop right, pop left, push `op.apply(left, right)`. */
  function EndVisitAri(ops: Ops, op: AriOp, st: State): (r: Step)
    ensures r.st.env == st.env && r.st.sc == st.sc
    ensures r.out.Normal? ==> |st.stack| >= 2 && |r.st.stack| + 1 == |st.stack|
    ensures r.out.Normal? ==> r.st.stack[..|r.st.stack| - 1] == st.stack[..|st.stack| - 2]
  {
    var pr := Pop(st);
    if !pr.out.Normal? then Step(pr.out, pr.st)
    else
      var pl := Pop(pr.st);
      if !pl.out.Normal? then Step(pl.out, pl.st)
      else match ops.ari(op, pl.v, pr.v)
        case Ok(v) => Step(Normal, Push(pl.st, v))
        case Err(x) => Step(Thrown(x), pl.st)
  }

  /** `endVisit(ShiftExp)`: the popped distance must be an Integer. */
  function EndVisitShift(ops: Ops, op: ShiftOp, st: State): (r: Step)
    ensures r.st.env == st.env && r.st.sc == st.sc
    ensures r.out.Normal? ==> |r.st.stack| + 1 == |st.stack| && st.stack[|st.stack| - 1].IntV?
  {
    var pr := Pop(st);
    if !pr.out.Normal? then Step(pr.out, pr.st)
    else match CastToInteger(pr.v)
      case Err(x) => Step(Thrown(x), pr.st)
      case Ok(n) =>
        var pl := Pop(pr.st);
        if !pl.out.Normal? then Step(pl.out, pl.st)
        else match ops.shift(op, pl.v, n)
          case Ok(v) => Step(Normal, Push(pl.st, v))
          case Err(x) => Step(Thrown(x), pl.st)
  }

  /** `endVisit(RelExp)`: pop right, pop left, push the comparison. */
  function EndVisitRel(ops: Ops, op: RelOp, st: State): (r: Step)
    ensures r.st.env == st.env && r.st.sc == st.sc
    ensures r.out.Normal? ==> |st.stack| >= 2 && |r.st.stack| + 1 == |st.stack|
  {
    var pr := Pop(st);
    if !pr.out.Normal? then Step(pr.out, pr.st)
    else
      var pl := Pop(pr.st);
      if !pl.out.Normal? then Step(pl.out, pl.st)
      else match ops.rel(op, pl.v, pr.v)
        case Ok(v) => Step(Normal, Push(pl.st, v))
        case Err(x) => Step(Thrown(x), pl.st)
  }

  /**
   * `visit(OpNode)` inside a logic node: the left value on top of the stack
   * must be a Boolean; when it decides the operator the flag is set.
   */
  function VisitOp(op: LogOp, st: State): (r: Step)
    ensures r.out.Normal? <==> Peek(st).BoolV?
    ensures r.out.Normal? ==> r.st == st.(sc := st.sc || Decides(op, Peek(st).b))
    ensures !r.out.Normal? ==> r == Step(Thrown(RuntimeException), st)
  {
    match CastToBoolean(Peek(st))
    case Err(x) => Step(Thrown(x), st)
    case Ok(left) => Step(Normal, if Decides(op, left) then st.(sc := true) else st)
  }

  /** `endVisit(LogExp)`: clears a set flag and returns; otherwise pops two Booleans and pushes the result. */
  function EndVisitLog(op: LogOp, st: State): (r: Step)
    ensures st.sc ==> r == Step(Normal, st.(sc := false))
    ensures r.st.env == st.env && !r.st.sc
  {
    if st.sc then Step(Normal, st.(sc := false))
    else
      var pr := Pop(st);
      if !pr.out.Normal? then Step(pr.out, pr.st)
      else match CastToBoolean(pr.v)
        case Err(x) => Step(Thrown(x), pr.st)
        case Ok(right) =>
          var pl := Pop(pr.st);
          if !pl.out.Normal? then Step(pl.out, pl.st)
          else match CastToBoolean(pl.v)
            case Err(x) => Step(Thrown(x), pl.st)
            case Ok(left) => Step(Normal, Push(pl.st, BoolV(ApplyLog(op, left, right))))
  }

  /** `endVisit(RefArrAccessExp)`: pop the array, pop the Integer index, push `Array.get`. */
  function EndVisitArrAccess(st: State): (r: Step)
    ensures r.st.env == st.env && r.st.sc == st.sc
    ensures r.out.Normal? ==> |r.st.stack| + 1 == |st.stack|
  {
    var pa := Pop(st);
    if !pa.out.Normal? then Step(pa.out, pa.st)
    else
      var pi := Pop(pa.st);
      if !pi.out.Normal? then Step(pi.out, pi.st)
      else match CastToInteger(pi.v)
        case Err(x) => Step(Thrown(x), pi.st)
        case Ok(i) =>
          match ArrayGet(pa.v, i)
          case Ok(v) => Step(Normal, Push(pi.st, v))
          case Err(x) => Step(Thrown(x), pi.st)
  }

  /** The current value of an assignable element's index. */
  function IndexValue(i: Index, env: Env): Value
  {
    match i
    case LitIndex(n) => IntV(n)
    case VarIndex(_, b) => Lookup(env, b)
  }

  /** `updateVal(v)`: write the value through the target into the environment. */
  function UpdateVal(t: Target, v: Value, env: Env): (r: Result<Env>)
    ensures r.Ok? ==> r.value.Keys == env.Keys + {TargetName(t)}
    ensures r.Ok? ==> forall n :: n != TargetName(t) ==> Lookup(r.value, n) == Lookup(env, n)
    ensures t.TId? ==> r == Ok(env[t.binding := v])
  {
    match t
    case TId(_, b) => Ok(env[b := v])
    case TElem(_, b, i) =>
      match IndexValue(i, env)
      case IntV(n) =>
        (match ArraySet(Lookup(env, b), n, v)
         case Ok(arr) => Ok(env[b := arr])
         case Err(x) => Err(x))
      case NullV => Err(NullPointerException)
      case _ => Err(ClassCastException)
  }

  /** `endVisit(PreIncExp)`: pop the old value, write and push old + 1. */
  function EndVisitPreInc(ops: Ops, t: Target, st: State): (r: Step)
    ensures r.st.sc == st.sc
    ensures r.out.Normal? ==> |r.st.stack| == |st.stack|
  {
    var p := Pop(st);
    if !p.out.Normal? then Step(p.out, p.st)
    else match ops.preInc(p.v)
      case Err(x) => Step(Thrown(x), p.st)
      case Ok(nv) =>
        match UpdateVal(t, nv, p.st.env)
        case Err(x) => Step(Thrown(x), p.st)
        case Ok(env') => Step(Normal, Push(p.st.(env := env'), nv))
  }

  /** `endVisit(AssignExp)`: pop the target's value, write the value now on top (null if none). */
  function EndVisitAssign(t: Target, st: State): (r: Step)
    ensures r.st.sc == st.sc
    ensures r.out.Normal? ==> |r.st.stack| + 1 == |st.stack|
  {
    var p := Pop(st);
    if !p.out.Normal? then Step(p.out, p.st)
    else match UpdateVal(t, Peek(p.st), p.st.env)
      case Err(x) => Step(Thrown(x), p.st)
      case Ok(env') => Step(Normal, p.st.(env := env'))
  }

  /** `node.accept(visitor)` for an expression node. */
  function Accept(ops: Ops, e: Exp, st: State): (r: Step)
    ensures r.out.Normal? || r.out.Thrown?
    decreases Size(e), 1
  {
    if !Visits(e, st.sc) then Step(Normal, st) else AcceptNode(ops, e, st)
  }

  /** The children in order, then `endVisit(node)`, once `visit(node)` has returned true. */
  function AcceptNode(ops: Ops, e: Exp, st: State): (r: Step)
    ensures r.out.Normal? || r.out.Thrown?
    decreases Size(e), 0
  {
    match e
      case Ident(_, _) => EndVisitTerminal(e, st)
      case Lit(_, _) => EndVisitTerminal(e, st)
      case ArrAccess(a, i) =>
        var ri := Accept(ops, i, st);
        if !ri.out.Normal? then ri
        else
          var ra := Accept(ops, a, ri.st);
          if !ra.out.Normal? then ra else EndVisitArrAccess(ra.st)
      case BAri(l, op, r) =>
        var rl := Accept(ops, l, st);
        if !rl.out.Normal? then rl
        else
          var rr := Accept(ops, r, rl.st);
          if !rr.out.Normal? then rr else EndVisitAri(ops, op, rr.st)
      case Shift(l, op, r) =>
        var rl := Accept(ops, l, st);
        if !rl.out.Normal? then rl
        else
          var rr := Accept(ops, r, rl.st);
          if !rr.out.Normal? then rr else EndVisitShift(ops, op, rr.st)
      case Rel(l, op, r) =>
        var rl := Accept(ops, l, st);
        if !rl.out.Normal? then rl
        else
          var rr := Accept(ops, r, rl.st);
          if !rr.out.Normal? then rr else EndVisitRel(ops, op, rr.st)
      case Log(l, op, r) =>
        var rl := Accept(ops, l, st);
        if !rl.out.Normal? then rl
        else
          var ro := VisitOp(op, rl.st);
          if !ro.out.Normal? then ro
          else
            var rr := Accept(ops, r, ro.st);
            if !rr.out.Normal? then rr else EndVisitLog(op, rr.st)
      case PreInc(t) =>
        TargetExpSize(t);
        var rt := Accept(ops, TargetExp(t), st);
        if !rt.out.Normal? then rt else EndVisitPreInc(ops, t, rt.st)
      case Assign(t, v) =>
        TargetExpSize(t);
        var rv := Accept(ops, v, st);
        if !rv.out.Normal? then rv
        else
          var rt := Accept(ops, TargetExp(t), rv.st);
          if !rt.out.Normal? then rt else EndVisitAssign(t, rt.st)
  }

  /** `getResult()`: the top of the stack, or a RuntimeException when it is empty. */
  function GetResult(st: State): (r: Result<Value>)
    ensures r.Ok? <==> |st.stack| > 0
    ensures r.Ok? ==> r.value == st.stack[|st.stack| - 1]
  {
    if |st.stack| == 0 then Err(RuntimeException) else Ok(Peek(st))
  }

  /** `assertStackIsEmpty()`: "Stack should be empty!" is a RuntimeException. */
  function AssertStackIsEmpty(st: State): (r: Step)
    ensures r.st == st
    ensures r.out == (if st.stack == [] then Normal else Thrown(RuntimeException))
  {
    if st.stack == [] then Step(Normal, st) else Step(Thrown(RuntimeException), st)
  }

  datatype CondStep = CondStep(out: Outcome, cond: bool, st: State)

  /** `visitCondAndEval`: evaluate, pop and unbox the Boolean, then demand an empty stack. */
  function CondAndEval(ops: Ops, c: Exp, st: State): (r: CondStep)
    ensures r.out.Normal? || r.out.Thrown?
    ensures r.out.Normal? ==> r.st.stack == []
  {
    var rc := Accept(ops, c, st);
    if !rc.out.Normal? then CondStep(rc.out, false, rc.st)
    else
      var p := Pop(rc.st);
      if !p.out.Normal? then CondStep(p.out, false, p.st)
      else match UnboxBoolean(p.v)
        case Err(x) => CondStep(Thrown(x), false, p.st)
        case Ok(b) =>
          var re := AssertStackIsEmpty(p.st);
          CondStep(re.out, b, re.st)
  }

  /**
   * How a try statement resumes after its body. `AsWritten` is the source:
   * the handler and the finally block inherit whatever the interrupted
   * expression left on the stack and in the flag. `StackReset` restores the
   * stack and flag the try statement started with, as the JVM does for a
   * handler's operand stack.
   */
  datatype Mode = AsWritten | StackReset

  function Resume(m: Mode, entry: State, cur: State): (r: State)
    ensures r.env == cur.env
    ensures m == AsWritten ==> r == cur
    ensures m == StackReset ==> r.stack == entry.stack && r.sc == entry.sc
  {
    if m == AsWritten then cur else State(entry.stack, entry.sc, cur.env)
  }

  /** `stmt.accept(visitor)` for a statement; `fuel` bounds the loop iterations. */
  function Exec(ops: Ops, m: Mode, s: Stmt, st: State, fuel: nat): (r: Step)
    ensures m == StackReset && r.out.Normal? ==> r.st.stack == [] || r.st.stack == st.stack
    decreases fuel, s, 2
  {
    match s
    case ExprStmt(e) => ExecExprStmt(ops, e, st)
    case If(c, t, el) => ExecIf(ops, m, c, t, el, st, fuel)
    case While(c, b) => ExecWhile(ops, m, c, b, st, fuel)
    case Block(ss) => ExecSeq(ops, m, ss, st, fuel)
    case Try(_, _, _, _) => ExecTry(ops, m, s, st, fuel)
  }

  /** `endVisit(ExprStmt)` after the expression: pop its value and demand an empty stack. */
  function ExecExprStmt(ops: Ops, e: Exp, st: State): (r: Step)
    ensures r.out.Normal? ==> r.st.stack == []
    ensures r.out.Normal? || r.out.Thrown?
  {
    var r := Accept(ops, e, st);
    if !r.out.Normal? then r
    else
      var p := Pop(r.st);
      if !p.out.Normal? then Step(p.out, p.st) else AssertStackIsEmpty(p.st)
  }

  function ExecIf(ops: Ops, m: Mode, c: Exp, t: Stmt, el: Option<Stmt>, st: State, fuel: nat): (r: Step)
    ensures m == StackReset && r.out.Normal? ==> r.st.stack == []
    decreases fuel, If(c, t, el), 0
  {
    var cr := CondAndEval(ops, c, st);
    if !cr.out.Normal? then Step(cr.out, cr.st)
    else if cr.cond then Exec(ops, m, t, cr.st, fuel)
    else if el.Some? then Exec(ops, m, el.value, cr.st, fuel)
    else Step(Normal, cr.st)
  }

  /**
   * try/catch/finally: every Throwable is caught; the handler runs when its
   * class is a subclass of the declared one, otherwise the exception is
   * rethrown; the finally block runs in both cases and a finally block that
   * throws replaces the outcome.
   */
  function ExecTry(ops: Ops, m: Mode, s: Stmt, st: State, fuel: nat): (r: Step)
    requires s.Try?
    ensures m == StackReset && r.out.Normal? ==> r.st.stack == [] || r.st.stack == st.stack
    decreases fuel, s, 1
  {
    var r2 := ExecCatch(ops, m, s, st, fuel);
    if s.fin.None? || r2.out.OutOfFuel? then r2
    else
      var r3 := Exec(ops, m, s.fin.value, Resume(m, st, r2.st), fuel);
      if r3.out.Normal? then Step(r2.out, r3.st) else r3
  }

  /** The try block, then the handler if it threw an exception of the caught class. */
  function ExecCatch(ops: Ops, m: Mode, s: Stmt, st: State, fuel: nat): (r: Step)
    requires s.Try?
    ensures m == StackReset && r.out.Normal? ==> r.st.stack == [] || r.st.stack == st.stack
    decreases fuel, s, 0
  {
    var r1 := Exec(ops, m, s.body, st, fuel);
    if r1.out.Thrown? && SubclassOf(r1.out.exc, s.caught)
    then Exec(ops, m, s.handler, Resume(m, st, r1.st), fuel)
    else r1
  }

  /**
   * `while (visitCondAndEval(cond)) { body; visitCondAndEval(cond); }`: the
   * condition is evaluated once more after every completed iteration and that
   * value is discarded before the loop head evaluates it again.
   */
  function ExecWhile(ops: Ops, m: Mode, c: Exp, b: Stmt, st: State, fuel: nat): (r: Step)
    ensures r.out.Normal? ==> r.st.stack == []
    decreases fuel, While(c, b), 0
  {
    var cr := CondAndEval(ops, c, st);
    if !cr.out.Normal? then Step(cr.out, cr.st)
    else if !cr.cond then Step(Normal, cr.st)
    else if fuel == 0 then Step(OutOfFuel, cr.st)
    else ExecIteration(ops, m, c, b, cr.st, fuel - 1)
  }

  /** One pass through the loop body and the discarded re-evaluation, then back to the loop head. */
  function ExecIteration(ops: Ops, m: Mode, c: Exp, b: Stmt, st: State, fuel: nat): (r: Step)
    ensures r.out.Normal? ==> r.st.stack == []
    decreases fuel, While(c, b), 1
  {
    var rb := Exec(ops, m, b, st, fuel);
    if !rb.out.Normal? then rb
    else
      var again := CondAndEval(ops, c, rb.st);
      if !again.out.Normal? then Step(again.out, again.st)
      else ExecWhile(ops, m, c, b, again.st, fuel)
  }

  /** The statements of a block, in order, up to the first that does not complete normally. */
  function ExecSeq(ops: Ops, m: Mode, ss: seq<Stmt>, st: State, fuel: nat): (r: Step)
    ensures m == StackReset && r.out.Normal? ==> r.st.stack == [] || r.st.stack == st.stack
    decreases fuel, ss, 0
  {
    if ss == [] then Step(Normal, st)
    else
      var r := Exec(ops, m, ss[0], st, fuel);
      if !r.out.Normal? then r else ExecSeq(ops, m, ss[1..], r.st, fuel)
  }
}
