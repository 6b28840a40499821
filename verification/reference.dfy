/**
 * The evaluator's meaning without its operand stack: ordinary call-by-value
 * evaluation of a sketch-language expression against the binding
 * environment, and statement execution that evaluates a loop condition once
 * per iteration. Exception classes are the ones the evaluator raises. Module
 * EvalProperties proves where the stack machine agrees with this and where
 * it does not.
 */
module Reference {
  import opened Java
  import opened Values
  import opened Ids
  import opened Ast
  import opened Machine

  /** The outcome of evaluating an expression, its value when normal, and the environment after. */
  datatype Val = Val(out: Outcome, v: Value, env: Env)

  function Fail(x: ExcClass, env: Env): Val
  {
    Val(Thrown(x), NullV, env)
  }

  function FromResult(r: Result<Value>, env: Env): Val
  {
    match r
    case Ok(v) => Val(Normal, v, env)
    case Err(x) => Fail(x, env)
  }

  /** Left to right evaluation with Java's conditional `&&` and `||`. */
  function Eval(ops: Ops, e: Exp, env: Env): (r: Val)
    ensures r.out.Normal? || r.out.Thrown?
    ensures env.Keys <= r.env.Keys
    decreases Size(e)
  {
    match e
    case Ident(_, b) => Val(Normal, Lookup(env, b), env)
    case Lit(_, v) => Val(Normal, v, env)
    case ArrAccess(a, i) =>
      var ri := Eval(ops, i, env);
      if !ri.out.Normal? then ri
      else
        var ra := Eval(ops, a, ri.env);
        if !ra.out.Normal? then ra
        else if !ri.v.IntV? then Fail(RuntimeException, ra.env)
        else FromResult(ArrayGet(ra.v, ri.v.i), ra.env)
    case BAri(l, op, r) =>
      var rl := Eval(ops, l, env);
      if !rl.out.Normal? then rl
      else
        var rr := Eval(ops, r, rl.env);
        if !rr.out.Normal? then rr
        else FromResult(ops.ari(op, rl.v, rr.v), rr.env)
    case Shift(l, op, r) =>
      var rl := Eval(ops, l, env);
      if !rl.out.Normal? then rl
      else
        var rr := Eval(ops, r, rl.env);
        if !rr.out.Normal? then rr
        else if !rr.v.IntV? then Fail(RuntimeException, rr.env)
        else FromResult(ops.shift(op, rl.v, rr.v.i), rr.env)
    case Rel(l, op, r) =>
      var rl := Eval(ops, l, env);
      if !rl.out.Normal? then rl
      else
        var rr := Eval(ops, r, rl.env);
        if !rr.out.Normal? then rr
        else FromResult(ops.rel(op, rl.v, rr.v), rr.env)
    case Log(l, op, r) =>
      var rl := Eval(ops, l, env);
      if !rl.out.Normal? then rl
      else if !rl.v.BoolV? then Fail(RuntimeException, rl.env)
      else if Decides(op, rl.v.b) then rl
      else
        var rr := Eval(ops, r, rl.env);
        if !rr.out.Normal? then rr
        else if !rr.v.BoolV? then Fail(RuntimeException, rr.env)
        else Val(Normal, BoolV(ApplyLog(op, rl.v.b, rr.v.b)), rr.env)
    case PreInc(t) =>
      TargetExpSize(t);
      var rt := Eval(ops, TargetExp(t), env);
      if !rt.out.Normal? then rt
      else
        (match ops.preInc(rt.v)
         case Err(x) => Fail(x, rt.env)
         case Ok(nv) =>
           match UpdateVal(t, nv, rt.env)
           case Err(x) => Fail(x, rt.env)
           case Ok(env') => Val(Normal, nv, env'))
    case Assign(t, v) =>
      TargetExpSize(t);
      var rv := Eval(ops, v, env);
      if !rv.out.Normal? then rv
      else
        var rt := Eval(ops, TargetExp(t), rv.env);
        if !rt.out.Normal? then rt
        else match UpdateVal(t, rv.v, rt.env)
          case Err(x) => Fail(x, rt.env)
          case Ok(env') => Val(Normal, rv.v, env')
  }

  /** A statement's outcome and the environment it leaves. */
  datatype Done = Done(out: Outcome, env: Env)

  datatype Cond = Cond(out: Outcome, cond: bool, env: Env)

  /** Evaluate a condition and unbox it. */
  function EvalCond(ops: Ops, c: Exp, env: Env): (r: Cond)
    ensures r.out.Normal? || r.out.Thrown?
    ensures r.env == Eval(ops, c, env).env
    ensures r.out.Normal? <==> Eval(ops, c, env).out.Normal? && Eval(ops, c, env).v.BoolV?
    ensures r.out.Normal? ==> Eval(ops, c, env).v == BoolV(r.cond)
  {
    var r := Eval(ops, c, env);
    if !r.out.Normal? then Cond(r.out, false, r.env)
    else match UnboxBoolean(r.v)
      case Err(x) => Cond(Thrown(x), false, r.env)
      case Ok(b) => Cond(Normal, b, r.env)
  }

  function Run(ops: Ops, s: Stmt, env: Env, fuel: nat): (r: Done)
    ensures env.Keys <= r.env.Keys
    decreases fuel, s, 1
  {
    match s
    case ExprStmt(e) =>
      var r := Eval(ops, e, env);
      Done(r.out, r.env)
    case If(c, t, el) =>
      var cr := EvalCond(ops, c, env);
      if !cr.out.Normal? then Done(cr.out, cr.env)
      else if cr.cond then Run(ops, t, cr.env, fuel)
      else if el.Some? then Run(ops, el.value, cr.env, fuel)
      else Done(Normal, cr.env)
    case While(c, b) => RunWhile(ops, c, b, env, fuel)
    case Block(ss) => RunSeq(ops, ss, env, fuel)
    case Try(b, caught, h, f) =>
      var r1 := Run(ops, b, env, fuel);
      var r2 := if r1.out.Thrown? && SubclassOf(r1.out.exc, caught) then Run(ops, h, r1.env, fuel) else r1;
      if f.None? || r2.out.OutOfFuel? then r2
      else
        var r3 := Run(ops, f.value, r2.env, fuel);
        if r3.out.Normal? then Done(r2.out, r3.env) else r3
  }

  /** The loop condition is evaluated once per iteration, before the body. */
  function RunWhile(ops: Ops, c: Exp, b: Stmt, env: Env, fuel: nat): (r: Done)
    ensures env.Keys <= r.env.Keys
    decreases fuel, While(c, b), 0
  {
    var cr := EvalCond(ops, c, env);
    if !cr.out.Normal? then Done(cr.out, cr.env)
    else if !cr.cond then Done(Normal, cr.env)
    else if fuel == 0 then Done(OutOfFuel, cr.env)
    else
      var rb := Run(ops, b, cr.env, fuel - 1);
      if !rb.out.Normal? then rb else RunWhile(ops, c, b, rb.env, fuel - 1)
  }

  function RunSeq(ops: Ops, ss: seq<Stmt>, env: Env, fuel: nat): (r: Done)
    ensures env.Keys <= r.env.Keys
    decreases fuel, ss, 0
  {
    if ss == [] then Done(Normal, env)
    else
      var r := Run(ops, ss[0], env, fuel);
      if !r.out.Normal? then r else RunSeq(ops, ss[1..], r.env, fuel)
  }

  /** A loop whose condition writes nothing ends normally only where that condition is false. */
  lemma {:induction false} RunWhileExit(ops: Ops, c: Exp, b: Stmt, env: Env, fuel: nat)
    requires Writes(c) == {}
    ensures RunWhile(ops, c, b, env, fuel).out.Normal? ==>
      EvalCond(ops, c, RunWhile(ops, c, b, env, fuel).env) == Cond(Normal, false, RunWhile(ops, c, b, env, fuel).env)
    decreases fuel
  {
    CondReadOnly(ops, c, env);
    var cr := EvalCond(ops, c, env);
    if cr.out.Normal? && cr.cond && fuel > 0 {
      var rb := Run(ops, b, cr.env, fuel - 1);
      if rb.out.Normal? {
        RunWhileExit(ops, c, b, rb.env, fuel - 1);
      }
    }
  }

  /** A condition that writes no binding leaves the environment as it found it. */
  lemma CondReadOnly(ops: Ops, c: Exp, env: Env)
    ensures Writes(c) == {} ==> EvalCond(ops, c, env).env == env
  {
    if Writes(c) == {} {
      ReadOnlyEval(ops, c, env);
    }
  }

  /** An expression that writes no binding leaves the environment as it found it. */
  lemma {:induction false} ReadOnlyEval(ops: Ops, e: Exp, env: Env)
    requires Writes(e) == {}
    ensures Eval(ops, e, env).env == env
    decreases Size(e)
  {
    match e
    case Ident(_, _) =>
    case Lit(_, _) =>
    case ArrAccess(a, i) =>
      ReadOnlyEval(ops, i, env);
      ReadOnlyEval(ops, a, env);
    case BAri(l, _, r) =>
      ReadOnlyEval(ops, l, env);
      ReadOnlyEval(ops, r, env);
    case Shift(l, _, r) =>
      ReadOnlyEval(ops, l, env);
      ReadOnlyEval(ops, r, env);
    case Rel(l, _, r) =>
      ReadOnlyEval(ops, l, env);
      ReadOnlyEval(ops, r, env);
    case Log(l, _, r) =>
      ReadOnlyEval(ops, l, env);
      ReadOnlyEval(ops, r, env);
  }
}
