/**
 * How the stack machine of EvalVisitor relates to the stack-free meaning in
 * module Reference: on short-circuit-safe expressions the machine pushes
 * exactly the value ordinary evaluation computes and leaves the stack below
 * it alone; statements agree as long as a handler never inherits a
 * half-evaluated expression's stack.
 */
module EvalProperties {
  import opened Java
  import opened Values
  import opened Ids
  import opened Ast
  import opened Machine
  import opened Reference

  /** The machine step `r`, started on stack `stk` with the flag clear, did what `q` says. */
  predicate Agrees(r: Step, q: Val, stk: seq<Value>)
  {
    r.out == q.out && r.st.env == q.env && !r.st.sc &&
    (q.out.Normal? ==> r.st.stack == stk + [q.v])
  }

  lemma PopPush(st: State, v: Value)
    ensures Pop(Push(st, v)) == Popped(Normal, v, st)
  {
    assert Push(st, v).stack[..|st.stack|] == st.stack;
  }

  /**
   * Evaluating a short-circuit-safe expression with the flag clear pushes its
   * value on whatever stack is there, and ends as ordinary evaluation ends.
   */
  lemma {:induction false} AcceptAgrees(ops: Ops, e: Exp, stk: seq<Value>, env: Env)
    requires ShortCircuitSafe(e)
    ensures Agrees(Accept(ops, e, State(stk, false, env)), Eval(ops, e, env), stk)
    decreases Size(e), 2
  {
    AcceptNodeAgrees(ops, e, stk, env);
  }

  lemma {:induction false} AcceptNodeAgrees(ops: Ops, e: Exp, stk: seq<Value>, env: Env)
    requires ShortCircuitSafe(e)
    ensures Agrees(AcceptNode(ops, e, State(stk, false, env)), Eval(ops, e, env), stk)
    decreases Size(e), 1
  {
    match e
    case Ident(_, _) =>
    case Lit(_, _) =>
    case ArrAccess(a, i) => ArrAccessAgrees(ops, a, i, stk, env);
    case BAri(l, op, r) => AriAgrees(ops, l, op, r, stk, env);
    case Shift(l, op, r) => ShiftAgrees(ops, l, op, r, stk, env);
    case Rel(l, op, r) => RelAgrees(ops, l, op, r, stk, env);
    case Log(l, op, r) => LogAgrees(ops, l, op, r, stk, env);
    case PreInc(t) => PreIncAgrees(ops, t, stk, env);
    case Assign(t, v) => AssignAgrees(ops, t, v, stk, env);
  }

  lemma {:induction false} ArrAccessAgrees(ops: Ops, a: Exp, i: Exp, stk: seq<Value>, env: Env)
    requires ShortCircuitSafe(a) && ShortCircuitSafe(i)
    ensures Agrees(AcceptNode(ops, ArrAccess(a, i), State(stk, false, env)), Eval(ops, ArrAccess(a, i), env), stk)
    decreases Size(ArrAccess(a, i)), 0
  {
    AcceptAgrees(ops, i, stk, env);
    var mi, qi := Accept(ops, i, State(stk, false, env)), Eval(ops, i, env);
    AcceptAgrees(ops, a, stk + [qi.v], qi.env);
    ArrAccessCombine(mi, qi, Accept(ops, a, mi.st), Eval(ops, a, qi.env), stk);
  }

  lemma ArrAccessCombine(mi: Step, qi: Val, ma: Step, qa: Val, stk: seq<Value>)
    requires Agrees(mi, qi, stk)
    requires qi.out.Normal? ==> mi.st == State(stk + [qi.v], false, qi.env) && Agrees(ma, qa, stk + [qi.v])
    ensures Agrees(if !mi.out.Normal? then mi else if !ma.out.Normal? then ma else EndVisitArrAccess(ma.st),
                   if !qi.out.Normal? then qi else if !qa.out.Normal? then qa
                   else if !qi.v.IntV? then Fail(RuntimeException, qa.env)
                   else FromResult(ArrayGet(qa.v, qi.v.i), qa.env),
                   stk)
  {
    if qi.out.Normal? && qa.out.Normal? {
      PopPush(State(stk + [qi.v], false, qa.env), qa.v);
      PopPush(State(stk, false, qa.env), qi.v);
    }
  }

  lemma {:induction false} AriAgrees(ops: Ops, l: Exp, op: AriOp, r: Exp, stk: seq<Value>, env: Env)
    requires ShortCircuitSafe(l) && ShortCircuitSafe(r)
    ensures Agrees(AcceptNode(ops, BAri(l, op, r), State(stk, false, env)), Eval(ops, BAri(l, op, r), env), stk)
    decreases Size(BAri(l, op, r)), 0
  {
    AcceptAgrees(ops, l, stk, env);
    var ml, ql := Accept(ops, l, State(stk, false, env)), Eval(ops, l, env);
    AcceptAgrees(ops, r, stk + [ql.v], ql.env);
    AriCombine(ops, op, ml, ql, Accept(ops, r, ml.st), Eval(ops, r, ql.env), stk);
  }

  lemma AriCombine(ops: Ops, op: AriOp, ml: Step, ql: Val, mr: Step, qr: Val, stk: seq<Value>)
    requires Agrees(ml, ql, stk)
    requires ql.out.Normal? ==> ml.st == State(stk + [ql.v], false, ql.env) && Agrees(mr, qr, stk + [ql.v])
    ensures Agrees(if !ml.out.Normal? then ml else if !mr.out.Normal? then mr else EndVisitAri(ops, op, mr.st),
                   if !ql.out.Normal? then ql else if !qr.out.Normal? then qr
                   else FromResult(ops.ari(op, ql.v, qr.v), qr.env),
                   stk)
  {
    if ql.out.Normal? && qr.out.Normal? {
      PopPush(State(stk + [ql.v], false, qr.env), qr.v);
      PopPush(State(stk, false, qr.env), ql.v);
    }
  }

  lemma {:induction false} ShiftAgrees(ops: Ops, l: Exp, op: ShiftOp, r: Exp, stk: seq<Value>, env: Env)
    requires ShortCircuitSafe(l) && ShortCircuitSafe(r)
    ensures Agrees(AcceptNode(ops, Shift(l, op, r), State(stk, false, env)), Eval(ops, Shift(l, op, r), env), stk)
    decreases Size(Shift(l, op, r)), 0
  {
    AcceptAgrees(ops, l, stk, env);
    var ml, ql := Accept(ops, l, State(stk, false, env)), Eval(ops, l, env);
    AcceptAgrees(ops, r, stk + [ql.v], ql.env);
    ShiftCombine(ops, op, ml, ql, Accept(ops, r, ml.st), Eval(ops, r, ql.env), stk);
  }

  lemma ShiftCombine(ops: Ops, op: ShiftOp, ml: Step, ql: Val, mr: Step, qr: Val, stk: seq<Value>)
    requires Agrees(ml, ql, stk)
    requires ql.out.Normal? ==> ml.st == State(stk + [ql.v], false, ql.env) && Agrees(mr, qr, stk + [ql.v])
    ensures Agrees(if !ml.out.Normal? then ml else if !mr.out.Normal? then mr else EndVisitShift(ops, op, mr.st),
                   if !ql.out.Normal? then ql else if !qr.out.Normal? then qr
                   else if !qr.v.IntV? then Fail(RuntimeException, qr.env)
                   else FromResult(ops.shift(op, ql.v, qr.v.i), qr.env),
                   stk)
  {
    if ql.out.Normal? && qr.out.Normal? {
      PopPush(State(stk + [ql.v], false, qr.env), qr.v);
      PopPush(State(stk, false, qr.env), ql.v);
    }
  }

  lemma {:induction false} RelAgrees(ops: Ops, l: Exp, op: RelOp, r: Exp, stk: seq<Value>, env: Env)
    requires ShortCircuitSafe(l) && ShortCircuitSafe(r)
    ensures Agrees(AcceptNode(ops, Rel(l, op, r), State(stk, false, env)), Eval(ops, Rel(l, op, r), env), stk)
    decreases Size(Rel(l, op, r)), 0
  {
    AcceptAgrees(ops, l, stk, env);
    var ml, ql := Accept(ops, l, State(stk, false, env)), Eval(ops, l, env);
    AcceptAgrees(ops, r, stk + [ql.v], ql.env);
    RelCombine(ops, op, ml, ql, Accept(ops, r, ml.st), Eval(ops, r, ql.env), stk);
  }

  lemma RelCombine(ops: Ops, op: RelOp, ml: Step, ql: Val, mr: Step, qr: Val, stk: seq<Value>)
    requires Agrees(ml, ql, stk)
    requires ql.out.Normal? ==> ml.st == State(stk + [ql.v], false, ql.env) && Agrees(mr, qr, stk + [ql.v])
    ensures Agrees(if !ml.out.Normal? then ml else if !mr.out.Normal? then mr else EndVisitRel(ops, op, mr.st),
                   if !ql.out.Normal? then ql else if !qr.out.Normal? then qr
                   else FromResult(ops.rel(op, ql.v, qr.v), qr.env),
                   stk)
  {
    if ql.out.Normal? && qr.out.Normal? {
      PopPush(State(stk + [ql.v], false, qr.env), qr.v);
      PopPush(State(stk, false, qr.env), ql.v);
    }
  }

  lemma {:induction false} LogAgrees(ops: Ops, l: Exp, op: LogOp, r: Exp, stk: seq<Value>, env: Env)
    requires SkippedWhenShortCircuit(r) && ShortCircuitSafe(l) && ShortCircuitSafe(r)
    ensures Agrees(AcceptNode(ops, Log(l, op, r), State(stk, false, env)), Eval(ops, Log(l, op, r), env), stk)
    decreases Size(Log(l, op, r)), 0
  {
    AcceptAgrees(ops, l, stk, env);
    var ml, ql := Accept(ops, l, State(stk, false, env)), Eval(ops, l, env);
    AcceptAgrees(ops, r, stk + [ql.v], ql.env);
    var ro := VisitOp(op, ml.st);
    LogCombine(op, ml, ql, ro, Accept(ops, r, ro.st), Eval(ops, r, ql.env), stk);
  }

  lemma LogCombine(op: LogOp, ml: Step, ql: Val, ro: Step, mr: Step, qr: Val, stk: seq<Value>)
    requires Agrees(ml, ql, stk)
    requires ql.out.Normal? ==> ml.st == State(stk + [ql.v], false, ql.env) && ro == VisitOp(op, ml.st)
    requires ql.out.Normal? && ql.v.BoolV? && Decides(op, ql.v.b) ==> mr == Step(Normal, ro.st)
    requires ql.out.Normal? && ql.v.BoolV? && !Decides(op, ql.v.b) ==> Agrees(mr, qr, stk + [ql.v])
    ensures Agrees(if !ml.out.Normal? then ml else if !ro.out.Normal? then ro
                   else if !mr.out.Normal? then mr else EndVisitLog(op, mr.st),
                   if !ql.out.Normal? then ql else if !ql.v.BoolV? then Fail(RuntimeException, ql.env)
                   else if Decides(op, ql.v.b) then ql
                   else if !qr.out.Normal? then qr else if !qr.v.BoolV? then Fail(RuntimeException, qr.env)
                   else Val(Normal, BoolV(ApplyLog(op, ql.v.b, qr.v.b)), qr.env),
                   stk)
  {
    if ql.out.Normal? && ql.v.BoolV? && !Decides(op, ql.v.b) && qr.out.Normal? {
      PopPush(State(stk + [ql.v], false, qr.env), qr.v);
      PopPush(State(stk, false, qr.env), ql.v);
    }
  }

  lemma {:induction false} PreIncAgrees(ops: Ops, t: Target, stk: seq<Value>, env: Env)
    ensures Agrees(AcceptNode(ops, PreInc(t), State(stk, false, env)), Eval(ops, PreInc(t), env), stk)
    decreases Size(PreInc(t)), 0
  {
    TargetExpSize(t);
    AcceptAgrees(ops, TargetExp(t), stk, env);
    var q := Eval(ops, TargetExp(t), env);
    if q.out.Normal? {
      PopPush(State(stk, false, q.env), q.v);
    }
  }

  lemma {:induction false} AssignAgrees(ops: Ops, t: Target, v: Exp, stk: seq<Value>, env: Env)
    requires ShortCircuitSafe(v)
    ensures Agrees(AcceptNode(ops, Assign(t, v), State(stk, false, env)), Eval(ops, Assign(t, v), env), stk)
    decreases Size(Assign(t, v)), 0
  {
    TargetExpSize(t);
    AcceptAgrees(ops, v, stk, env);
    var mv, qv := Accept(ops, v, State(stk, false, env)), Eval(ops, v, env);
    AcceptAgrees(ops, TargetExp(t), stk + [qv.v], qv.env);
    AssignCombine(t, mv, qv, Accept(ops, TargetExp(t), mv.st), Eval(ops, TargetExp(t), qv.env), stk);
  }

  lemma AssignCombine(t: Target, mv: Step, qv: Val, mt: Step, qt: Val, stk: seq<Value>)
    requires Agrees(mv, qv, stk)
    requires qv.out.Normal? ==> mv.st == State(stk + [qv.v], false, qv.env) && Agrees(mt, qt, stk + [qv.v])
    ensures Agrees(if !mv.out.Normal? then mv else if !mt.out.Normal? then mt else EndVisitAssign(t, mt.st),
                   if !qv.out.Normal? then qv else if !qt.out.Normal? then qt
                   else match UpdateVal(t, qv.v, qt.env)
                     case Err(x) => Fail(x, qt.env)
                     case Ok(env') => Val(Normal, qv.v, env'),
                   stk)
  {
    if qv.out.Normal? && qt.out.Normal? {
      PopPush(State(stk + [qv.v], false, qt.env), qt.v);
    }
  }

  /** The machine's statement step `r`, started on an empty stack with the flag clear, did what `q` says. */
  predicate Matches(r: Step, q: Done)
  {
    r.out == q.out && r.st.env == q.env && (r.out.Normal? ==> r.st.stack == [] && !r.st.sc)
  }

  /** `visitCondAndEval` on an empty stack is evaluation followed by the Boolean unboxing. */
  lemma CondAgrees(ops: Ops, c: Exp, env: Env)
    requires ShortCircuitSafe(c)
    ensures var r, q := CondAndEval(ops, c, State([], false, env)), EvalCond(ops, c, env);
      r.out == q.out && r.cond == q.cond && r.st.env == q.env &&
      (r.out.Normal? ==> r.st == State([], false, q.env))
  {
    AcceptAgrees(ops, c, [], env);
    var q := Eval(ops, c, env);
    if q.out.Normal? {
      assert Accept(ops, c, State([], false, env)).st == Push(State([], false, q.env), q.v);
      PopPush(State([], false, q.env), q.v);
    }
  }

  /**
   * With the try statement corrected (`StackReset`), a safe statement run
   * from an empty stack ends as the stack-free semantics says, in outcome
   * and environment, and a normal end leaves the stack empty and the flag
   * clear.
   */
  lemma {:induction false} ExecAgrees(ops: Ops, s: Stmt, env: Env, fuel: nat)
    requires SafeStmt(s)
    ensures Matches(Exec(ops, StackReset, s, State([], false, env), fuel), Run(ops, s, env, fuel))
    decreases fuel, s, 2
  {
    match s
    case ExprStmt(e) =>
      AcceptAgrees(ops, e, [], env);
      var q := Eval(ops, e, env);
      if q.out.Normal? {
        PopPush(State([], false, q.env), q.v);
      }
    case If(c, t, el) => IfAgrees(ops, c, t, el, env, fuel);
    case While(c, b) => WhileAgrees(ops, c, b, env, fuel);
    case Block(ss) => SeqAgrees(ops, ss, env, fuel);
    case Try(_, _, _, _) => TryAgrees(ops, s, env, fuel);
  }

  lemma {:induction false} IfAgrees(ops: Ops, c: Exp, t: Stmt, el: Option<Stmt>, env: Env, fuel: nat)
    requires SafeStmt(If(c, t, el))
    ensures Matches(ExecIf(ops, StackReset, c, t, el, State([], false, env), fuel), Run(ops, If(c, t, el), env, fuel))
    decreases fuel, If(c, t, el), 1
  {
    CondAgrees(ops, c, env);
    var q := EvalCond(ops, c, env);
    if q.out.Normal? {
      if q.cond {
        ExecAgrees(ops, t, q.env, fuel);
      } else if el.Some? {
        ExecAgrees(ops, el.value, q.env, fuel);
      }
    }
  }

  lemma {:induction false} WhileAgrees(ops: Ops, c: Exp, b: Stmt, env: Env, fuel: nat)
    requires SafeStmt(While(c, b))
    ensures Matches(ExecWhile(ops, StackReset, c, b, State([], false, env), fuel), RunWhile(ops, c, b, env, fuel))
    decreases fuel, While(c, b), 0
  {
    CondAgrees(ops, c, env);
    var q := EvalCond(ops, c, env);
    if q.out.Normal? && q.cond && fuel > 0 {
      IterationAgrees(ops, c, b, q.env, fuel - 1);
    }
  }

  /**
   * One iteration: the body, then the discarded re-evaluation of the
   * condition, which changes nothing because the condition writes nothing.
   */
  lemma {:induction false} IterationAgrees(ops: Ops, c: Exp, b: Stmt, env: Env, fuel: nat)
    requires SafeStmt(While(c, b))
    ensures Matches(ExecIteration(ops, StackReset, c, b, State([], false, env), fuel),
                    var rb := Run(ops, b, env, fuel);
                    if !rb.out.Normal? then rb else RunWhile(ops, c, b, rb.env, fuel))
    decreases fuel, While(c, b), 1
  {
    ExecAgrees(ops, b, env, fuel);
    var rb := Run(ops, b, env, fuel);
    if rb.out.Normal? {
      CondAgrees(ops, c, rb.env);
      ReadOnlyEval(ops, c, rb.env);
      WhileAgrees(ops, c, b, rb.env, fuel);
    }
  }

  lemma {:induction false} SeqAgrees(ops: Ops, ss: seq<Stmt>, env: Env, fuel: nat)
    requires SafeSeq(ss)
    ensures Matches(ExecSeq(ops, StackReset, ss, State([], false, env), fuel), RunSeq(ops, ss, env, fuel))
    decreases fuel, ss, 0
  {
    if ss != [] {
      ExecAgrees(ops, ss[0], env, fuel);
      var r := Run(ops, ss[0], env, fuel);
      if r.out.Normal? {
        SeqAgrees(ops, ss[1..], r.env, fuel);
      }
    }
  }

  lemma {:induction false} TryAgrees(ops: Ops, s: Stmt, env: Env, fuel: nat)
    requires s.Try? && SafeStmt(s)
    ensures Matches(ExecTry(ops, StackReset, s, State([], false, env), fuel), Run(ops, s, env, fuel))
    decreases fuel, s, 1
  {
    CatchAgrees(ops, s, env, fuel);
    var r1 := Run(ops, s.body, env, fuel);
    var r2 := if r1.out.Thrown? && SubclassOf(r1.out.exc, s.caught) then Run(ops, s.handler, r1.env, fuel) else r1;
    if s.fin.Some? && !r2.out.OutOfFuel? {
      ExecAgrees(ops, s.fin.value, r2.env, fuel);
    }
  }

  lemma {:induction false} CatchAgrees(ops: Ops, s: Stmt, env: Env, fuel: nat)
    requires s.Try? && SafeStmt(s)
    ensures Matches(ExecCatch(ops, StackReset, s, State([], false, env), fuel),
                    var r1 := Run(ops, s.body, env, fuel);
                    if r1.out.Thrown? && SubclassOf(r1.out.exc, s.caught) then Run(ops, s.handler, r1.env, fuel) else r1)
    decreases fuel, s, 0
  {
    ExecAgrees(ops, s.body, env, fuel);
    var r1 := Run(ops, s.body, env, fuel);
    if r1.out.Thrown? && SubclassOf(r1.out.exc, s.caught) {
      ExecAgrees(ops, s.handler, r1.env, fuel);
    }
  }

  /** Without a try statement the two modes cannot be told apart, from any state. */
  lemma {:induction false} ModeIrrelevantWithoutTry(ops: Ops, s: Stmt, st: State, fuel: nat)
    requires TryFree(s)
    ensures Exec(ops, AsWritten, s, st, fuel) == Exec(ops, StackReset, s, st, fuel)
    decreases fuel, s, 2
  {
    match s
    case ExprStmt(_) =>
    case If(c, t, el) => IfModes(ops, c, t, el, st, fuel);
    case While(c, b) => WhileModes(ops, c, b, st, fuel);
    case Block(ss) => SeqModes(ops, ss, st, fuel);
    case Try(_, _, _, _) => assert false;
  }

  lemma {:induction false} IfModes(ops: Ops, c: Exp, t: Stmt, el: Option<Stmt>, st: State, fuel: nat)
    requires TryFree(If(c, t, el))
    ensures ExecIf(ops, AsWritten, c, t, el, st, fuel) == ExecIf(ops, StackReset, c, t, el, st, fuel)
    decreases fuel, If(c, t, el), 1
  {
    var cr := CondAndEval(ops, c, st);
    if cr.out.Normal? {
      if cr.cond {
        ModeIrrelevantWithoutTry(ops, t, cr.st, fuel);
      } else if el.Some? {
        ModeIrrelevantWithoutTry(ops, el.value, cr.st, fuel);
      }
    }
  }

  lemma {:induction false} WhileModes(ops: Ops, c: Exp, b: Stmt, st: State, fuel: nat)
    requires TryFree(b)
    ensures ExecWhile(ops, AsWritten, c, b, st, fuel) == ExecWhile(ops, StackReset, c, b, st, fuel)
    decreases fuel, While(c, b), 0
  {
    var cr := CondAndEval(ops, c, st);
    if cr.out.Normal? && cr.cond && fuel > 0 {
      IterationModes(ops, c, b, cr.st, fuel - 1);
    }
  }

  lemma {:induction false} IterationModes(ops: Ops, c: Exp, b: Stmt, st: State, fuel: nat)
    requires TryFree(b)
    ensures ExecIteration(ops, AsWritten, c, b, st, fuel) == ExecIteration(ops, StackReset, c, b, st, fuel)
    decreases fuel, While(c, b), 1
  {
    ModeIrrelevantWithoutTry(ops, b, st, fuel);
    var rb := Exec(ops, AsWritten, b, st, fuel);
    if rb.out.Normal? {
      var again := CondAndEval(ops, c, rb.st);
      if again.out.Normal? {
        WhileModes(ops, c, b, again.st, fuel);
      }
    }
  }

  lemma {:induction false} SeqModes(ops: Ops, ss: seq<Stmt>, st: State, fuel: nat)
    requires TryFreeSeq(ss)
    ensures ExecSeq(ops, AsWritten, ss, st, fuel) == ExecSeq(ops, StackReset, ss, st, fuel)
    decreases fuel, ss, 0
  {
    if ss != [] {
      ModeIrrelevantWithoutTry(ops, ss[0], st, fuel);
      var r := Exec(ops, AsWritten, ss[0], st, fuel);
      if r.out.Normal? {
        SeqModes(ops, ss[1..], r.st, fuel);
      }
    }
  }

  /** The evaluator as written agrees with the stack-free semantics on safe statements without try. */
  lemma AsWrittenAgreesWithoutTry(ops: Ops, s: Stmt, env: Env, fuel: nat)
    requires SafeStmt(s) && TryFree(s)
    ensures Matches(Exec(ops, AsWritten, s, State([], false, env), fuel), Run(ops, s, env, fuel))
  {
    ModeIrrelevantWithoutTry(ops, s, State([], false, env), fuel);
    ExecAgrees(ops, s, env, fuel);
  }

  /**
   * A decided left operand suppresses the right one: the logic node leaves
   * exactly the left value on the stack and the environment as the left
   * operand left it, whatever the right operand would have written.
   */
  lemma ShortCircuitSkipsRight(ops: Ops, l: Exp, op: LogOp, r: Exp, stk: seq<Value>, env: Env)
    requires ShortCircuitSafe(Log(l, op, r))
    requires Eval(ops, l, env).out.Normal? && Eval(ops, l, env).v.BoolV? && Decides(op, Eval(ops, l, env).v.b)
    ensures Accept(ops, Log(l, op, r), State(stk, false, env))
         == Step(Normal, State(stk + [Eval(ops, l, env).v], false, Eval(ops, l, env).env))
  {
    AcceptAgrees(ops, Log(l, op, r), stk, env);
  }

  /** `catch (Throwable e)` catches everything the try block throws, the evaluator's own exceptions included. */
  lemma CatchThrowableCatchesAll(ops: Ops, m: Mode, s: Stmt, st: State, fuel: nat)
    requires s.Try? && s.caught == Throwable
    requires Exec(ops, m, s.body, st, fuel).out.Thrown?
    ensures ExecCatch(ops, m, s, st, fuel) == Exec(ops, m, s.handler, Resume(m, st, Exec(ops, m, s.body, st, fuel).st), fuel)
  {
    EverythingIsThrowable(Exec(ops, m, s.body, st, fuel).out.exc);
  }

  /** An exception of a class outside the caught one passes the handler by. */
  lemma UncaughtPassesThrough(ops: Ops, m: Mode, s: Stmt, st: State, fuel: nat)
    requires s.Try? && Exec(ops, m, s.body, st, fuel).out.Thrown?
    requires !SubclassOf(Exec(ops, m, s.body, st, fuel).out.exc, s.caught)
    ensures ExecCatch(ops, m, s, st, fuel) == Exec(ops, m, s.body, st, fuel)
  {
  }
}
