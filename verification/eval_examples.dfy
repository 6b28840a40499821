/**
 * Concrete programs on which the evaluator as written and the stack-free
 * semantics part ways: a handler that inherits a half-evaluated
 * expression's stack, a logic operator whose right operand is not of a
 * skipped class, and a loop condition that writes.
 */
module EvalExamples {
  import opened Java
  import opened Values
  import opened Ids
  import opened Ast
  import opened Machine
  import opened Reference
  import opened EvalProperties
  import opened EvalFrames

  function IntLit(n: int32): Exp
  {
    Lit(ImIntValKind, IntV(n))
  }

  /** `z = 1 + 1 / 0;` */
  function DivByZeroAssign(): Stmt
  {
    ExprStmt(Assign(TId(IntId(["z"]), "z"), BAri(IntLit(1), ADD, BAri(IntLit(1), DIV, IntLit(0)))))
  }

  /** `w = 1;` */
  function SetW(): Stmt
  {
    ExprStmt(Assign(TId(IntId(["w"]), "w"), IntLit(1)))
  }

  /** `try { z = 1 + 1 / 0; } catch (ArithmeticException e) { w = 1; }` */
  function CatchDivByZero(): Stmt
  {
    Try(DivByZeroAssign(), ArithmeticException, SetW(), None)
  }

  /** The division throws while the addition's left operand is still on the stack. */
  lemma DivByZeroLeavesOperand(fp: FloatOps, env: Env)
    ensures Exec(JavaOps(fp), AsWritten, DivByZeroAssign(), State([], false, env), 0)
         == Step(Thrown(ArithmeticException), State([IntV(1)], false, env))
  {
    var ops := JavaOps(fp);
    var e := DivByZeroAssign().e;
    AssignDivByZeroThrows(fp, env);
    assert Exec(ops, AsWritten, DivByZeroAssign(), State([], false, env), 0) == ExecExprStmt(ops, e, State([], false, env));
  }

  /** The assignment's value throws before the target is read, leaving the addition's left operand. */
  lemma AssignDivByZeroThrows(fp: FloatOps, env: Env)
    ensures Accept(JavaOps(fp), DivByZeroAssign().e, State([], false, env))
         == Step(Thrown(ArithmeticException), State([IntV(1)], false, env))
  {
    var ops := JavaOps(fp);
    var one := [IntV(1)];
    assert Accept(ops, IntLit(1), State([], false, env)) == Step(Normal, State(one, false, env));
    DivByZeroThrows(fp, one, env);
    var sum := BAri(IntLit(1), ADD, BAri(IntLit(1), DIV, IntLit(0)));
    assert Accept(ops, sum, State([], false, env)) == Step(Thrown(ArithmeticException), State(one, false, env));
  }

  /** `1 / 0` pushes both operands, pops them, and throws, leaving the stack as it found it. */
  lemma DivByZeroThrows(fp: FloatOps, stack: seq<Value>, env: Env)
    ensures Accept(JavaOps(fp), BAri(IntLit(1), DIV, IntLit(0)), State(stack, false, env))
         == Step(Thrown(ArithmeticException), State(stack, false, env))
  {
    var ops := JavaOps(fp);
    assert Accept(ops, IntLit(1), State(stack, false, env)) == Step(Normal, State(stack + [IntV(1)], false, env));
    assert Accept(ops, IntLit(0), State(stack + [IntV(1)], false, env))
        == Step(Normal, State(stack + [IntV(1)] + [IntV(0)], false, env));
    PopPush(State(stack + [IntV(1)], false, env), IntV(0));
    PopPush(State(stack, false, env), IntV(1));
    assert ops.ari(DIV, IntV(1), IntV(0)) == Err(ArithmeticException);
  }

  /** `w = 1;` started on a stack that already holds a value ends with "Stack should be empty!". */
  lemma SetWOnLeftover(fp: FloatOps, env: Env)
    ensures Exec(JavaOps(fp), AsWritten, SetW(), State([IntV(1)], false, env), 0)
         == Step(Thrown(RuntimeException), State([IntV(1)], false, env["w" := IntV(1)]))
  {
    var ops := JavaOps(fp);
    var e := Assign(TId(IntId(["w"]), "w"), IntLit(1));
    assert Eval(ops, e, env) == Val(Normal, IntV(1), env["w" := IntV(1)]);
    AcceptAgrees(ops, e, [IntV(1)], env);
    var after := State([IntV(1)], false, env["w" := IntV(1)]);
    assert Accept(ops, e, State([IntV(1)], false, env)) == Step(Normal, Push(after, IntV(1)));
    PopPush(after, IntV(1));
  }

  /**
   * The handler runs on that leftover stack, so the statement that ends it
   * finds the stack not empty: the caught exception is replaced by
   * "Stack should be empty!" although the handler's assignment took place.
   */
  lemma HandlerInheritsStack(fp: FloatOps, env: Env)
    ensures Exec(JavaOps(fp), AsWritten, CatchDivByZero(), State([], false, env), 0)
         == Step(Thrown(RuntimeException), State([IntV(1)], false, env["w" := IntV(1)]))
  {
    DivByZeroLeavesOperand(fp, env);
    SetWOnLeftover(fp, env);
    assert SubclassOf(ArithmeticException, ArithmeticException);
  }

  /** `try { z = 1 + 1 / 0; } catch (ArithmeticException e) { }` */
  function CatchDivByZeroSilently(): Stmt
  {
    Try(DivByZeroAssign(), ArithmeticException, Block([]), None)
  }

  /**
   * An empty handler completes normally on the leftover stack, so the try
   * statement ends unclean and the next statement of the block fails.
   */
  lemma SilentHandlerLeavesStack(fp: FloatOps, env: Env)
    ensures Exec(JavaOps(fp), AsWritten, CatchDivByZeroSilently(), State([], false, env), 0)
         == Step(Normal, State([IntV(1)], false, env))
    ensures Exec(JavaOps(fp), AsWritten, Block([CatchDivByZeroSilently(), SetW()]), State([], false, env), 0)
         == Step(Thrown(RuntimeException), State([IntV(1)], false, env["w" := IntV(1)]))
  {
    DivByZeroLeavesOperand(fp, env);
    assert SubclassOf(ArithmeticException, ArithmeticException);
    var ss := [CatchDivByZeroSilently(), SetW()];
    SetWOnLeftover(fp, env);
    assert ss[1..] == [SetW()];
  }

  /** The same program under ordinary Java semantics completes normally with w = 1. */
  lemma CatchDivByZeroReference(fp: FloatOps, env: Env)
    ensures Run(JavaOps(fp), CatchDivByZero(), env, 0) == Done(Normal, env["w" := IntV(1)])
  {
    var ops := JavaOps(fp);
    assert ops.ari(DIV, IntV(1), IntV(0)) == Err(ArithmeticException);
    assert Eval(ops, BAri(IntLit(1), DIV, IntLit(0)), env) == Fail(ArithmeticException, env);
    assert Run(ops, DivByZeroAssign(), env, 0) == Done(Thrown(ArithmeticException), env);
    assert Run(ops, SetW(), env, 0) == Done(Normal, env["w" := IntV(1)]);
  }

  /** With the stack restored before the handler, the evaluator completes normally as Java does. */
  lemma CatchDivByZeroCorrected(fp: FloatOps, env: Env)
    ensures Exec(JavaOps(fp), StackReset, CatchDivByZero(), State([], false, env), 0)
         == Step(Normal, State([], false, env["w" := IntV(1)]))
  {
    CatchDivByZeroReference(fp, env);
    ExecAgrees(JavaOps(fp), CatchDivByZero(), env, 0);
  }

  /** `false && b` where `b` is a `RefId<Boolean>`: a class `visit` does not skip. */
  function FalseAndRef(): Exp
  {
    Log(Lit(BoolValKind, BoolV(false)), AND, Ident(RefId(TBoolean, false, ["b"]), "b"))
  }

  /**
   * The flag suppresses only the five skipped node classes, so the
   * reference operand is still pushed: the expression leaves two values,
   * and as a statement it fails although Java evaluates it to false.
   */
  lemma ShortCircuitLeavesRefOperand(ops: Ops, env: Env)
    ensures Accept(ops, FalseAndRef(), State([], false, env))
         == Step(Normal, State([BoolV(false), Lookup(env, "b")], false, env))
    ensures ExecExprStmt(ops, FalseAndRef(), State([], false, env))
         == Step(Thrown(RuntimeException), State([BoolV(false)], false, env))
    ensures Eval(ops, FalseAndRef(), env) == Val(Normal, BoolV(false), env)
  {
    var st := State([BoolV(false)], false, env);
    assert Accept(ops, Lit(BoolValKind, BoolV(false)), State([], false, env)) == Step(Normal, st);
    assert VisitOp(AND, st) == Step(Normal, st.(sc := true));
    var b := Ident(RefId(TBoolean, false, ["b"]), "b");
    assert Accept(ops, b, st.(sc := true)) == Step(Normal, State([BoolV(false), Lookup(env, "b")], true, env));
    PopPush(st, Lookup(env, "b"));
  }

  /** `++i < 4` */
  function IncBelowFour(): Exp
  {
    Rel(PreInc(TId(IntId(["i"]), "i")), LT, IntLit(4))
  }

  /** `while (++i < 4) { }` */
  function CountLoop(): Stmt
  {
    While(IncBelowFour(), Block([]))
  }

  /** Each evaluation of the condition increments i and compares the new value. */
  lemma IncBelowFourStep(fp: FloatOps, n: int)
    requires 0 <= n < 10
    ensures CondAndEval(JavaOps(fp), IncBelowFour(), State([], false, map["i" := IntV(n)]))
         == CondStep(Normal, n + 1 < 4, State([], false, map["i" := IntV(n + 1)]))
    ensures EvalCond(JavaOps(fp), IncBelowFour(), map["i" := IntV(n)])
         == Cond(Normal, n + 1 < 4, map["i" := IntV(n + 1)])
  {
    var ops := JavaOps(fp);
    var env := map["i" := IntV(n)];
    var env' := map["i" := IntV(n + 1)];
    assert env[ "i" := IntV(n + 1)] == env';
    assert Eval(ops, PreInc(TId(IntId(["i"]), "i")), env) == Val(Normal, IntV(n + 1), env');
    assert Eval(ops, IncBelowFour(), env) == Val(Normal, BoolV(n + 1 < 4), env');
    CondAgrees(ops, IncBelowFour(), env);
  }

  function Counter(n: int32): State
  {
    State([], false, map["i" := IntV(n)])
  }

  /** A loop head whose condition holds starts an iteration with i incremented. */
  lemma CountLoopEnters(fp: FloatOps, n: int, fuel: nat)
    requires 0 <= n < 3 && fuel > 0
    ensures ExecWhile(JavaOps(fp), AsWritten, IncBelowFour(), Block([]), Counter(n), fuel)
         == ExecIteration(JavaOps(fp), AsWritten, IncBelowFour(), Block([]), Counter(n + 1), fuel - 1)
  {
    IncBelowFourStep(fp, n);
  }

  /** An iteration runs the empty body, then increments i once more before the loop head. */
  lemma CountLoopIterates(fp: FloatOps, n: int, fuel: nat)
    requires 0 <= n < 10
    ensures ExecIteration(JavaOps(fp), AsWritten, IncBelowFour(), Block([]), Counter(n), fuel)
         == ExecWhile(JavaOps(fp), AsWritten, IncBelowFour(), Block([]), Counter(n + 1), fuel)
  {
    assert Exec(JavaOps(fp), AsWritten, Block([]), Counter(n), fuel) == Step(Normal, Counter(n));
    IncBelowFourStep(fp, n);
  }

  /**
   * From i = 0 the evaluator runs the body twice and leaves i = 5, because
   * the condition is evaluated again after every iteration and that value
   * is thrown away.
   */
  lemma WhileEvaluatesConditionTwice(fp: FloatOps, fuel: nat)
    requires fuel >= 2
    ensures Exec(JavaOps(fp), AsWritten, CountLoop(), Counter(0), fuel) == Step(Normal, Counter(5))
  {
    CountLoopFrom(fp, 0, fuel);
  }

  /** From an even i up to 4 the loop goes round (4 - i) / 2 more times and stops with i = 5. */
  lemma {:induction false} CountLoopFrom(fp: FloatOps, n: int, fuel: nat)
    requires (n == 0 || n == 2 || n == 4) && 2 * fuel >= 4 - n
    ensures ExecWhile(JavaOps(fp), AsWritten, IncBelowFour(), Block([]), Counter(n), fuel) == Step(Normal, Counter(5))
    decreases 4 - n
  {
    if n < 4 {
      CountLoopEnters(fp, n, fuel);
      CountLoopIterates(fp, n + 1, fuel - 1);
      CountLoopFrom(fp, n + 2, fuel - 1);
    } else {
      CountLoopFromFour(fp, fuel);
    }
  }

  /** From i = 4 the condition fails at once, after incrementing i to 5. */
  lemma CountLoopFromFour(fp: FloatOps, fuel: nat)
    ensures ExecWhile(JavaOps(fp), AsWritten, IncBelowFour(), Block([]), Counter(4), fuel) == Step(Normal, Counter(5))
  {
    IncBelowFourStep(fp, 4);
  }

  /** Under Java semantics an iteration runs the empty body and goes back to the loop head. */
  lemma CountLoopReferenceStep(fp: FloatOps, n: int, fuel: nat)
    requires 0 <= n < 3 && fuel > 0
    ensures RunWhile(JavaOps(fp), IncBelowFour(), Block([]), Counter(n).env, fuel)
         == RunWhile(JavaOps(fp), IncBelowFour(), Block([]), Counter(n + 1).env, fuel - 1)
  {
    assert Run(JavaOps(fp), Block([]), Counter(n + 1).env, fuel - 1) == Done(Normal, Counter(n + 1).env);
    IncBelowFourStep(fp, n);
  }

  /** From i = 3 the condition `++i < 4` fails at once and i ends at 4. */
  lemma CountLoopReferenceLast(fp: FloatOps)
    ensures RunWhile(JavaOps(fp), IncBelowFour(), Block([]), Counter(3).env, 0) == Done(Normal, Counter(4).env)
  {
    IncBelowFourStep(fp, 3);
  }

  /** From i = n the loop runs 3 - n more iterations and i ends at 4. */
  lemma {:induction false} CountLoopReferenceFrom(fp: FloatOps, n: int, fuel: nat)
    requires 0 <= n <= 3 && fuel == 3 - n
    ensures RunWhile(JavaOps(fp), IncBelowFour(), Block([]), Counter(n).env, fuel) == Done(Normal, Counter(4).env)
    decreases fuel
  {
    if n < 3 {
      CountLoopReferenceStep(fp, n, fuel);
      CountLoopReferenceFrom(fp, n + 1, fuel - 1);
    } else {
      CountLoopReferenceLast(fp);
    }
  }

  /** Java evaluates the condition once per iteration: the body runs three times and i ends at 4. */
  lemma CountLoopReference(fp: FloatOps)
    ensures RunWhile(JavaOps(fp), IncBelowFour(), Block([]), Counter(0).env, 3) == Done(Normal, Counter(4).env)
  {
    CountLoopReferenceFrom(fp, 0, 3);
  }

  /** `++k;` */
  function IncK(): Stmt
  {
    ExprStmt(PreInc(TId(IntId(["k"]), "k")))
  }

  /** `++k;` increments k from any state, even one whose stack the statement then finds not empty. */
  lemma IncKFromAnyState(fp: FloatOps, m: Mode, st: State, n: int32, fuel: nat)
    requires Lookup(st.env, "k") == IntV(n)
    ensures Exec(JavaOps(fp), m, IncK(), st, fuel).st.env == st.env["k" := IntV(Wrap32(n + 1))]
  {
    var ops := JavaOps(fp);
    var k := Ident(IntId(["k"]), "k");
    assert Accept(ops, k, st) == Step(Normal, Push(st, IntV(n)));
    PopPush(st, IntV(n));
    assert Accept(ops, PreInc(TId(IntId(["k"]), "k")), st).out.Normal?;
  }

  /**
   * A finally block runs exactly once whichever way the try block and the
   * handler end: when neither writes k, `finally { ++k; }` leaves k one
   * greater, in both modes.
   */
  lemma FinallyRunsOnce(fp: FloatOps, m: Mode, body: Stmt, caught: ExcClass, handler: Stmt, env: Env, n: int32, fuel: nat)
    requires "k" !in StmtWrites(body) + StmtWrites(handler)
    requires Lookup(env, "k") == IntV(n)
    ensures var r := Exec(JavaOps(fp), m, Try(body, caught, handler, Some(IncK())), State([], false, env), fuel);
      r.out.OutOfFuel? || Lookup(r.st.env, "k") == IntV(Wrap32(n + 1))
  {
    var ops, s, st := JavaOps(fp), Try(body, caught, handler, Some(IncK())), State([], false, env);
    CatchFrame(ops, m, s, st, fuel);
    var r2 := ExecCatch(ops, m, s, st, fuel);
    if !r2.out.OutOfFuel? {
      IncKFromAnyState(fp, m, Resume(m, st, r2.st), n, fuel);
    }
  }
}
