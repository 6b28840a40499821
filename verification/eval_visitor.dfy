/**
 * EvalVisitor itself: an object whose operand stack, short-circuit flag and
 * binding environment are updated in place as a tree is walked. Every method
 * is proved to leave the object in the state the corresponding function of
 * module Machine computes, and to return the same outcome; thrown exceptions
 * are returned as an `Outcome` instead of unwinding.
 */
module EvalVisitor {
  import opened Java
  import opened Values
  import opened Ids
  import opened Ast
  import opened Machine

  class Evaluator {
    /** The operand deque; its top is the last element. */
    var stack: seq<Value>
    var shortCircuit: bool
    /** The binding environment that identifier reads and `updateVal` go through. */
    var env: Env
    const ops: Ops

    function Snapshot(): State
      reads this
    {
      State(stack, shortCircuit, env)
    }

    constructor (ops: Ops, env: Env)
      ensures Snapshot() == State([], false, env) && this.ops == ops
    {
      this.stack := [];
      this.shortCircuit := false;
      this.env := env;
      this.ops := ops;
    }

    method Pop() returns (out: Outcome, v: Value)
      modifies this
      ensures Popped(out, v, Snapshot()) == Machine.Pop(old(Snapshot()))
    {
      if |stack| == 0 {
        return Thrown(NoSuchElementException), NullV;
      }
      v := stack[|stack| - 1];
      stack := stack[..|stack| - 1];
      out := Normal;
    }

    method Peek() returns (v: Value)
      ensures v == Machine.Peek(Snapshot())
      ensures |stack| > 0 ==> v == stack[|stack| - 1]
    {
      v := if |stack| == 0 then NullV else stack[|stack| - 1];
    }

    method GetResult() returns (r: Result<Value>)
      ensures r == Machine.GetResult(Snapshot())
      ensures r.Ok? <==> stack != []
    {
      if |stack| == 0 {
        return Err(RuntimeException);
      }
      r := Ok(stack[|stack| - 1]);
    }

    /** The `visit` overrides: only flag-sensitive node classes can answer false. */
    method Visit(e: Exp) returns (b: bool)
      ensures b == Visits(e, shortCircuit)
      ensures !SkippedWhenShortCircuit(e) ==> b
    {
      b := !(shortCircuit && SkippedWhenShortCircuit(e));
    }

    method EndVisitTerminal(e: Exp) returns (out: Outcome)
      requires e.Ident? || e.Lit?
      modifies this
      ensures Step(out, Snapshot()) == Machine.EndVisitTerminal(e, old(Snapshot()))
    {
      var v := if e.Ident? then Lookup(env, e.binding) else e.val;
      stack := stack + [v];
      out := Normal;
    }

    method EndVisitAri(op: AriOp) returns (out: Outcome)
      modifies this
      ensures Step(out, Snapshot()) == Machine.EndVisitAri(ops, op, old(Snapshot()))
    {
      var right, left;
      out, right := Pop();
      if out != Normal { return; }
      out, left := Pop();
      if out != Normal { return; }
      match ops.ari(op, left, right)
      case Ok(v) => stack := stack + [v];
      case Err(x) => out := Thrown(x);
    }

    method EndVisitShift(op: ShiftOp) returns (out: Outcome)
      modifies this
      ensures Step(out, Snapshot()) == Machine.EndVisitShift(ops, op, old(Snapshot()))
    {
      var right, left;
      out, right := Pop();
      if out != Normal { return; }
      match CastToInteger(right)
      case Err(x) => out := Thrown(x);
      case Ok(n) =>
        out, left := Pop();
        if out != Normal { return; }
        match ops.shift(op, left, n)
        case Ok(v) => stack := stack + [v];
        case Err(x) => out := Thrown(x);
    }

    method EndVisitRel(op: RelOp) returns (out: Outcome)
      modifies this
      ensures Step(out, Snapshot()) == Machine.EndVisitRel(ops, op, old(Snapshot()))
    {
      var right, left;
      out, right := Pop();
      if out != Normal { return; }
      out, left := Pop();
      if out != Normal { return; }
      match ops.rel(op, left, right)
      case Ok(v) => stack := stack + [v];
      case Err(x) => out := Thrown(x);
    }

    method VisitOp(op: LogOp) returns (out: Outcome)
      modifies this
      ensures Step(out, Snapshot()) == Machine.VisitOp(op, old(Snapshot()))
    {
      var top := Peek();
      match CastToBoolean(top)
      case Err(x) => out := Thrown(x);
      case Ok(left) =>
        if Decides(op, left) {
          shortCircuit := true;
        }
        out := Normal;
    }

    method EndVisitLog(op: LogOp) returns (out: Outcome)
      modifies this
      ensures Step(out, Snapshot()) == Machine.EndVisitLog(op, old(Snapshot()))
    {
      if shortCircuit {
        shortCircuit := false;
        return Normal;
      }
      var right, left;
      out, right := Pop();
      if out != Normal { return; }
      match CastToBoolean(right)
      case Err(x) => out := Thrown(x);
      case Ok(r) =>
        out, left := Pop();
        if out != Normal { return; }
        match CastToBoolean(left)
        case Err(x) => out := Thrown(x);
        case Ok(l) => stack := stack + [BoolV(ApplyLog(op, l, r))];
    }

    method EndVisitArrAccess() returns (out: Outcome)
      modifies this
      ensures Step(out, Snapshot()) == Machine.EndVisitArrAccess(old(Snapshot()))
    {
      var arr, index;
      out, arr := Pop();
      if out != Normal { return; }
      out, index := Pop();
      if out != Normal { return; }
      match CastToInteger(index)
      case Err(x) => out := Thrown(x);
      case Ok(i) =>
        match ArrayGet(arr, i)
        case Ok(v) => stack := stack + [v];
        case Err(x) => out := Thrown(x);
    }

    method EndVisitPreInc(t: Target) returns (out: Outcome)
      modifies this
      ensures Step(out, Snapshot()) == Machine.EndVisitPreInc(ops, t, old(Snapshot()))
    {
      var val;
      out, val := Pop();
      if out != Normal { return; }
      match ops.preInc(val)
      case Err(x) => out := Thrown(x);
      case Ok(nv) =>
        match UpdateVal(t, nv, env)
        case Err(x) => out := Thrown(x);
        case Ok(env') =>
          env := env';
          stack := stack + [nv];
    }

    method EndVisitAssign(t: Target) returns (out: Outcome)
      modifies this
      ensures Step(out, Snapshot()) == Machine.EndVisitAssign(t, old(Snapshot()))
    {
      var discarded;
      out, discarded := Pop();
      if out != Normal { return; }
      var v := Peek();
      match UpdateVal(t, v, env)
      case Err(x) => out := Thrown(x);
      case Ok(env') => env := env';
    }

    /** `e.accept(this)`. */
    method Accept(e: Exp) returns (out: Outcome)
      modifies this
      ensures Step(out, Snapshot()) == Machine.Accept(ops, e, old(Snapshot()))
      decreases Size(e), 1
    {
      var go := Visit(e);
      if !go {
        return Normal;
      }
      out := AcceptNode(e);
    }

    method AcceptNode(e: Exp) returns (out: Outcome)
      modifies this
      ensures Step(out, Snapshot()) == Machine.AcceptNode(ops, e, old(Snapshot()))
      decreases Size(e), 0
    {
      match e
      case Ident(_, _) =>
        out := EndVisitTerminal(e);
      case Lit(_, _) =>
        out := EndVisitTerminal(e);
      case ArrAccess(a, i) =>
        out := Accept(i);
        if out != Normal { return; }
        out := Accept(a);
        if out != Normal { return; }
        out := EndVisitArrAccess();
      case BAri(l, op, r) =>
        out := Accept(l);
        if out != Normal { return; }
        out := Accept(r);
        if out != Normal { return; }
        out := EndVisitAri(op);
      case Shift(l, op, r) =>
        out := Accept(l);
        if out != Normal { return; }
        out := Accept(r);
        if out != Normal { return; }
        out := EndVisitShift(op);
      case Rel(l, op, r) =>
        out := Accept(l);
        if out != Normal { return; }
        out := Accept(r);
        if out != Normal { return; }
        out := EndVisitRel(op);
      case Log(l, op, r) =>
        out := Accept(l);
        if out != Normal { return; }
        out := VisitOp(op);
        if out != Normal { return; }
        out := Accept(r);
        if out != Normal { return; }
        out := EndVisitLog(op);
      case PreInc(t) =>
        TargetExpSize(t);
        out := Accept(TargetExp(t));
        if out != Normal { return; }
        out := EndVisitPreInc(t);
      case Assign(t, v) =>
        TargetExpSize(t);
        out := Accept(v);
        if out != Normal { return; }
        out := Accept(TargetExp(t));
        if out != Normal { return; }
        out := EndVisitAssign(t);
    }

    method AssertStackIsEmpty() returns (out: Outcome)
      ensures Step(out, Snapshot()) == Machine.AssertStackIsEmpty(Snapshot())
      ensures out.Normal? <==> stack == []
    {
      out := if |stack| == 0 then Normal else Thrown(RuntimeException);
    }

    method CondAndEval(c: Exp) returns (out: Outcome, cond: bool)
      modifies this
      ensures CondStep(out, cond, Snapshot()) == Machine.CondAndEval(ops, c, old(Snapshot()))
    {
      cond := false;
      out := Accept(c);
      if out != Normal { return; }
      var v;
      out, v := Pop();
      if out != Normal { return; }
      match UnboxBoolean(v)
      case Err(x) => out := Thrown(x);
      case Ok(b) =>
        cond := b;
        out := AssertStackIsEmpty();
    }

    /** `s.accept(this)` for a statement, with loop iterations bounded by `fuel`. */
    method VisitStmt(s: Stmt, fuel: nat) returns (out: Outcome)
      modifies this
      ensures Step(out, Snapshot()) == Exec(ops, AsWritten, s, old(Snapshot()), fuel)
      decreases fuel, s, 3
    {
      match s
      case ExprStmt(e) =>
        out := VisitExprStmt(e);
      case If(c, t, el) =>
        out := VisitIf(c, t, el, fuel);
      case While(c, b) =>
        out := VisitWhile(c, b, fuel);
      case Block(ss) =>
        out := VisitBlock(ss, fuel);
      case Try(_, _, _, _) =>
        out := VisitTry(s, fuel);
    }

    /** `e.accept(this); stack.pop(); assertStackIsEmpty();` */
    method VisitExprStmt(e: Exp) returns (out: Outcome)
      modifies this
      ensures Step(out, Snapshot()) == ExecExprStmt(ops, e, old(Snapshot()))
    {
      out := Accept(e);
      if out != Normal { return; }
      var v;
      out, v := Pop();
      if out != Normal { return; }
      out := AssertStackIsEmpty();
    }

    /** `if (visitCondAndEval(cond)) thn.accept(this); else if (els != null) els.accept(this);` */
    method VisitIf(c: Exp, t: Stmt, el: Option<Stmt>, fuel: nat) returns (out: Outcome)
      modifies this
      ensures Step(out, Snapshot()) == ExecIf(ops, AsWritten, c, t, el, old(Snapshot()), fuel)
      decreases fuel, If(c, t, el), 0
    {
      var cond;
      out, cond := CondAndEval(c);
      if out != Normal { return; }
      if cond {
        out := VisitStmt(t, fuel);
      } else if el.Some? {
        out := VisitStmt(el.value, fuel);
      }
    }

    /** `while (visitCondAndEval(cond)) { body; visitCondAndEval(cond); }` */
    method VisitWhile(c: Exp, b: Stmt, fuel: nat) returns (out: Outcome)
      modifies this
      ensures Step(out, Snapshot()) == ExecWhile(ops, AsWritten, c, b, old(Snapshot()), fuel)
      decreases fuel, While(c, b), 2
    {
      var f: nat := fuel;
      while true
        invariant f <= fuel
        invariant ExecWhile(ops, AsWritten, c, b, old(Snapshot()), fuel)
               == ExecWhile(ops, AsWritten, c, b, Snapshot(), f)
        decreases f
      {
        ghost var head := Snapshot();
        var cond;
        out, cond := CondAndEval(c);
        if out != Normal || !cond { return; }
        if f == 0 { return OutOfFuel; }
        assert ExecWhile(ops, AsWritten, c, b, head, f) == ExecIteration(ops, AsWritten, c, b, Snapshot(), f - 1);
        var again;
        out, again := Iteration(c, b, f - 1);
        if !again { return; }
        f := f - 1;
      }
    }

    /**
     * The body and the discarded re-evaluation of the condition. `again`
     * says that both completed and the loop goes back to its head.
     */
    method Iteration(c: Exp, b: Stmt, fuel: nat) returns (out: Outcome, again: bool)
      modifies this
      ensures again ==> out == Normal
      ensures again ==>
        ExecIteration(ops, AsWritten, c, b, old(Snapshot()), fuel) == ExecWhile(ops, AsWritten, c, b, Snapshot(), fuel)
      ensures !again ==> Step(out, Snapshot()) == ExecIteration(ops, AsWritten, c, b, old(Snapshot()), fuel)
      decreases fuel, While(c, b), 1
    {
      out := VisitStmt(b, fuel);
      if out != Normal { return out, false; }
      var discarded;
      out, discarded := CondAndEval(c);
      again := out == Normal;
    }

    /** `for (Stmt s : node.getStmts()) s.accept(this);` */
    method VisitBlock(ss: seq<Stmt>, fuel: nat) returns (out: Outcome)
      modifies this
      ensures Step(out, Snapshot()) == ExecSeq(ops, AsWritten, ss, old(Snapshot()), fuel)
      decreases fuel, ss, 0
    {
      out := Normal;
      var i := 0;
      while i < |ss|
        invariant 0 <= i <= |ss|
        invariant out == Normal
        invariant ExecSeq(ops, AsWritten, ss, old(Snapshot()), fuel)
               == ExecSeq(ops, AsWritten, ss[i..], Snapshot(), fuel)
      {
        assert ss[i..][0] == ss[i] && ss[i..][1..] == ss[i + 1..];
        ghost var before := Snapshot();
        out := VisitStmt(ss[i], fuel);
        assert ExecSeq(ops, AsWritten, ss[i..], before, fuel)
            == if out != Normal then Step(out, Snapshot()) else ExecSeq(ops, AsWritten, ss[i + 1..], Snapshot(), fuel);
        if out != Normal { return; }
        i := i + 1;
      }
    }

    /** try { body } catch (Throwable e) { handler if e is-a caught, else rethrow } finally { fin } */
    method VisitTry(s: Stmt, fuel: nat) returns (out: Outcome)
      requires s.Try?
      modifies this
      ensures Step(out, Snapshot()) == ExecTry(ops, AsWritten, s, old(Snapshot()), fuel)
      decreases fuel, s, 1
    {
      out := VisitCatch(s, fuel);
      if s.fin.Some? && !out.OutOfFuel? {
        var fo := VisitStmt(s.fin.value, fuel);
        if fo != Normal {
          out := fo;
        }
      }
    }

    method VisitCatch(s: Stmt, fuel: nat) returns (out: Outcome)
      requires s.Try?
      modifies this
      ensures Step(out, Snapshot()) == ExecCatch(ops, AsWritten, s, old(Snapshot()), fuel)
      decreases fuel, s, 0
    {
      out := VisitStmt(s.body, fuel);
      if out.Thrown? && SubclassOf(out.exc, s.caught) {
        out := VisitStmt(s.handler, fuel);
      }
    }
  }
}
