/**
 * The evaluator's clean state between statements: an empty operand stack
 * and a clear short-circuit flag. With the try statement corrected every
 * statement that completes normally leaves the state clean again; as
 * written, a handler can complete normally on a stack its try block left.
 */
module EvalInvariants {
  import opened Java
  import opened Values
  import opened Ids
  import opened Ast
  import opened Machine

  predicate Clean(st: State)
  {
    st.stack == [] && !st.sc
  }

  /** While the flag is set, a visited node that completes leaves it set. */
  lemma {:induction false} AcceptKeepsFlag(ops: Ops, e: Exp, st: State)
    requires st.sc
    ensures Accept(ops, e, st).out.Normal? ==> Accept(ops, e, st).st.sc
    decreases Size(e), 3
  {
    if Visits(e, st.sc) {
      AcceptNodeKeepsFlag(ops, e, st);
    }
  }

  lemma {:induction false} AcceptNodeKeepsFlag(ops: Ops, e: Exp, st: State)
    requires st.sc && !SkippedWhenShortCircuit(e)
    ensures AcceptNode(ops, e, st).out.Normal? ==> AcceptNode(ops, e, st).st.sc
    decreases Size(e), 2
  {
    match e
    case Ident(_, _) =>
    case Lit(_, _) =>
    case ArrAccess(a, i) => OperandsKeepFlag(ops, i, a, st, Size(e));
    case BAri(l, _, r) => OperandsKeepFlag(ops, l, r, st, Size(e));
    case Shift(l, _, r) => OperandsKeepFlag(ops, l, r, st, Size(e));
    case PreInc(t) =>
      TargetExpSize(t);
      AcceptKeepsFlag(ops, TargetExp(t), st);
    case Assign(t, v) =>
      TargetExpSize(t);
      OperandsKeepFlag(ops, v, TargetExp(t), st, Size(e));
  }

  lemma {:induction false} OperandsKeepFlag(ops: Ops, first: Exp, second: Exp, st: State, bound: nat)
    requires st.sc && Size(first) < bound && Size(second) < bound
    ensures var r1 := Accept(ops, first, st);
      r1.out.Normal? ==> r1.st.sc && (Accept(ops, second, r1.st).out.Normal? ==> Accept(ops, second, r1.st).st.sc)
    decreases bound, 1
  {
    AcceptKeepsFlag(ops, first, st);
    var r1 := Accept(ops, first, st);
    if r1.out.Normal? {
      AcceptKeepsFlag(ops, second, r1.st);
    }
  }

  /** Evaluation started with the flag clear that completes leaves it clear. */
  lemma {:induction false} AcceptClearsFlag(ops: Ops, e: Exp, st: State)
    requires !st.sc
    ensures Accept(ops, e, st).out.Normal? ==> !Accept(ops, e, st).st.sc
    decreases Size(e), 3
  {
    match e
    case Ident(_, _) =>
    case Lit(_, _) =>
    case ArrAccess(a, i) => OperandsClearFlag(ops, i, a, st, Size(e));
    case BAri(l, _, r) => OperandsClearFlag(ops, l, r, st, Size(e));
    case Shift(l, _, r) => OperandsClearFlag(ops, l, r, st, Size(e));
    case Rel(l, _, r) => OperandsClearFlag(ops, l, r, st, Size(e));
    case Log(l, op, r) => LogClearsFlag(ops, l, op, r, st);
    case PreInc(t) =>
      TargetExpSize(t);
      AcceptClearsFlag(ops, TargetExp(t), st);
    case Assign(t, v) =>
      TargetExpSize(t);
      OperandsClearFlag(ops, v, TargetExp(t), st, Size(e));
  }

  lemma {:induction false} OperandsClearFlag(ops: Ops, first: Exp, second: Exp, st: State, bound: nat)
    requires !st.sc && Size(first) < bound && Size(second) < bound
    ensures var r1 := Accept(ops, first, st);
      r1.out.Normal? ==> !r1.st.sc && (Accept(ops, second, r1.st).out.Normal? ==> !Accept(ops, second, r1.st).st.sc)
    decreases bound, 2
  {
    AcceptClearsFlag(ops, first, st);
    var r1 := Accept(ops, first, st);
    if r1.out.Normal? {
      AcceptClearsFlag(ops, second, r1.st);
    }
  }

  /** `endVisit(LogExp)` clears the flag its operator node may have set. */
  lemma {:induction false} LogClearsFlag(ops: Ops, l: Exp, op: LogOp, r: Exp, st: State)
    requires !st.sc
    ensures var x := Accept(ops, Log(l, op, r), st); x.out.Normal? ==> !x.st.sc
    decreases Size(Log(l, op, r)), 2
  {
    AcceptClearsFlag(ops, l, st);
  }

  lemma CondLeavesClean(ops: Ops, c: Exp, st: State)
    requires !st.sc
    ensures CondAndEval(ops, c, st).out.Normal? ==> Clean(CondAndEval(ops, c, st).st)
  {
    AcceptClearsFlag(ops, c, st);
  }

  /**
   * With the try statement corrected, a statement started clean that
   * completes normally leaves the state clean, whatever it contains.
   */
  lemma {:induction false} ExecKeepsClean(ops: Ops, s: Stmt, st: State, fuel: nat)
    requires Clean(st)
    ensures Exec(ops, StackReset, s, st, fuel).out.Normal? ==> Clean(Exec(ops, StackReset, s, st, fuel).st)
    decreases fuel, s, 2
  {
    match s
    case ExprStmt(e) => AcceptClearsFlag(ops, e, st);
    case If(c, t, el) => IfKeepsClean(ops, c, t, el, st, fuel);
    case While(c, b) => WhileKeepsClean(ops, c, b, st, fuel);
    case Block(ss) => SeqKeepsClean(ops, ss, st, fuel);
    case Try(_, _, _, _) => TryKeepsClean(ops, s, st, fuel);
  }

  lemma {:induction false} IfKeepsClean(ops: Ops, c: Exp, t: Stmt, el: Option<Stmt>, st: State, fuel: nat)
    requires Clean(st)
    ensures var r := ExecIf(ops, StackReset, c, t, el, st, fuel); r.out.Normal? ==> Clean(r.st)
    decreases fuel, If(c, t, el), 1
  {
    CondLeavesClean(ops, c, st);
    var cr := CondAndEval(ops, c, st);
    if cr.out.Normal? && cr.cond {
      ExecKeepsClean(ops, t, cr.st, fuel);
    } else if cr.out.Normal? && el.Some? {
      ExecKeepsClean(ops, el.value, cr.st, fuel);
    }
  }

  lemma {:induction false} WhileKeepsClean(ops: Ops, c: Exp, b: Stmt, st: State, fuel: nat)
    requires Clean(st)
    ensures var r := ExecWhile(ops, StackReset, c, b, st, fuel); r.out.Normal? ==> Clean(r.st)
    decreases fuel, While(c, b), 0
  {
    CondLeavesClean(ops, c, st);
    var cr := CondAndEval(ops, c, st);
    if cr.out.Normal? && cr.cond && fuel > 0 {
      IterationKeepsClean(ops, c, b, cr.st, fuel - 1);
    }
  }

  lemma {:induction false} IterationKeepsClean(ops: Ops, c: Exp, b: Stmt, st: State, fuel: nat)
    requires Clean(st)
    ensures var r := ExecIteration(ops, StackReset, c, b, st, fuel); r.out.Normal? ==> Clean(r.st)
    decreases fuel, While(c, b), 1
  {
    ExecKeepsClean(ops, b, st, fuel);
    var rb := Exec(ops, StackReset, b, st, fuel);
    if rb.out.Normal? {
      CondLeavesClean(ops, c, rb.st);
      var again := CondAndEval(ops, c, rb.st);
      if again.out.Normal? {
        WhileKeepsClean(ops, c, b, again.st, fuel);
      }
    }
  }

  lemma {:induction false} SeqKeepsClean(ops: Ops, ss: seq<Stmt>, st: State, fuel: nat)
    requires Clean(st)
    ensures var r := ExecSeq(ops, StackReset, ss, st, fuel); r.out.Normal? ==> Clean(r.st)
    decreases fuel, ss, 0
  {
    if ss != [] {
      ExecKeepsClean(ops, ss[0], st, fuel);
      var r := Exec(ops, StackReset, ss[0], st, fuel);
      if r.out.Normal? {
        SeqKeepsClean(ops, ss[1..], r.st, fuel);
      }
    }
  }

  lemma {:induction false} TryKeepsClean(ops: Ops, s: Stmt, st: State, fuel: nat)
    requires s.Try? && Clean(st)
    ensures var r := ExecTry(ops, StackReset, s, st, fuel); r.out.Normal? ==> Clean(r.st)
    decreases fuel, s, 1
  {
    CatchKeepsClean(ops, s, st, fuel);
    var r2 := ExecCatch(ops, StackReset, s, st, fuel);
    if s.fin.Some? && !r2.out.OutOfFuel? {
      ExecKeepsClean(ops, s.fin.value, Resume(StackReset, st, r2.st), fuel);
    }
  }

  lemma {:induction false} CatchKeepsClean(ops: Ops, s: Stmt, st: State, fuel: nat)
    requires s.Try? && Clean(st)
    ensures var r := ExecCatch(ops, StackReset, s, st, fuel); r.out.Normal? ==> Clean(r.st)
    decreases fuel, s, 0
  {
    ExecKeepsClean(ops, s.body, st, fuel);
    var r1 := Exec(ops, StackReset, s.body, st, fuel);
    if r1.out.Thrown? && SubclassOf(r1.out.exc, s.caught) {
      ExecKeepsClean(ops, s.handler, Resume(StackReset, st, r1.st), fuel);
    }
  }
}
