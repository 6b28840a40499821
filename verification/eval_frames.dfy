/**
 * What an evaluation may change in the binding environment: only the names
 * its expressions assign or increment. These hold for every state and both
 * modes, including the states the short-circuit flag leaves behind.
 */
module EvalFrames {
  import opened Java
  import opened Values
  import opened Ids
  import opened Ast
  import opened Machine

  /** Every name outside `w` reads the same in both environments. */
  ghost predicate SameOutside(after: Env, before: Env, w: set<string>)
  {
    forall n :: n !in w ==> Lookup(after, n) == Lookup(before, n)
  }

  lemma Chain(e1: Env, e2: Env, e3: Env, w1: set<string>, w2: set<string>)
    requires SameOutside(e2, e1, w1) && SameOutside(e3, e2, w2)
    ensures SameOutside(e3, e1, w1 + w2)
  {
  }

  lemma TargetReadsOnly(t: Target)
    ensures Writes(TargetExp(t)) == {}
  {
  }

  /** Evaluating an expression changes no binding it does not write. */
  lemma {:induction false} AcceptFrame(ops: Ops, e: Exp, st: State)
    ensures SameOutside(Accept(ops, e, st).st.env, st.env, Writes(e))
    decreases Size(e), 3
  {
    if Visits(e, st.sc) {
      AcceptNodeFrame(ops, e, st);
    }
  }

  lemma {:induction false} AcceptNodeFrame(ops: Ops, e: Exp, st: State)
    ensures SameOutside(AcceptNode(ops, e, st).st.env, st.env, Writes(e))
    decreases Size(e), 2
  {
    match e
    case Ident(_, _) =>
    case Lit(_, _) =>
    case ArrAccess(a, i) => ArrAccessFrame(ops, a, i, st);
    case BAri(l, op, r) => AriFrame(ops, l, op, r, st);
    case Shift(l, op, r) => ShiftFrame(ops, l, op, r, st);
    case Rel(l, op, r) => RelFrame(ops, l, op, r, st);
    case Log(l, op, r) => LogFrame(ops, l, op, r, st);
    case PreInc(t) => PreIncFrame(ops, t, st);
    case Assign(t, v) => AssignFrame(ops, t, v, st);
  }

  /** Two operands evaluated one after the other change no binding neither writes. */
  lemma {:induction false} OperandsFrame(ops: Ops, first: Exp, second: Exp, st: State, bound: nat)
    requires Size(first) < bound && Size(second) < bound
    ensures var r1 := Accept(ops, first, st);
      SameOutside(r1.st.env, st.env, Writes(first)) &&
      SameOutside(Accept(ops, second, r1.st).st.env, st.env, Writes(first) + Writes(second))
    decreases bound, 0
  {
    AcceptFrame(ops, first, st);
    var r1 := Accept(ops, first, st);
    AcceptFrame(ops, second, r1.st);
    Chain(st.env, r1.st.env, Accept(ops, second, r1.st).st.env, Writes(first), Writes(second));
  }

  lemma {:induction false} ArrAccessFrame(ops: Ops, a: Exp, i: Exp, st: State)
    ensures SameOutside(AcceptNode(ops, ArrAccess(a, i), st).st.env, st.env, Writes(ArrAccess(a, i)))
    decreases Size(ArrAccess(a, i)), 1
  {
    OperandsFrame(ops, i, a, st, Size(ArrAccess(a, i)));
  }

  lemma {:induction false} AriFrame(ops: Ops, l: Exp, op: AriOp, r: Exp, st: State)
    ensures SameOutside(AcceptNode(ops, BAri(l, op, r), st).st.env, st.env, Writes(BAri(l, op, r)))
    decreases Size(BAri(l, op, r)), 1
  {
    OperandsFrame(ops, l, r, st, Size(BAri(l, op, r)));
  }

  lemma {:induction false} ShiftFrame(ops: Ops, l: Exp, op: ShiftOp, r: Exp, st: State)
    ensures SameOutside(AcceptNode(ops, Shift(l, op, r), st).st.env, st.env, Writes(Shift(l, op, r)))
    decreases Size(Shift(l, op, r)), 1
  {
    OperandsFrame(ops, l, r, st, Size(Shift(l, op, r)));
  }

  lemma {:induction false} RelFrame(ops: Ops, l: Exp, op: RelOp, r: Exp, st: State)
    ensures SameOutside(AcceptNode(ops, Rel(l, op, r), st).st.env, st.env, Writes(Rel(l, op, r)))
    decreases Size(Rel(l, op, r)), 1
  {
    OperandsFrame(ops, l, r, st, Size(Rel(l, op, r)));
  }

  lemma {:induction false} LogFrame(ops: Ops, l: Exp, op: LogOp, r: Exp, st: State)
    ensures SameOutside(AcceptNode(ops, Log(l, op, r), st).st.env, st.env, Writes(Log(l, op, r)))
    decreases Size(Log(l, op, r)), 1
  {
    AcceptFrame(ops, l, st);
    var rl := Accept(ops, l, st);
    var ro := VisitOp(op, rl.st);
    AcceptFrame(ops, r, ro.st);
    Chain(st.env, ro.st.env, Accept(ops, r, ro.st).st.env, Writes(l), Writes(r));
  }

  lemma {:induction false} PreIncFrame(ops: Ops, t: Target, st: State)
    ensures SameOutside(AcceptNode(ops, PreInc(t), st).st.env, st.env, Writes(PreInc(t)))
    decreases Size(PreInc(t)), 1
  {
    TargetExpSize(t);
    TargetReadsOnly(t);
    AcceptFrame(ops, TargetExp(t), st);
  }

  lemma {:induction false} AssignFrame(ops: Ops, t: Target, v: Exp, st: State)
    ensures SameOutside(AcceptNode(ops, Assign(t, v), st).st.env, st.env, Writes(Assign(t, v)))
    decreases Size(Assign(t, v)), 1
  {
    TargetExpSize(t);
    TargetReadsOnly(t);
    OperandsFrame(ops, v, TargetExp(t), st, Size(Assign(t, v)));
  }

  /** `visitCondAndEval` changes no binding its condition does not write. */
  lemma CondFrame(ops: Ops, c: Exp, st: State)
    ensures SameOutside(CondAndEval(ops, c, st).st.env, st.env, Writes(c))
  {
    AcceptFrame(ops, c, st);
  }

  /** Executing a statement changes no binding it does not write, in either mode. */
  lemma {:induction false} ExecFrame(ops: Ops, m: Mode, s: Stmt, st: State, fuel: nat)
    ensures SameOutside(Exec(ops, m, s, st, fuel).st.env, st.env, StmtWrites(s))
    decreases fuel, s, 2
  {
    match s
    case ExprStmt(e) => AcceptFrame(ops, e, st);
    case If(c, t, el) => IfFrame(ops, m, c, t, el, st, fuel);
    case While(c, b) => WhileFrame(ops, m, c, b, st, fuel);
    case Block(ss) => SeqFrame(ops, m, ss, st, fuel);
    case Try(_, _, _, _) => TryFrame(ops, m, s, st, fuel);
  }

  lemma {:induction false} IfFrame(ops: Ops, m: Mode, c: Exp, t: Stmt, el: Option<Stmt>, st: State, fuel: nat)
    ensures SameOutside(ExecIf(ops, m, c, t, el, st, fuel).st.env, st.env, StmtWrites(If(c, t, el)))
    decreases fuel, If(c, t, el), 1
  {
    CondFrame(ops, c, st);
    var cr := CondAndEval(ops, c, st);
    if cr.out.Normal? && cr.cond {
      ExecFrame(ops, m, t, cr.st, fuel);
      Chain(st.env, cr.st.env, Exec(ops, m, t, cr.st, fuel).st.env, Writes(c), StmtWrites(t));
    } else if cr.out.Normal? && el.Some? {
      ExecFrame(ops, m, el.value, cr.st, fuel);
      Chain(st.env, cr.st.env, Exec(ops, m, el.value, cr.st, fuel).st.env, Writes(c), StmtWrites(el.value));
    }
  }

  lemma {:induction false} WhileFrame(ops: Ops, m: Mode, c: Exp, b: Stmt, st: State, fuel: nat)
    ensures SameOutside(ExecWhile(ops, m, c, b, st, fuel).st.env, st.env, Writes(c) + StmtWrites(b))
    decreases fuel, While(c, b), 0
  {
    CondFrame(ops, c, st);
    var cr := CondAndEval(ops, c, st);
    if cr.out.Normal? && cr.cond && fuel > 0 {
      IterationFrame(ops, m, c, b, cr.st, fuel - 1);
      Chain(st.env, cr.st.env, ExecIteration(ops, m, c, b, cr.st, fuel - 1).st.env, Writes(c), Writes(c) + StmtWrites(b));
    }
  }

  lemma {:induction false} IterationFrame(ops: Ops, m: Mode, c: Exp, b: Stmt, st: State, fuel: nat)
    ensures SameOutside(ExecIteration(ops, m, c, b, st, fuel).st.env, st.env, Writes(c) + StmtWrites(b))
    decreases fuel, While(c, b), 1
  {
    var w := Writes(c) + StmtWrites(b);
    ExecFrame(ops, m, b, st, fuel);
    var rb := Exec(ops, m, b, st, fuel);
    Widen(rb.st.env, st.env, StmtWrites(b), w);
    if rb.out.Normal? {
      CondFrame(ops, c, rb.st);
      var again := CondAndEval(ops, c, rb.st);
      Widen(again.st.env, rb.st.env, Writes(c), w);
      Trans(st.env, rb.st.env, again.st.env, w);
      if again.out.Normal? {
        WhileFrame(ops, m, c, b, again.st, fuel);
        Trans(st.env, again.st.env, ExecWhile(ops, m, c, b, again.st, fuel).st.env, w);
      }
    }
  }

  lemma Widen(after: Env, before: Env, w: set<string>, w': set<string>)
    requires SameOutside(after, before, w) && w <= w'
    ensures SameOutside(after, before, w')
  {
  }

  lemma Trans(e1: Env, e2: Env, e3: Env, w: set<string>)
    requires SameOutside(e2, e1, w) && SameOutside(e3, e2, w)
    ensures SameOutside(e3, e1, w)
  {
  }

  lemma {:induction false} SeqFrame(ops: Ops, m: Mode, ss: seq<Stmt>, st: State, fuel: nat)
    ensures SameOutside(ExecSeq(ops, m, ss, st, fuel).st.env, st.env, SeqWrites(ss))
    decreases fuel, ss, 0
  {
    if ss != [] {
      ExecFrame(ops, m, ss[0], st, fuel);
      var r := Exec(ops, m, ss[0], st, fuel);
      if r.out.Normal? {
        SeqFrame(ops, m, ss[1..], r.st, fuel);
        Chain(st.env, r.st.env, ExecSeq(ops, m, ss[1..], r.st, fuel).st.env, StmtWrites(ss[0]), SeqWrites(ss[1..]));
      }
    }
  }

  lemma {:induction false} TryFrame(ops: Ops, m: Mode, s: Stmt, st: State, fuel: nat)
    requires s.Try?
    ensures SameOutside(ExecTry(ops, m, s, st, fuel).st.env, st.env, StmtWrites(s))
    decreases fuel, s, 1
  {
    CatchFrame(ops, m, s, st, fuel);
    var r2 := ExecCatch(ops, m, s, st, fuel);
    if s.fin.Some? && !r2.out.OutOfFuel? {
      var resumed := Resume(m, st, r2.st);
      ExecFrame(ops, m, s.fin.value, resumed, fuel);
      Chain(st.env, resumed.env, Exec(ops, m, s.fin.value, resumed, fuel).st.env,
            StmtWrites(s.body) + StmtWrites(s.handler), StmtWrites(s.fin.value));
    }
  }

  lemma {:induction false} CatchFrame(ops: Ops, m: Mode, s: Stmt, st: State, fuel: nat)
    requires s.Try?
    ensures SameOutside(ExecCatch(ops, m, s, st, fuel).st.env, st.env, StmtWrites(s.body) + StmtWrites(s.handler))
    decreases fuel, s, 0
  {
    ExecFrame(ops, m, s.body, st, fuel);
    var r1 := Exec(ops, m, s.body, st, fuel);
    if r1.out.Thrown? && SubclassOf(r1.out.exc, s.caught) {
      var resumed := Resume(m, st, r1.st);
      ExecFrame(ops, m, s.handler, resumed, fuel);
      Chain(st.env, resumed.env, Exec(ops, m, s.handler, resumed, fuel).st.env, StmtWrites(s.body), StmtWrites(s.handler));
    }
  }
}
