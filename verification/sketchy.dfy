/**
 * The sketch-construction API. A sketch is a tree whose operator nodes carry
 * a list of candidate operators, whose identifiers carry candidate names and
 * whose alternative nodes list candidate sub-sketches; the driver resolves
 * each of these choices and hands the resolved tree (module Ast) to the
 * evaluator. `Instance` says which resolved trees a sketch stands for, and
 * the lemmas below state what each builder offers the driver.
 */
module Sketchy {
  import opened Java
  import opened Values
  import opened Ids
  import opened Ast
  import opened Machine

  datatype SExp =
    | SId(id: IdNode)
    | SLit(kind: LitKind, val: Value)
    | SArrAccess(arr: SExp, index: Option<SExp>)   // no index: the driver infers one
    | SAri(left: SExp, aops: seq<AriOp>, right: SExp)
    | SShift(left: SExp, sops: seq<ShiftOp>, right: SExp)
    | SLog(left: SExp, lops: seq<LogOp>, right: SExp)
    | SRel(left: SExp, rops: seq<RelOp>, right: SExp)
    | SPreInc(target: SExp)
    | SAssign(target: SExp, value: SExp)
    | SAlt(alts: seq<SExp>)

  datatype SStmt =
    | SExprStmt(e: SExp)
    | SIf(cond: SExp, thn: SStmt, els: Option<SStmt>)
    | SWhile(cond: SExp, body: SStmt)
    | SBlock(stmts: seq<SStmt>)
    | STry(body: SStmt, caught: ExcClass, handler: SStmt, fin: SStmt)
    | SAltStmt(alts: seq<SStmt>)

  /*------------------------- Resolution --------------------------*/

  /** A binding the driver may give an identifier: one of its names, or any other name when `exclude` is set. */
  predicate Chosen(id: IdNode, b: string)
  {
    if id.exclude then b !in id.ids else b in id.ids
  }

  /**
   * No assignment or increment anywhere in the sketch, whichever alternative
   * is chosen; an array access whose index the driver infers is not counted
   * as read-only, since the inferred index is not part of the sketch.
   */
  predicate ReadOnlySketch(s: SExp)
  {
    match s
    case SId(_) => true
    case SLit(_, _) => true
    case SArrAccess(a, i) => ReadOnlySketch(a) && i.Some? && ReadOnlySketch(i.value)
    case SAri(l, _, r) => ReadOnlySketch(l) && ReadOnlySketch(r)
    case SShift(l, _, r) => ReadOnlySketch(l) && ReadOnlySketch(r)
    case SLog(l, _, r) => ReadOnlySketch(l) && ReadOnlySketch(r)
    case SRel(l, _, r) => ReadOnlySketch(l) && ReadOnlySketch(r)
    case SPreInc(_) => false
    case SAssign(_, _) => false
    case SAlt(alts) => forall k | 0 <= k < |alts| :: ReadOnlySketch(alts[k])
  }

  /**
   * `e` is one way of resolving every choice left open in the sketch `s`;
   * however the driver resolves a read-only sketch, the tree writes nothing.
   */
  predicate Instance(s: SExp, e: Exp)
    ensures Instance(s, e) && ReadOnlySketch(s) ==> Writes(e) == {}
    decreases s
  {
    match s
    case SId(id) => e.Ident? && e.id == id && Chosen(id, e.binding)
    case SLit(k, v) => e == Lit(k, v)
    case SArrAccess(a, i) =>
      e.ArrAccess? && Instance(a, e.arr) && (i.Some? ==> Instance(i.value, e.index))
    case SAri(l, ops, r) => e.BAri? && e.aop in ops && Instance(l, e.left) && Instance(r, e.right)
    case SShift(l, ops, r) => e.Shift? && e.sop in ops && Instance(l, e.left) && Instance(r, e.right)
    case SLog(l, ops, r) => e.Log? && e.lop in ops && Instance(l, e.left) && Instance(r, e.right)
    case SRel(l, ops, r) => e.Rel? && e.rop in ops && Instance(l, e.left) && Instance(r, e.right)
    case SPreInc(t) => e.PreInc? && Instance(t, TargetExp(e.target))
    case SAssign(t, v) => e.Assign? && Instance(t, TargetExp(e.target)) && Instance(v, e.value)
    case SAlt(alts) => exists k | 0 <= k < |alts| :: Instance(alts[k], e)
  }

  /** A condition sketch without assignments resolves to a condition that writes nothing. */
  predicate StmtInstance(s: SStmt, t: Stmt)
    ensures StmtInstance(s, t) && s.SIf? ==> t.If? && (ReadOnlySketch(s.cond) ==> Writes(t.cond) == {})
    ensures StmtInstance(s, t) && s.SWhile? ==> t.While? && (ReadOnlySketch(s.cond) ==> Writes(t.cond) == {})
    decreases s
  {
    match s
    case SExprStmt(e) => t.ExprStmt? && Instance(e, t.e)
    case SIf(c, th, el) =>
      t.If? && Instance(c, t.cond) && StmtInstance(th, t.thn) &&
      (if el.Some? then t.els.Some? && StmtInstance(el.value, t.els.value) else t.els.None?)
    case SWhile(c, b) => t.While? && Instance(c, t.cond) && StmtInstance(b, t.body)
    case SBlock(ss) =>
      t.Block? && |t.stmts| == |ss| && forall k | 0 <= k < |ss| :: StmtInstance(ss[k], t.stmts[k])
    case STry(b, x, h, f) =>
      t.Try? && t.caught == x && StmtInstance(b, t.body) && StmtInstance(h, t.handler) &&
      t.fin.Some? && StmtInstance(f, t.fin.value)
    case SAltStmt(alts) => exists k | 0 <= k < |alts| :: StmtInstance(alts[k], t)
  }

  /*--------------------- Operator candidates ---------------------*/

  /** Each enum constant list holds every constant of its enum. */
  lemma ConstantListsComplete()
    ensures forall op: AriOp :: op in AriOps
    ensures forall op: ShiftOp :: op in ShiftOps
    ensures forall op: LogOp :: op in LogOps
    ensures forall op: RelOp :: op in RelOps
  {
    forall op: AriOp
      ensures op in AriOps
    {
      match op
      case ADD => assert AriOps[0] == op;
      case SUB => assert AriOps[1] == op;
      case MUL => assert AriOps[2] == op;
      case DIV => assert AriOps[3] == op;
      case MOD => assert AriOps[4] == op;
    }
    forall op: ShiftOp
      ensures op in ShiftOps
    {
      match op
      case SHIFTL => assert ShiftOps[0] == op;
      case SHIFTR => assert ShiftOps[1] == op;
      case USHIFTR => assert ShiftOps[2] == op;
    }
    forall op: LogOp
      ensures op in LogOps
    {
      match op
      case AND => assert LogOps[0] == op;
      case OR => assert LogOps[1] == op;
    }
    forall op: RelOp
      ensures op in RelOps
    {
      match op
      case LT => assert RelOps[0] == op;
      case LE => assert RelOps[1] == op;
      case GT => assert RelOps[2] == op;
      case GE => assert RelOps[3] == op;
      case EQ => assert RelOps[4] == op;
      case NE => assert RelOps[5] == op;
    }
  }

  /** An empty operator list stands for every operator of the enum. */
  function AriCandidates(ops: seq<AriOp>): (r: seq<AriOp>)
    ensures r != [] && (ops != [] ==> r == ops)
    ensures forall op: AriOp :: op in r <==> ops == [] || op in ops
  {
    ConstantListsComplete();
    if ops == [] then AriOps else ops
  }

  function ShiftCandidates(ops: seq<ShiftOp>): (r: seq<ShiftOp>)
    ensures r != [] && (ops != [] ==> r == ops)
    ensures forall op: ShiftOp :: op in r <==> ops == [] || op in ops
  {
    ConstantListsComplete();
    if ops == [] then ShiftOps else ops
  }

  function LogCandidates(ops: seq<LogOp>): (r: seq<LogOp>)
    ensures r != [] && (ops != [] ==> r == ops)
    ensures forall op: LogOp :: op in r <==> ops == [] || op in ops
  {
    ConstantListsComplete();
    if ops == [] then LogOps else ops
  }

  function RelCandidates(ops: seq<RelOp>): (r: seq<RelOp>)
    ensures r != [] && (ops != [] ==> r == ops)
    ensures forall op: RelOp :: op in r <==> ops == [] || op in ops
  {
    ConstantListsComplete();
    if ops == [] then RelOps else ops
  }

  /** The binary builders: an empty operator list offers every operator of the enum. */
  function Arithmetic(l: SExp, r: SExp, ops: seq<AriOp>): (e: SExp)
    ensures e.SAri? && e.left == l && e.right == r
    ensures forall op: AriOp :: op in e.aops <==> ops == [] || op in ops
  {
    SAri(l, AriCandidates(ops), r)
  }

  function ShiftExp(l: SExp, r: SExp, ops: seq<ShiftOp>): (e: SExp)
    ensures e.SShift? && e.left == l && e.right == r
    ensures forall op: ShiftOp :: op in e.sops <==> ops == [] || op in ops
  {
    SShift(l, ShiftCandidates(ops), r)
  }

  function Logic(l: SExp, r: SExp, ops: seq<LogOp>): (e: SExp)
    ensures e.SLog? && e.left == l && e.right == r
    ensures forall op: LogOp :: op in e.lops <==> ops == [] || op in ops
  {
    SLog(l, LogCandidates(ops), r)
  }

  function Relation(l: SExp, r: SExp, ops: seq<RelOp>): (e: SExp)
    ensures e.SRel? && e.left == l && e.right == r
    ensures forall op: RelOp :: op in e.rops <==> ops == [] || op in ops
  {
    SRel(l, RelCandidates(ops), r)
  }

  /**
   * A binary builder offers exactly the resolved nodes whose operator is one
   * of those listed (any operator when none is listed) over resolutions of
   * its two operands.
   */
  lemma BinaryInstances(l: SExp, r: SExp, x: Exp,
                        aops: seq<AriOp>, sops: seq<ShiftOp>, lops: seq<LogOp>, rops: seq<RelOp>)
    ensures Instance(Arithmetic(l, r, aops), x) <==>
      x.BAri? && (aops == [] || x.aop in aops) && Instance(l, x.left) && Instance(r, x.right)
    ensures Instance(ShiftExp(l, r, sops), x) <==>
      x.Shift? && (sops == [] || x.sop in sops) && Instance(l, x.left) && Instance(r, x.right)
    ensures Instance(Logic(l, r, lops), x) <==>
      x.Log? && (lops == [] || x.lop in lops) && Instance(l, x.left) && Instance(r, x.right)
    ensures Instance(Relation(l, r, rops), x) <==>
      x.Rel? && (rops == [] || x.rop in rops) && Instance(l, x.left) && Instance(r, x.right)
  {
  }

  /*---------------------- Literals and names ----------------------*/

  /** `asInt(val)`: an immutable int literal. */
  function AsInt(n: int32): (e: SExp)
    ensures ReadOnlySketch(e)
    ensures forall x :: Instance(e, x) <==> x == Lit(ImIntValKind, IntV(n))
  {
    SLit(ImIntValKind, IntV(n))
  }

  /** `asBool(val)`: an immutable boolean literal. */
  function AsBool(b: bool): (e: SExp)
    ensures ReadOnlySketch(e)
    ensures forall x :: Instance(e, x) <==> x == Lit(ImBoolValKind, BoolV(b))
  {
    SLit(ImBoolValKind, BoolV(b))
  }

  /** `intArrAccessExp(String id, Exp index)`: an element of the int array named `arr`. */
  function IntArrAccess(arr: string, index: SExp): (e: SExp)
    ensures ReadOnlySketch(e) <==> ReadOnlySketch(index)
    ensures forall x :: Instance(e, x) <==>
      x.ArrAccess? && x.arr == Ident(RefId(TIntArray, false, [arr]), arr) && Instance(index, x.index)
  {
    SArrAccess(SId(RefId(TIntArray, false, [arr])), Some(index))
  }

  /** `String.indexOf(char)`: the first position of `c`, or -1. */
  function IndexOf(s: string, c: char): (i: int)
    ensures -1 <= i < |s|
    ensures i == -1 <==> c !in s
    ensures 0 <= i ==> s[i] == c && c !in s[..i]
  {
    if s == [] then -1
    else if s[0] == c then 0
    else
      var k := IndexOf(s[1..], c);
      if k == -1 then -1
      else
        assert s[..k + 1] == [s[0]] + s[1..][..k];
        k + 1
  }

  /** Any position holding the first occurrence of `c` is the one `IndexOf` reports. */
  lemma IndexOfFirst(s: string, c: char, p: int)
    requires 0 <= p < |s| && s[p] == c && c !in s[..p]
    ensures IndexOf(s, c) == p
  {
    var i := IndexOf(s, c);
    assert s[p] in s;
    assert forall j | 0 <= j < p :: s[..p][j] == s[j];
    assert forall j | 0 <= j < i :: s[..i][j] == s[j];
  }

  predicate IsDigit(ch: char)
  {
    '0' <= ch <= '9'
  }

  /** `s.matches("\\d+")`. */
  predicate AllDigits(s: string)
  {
    |s| > 0 && forall k | 0 <= k < |s| :: IsDigit(s[k])
  }

  /** The decimal value of a digit string, most significant digit first. */
  function DigitsValue(s: string): nat
  {
    if s == [] then 0
    else DigitsValue(s[..|s| - 1]) * 10 + (if IsDigit(s[|s| - 1]) then s[|s| - 1] as int - '0' as int else 0)
  }

  /** `Integer.parseInt` on a digit string: NumberFormatException above the int range. */
  function ParseInt(s: string): (r: Result<int32>)
    ensures r.Ok? <==> DigitsValue(s) <= 0x7fff_ffff
    ensures r.Ok? ==> r.value == DigitsValue(s)
  {
    var v := DigitsValue(s);
    if v <= 0x7fff_ffff then Ok(v as int32) else Err(NumberFormatException)
  }

  /** `Integer.toString` of a non-negative number, without leading zeros. */
  function ShowNat(n: nat): (s: string)
    ensures |s| > 0
  {
    if n < 10 then [('0' as int + n) as char]
    else ShowNat(n / 10) + [('0' as int + n % 10) as char]
  }

  /** Printing a number and parsing it back gives the number. */
  lemma {:induction false} ShowNatParses(n: nat)
    ensures AllDigits(ShowNat(n)) && DigitsValue(ShowNat(n)) == n
  {
    var s := ShowNat(n);
    if n < 10 {
      assert s[..0] == [];
    } else {
      ShowNatParses(n / 10);
      assert s[..|s| - 1] == ShowNat(n / 10);
      forall k | 0 <= k < |s|
        ensures IsDigit(s[k])
      {
        if k < |s| - 1 {
          assert s[k] == ShowNat(n / 10)[k];
        }
      }
    }
  }

  /**
   * `asIntArrAccess`: split "arr[idx]" at the first '[' and the first ']';
   * a numeric index becomes an int literal, any other index an int
   * identifier named by it. A string without '[' is refused with a
   * RuntimeException; a ']' missing or before the '[' makes `substring`
   * throw StringIndexOutOfBoundsException; a numeric index beyond the int
   * range makes `parseInt` throw NumberFormatException.
   */
  function AsIntArrAccess(s: string): (r: Result<SExp>)
    ensures r == Err(RuntimeException) <==> '[' !in s
    ensures r.Err? ==> r.exc == RuntimeException || r.exc == StringIndexOutOfBoundsException || r.exc == NumberFormatException
    ensures r.Ok? ==> r.value.SArrAccess? && r.value.arr == SId(RefId(TIntArray, false, [s[..IndexOf(s, '[')]]))
  {
    var l := IndexOf(s, '[');
    if l == -1 then Err(RuntimeException)
    else
      var r := IndexOf(s, ']');
      if r < l + 1 then Err(StringIndexOutOfBoundsException)
      else ElementAt(s[..l], s[l + 1..r])
  }

  /** The element of the int array `arr` at the index text `idx`: a number or an identifier name. */
  function ElementAt(arr: string, idx: string): (r: Result<SExp>)
    ensures r.Ok? ==> r.value.SArrAccess? && r.value.arr == SId(RefId(TIntArray, false, [arr]))
    ensures r.Err? ==> r.exc == NumberFormatException
  {
    if AllDigits(idx) then
      match ParseInt(idx)
      case Err(x) => Err(x)
      case Ok(n) => Ok(IntArrAccess(arr, AsInt(n)))
    else Ok(IntArrAccess(arr, SId(IntId([idx]))))
  }

  /** `asIntIdOrIntArrAccess`: an array element when the string holds a '[', else an int identifier. */
  function AsIntIdOrIntArrAccess(s: string): (r: Result<SExp>)
    ensures '[' !in s ==> r == Ok(SId(IntId([s])))
    ensures '[' in s ==> r == AsIntArrAccess(s)
    ensures r.Ok? ==> (r.value.SArrAccess? <==> '[' in s)
  {
    if '[' in s then AsIntArrAccess(s) else Ok(SId(IntId([s])))
  }

  /** Rendering "arr[n]" and reading it back gives the element of `arr` at the literal `n`. */
  lemma ParseLiteralIndex(arr: string, n: nat, tail: string)
    requires '[' !in arr && ']' !in arr && n <= 0x7fff_ffff
    ensures AsIntArrAccess(arr + "[" + ShowNat(n) + "]" + tail) == Ok(IntArrAccess(arr, AsInt(n as int32)))
  {
    ShowNatParses(n);
    ParseFrame(arr, ShowNat(n), tail);
  }

  /** Rendering "arr[i]" for a non-numeric name `i` and reading it back gives the element of `arr` at the int identifier `i`. */
  lemma ParseNamedIndex(arr: string, idx: string, tail: string)
    requires '[' !in arr && ']' !in arr && ']' !in idx && !AllDigits(idx)
    ensures AsIntArrAccess(arr + "[" + idx + "]" + tail) == Ok(IntArrAccess(arr, SId(IntId([idx]))))
  {
    ParseFrame(arr, idx, tail);
  }

  /** "arr[idx]tail" is read as the element of `arr` at the index text `idx`. */
  lemma ParseFrame(arr: string, idx: string, tail: string)
    requires '[' !in arr && ']' !in arr && ']' !in idx
    ensures AsIntArrAccess(arr + "[" + idx + "]" + tail) == ElementAt(arr, idx)
  {
    var s := arr + "[" + idx + "]" + tail;
    var l, r := |arr|, |arr| + 1 + |idx|;
    assert s[..l] == arr && s[l] == '[';
    IndexOfFirst(s, '[', l);
    var front := arr + "[" + idx;
    assert s[..r] == front && s[r] == ']';
    assert ']' !in front by {
      forall k | 0 <= k < |front| ensures front[k] != ']' {
        if k < l { assert front[k] == arr[k]; }
        else if k > l { assert front[k] == idx[k - l - 1]; }
      }
    }
    IndexOfFirst(s, ']', r);
    assert s[l + 1..r] == idx;
  }

  /** A '[' with no ']' anywhere leaves `substring` an end before its start. */
  lemma ParseUnclosed(s: string)
    requires '[' in s && ']' !in s
    ensures AsIntArrAccess(s) == Err(StringIndexOutOfBoundsException)
  {
  }

  /** A numeric index beyond the int range is refused by `parseInt`. */
  lemma ParseOverflow(arr: string, n: nat, tail: string)
    requires '[' !in arr && ']' !in arr && n > 0x7fff_ffff
    ensures AsIntArrAccess(arr + "[" + ShowNat(n) + "]" + tail) == Err(NumberFormatException)
  {
    ShowNatParses(n);
    ParseFrame(arr, ShowNat(n), tail);
  }

  /*------------------------- Operands ----------------------------*/

  /** An argument of an int-typed builder overload: a name string, an int constant or an expression. */
  datatype IntArg = Name(name: string) | IntConst(n: int32) | IntExp(e: SExp)

  /** An argument of a boolean builder overload: a constant or an expression. */
  datatype BoolArg = BoolConst(b: bool) | BoolExp(e: SExp)

  /** Only a name holding a '[' can fail to convert, and only with the exceptions of `asIntArrAccess`. */
  function FromIntArg(a: IntArg): (r: Result<SExp>)
    ensures r.Err? ==> a.Name? && '[' in a.name
    ensures r.Err? ==> r.exc == StringIndexOutOfBoundsException || r.exc == NumberFormatException
    ensures a.IntConst? ==> r.Ok? && ReadOnlySketch(r.value)
  {
    match a
    case Name(s) => AsIntIdOrIntArrAccess(s)
    case IntConst(n) => Ok(AsInt(n))
    case IntExp(e) => Ok(e)
  }

  function FromBoolArg(a: BoolArg): SExp
  {
    match a
    case BoolConst(b) => AsBool(b)
    case BoolExp(e) => e
  }

  /** The two operands of an overload, converted left to right; the first failure is the one thrown. */
  function Operands(a: IntArg, b: IntArg): (r: Result<(SExp, SExp)>)
    ensures r.Ok? <==> FromIntArg(a).Ok? && FromIntArg(b).Ok?
    ensures r.Ok? ==> r.value == (FromIntArg(a).value, FromIntArg(b).value)
    ensures FromIntArg(a).Err? ==> r == Err(FromIntArg(a).exc)
    ensures FromIntArg(a).Ok? && FromIntArg(b).Err? ==> r == Err(FromIntArg(b).exc)
  {
    match FromIntArg(a)
    case Err(x) => Err(x)
    case Ok(l) =>
      match FromIntArg(b)
      case Err(x) => Err(x)
      case Ok(r) => Ok((l, r))
  }

  /** The `arithmetic(String|int|Exp, String|int|Exp, AriOp...)` overloads. */
  function ArithmeticOf(a: IntArg, b: IntArg, ops: seq<AriOp>): (r: Result<SExp>)
    ensures r.Ok? <==> FromIntArg(a).Ok? && FromIntArg(b).Ok?
    ensures r.Ok? ==> r.value == Arithmetic(FromIntArg(a).value, FromIntArg(b).value, ops)
    ensures FromIntArg(a).Err? ==> r == Err(FromIntArg(a).exc)
  {
    match Operands(a, b)
    case Err(x) => Err(x)
    case Ok(p) => Ok(Arithmetic(p.0, p.1, ops))
  }

  /**
   * The two operands of a `shift` overload. `shift(String, String)` converts
   * its right name first and hands the left one on to `shift(String, Exp)`,
   * so there the right name's failure is the one thrown.
   */
  function ShiftOperands(a: IntArg, b: IntArg): (r: Result<(SExp, SExp)>)
    ensures r.Ok? <==> FromIntArg(a).Ok? && FromIntArg(b).Ok?
    ensures r.Ok? ==> r.value == (FromIntArg(a).value, FromIntArg(b).value)
    ensures FromIntArg(b).Err? ==> r == Err(FromIntArg(b).exc)
    ensures FromIntArg(b).Ok? && FromIntArg(a).Err? ==> r == Err(FromIntArg(a).exc)
  {
    match FromIntArg(b)
    case Err(x) => Err(x)
    case Ok(r) =>
      match FromIntArg(a)
      case Err(x) => Err(x)
      case Ok(l) => Ok((l, r))
  }

  /** The `shift(String|int|Exp, String|int|Exp, ShiftOp...)` overloads. */
  function ShiftOf(a: IntArg, b: IntArg, ops: seq<ShiftOp>): (r: Result<SExp>)
    ensures r.Ok? <==> FromIntArg(a).Ok? && FromIntArg(b).Ok?
    ensures r.Ok? ==> r.value == ShiftExp(FromIntArg(a).value, FromIntArg(b).value, ops)
    ensures FromIntArg(b).Err? ==> r == Err(FromIntArg(b).exc)
  {
    match ShiftOperands(a, b)
    case Err(x) => Err(x)
    case Ok(p) => Ok(ShiftExp(p.0, p.1, ops))
  }

  /** The `relation(String|int|Exp, String|int|Exp, RelOp...)` overloads. */
  function RelationOf(a: IntArg, b: IntArg, ops: seq<RelOp>): (r: Result<SExp>)
    ensures r.Ok? <==> FromIntArg(a).Ok? && FromIntArg(b).Ok?
    ensures r.Ok? ==> r.value == Relation(FromIntArg(a).value, FromIntArg(b).value, ops)
    ensures FromIntArg(a).Err? ==> r == Err(FromIntArg(a).exc)
  {
    match Operands(a, b)
    case Err(x) => Err(x)
    case Ok(p) => Ok(Relation(p.0, p.1, ops))
  }

  /** The `logic(boolean|Exp, boolean|Exp, LogOp...)` overloads. */
  function LogicOf(a: BoolArg, b: BoolArg, ops: seq<LogOp>): (e: SExp)
    ensures e.SLog? && (forall op: LogOp :: op in e.lops <==> ops == [] || op in ops)
    ensures a.BoolConst? ==> forall x :: Instance(e.left, x) <==> x == Lit(ImBoolValKind, BoolV(a.b))
    ensures b.BoolConst? ==> forall x :: Instance(e.right, x) <==> x == Lit(ImBoolValKind, BoolV(b.b))
  {
    Logic(FromBoolArg(a), FromBoolArg(b), ops)
  }

  /**
   * With an unclosed left name (such as "b[") and an out-of-range literal
   * index on the right (such as "a[99999999999]"), `shift` throws the
   * right name's NumberFormatException where `arithmetic` and `relation`
   * throw the left name's StringIndexOutOfBoundsException.
   */
  lemma ShiftConvertsRightFirst(left: string, arr: string, n: nat, aops: seq<AriOp>, sops: seq<ShiftOp>, rops: seq<RelOp>)
    requires '[' in left && ']' !in left
    requires '[' !in arr && ']' !in arr && n > 0x7fff_ffff
    ensures ShiftOf(Name(left), Name(arr + "[" + ShowNat(n) + "]"), sops) == Err(NumberFormatException)
    ensures ArithmeticOf(Name(left), Name(arr + "[" + ShowNat(n) + "]"), aops) == Err(StringIndexOutOfBoundsException)
    ensures RelationOf(Name(left), Name(arr + "[" + ShowNat(n) + "]"), rops) == Err(StringIndexOutOfBoundsException)
  {
    var right := arr + "[" + ShowNat(n) + "]";
    ParseUnclosed(left);
    ParseOverflow(arr, n, "");
    assert right + "" == right;
    assert '[' in right by { assert right[|arr|] == '['; }
  }

  /*---------------------------- Alt ------------------------------*/

  /** `alt(exp1, exp2, exps...)`: the candidates in the order given, at least two. */
  method Alt(first: SExp, second: SExp, rest: seq<SExp>) returns (e: SExp)
    ensures e.SAlt? && |e.alts| == 2 + |rest|
    ensures e.alts[0] == first && e.alts[1] == second && e.alts[2..] == rest
  {
    var list: seq<SExp> := [];
    list := list + [first];
    list := list + [second];
    list := list + rest;
    e := SAlt(list);
  }

  /** An alternative stands for exactly what its candidates stand for. */
  lemma AltInstances(first: SExp, second: SExp, rest: seq<SExp>, x: Exp)
    ensures Instance(SAlt([first, second] + rest), x) <==>
      Instance(first, x) || Instance(second, x) || exists k | 0 <= k < |rest| :: Instance(rest[k], x)
  {
    if Instance(SAlt([first, second] + rest), x) {
      AltInstancesOnly(first, second, rest, x);
    } else {
      AltInstancesAll(first, second, rest, x);
    }
  }

  lemma AltInstancesOnly(first: SExp, second: SExp, rest: seq<SExp>, x: Exp)
    requires Instance(SAlt([first, second] + rest), x)
    ensures Instance(first, x) || Instance(second, x) || exists k | 0 <= k < |rest| :: Instance(rest[k], x)
  {
    var list := [first, second] + rest;
    var k :| 0 <= k < |list| && Instance(list[k], x);
    if k >= 2 {
      assert rest[k - 2] == list[k];
    }
  }

  lemma AltInstancesAll(first: SExp, second: SExp, rest: seq<SExp>, x: Exp)
    ensures Instance(first, x) ==> Instance(SAlt([first, second] + rest), x)
    ensures Instance(second, x) ==> Instance(SAlt([first, second] + rest), x)
    ensures forall k | 0 <= k < |rest| :: Instance(rest[k], x) ==> Instance(SAlt([first, second] + rest), x)
  {
    var list := [first, second] + rest;
    assert list[0] == first && list[1] == second;
    assert forall k | 0 <= k < |rest| :: list[k + 2] == rest[k];
  }


  /** `alt(stmt1, stmt2, stmts...)`: the candidate statements in the order given, at least two. */
  method AltStmt(first: SStmt, second: SStmt, rest: seq<SStmt>) returns (s: SStmt)
    ensures s.SAltStmt? && |s.alts| == 2 + |rest|
    ensures s.alts[0] == first && s.alts[1] == second && s.alts[2..] == rest
  {
    var list: seq<SStmt> := [];
    list := list + [first];
    list := list + [second];
    list := list + rest;
    s := SAltStmt(list);
  }

  /** An alternative statement stands for exactly what its candidates stand for. */
  lemma AltStmtInstances(first: SStmt, second: SStmt, rest: seq<SStmt>, t: Stmt)
    ensures StmtInstance(SAltStmt([first, second] + rest), t) <==>
      StmtInstance(first, t) || StmtInstance(second, t) || exists k | 0 <= k < |rest| :: StmtInstance(rest[k], t)
  {
    if StmtInstance(SAltStmt([first, second] + rest), t) {
      AltStmtInstancesOnly(first, second, rest, t);
    } else {
      AltStmtInstancesAll(first, second, rest, t);
    }
  }

  lemma AltStmtInstancesOnly(first: SStmt, second: SStmt, rest: seq<SStmt>, t: Stmt)
    requires StmtInstance(SAltStmt([first, second] + rest), t)
    ensures StmtInstance(first, t) || StmtInstance(second, t) || exists k | 0 <= k < |rest| :: StmtInstance(rest[k], t)
  {
    var list := [first, second] + rest;
    var k :| 0 <= k < |list| && StmtInstance(list[k], t);
    if k >= 2 {
      assert rest[k - 2] == list[k];
    }
  }

  lemma AltStmtInstancesAll(first: SStmt, second: SStmt, rest: seq<SStmt>, t: Stmt)
    ensures StmtInstance(first, t) ==> StmtInstance(SAltStmt([first, second] + rest), t)
    ensures StmtInstance(second, t) ==> StmtInstance(SAltStmt([first, second] + rest), t)
    ensures forall k | 0 <= k < |rest| :: StmtInstance(rest[k], t) ==> StmtInstance(SAltStmt([first, second] + rest), t)
  {
    var list := [first, second] + rest;
    assert list[0] == first && list[1] == second;
    assert forall k | 0 <= k < |rest| :: list[k + 2] == rest[k];
  }


  /*------------------------ Arith or shift ------------------------*/

  /** An arithmetic or a shift operator (`AriOrShiftOp`, which both enums implement). */
  datatype AriOrShiftOp = AOp(a: AriOp) | SOp(s: ShiftOp)

  /** The given arithmetic operators in order, then every shift operator. */
  function WithShifts(aris: seq<AriOp>): (ops: seq<AriOrShiftOp>)
    ensures |ops| == |aris| + |ShiftOps|
    ensures forall op :: op in ops <==> (op.AOp? && op.a in aris) || op.SOp?
  {
    ConstantListsComplete();
    var ops := seq(|aris|, k requires 0 <= k < |aris| => AOp(aris[k])) +
               seq(|ShiftOps|, k requires 0 <= k < |ShiftOps| => SOp(ShiftOps[k]));
    assert forall op: AriOrShiftOp | op.SOp? :: ops[|aris| + IndexOfShift(op.s)] == op;
    assert forall a | a in aris :: exists k | 0 <= k < |aris| :: aris[k] == a && ops[k] == AOp(a);
    ops
  }

  function IndexOfShift(s: ShiftOp): (k: nat)
    ensures k < |ShiftOps| && ShiftOps[k] == s
  {
    match s
    case SHIFTL => 0
    case SHIFTR => 1
    case USHIFTR => 2
  }

  /** The one-operator node `arithOrShift` builds for each operator. */
  function Candidate(l: SExp, r: SExp, op: AriOrShiftOp): SExp
  {
    match op
    case AOp(a) => Arithmetic(l, r, [a])
    case SOp(s) => ShiftExp(l, r, [s])
  }

  function Candidates(l: SExp, r: SExp, ops: seq<AriOrShiftOp>): (cs: seq<SExp>)
    ensures |cs| == |ops|
  {
    seq(|ops|, k requires 0 <= k < |ops| => Candidate(l, r, ops[k]))
  }

  lemma CandidatesSnoc(l: SExp, r: SExp, ops: seq<AriOrShiftOp>, op: AriOrShiftOp)
    ensures Candidates(l, r, ops + [op]) == Candidates(l, r, ops) + [Candidate(l, r, op)]
  {
  }

  /** A single-operator candidate stands for the nodes with that operator over resolutions of the operands. */
  lemma CandidateInstance(l: SExp, r: SExp, op: AriOrShiftOp, x: Exp)
    ensures Instance(Candidate(l, r, op), x) <==>
      ((op.AOp? && x.BAri? && x.aop == op.a) || (op.SOp? && x.Shift? && x.sop == op.s)) &&
      Instance(l, x.left) && Instance(r, x.right)
  {
    match op
    case AOp(a) => BinaryInstances(l, r, x, [a], [SHIFTL], [AND], [LT]);
    case SOp(s) => BinaryInstances(l, r, x, [ADD], [s], [AND], [LT]);
  }

  /** `AriOp.values()` then `ShiftOp.values()` copied into one array. */
  method AllAriOrShiftOps() returns (ops: seq<AriOrShiftOp>)
    ensures ops == WithShifts(AriOps)
  {
    var a := new AriOrShiftOp[|AriOps| + |ShiftOps|](_ => AOp(ADD));
    forall k | 0 <= k < |AriOps| {
      a[k] := AOp(AriOps[k]);
    }
    forall k | 0 <= k < |ShiftOps| {
      a[|AriOps| + k] := SOp(ShiftOps[k]);
    }
    ops := a[..];
  }

  /**
   * `arithOrShift(left, right, ops...)`: one single-operator candidate per
   * operator, in order, offered as alternatives; no operators means every
   * arithmetic operator followed by every shift operator.
   */
  method ArithOrShift(left: SExp, right: SExp, ops: seq<AriOrShiftOp>) returns (e: SExp)
    ensures e == SAlt(Candidates(left, right, if ops == [] then WithShifts(AriOps) else ops))
  {
    var chosen := ops;
    if |chosen| == 0 {
      chosen := AllAriOrShiftOps();
    }
    var exps: seq<SExp> := [];
    var i := 0;
    while i < |chosen|
      invariant 0 <= i <= |chosen|
      invariant exps == Candidates(left, right, chosen[..i])
    {
      var op := chosen[i];
      CandidatesSnoc(left, right, chosen[..i], op);
      assert chosen[..i + 1] == chosen[..i] + [op];
      if op.AOp? {
        exps := exps + [Arithmetic(left, right, [op.a])];
      } else {
        exps := exps + [ShiftExp(left, right, [op.s])];
      }
      i := i + 1;
    }
    assert chosen[..i] == chosen;
    e := SAlt(exps);
  }

  /**
   * The alternatives `arithOrShift` builds stand for exactly the arithmetic
   * and shift nodes over resolutions of the two operands whose operator is
   * one of those offered.
   */
  lemma ArithOrShiftInstances(l: SExp, r: SExp, ops: seq<AriOrShiftOp>, x: Exp)
    ensures Instance(SAlt(Candidates(l, r, ops)), x) <==>
      ((x.BAri? && AOp(x.aop) in ops) || (x.Shift? && SOp(x.sop) in ops)) &&
      Instance(l, x.left) && Instance(r, x.right)
  {
    if Instance(SAlt(Candidates(l, r, ops)), x) {
      OfferedOnlyListed(l, r, ops, x);
    }
    if ((x.BAri? && AOp(x.aop) in ops) || (x.Shift? && SOp(x.sop) in ops)) && Instance(l, x.left) && Instance(r, x.right) {
      ListedOffered(l, r, ops, x);
    }
  }

  lemma OfferedOnlyListed(l: SExp, r: SExp, ops: seq<AriOrShiftOp>, x: Exp)
    requires Instance(SAlt(Candidates(l, r, ops)), x)
    ensures (x.BAri? && AOp(x.aop) in ops) || (x.Shift? && SOp(x.sop) in ops)
    ensures Instance(l, x.left) && Instance(r, x.right)
  {
    var cs := Candidates(l, r, ops);
    var k :| 0 <= k < |cs| && Instance(cs[k], x);
    assert cs[k] == Candidate(l, r, ops[k]);
    CandidateInstance(l, r, ops[k], x);
  }

  lemma ListedOffered(l: SExp, r: SExp, ops: seq<AriOrShiftOp>, x: Exp)
    requires (x.BAri? && AOp(x.aop) in ops) || (x.Shift? && SOp(x.sop) in ops)
    requires Instance(l, x.left) && Instance(r, x.right)
    ensures Instance(SAlt(Candidates(l, r, ops)), x)
  {
    var cs := Candidates(l, r, ops);
    var op := if x.BAri? then AOp(x.aop) else SOp(x.sop);
    var k :| 0 <= k < |ops| && ops[k] == op;
    assert cs[k] == Candidate(l, r, op);
    CandidateInstance(l, r, op, x);
    assert Instance(cs[k], x);
  }

  /*---------------------- Excluding DIV and MOD ---------------------*/

  /** DIV and MOD are the last two constants of the arithmetic operator enum, and only they. */
  predicate DivModLast(values: seq<AriOp>)
  {
    |values| >= 2 &&
    forall i | 0 <= i < |values| :: (values[i] == DIV || values[i] == MOD) <==> i >= |values| - 2
  }

  /**
   * The operator array of `arithmetic(left, right, true)`: the enum's
   * constants other than DIV and MOD, kept at their own positions in an
   * array two shorter than the enum, unfilled slots being null.
   */
  method ExcludeDivMod(values: seq<AriOp>) returns (ops: seq<AriOp>)
    requires DivModLast(values)
    ensures ops == values[..|values| - 2]
    ensures forall op :: op in ops <==> op in values && op != DIV && op != MOD
  {
    var a := new Option<AriOp>[|values| - 2](_ => None);
    var i := 0;
    while i < |values|
      invariant 0 <= i <= |values|
      invariant forall k | 0 <= k < a.Length :: a[k] == if k < i then Some(values[k]) else None
    {
      if values[i] != DIV && values[i] != MOD {
        a[i] := Some(values[i]);
      }
      i := i + 1;
    }
    ops := seq(a.Length, k requires 0 <= k < a.Length && a[k].Some? reads a => a[k].value);
    assert forall op | op in values && op != DIV && op != MOD :: op in ops by {
      forall op | op in values && op != DIV && op != MOD
        ensures op in ops
      {
        var k :| 0 <= k < |values| && values[k] == op;
        assert ops[k] == op;
      }
    }
  }

  /**
   * The operator array of `arithOrShift(left, right, true)`: the enum's
   * arithmetic constants other than DIV and MOD at their own positions,
   * then every shift operator copied in after them.
   */
  method ExcludeDivModWithShifts(values: seq<AriOp>) returns (ops: seq<AriOrShiftOp>)
    requires DivModLast(values)
    ensures ops == WithShifts(values[..|values| - 2])
  {
    var n := |values| - 2;
    var a := new Option<AriOrShiftOp>[n + |ShiftOps|](_ => None);
    var i := 0;
    while i < |values|
      invariant 0 <= i <= |values|
      invariant forall k | 0 <= k < a.Length :: a[k] == if k < i && k < n then Some(AOp(values[k])) else None
    {
      if values[i] != DIV && values[i] != MOD {
        a[i] := Some(AOp(values[i]));
      }
      i := i + 1;
    }
    forall k | 0 <= k < |ShiftOps| {
      a[n + k] := Some(SOp(ShiftOps[k]));
    }
    ops := seq(a.Length, k requires 0 <= k < a.Length && a[k].Some? reads a => a[k].value);
  }

  /** `arithmetic(left, right, excludeDivOrMod)`. */
  method ArithmeticExcluding(left: SExp, right: SExp, excludeDivOrMod: bool) returns (e: SExp)
    ensures forall x :: Instance(e, x) <==>
      x.BAri? && (!excludeDivOrMod || (x.aop != DIV && x.aop != MOD)) &&
      Instance(left, x.left) && Instance(right, x.right)
  {
    ConstantListsComplete();
    if !excludeDivOrMod {
      e := Arithmetic(left, right, []);
      return;
    }
    var ops := ExcludeDivMod(AriOps);
    e := Arithmetic(left, right, ops);
  }

  /** `arithOrShift(left, right, excludeDivOrMod)`. */
  method ArithOrShiftExcluding(left: SExp, right: SExp, excludeDivOrMod: bool) returns (e: SExp)
    ensures forall x :: Instance(e, x) <==>
      ((x.BAri? && (!excludeDivOrMod || (x.aop != DIV && x.aop != MOD))) || x.Shift?) &&
      Instance(left, x.left) && Instance(right, x.right)
  {
    ConstantListsComplete();
    var ops: seq<AriOrShiftOp>;
    if !excludeDivOrMod {
      ops := AllAriOrShiftOps();
    } else {
      ops := ExcludeDivModWithShifts(AriOps);
    }
    assert AriOps[..|AriOps| - 2] == [ADD, SUB, MUL];
    e := ArithOrShift(left, right, ops);
    forall x
      ensures Instance(e, x) <==>
        ((x.BAri? && (!excludeDivOrMod || (x.aop != DIV && x.aop != MOD))) || x.Shift?) &&
        Instance(left, x.left) && Instance(right, x.right)
    {
      ArithOrShiftInstances(left, right, ops, x);
    }
  }

  /*------------------------- Statements ---------------------------*/

  /** `tryStmt(body, type, handler)`: the missing finally block is an empty block. */
  function TryStmt(body: SStmt, caught: ExcClass, handler: SStmt): (s: SStmt)
    ensures forall t :: StmtInstance(s, t) <==>
      t.Try? && t.caught == caught && StmtInstance(body, t.body) && StmtInstance(handler, t.handler) &&
      t.fin == Some(Block([]))
  {
    STry(body, caught, handler, SBlock([]))
  }

  /** `assignStmt(target, value)`: an assignment expression used as a statement. */
  function AssignStmt(target: SExp, value: SExp): (s: SStmt)
    ensures forall t :: StmtInstance(s, t) <==>
      t.ExprStmt? && t.e.Assign? && Instance(target, TargetExp(t.e.target)) && Instance(value, t.e.value)
  {
    SExprStmt(SAssign(target, value))
  }

  /** `preIncIntStmt(exclude, ids...)`: `++x` on an Integer-typed reference identifier. */
  function PreIncIntStmt(exclude: bool, ids: seq<string>): (s: SStmt)
    ensures forall t :: StmtInstance(s, t) ==>
      t.ExprStmt? && t.e.PreInc? && Writes(t.e) == {TargetName(t.e.target)} &&
      Chosen(RefId(TInteger, exclude, ids), TargetName(t.e.target))
  {
    IdTargets(RefId(TInteger, exclude, ids));
    SExprStmt(SPreInc(SId(RefId(TInteger, exclude, ids))))
  }

  /** An identifier sketch used as a target resolves only to that identifier, never to an array element. */
  lemma IdTargets(id: IdNode)
    ensures forall tg :: Instance(SId(id), TargetExp(tg)) ==> tg.TId? && Chosen(id, TargetName(tg))
  {
  }

  /**
   * An empty finally block changes nothing as the evaluator runs it; with
   * the stack reset before the finally block only the leftover stack can
   * differ.
   */
  lemma EmptyFinallyIsNoOp(ops: Ops, m: Mode, body: Stmt, caught: ExcClass, handler: Stmt, st: State, fuel: nat)
    ensures var with := Exec(ops, m, Try(body, caught, handler, Some(Block([]))), st, fuel);
      var without := Exec(ops, m, Try(body, caught, handler, None), st, fuel);
      with.out == without.out && with.st.env == without.st.env && (m == AsWritten ==> with == without)
  {
    var r2 := ExecCatch(ops, m, Try(body, caught, handler, None), st, fuel);
    SameCatch(ops, m, body, caught, handler, Some(Block([])), st, fuel);
    EmptyBlockRuns(ops, m, Resume(m, st, r2.st), fuel);
  }

  /** The finally block plays no part in running the try block and the handler. */
  lemma SameCatch(ops: Ops, m: Mode, body: Stmt, caught: ExcClass, handler: Stmt, fin: Option<Stmt>, st: State, fuel: nat)
    ensures ExecCatch(ops, m, Try(body, caught, handler, fin), st, fuel) == ExecCatch(ops, m, Try(body, caught, handler, None), st, fuel)
  {
  }

  lemma EmptyBlockRuns(ops: Ops, m: Mode, st: State, fuel: nat)
    ensures Exec(ops, m, Block([]), st, fuel) == Step(Normal, st)
  {
  }

  /** Every resolution of `preIncIntStmt` increments one Integer identifier the driver may bind. */
  lemma PreIncIntStmtInstances(exclude: bool, ids: seq<string>, t: Stmt)
    ensures StmtInstance(PreIncIntStmt(exclude, ids), t) <==>
      t.ExprStmt? && t.e.PreInc? && t.e.target.TId? &&
      t.e.target.id == RefId(TInteger, exclude, ids) && Chosen(t.e.target.id, t.e.target.binding)
  {
    var id := RefId(TInteger, exclude, ids);
    assert StmtInstance(PreIncIntStmt(exclude, ids), t) <==> t.ExprStmt? && Instance(SPreInc(SId(id)), t.e);
    if t.ExprStmt? && t.e.PreInc? {
      var tg := t.e.target;
      assert Instance(SPreInc(SId(id)), t.e) <==> Instance(SId(id), TargetExp(tg));
      assert TargetExp(tg).Ident? <==> tg.TId?;
      assert tg.TId? ==> TargetExp(tg) == Ident(tg.id, tg.binding);
    }
  }
}
