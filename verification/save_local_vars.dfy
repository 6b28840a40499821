/**
 * The bytecode rewriter that makes local variables visible to a sketch: a
 * method visitor that, around every `eval()` call of the instrumented
 * method, emits code which copies the locals reachable at that call into the
 * runtime memory, saves the fields, makes the original call, and then copies
 * the (possibly changed) values back into the locals and fields. Emitting an
 * instruction is appending it to `trace`; the runtime classes the emitted
 * code calls are named by `RuntimeCall`; descriptor queries and local
 * variable scopes, which live in classes outside this model, are parameters.
 */
module Instrumentation {
  import opened Java

  /* JVM opcodes, numbered as in chapter 6.5 of the Java Virtual Machine Specification. */
  const BIPUSH: int := 16
  const SIPUSH: int := 17
  const ILOAD: int := 21
  const LLOAD: int := 22
  const FLOAD: int := 23
  const DLOAD: int := 24
  const ALOAD: int := 25
  const ISTORE: int := 54
  const LSTORE: int := 55
  const FSTORE: int := 56
  const DSTORE: int := 57
  const ASTORE: int := 58
  const INVOKEVIRTUAL: int := 182
  const INVOKESTATIC: int := 184
  const CHECKCAST: int := 192

  /** The static methods of the runtime support classes that emitted code calls. */
  datatype RuntimeCall =
    | ResetMemory | AddToMemory | GetFromMemoryValueOfVar
    | InitFieldAnalyzer | FindFieldsForObject | FindFieldsForClass
    | SaveFieldValues | UpdateFieldValues

  /** One instruction handed to the next visitor in the chain. */
  datatype Insn =
    | VarInsn(opcode: int, slot: int)
    | IntInsn(opcode: int, operand: int)
    | LdcString(s: string)
    | LdcInt(n: int)
    | LdcType(className: string)
    | TypeInsn(opcode: int, typeName: string)
    | MethodInsn(opcode: int, owner: string, name: string, desc: string, isInterface: bool)
    | Invoke(call: RuntimeCall)            // INVOKESTATIC of a runtime support method
    | Box(primitiveDesc: string)           // `invokeBoxing`: INVOKESTATIC Wrapper.valueOf
    | Unbox(primitiveDesc: string)         // `invokeUnboxing`: INVOKEVIRTUAL wrapper.xxxValue()

  /** A local variable of the instrumented method: its name, type descriptor and slot. */
  datatype Var = Var(name: string, desc: string, slot: int)

  /** The descriptor queries of the type utility class. */
  datatype TypeUtil = TypeUtil(
    supported: string -> bool,
    primitive: string -> bool,
    wrapper: string -> string,          // internal name of the wrapper class of a primitive
    primitiveName: string -> string,    // "int" for "I"
    internal: string -> string)         // internal name of a reference type

  /** Why the visitor throws a RuntimeException; `Message` gives the exception's text. */
  datatype Failure =
    | EvalQueueEmpty
    | UnsupportedLocal(desc: string)
    | UnexpectedDesc(desc: string)

  function Message(f: Failure): string
  {
    match f
    case EvalQueueEmpty => "Queue of evals is empty!"
    case UnsupportedLocal(desc) => "We should not have collected a local variables of this type: " + desc
    case UnexpectedDesc(desc) => "Unexpected type: " + desc
  }

  datatype Status = Done | Failed(failure: Failure)

  /** Instructions emitted by a step and how the step ended (a throw keeps what was emitted before it). */
  datatype Emitted = Emitted(code: seq<Insn>, status: Status)

  /*------------------------ Pure case analyses ------------------------*/

  predicate IsReferenceDesc(desc: string)
  {
    |desc| > 0 && (desc[0] == '[' || desc[0] == 'L')
  }

  /** `desc.equals(c)` for a one-letter descriptor. */
  predicate IsDesc(desc: string, c: char)
  {
    |desc| == 1 && desc[0] == c
  }

  predicate IsIntLikeDesc(desc: string)
  {
    IsDesc(desc, 'I') || IsDesc(desc, 'Z') || IsDesc(desc, 'B') || IsDesc(desc, 'S') || IsDesc(desc, 'C')
  }

  /**
   * The JVM's own numbering of the load and store families: int, long,
   * float, double, reference (chapter 2.11.1 of the Java Virtual Machine
   * Specification); boolean, byte, short and char are loaded as int.
   */
  function JvmTypeOffset(desc: string): Option<int>
  {
    if IsReferenceDesc(desc) then Some(4)
    else if IsIntLikeDesc(desc) then Some(0)
    else if IsDesc(desc, 'J') then Some(1)
    else if IsDesc(desc, 'F') then Some(2)
    else if IsDesc(desc, 'D') then Some(3)
    else None
  }

  /** `loadOrStoreLocalVar`: the opcode that loads or stores a local of descriptor `desc`; none for an unexpected descriptor. */
  function LoadOrStoreOpcode(desc: string, load: bool): (r: Option<int>)
    ensures r.None? <==> JvmTypeOffset(desc).None?
    ensures r.Some? && load ==> ILOAD <= r.value <= ALOAD
    ensures r.Some? && !load ==> ISTORE <= r.value <= ASTORE
  {
    if IsReferenceDesc(desc) then Some(if load then ALOAD else ASTORE)
    else if IsIntLikeDesc(desc) then Some(if load then ILOAD else ISTORE)
    else if IsDesc(desc, 'F') then Some(if load then FLOAD else FSTORE)
    else if IsDesc(desc, 'J') then Some(if load then LLOAD else LSTORE)
    else if IsDesc(desc, 'D') then Some(if load then DLOAD else DSTORE)
    else None
  }

  /** The opcode is the family base plus the JVM's offset for the descriptor's computational type. */
  lemma LoadOrStoreFamilies(desc: string, load: bool)
    ensures LoadOrStoreOpcode(desc, load).Some? <==> JvmTypeOffset(desc).Some?
    ensures LoadOrStoreOpcode(desc, load).Some? ==>
      LoadOrStoreOpcode(desc, load).value == (if load then ILOAD else ISTORE) + JvmTypeOffset(desc).value
  {
  }

  /** A local is stored back with the store instruction of the family it was loaded with. */
  lemma LoadStorePair(desc: string)
    ensures LoadOrStoreOpcode(desc, true).Some? <==> LoadOrStoreOpcode(desc, false).Some?
    ensures LoadOrStoreOpcode(desc, true).Some? ==>
      ILOAD <= LoadOrStoreOpcode(desc, true).value <= ALOAD &&
      LoadOrStoreOpcode(desc, false).value == LoadOrStoreOpcode(desc, true).value + (ISTORE - ILOAD)
  {
  }

  /** `pushIntOntoStack`: the shortest instruction that pushes `n`. */
  function PushInt(n: int32): (i: Insn)
    ensures i.IntInsn? ==> i.operand == n
    ensures i == IntInsn(BIPUSH, n) <==> -128 <= n <= 127
    ensures i == IntInsn(SIPUSH, n) <==> (n < -128 || 127 < n) && -32768 <= n <= 32767
    ensures i == LdcInt(n) <==> n < -32768 || 32767 < n
  {
    if -128 <= n <= 127 then IntInsn(BIPUSH, n)
    else if -32768 <= n <= 32767 then IntInsn(SIPUSH, n)
    else LdcInt(n)
  }

  /** The operand bytes the class file holds for a push instruction, big-endian. */
  function OperandBytes(i: Insn): seq<int>
  {
    if i.IntInsn? && i.opcode == BIPUSH then [i.operand % 256]
    else if i.IntInsn? && i.opcode == SIPUSH then [(i.operand % 65536) / 256, i.operand % 256]
    else []
  }

  /** The value the JVM pushes: `bipush` and `sipush` sign-extend their immediate operand (chapter 6.5). */
  function PushedValue(i: Insn): Option<int>
  {
    var b := OperandBytes(i);
    if i.IntInsn? && i.opcode == BIPUSH && |b| == 1 then Some(if b[0] >= 128 then b[0] - 256 else b[0])
    else if i.IntInsn? && i.opcode == SIPUSH && |b| == 2 then
      var u := b[0] * 256 + b[1];
      Some(if u >= 32768 then u - 65536 else u)
    else if i.LdcInt? then Some(i.n)
    else None
  }

  /** Whatever instruction `pushIntOntoStack` picks, the JVM pushes exactly the number asked for. */
  lemma PushIntRoundTrip(n: int32)
    ensures PushedValue(PushInt(n)) == Some(n as int)
  {
    var i := PushInt(n);
    if i.IntInsn? && i.opcode == SIPUSH {
      var m := n as int % 65536;
      assert (m / 256) * 256 + m % 256 == m;
      assert m % 256 == n as int % 256;
    }
  }

  /*----------------------- The emitted code, as values -----------------------*/

  /** `invokeBoxing`: the call `Wrapper.valueOf(primitive)` that a `Box` stands for. */
  function Boxing(types: TypeUtil, desc: string): (i: Insn)
    ensures i.MethodInsn? && i.opcode == INVOKESTATIC && !i.isInterface
    ensures i.owner == types.wrapper(desc) && |i.desc| > |desc| && i.desc[..1 + |desc|] == "(" + desc
  {
    var w := types.wrapper(desc);
    MethodInsn(INVOKESTATIC, w, "valueOf", "(" + desc + ")" + "L" + w + ";", false)
  }

  /** `invokeUnboxing`: the call `wrapper.intValue()` (and the like) that an `Unbox` stands for. */
  function Unboxing(types: TypeUtil, desc: string): (i: Insn)
    ensures i.MethodInsn? && i.opcode == INVOKEVIRTUAL && !i.isInterface
    ensures i.owner == Boxing(types, desc).owner && |i.desc| >= 2 && i.desc[2..] == desc
  {
    MethodInsn(INVOKEVIRTUAL, types.wrapper(desc), types.primitiveName(desc) + "Value", "()" + desc, false)
  }

  /** The instruction the next visitor receives: `Box` and `Unbox` spelled out as the calls they stand for. */
  function Expand(types: TypeUtil, i: Insn): Insn
  {
    match i
    case Box(desc) => Boxing(types, desc)
    case Unbox(desc) => Unboxing(types, desc)
    case _ => i
  }

  /** The code that adds one local to the memory: name, value (boxed when primitive), `addToMemory`. */
  function SaveOne(types: TypeUtil, v: Var): (r: Emitted)
    ensures r.status.Done? <==> types.supported(v.desc) && JvmTypeOffset(v.desc).Some?
    ensures r.status.Failed? ==>
      r.status.failure == (if types.supported(v.desc) then UnexpectedDesc(v.desc) else UnsupportedLocal(v.desc))
    ensures r.status.Done? ==> |r.code| >= 3 && r.code[0] == LdcString(v.name) && r.code[|r.code| - 1] == Invoke(AddToMemory)
  {
    if !types.supported(v.desc) then Emitted([], Failed(UnsupportedLocal(v.desc)))
    else match LoadOrStoreOpcode(v.desc, true)
      case None => Emitted([LdcString(v.name)], Failed(UnexpectedDesc(v.desc)))
      case Some(op) =>
        Emitted([LdcString(v.name), VarInsn(op, v.slot)] +
                (if types.primitive(v.desc) then [Box(v.desc)] else []) +
                [Invoke(AddToMemory)], Done)
  }

  /** The code that reads one local back from the memory: fetch, cast (and unbox), store; `this` is skipped. */
  function UpdateOne(types: TypeUtil, v: Var): (r: Emitted)
    ensures r.status.Done? <==> v.name == "this" || (types.supported(v.desc) && JvmTypeOffset(v.desc).Some?)
    ensures v.name == "this" ==> r.code == []
    ensures r.status.Done? && v.name != "this" ==>
      |r.code| >= 4 && r.code[0] == LdcString(v.name) && r.code[1] == Invoke(GetFromMemoryValueOfVar) &&
      r.code[|r.code| - 1] == VarInsn(LoadOrStoreOpcode(v.desc, false).value, v.slot)
  {
    if v.name == "this" then Emitted([], Done)
    else if !types.supported(v.desc) then Emitted([], Failed(UnsupportedLocal(v.desc)))
    else
      var fetch := [LdcString(v.name), Invoke(GetFromMemoryValueOfVar)] +
        (if types.primitive(v.desc)
         then [TypeInsn(CHECKCAST, types.wrapper(v.desc)), Unbox(v.desc)]
         else [TypeInsn(CHECKCAST, types.internal(v.desc))]);
      match LoadOrStoreOpcode(v.desc, false)
      case None => Emitted(fetch, Failed(UnexpectedDesc(v.desc)))
      case Some(op) => Emitted(fetch + [VarInsn(op, v.slot)], Done)
  }

  /** One step per variable, in order, stopping at the first that throws. */
  function SaveEach(types: TypeUtil, vars: seq<Var>, n: nat): (r: Emitted)
    requires n <= |vars|
    ensures r.status.Done? ==> |r.code| >= 3 * n
    ensures r.status.Failed? ==> !r.status.failure.EvalQueueEmpty?
  {
    if n == 0 then Emitted([], Done)
    else
      var pre := SaveEach(types, vars, n - 1);
      if pre.status.Failed? then pre
      else
        var one := SaveOne(types, vars[n - 1]);
        Emitted(pre.code + one.code, one.status)
  }


  function UpdateEach(types: TypeUtil, vars: seq<Var>, n: nat): (r: Emitted)
    requires n <= |vars|
    ensures r.status.Failed? ==> !r.status.failure.EvalQueueEmpty?
  {
    if n == 0 then Emitted([], Done)
    else
      var pre := UpdateEach(types, vars, n - 1);
      if pre.status.Failed? then pre
      else
        var one := UpdateOne(types, vars[n - 1]);
        Emitted(pre.code + one.code, one.status)
  }






  lemma SaveEachNext(types: TypeUtil, vars: seq<Var>, i: nat, base: seq<Insn>, before: seq<Insn>, after: seq<Insn>)
    requires i < |vars| && SaveEach(types, vars, i).status == Done
    requires before == base + SaveEach(types, vars, i).code
    requires after == before + SaveOne(types, vars[i]).code
    ensures after == base + SaveEach(types, vars, i + 1).code
    ensures SaveEach(types, vars, i + 1).status == SaveOne(types, vars[i]).status
  {
    assert after == base + (SaveEach(types, vars, i).code + SaveOne(types, vars[i]).code);
  }

  lemma UpdateEachNext(types: TypeUtil, vars: seq<Var>, i: nat, base: seq<Insn>, before: seq<Insn>, after: seq<Insn>)
    requires i < |vars| && UpdateEach(types, vars, i).status == Done
    requires before == base + UpdateEach(types, vars, i).code
    requires after == before + UpdateOne(types, vars[i]).code
    ensures after == base + UpdateEach(types, vars, i + 1).code
    ensures UpdateEach(types, vars, i + 1).status == UpdateOne(types, vars[i]).status
  {
    assert after == base + (UpdateEach(types, vars, i).code + UpdateOne(types, vars[i]).code);
  }

  /** Once a variable has thrown, the variables after it emit nothing. */
  lemma {:induction false} SaveEachStops(types: TypeUtil, vars: seq<Var>, j: nat, n: nat)
    requires j <= n <= |vars| && SaveEach(types, vars, j).status.Failed?
    ensures SaveEach(types, vars, n) == SaveEach(types, vars, j)
    decreases n - j
  {
    if j < n {
      SaveEachStops(types, vars, j, n - 1);
    }
  }

  lemma {:induction false} UpdateEachStops(types: TypeUtil, vars: seq<Var>, j: nat, n: nat)
    requires j <= n <= |vars| && UpdateEach(types, vars, j).status.Failed?
    ensures UpdateEach(types, vars, n) == UpdateEach(types, vars, j)
    decreases n - j
  {
    if j < n {
      UpdateEachStops(types, vars, j, n - 1);
      assert UpdateEach(types, vars, n - 1).status.Failed?;
    }
  }

  /** A local the save step can handle: a supported type with a load instruction. */
  predicate Saveable(types: TypeUtil, v: Var)
  {
    types.supported(v.desc) && JvmTypeOffset(v.desc).Some?
  }

  /** The save step completes exactly when every variable is saveable. */
  lemma {:induction false} SaveEachDone(types: TypeUtil, vars: seq<Var>, n: nat)
    requires n <= |vars|
    ensures SaveEach(types, vars, n).status == Done <==> forall k | 0 <= k < n :: Saveable(types, vars[k])
  {
    if n > 0 {
      SaveEachDone(types, vars, n - 1);
      LoadOrStoreFamilies(vars[n - 1].desc, true);
      if SaveEach(types, vars, n - 1).status.Failed? {
        assert SaveEach(types, vars, n) == SaveEach(types, vars, n - 1);
      }
    }
  }

  /** The write-back step completes exactly when every variable but `this` is saveable. */
  lemma {:induction false} UpdateEachDone(types: TypeUtil, vars: seq<Var>, n: nat)
    requires n <= |vars|
    ensures UpdateEach(types, vars, n).status == Done <==>
      forall k | 0 <= k < n :: vars[k].name == "this" || Saveable(types, vars[k])
  {
    if n > 0 {
      UpdateEachDone(types, vars, n - 1);
      LoadOrStoreFamilies(vars[n - 1].desc, false);
      if UpdateEach(types, vars, n - 1).status.Failed? {
        assert UpdateEach(types, vars, n) == UpdateEach(types, vars, n - 1);
      }
    }
  }

  /*------------------- Which local slots the code touches -------------------*/

  /** The (slot, type family) a load (`load`) or store instruction accesses; nothing for other instructions. */
  function Access(i: Insn, load: bool): seq<(int, int)>
  {
    var base := if load then ILOAD else ISTORE;
    if i.VarInsn? && base <= i.opcode <= base + 4 then [(i.slot, i.opcode - base)] else []
  }

  function Accesses(code: seq<Insn>, load: bool): seq<(int, int)>
  {
    if code == [] then [] else Accesses(code[..|code| - 1], load) + Access(code[|code| - 1], load)
  }

  lemma {:induction false} AccessesAppend(a: seq<Insn>, b: seq<Insn>, load: bool)
    ensures Accesses(a + b, load) == Accesses(a, load) + Accesses(b, load)
    decreases |b|
  {
    if b != [] {
      var b' := b[..|b| - 1];
      assert (a + b)[..|a + b| - 1] == a + b';
      AccessesAppend(a, b', load);
    } else {
      assert a + b == a;
    }
  }

  lemma AccessesPair(x: Insn, y: Insn, load: bool)
    ensures Accesses([x, y], load) == Access(x, load) + Access(y, load)
  {
    assert [x, y][..1] == [x] && [x, y][1] == y;
    assert [x][..0] == [] && [x][0] == x;
    assert Accesses([x], load) == Access(x, load);
  }

  /** The slot and type family of a local, as the JVM numbers the families. */
  function Slot(v: Var): (int, int)
  {
    (v.slot, match JvmTypeOffset(v.desc) case Some(k) => k case None => -1)
  }

  /** The locals the save code for the first `n` variables reads, in order. */
  function Read(vars: seq<Var>, n: nat): seq<(int, int)>
    requires n <= |vars|
  {
    if n == 0 then [] else Read(vars, n - 1) + [Slot(vars[n - 1])]
  }

  /** The locals the write-back code for the first `n` variables writes, in order: all but `this`. */
  function Written(vars: seq<Var>, n: nat): seq<(int, int)>
    requires n <= |vars|
  {
    if n == 0 then []
    else Written(vars, n - 1) + (if vars[n - 1].name == "this" then [] else [Slot(vars[n - 1])])
  }

  lemma SaveOneAccesses(types: TypeUtil, v: Var, load: bool)
    requires SaveOne(types, v).status == Done
    ensures Accesses(SaveOne(types, v).code, load) == if load then [Slot(v)] else []
  {
    var op := LoadOrStoreOpcode(v.desc, true).value;
    LoadOrStoreFamilies(v.desc, true);
    var head := [LdcString(v.name), VarInsn(op, v.slot)];
    var rest := (if types.primitive(v.desc) then [Box(v.desc)] else []) + [Invoke(AddToMemory)];
    assert SaveOne(types, v).code == head + rest;
    AccessesAppend(head, rest, load);
    AccessesPair(LdcString(v.name), VarInsn(op, v.slot), load);
    NoAccesses(rest, load);
  }

  lemma UpdateOneAccesses(types: TypeUtil, v: Var, load: bool)
    requires UpdateOne(types, v).status == Done
    ensures Accesses(UpdateOne(types, v).code, load) == if load || v.name == "this" then [] else [Slot(v)]
  {
    if v.name != "this" {
      var op := LoadOrStoreOpcode(v.desc, false).value;
      LoadOrStoreFamilies(v.desc, false);
      var fetch := [LdcString(v.name), Invoke(GetFromMemoryValueOfVar)] +
        (if types.primitive(v.desc)
         then [TypeInsn(CHECKCAST, types.wrapper(v.desc)), Unbox(v.desc)]
         else [TypeInsn(CHECKCAST, types.internal(v.desc))]);
      assert UpdateOne(types, v).code == fetch + [VarInsn(op, v.slot)];
      AccessesAppend(fetch, [VarInsn(op, v.slot)], load);
      NoAccesses(fetch, load);
      assert [VarInsn(op, v.slot)][..0] == [];
    } else {
      assert UpdateOne(types, v).code == [];
    }
  }

  /** Code without load or store instructions accesses no local. */
  lemma {:induction false} NoAccesses(code: seq<Insn>, load: bool)
    requires forall k | 0 <= k < |code| :: !code[k].VarInsn?
    ensures Accesses(code, load) == []
  {
    if code != [] {
      NoAccesses(code[..|code| - 1], load);
    }
  }

  /** A completed save step loads every variable from its own slot with its type's load instruction, and stores nothing. */
  lemma {:induction false} SaveEachLoads(types: TypeUtil, vars: seq<Var>, n: nat)
    requires n <= |vars| && SaveEach(types, vars, n).status == Done
    ensures Accesses(SaveEach(types, vars, n).code, true) == Read(vars, n)
    ensures Accesses(SaveEach(types, vars, n).code, false) == []
  {
    if n > 0 {
      var pre := SaveEach(types, vars, n - 1);
      var one := SaveOne(types, vars[n - 1]);
      assert pre.status == Done;
      assert SaveEach(types, vars, n).code == pre.code + one.code && one.status == Done;
      SaveEachLoads(types, vars, n - 1);
      SaveOneAccesses(types, vars[n - 1], true);
      SaveOneAccesses(types, vars[n - 1], false);
      AccessesAppend(pre.code, one.code, true);
      AccessesAppend(pre.code, one.code, false);
    }
  }

  /** A completed write-back step stores every variable but `this` into its own slot with its type's store instruction, and loads nothing. */
  lemma {:induction false} UpdateEachStores(types: TypeUtil, vars: seq<Var>, n: nat)
    requires n <= |vars| && UpdateEach(types, vars, n).status == Done
    ensures Accesses(UpdateEach(types, vars, n).code, false) == Written(vars, n)
    ensures Accesses(UpdateEach(types, vars, n).code, true) == []
  {
    if n > 0 {
      var pre := UpdateEach(types, vars, n - 1);
      var one := UpdateOne(types, vars[n - 1]);
      assert pre.status == Done;
      assert UpdateEach(types, vars, n).code == pre.code + one.code && one.status == Done;
      UpdateEachStores(types, vars, n - 1);
      UpdateOneAccesses(types, vars[n - 1], true);
      UpdateOneAccesses(types, vars[n - 1], false);
      AccessesAppend(pre.code, one.code, true);
      AccessesAppend(pre.code, one.code, false);
    }
  }

  /** `saveLocalVarValues`: reset the memory, then save each variable. */
  function SaveCode(types: TypeUtil, vars: seq<Var>): (r: Emitted)
    ensures |r.code| > 0 && r.code[0] == Invoke(ResetMemory)
    ensures r.status == Done <==> forall k | 0 <= k < |vars| :: Saveable(types, vars[k])
  {
    SaveEachDone(types, vars, |vars|);
    var each := SaveEach(types, vars, |vars|);
    Emitted([Invoke(ResetMemory)] + each.code, each.status)
  }

  /** `saveFieldValues`: find the fields reachable from the class (static method) or from `this`, then save them. */
  function FieldSaveCode(isStatic: bool, className: string): (code: seq<Insn>)
    ensures Accesses(code, false) == []
    ensures Accesses(code, true) == if isStatic then [] else [(0, 4)]
  {
    FieldSaveAccesses(isStatic, className);
    [Invoke(InitFieldAnalyzer)] +
    (if isStatic then [LdcType(className), Invoke(FindFieldsForClass)]
     else [VarInsn(ALOAD, 0), Invoke(FindFieldsForObject)]) +
    [Invoke(SaveFieldValues)]
  }

  lemma FieldSaveAccesses(isStatic: bool, className: string)
    ensures var code := [Invoke(InitFieldAnalyzer)] +
      (if isStatic then [LdcType(className), Invoke(FindFieldsForClass)]
       else [VarInsn(ALOAD, 0), Invoke(FindFieldsForObject)]) +
      [Invoke(SaveFieldValues)];
      Accesses(code, false) == [] && Accesses(code, true) == if isStatic then [] else [(0, 4)]
  {
    var mid := if isStatic then [LdcType(className), Invoke(FindFieldsForClass)]
               else [VarInsn(ALOAD, 0), Invoke(FindFieldsForObject)];
    var first, last := [Invoke(InitFieldAnalyzer)], [Invoke(SaveFieldValues)];
    AccessesAppend(first + mid, last, true);
    AccessesAppend(first + mid, last, false);
    AccessesAppend(first, mid, true);
    AccessesAppend(first, mid, false);
    NoAccesses(first, true);
    NoAccesses(first, false);
    NoAccesses(last, true);
    NoAccesses(last, false);
    AccessesPair(mid[0], mid[1], true);
    AccessesPair(mid[0], mid[1], false);
    assert mid == [mid[0], mid[1]];
  }

  /** The variables in scope at an offset, each once, in the order the method lists them. */
  function Available(locals: seq<Var>, reachable: (Var, int) -> bool, offset: int): (vs: seq<Var>)
    ensures forall v :: v in vs <==> v in locals && reachable(v, offset)
    ensures forall i, j | 0 <= i < j < |vs| :: vs[i] != vs[j]
  {
    if locals == [] then []
    else
      var pre := Available(locals[..|locals| - 1], reachable, offset);
      var v := locals[|locals| - 1];
      assert forall w | w in locals[..|locals| - 1] :: w in locals;
      assert forall w | w in locals :: w in locals[..|locals| - 1] || w == v;
      if reachable(v, offset) && v !in pre then pre + [v] else pre
  }

  /** Everything one wrapped `eval()` call turns into, the original call `call` included. */
  function WrapCode(types: TypeUtil, isStatic: bool, className: string, vars: seq<Var>, call: Insn): (r: Emitted)
    ensures |r.code| > 0 && r.code[0] == Invoke(ResetMemory)
    ensures r.status.Done? ==> SaveCode(types, vars).status.Done?
    ensures SaveCode(types, vars).status.Done? ==>
      |r.code| > |SaveCode(types, vars).code| + |FieldSaveCode(isStatic, className)| &&
      r.code[|SaveCode(types, vars).code| + |FieldSaveCode(isStatic, className)|] == call
  {
    var save := SaveCode(types, vars);
    if save.status.Failed? then save
    else
      var update := UpdateEach(types, vars, |vars|);
      var fields := if update.status.Done? then [Invoke(UpdateFieldValues)] else [];
      Emitted(save.code + FieldSaveCode(isStatic, className) + [call] + update.code + fields, update.status)
  }

  /** How the pieces of a wrapped call add up to `WrapCode` once the save has succeeded. */
  lemma WrapTrace(types: TypeUtil, isStatic: bool, className: string, vars: seq<Var>, call: Insn,
                  base: seq<Insn>, saved: seq<Insn>, called: seq<Insn>, updated: seq<Insn>)
    requires SaveCode(types, vars).status == Done
    requires saved == base + SaveCode(types, vars).code
    requires called == saved + FieldSaveCode(isStatic, className) + [call]
    requires updated == called + UpdateEach(types, vars, |vars|).code
    ensures WrapCode(types, isStatic, className, vars, call).status == UpdateEach(types, vars, |vars|).status
    ensures updated + (if UpdateEach(types, vars, |vars|).status.Done? then [Invoke(UpdateFieldValues)] else [])
      == base + WrapCode(types, isStatic, className, vars, call).code
  {
    var save, fields := SaveCode(types, vars).code, FieldSaveCode(isStatic, className);
    var update := UpdateEach(types, vars, |vars|);
    var tail := if update.status.Done? then [Invoke(UpdateFieldValues)] else [];
    Assoc(base, save + fields + [call] + update.code, tail);
    Assoc(base, save + fields + [call], update.code);
    Assoc(base, save + fields, [call]);
    Assoc(base, save, fields);
  }

  lemma Assoc(a: seq<Insn>, b: seq<Insn>, c: seq<Insn>)
    ensures a + (b + c) == a + b + c
  {
  }

  /**
   * A wrapped call completes exactly when every local in scope is saveable;
   * then the write-back cannot fail, the code ends by updating the fields,
   * and every local read before the call except `this` is written back to
   * its own slot with the same type family afterwards.
   */
  lemma WrapCompletes(types: TypeUtil, isStatic: bool, className: string, vars: seq<Var>, call: Insn)
    ensures WrapCode(types, isStatic, className, vars, call).status == Done <==>
      forall k | 0 <= k < |vars| :: Saveable(types, vars[k])
    ensures WrapCode(types, isStatic, className, vars, call).status == Done ==>
      var w := WrapCode(types, isStatic, className, vars, call).code;
      |w| > 0 && w[|w| - 1] == Invoke(UpdateFieldValues) &&
      Accesses(SaveEach(types, vars, |vars|).code, true) == Read(vars, |vars|) &&
      Accesses(UpdateEach(types, vars, |vars|).code, false) == Written(vars, |vars|)
  {
    SaveEachDone(types, vars, |vars|);
    UpdateEachDone(types, vars, |vars|);
    if SaveEach(types, vars, |vars|).status == Done {
      SaveEachLoads(types, vars, |vars|);
      UpdateEachStores(types, vars, |vars|);
    }
  }

  /*---------------------------- The visitor ----------------------------*/

  class SaveLocalVarValuesMethodVisitor {
    const className: string
    const isStatic: bool
    const evalName: string
    const evalDesc: string
    const locals: seq<Var>                    // the method's local variables
    const reachable: (Var, int) -> bool       // `Var.isReachableAt(offset)`
    const types: TypeUtil
    var offsets: seq<int>                     // bytecode offsets of the method's eval calls, head first
    var trace: seq<Insn>                      // what has been passed to the next visitor

    constructor(className: string, isStatic: bool, evalName: string, evalDesc: string,
                offsets: seq<int>, locals: seq<Var>, reachable: (Var, int) -> bool, types: TypeUtil)
      ensures this.className == className && this.isStatic == isStatic
      ensures this.evalName == evalName && this.evalDesc == evalDesc
      ensures this.offsets == offsets && this.locals == locals
      ensures this.reachable == reachable && this.types == types
      ensures trace == []
    {
      this.className := className;
      this.isStatic := isStatic;
      this.evalName := evalName;
      this.evalDesc := evalDesc;
      this.offsets := offsets;
      this.locals := locals;
      this.reachable := reachable;
      this.types := types;
      trace := [];
    }

    /** A call to `eval` (by name and descriptor, through INVOKEVIRTUAL) is wrapped; any other call passes through. */
    method VisitMethodInsn(opcode: int, owner: string, name: string, desc: string, isInterface: bool) returns (r: Status)
      modifies this
      ensures var call := MethodInsn(opcode, owner, name, desc, isInterface);
        if opcode == INVOKEVIRTUAL && name == evalName && desc == evalDesc then
          if old(offsets) == [] then
            r == Failed(EvalQueueEmpty) && trace == old(trace) && offsets == old(offsets)
          else
            var w := WrapCode(types, isStatic, className, Available(locals, reachable, old(offsets)[0]), call);
            offsets == old(offsets)[1..] && trace == old(trace) + w.code && r == w.status
        else
          r == Done && trace == old(trace) + [call] && offsets == old(offsets)
    {
      if opcode == INVOKEVIRTUAL && name == evalName && desc == evalDesc {
        r := WrapEval(opcode, owner, name, desc, isInterface);
        return;
      }
      trace := trace + [MethodInsn(opcode, owner, name, desc, isInterface)];
      r := Done;
    }

    /** Take the next eval's offset, save what is in scope there, call, and write everything back. */
    method WrapEval(opcode: int, owner: string, name: string, desc: string, isInterface: bool) returns (r: Status)
      modifies this
      ensures old(offsets) == [] ==>
        r == Failed(EvalQueueEmpty) && trace == old(trace) && offsets == old(offsets)
      ensures old(offsets) != [] ==>
        var w := WrapCode(types, isStatic, className, Available(locals, reachable, old(offsets)[0]),
                          MethodInsn(opcode, owner, name, desc, isInterface));
        offsets == old(offsets)[1..] && trace == old(trace) + w.code && r == w.status
    {
      if offsets == [] {
        return Failed(EvalQueueEmpty);
      }
      var offset := offsets[0];
      offsets := offsets[1..];
      var vars := CollectAvailable(offset);
      r := Wrap(vars, MethodInsn(opcode, owner, name, desc, isInterface));
    }

    /** Save the locals `vars` and the fields, make the call, and write everything back. */
    method Wrap(vars: seq<Var>, call: Insn) returns (r: Status)
      modifies this
      ensures trace == old(trace) + WrapCode(types, isStatic, className, vars, call).code
      ensures r == WrapCode(types, isStatic, className, vars, call).status
      ensures offsets == old(offsets)
    {
      ghost var base := trace;
      r := SaveLocalVarValues(vars);
      if r.Failed? {
        return;
      }
      ghost var saved := trace;
      SaveFields();
      trace := trace + [call];
      ghost var called := trace;
      r := UpdateLocalVarValues(vars);
      WrapTrace(types, isStatic, className, vars, call, base, saved, called, trace);
      if r.Failed? {
        assert trace + [] == trace;
        return;
      }
      trace := trace + [Invoke(UpdateFieldValues)];
    }

    /** The set of locals reachable at `offset`, built by one pass over the method's locals. */
    method CollectAvailable(offset: int) returns (vars: seq<Var>)
      ensures vars == Available(locals, reachable, offset)
    {
      vars := [];
      var i := 0;
      while i < |locals|
        invariant 0 <= i <= |locals|
        invariant vars == Available(locals[..i], reachable, offset)
      {
        var v := locals[i];
        assert locals[..i + 1][..i] == locals[..i];
        if reachable(v, offset) && v !in vars {
          vars := vars + [v];
        }
        i := i + 1;
      }
      assert locals[..i] == locals;
    }

    method SaveFields()
      modifies this
      ensures trace == old(trace) + FieldSaveCode(isStatic, className)
      ensures offsets == old(offsets)
    {
      trace := trace + [Invoke(InitFieldAnalyzer)];
      if isStatic {
        trace := trace + [LdcType(className), Invoke(FindFieldsForClass)];
      } else {
        trace := trace + [VarInsn(ALOAD, 0), Invoke(FindFieldsForObject)];
      }
      trace := trace + [Invoke(SaveFieldValues)];
    }

    /** `saveLocalVarValues`: reset the memory, then add each variable's value to it. */
    method SaveLocalVarValues(vars: seq<Var>) returns (r: Status)
      modifies this
      ensures trace == old(trace) + SaveCode(types, vars).code && r == SaveCode(types, vars).status
      ensures offsets == old(offsets)
    {
      trace := trace + [Invoke(ResetMemory)];
      r := SaveEachVar(vars);
      assert trace == old(trace) + ([Invoke(ResetMemory)] + SaveEach(types, vars, |vars|).code);
    }

    /** The loop of `saveLocalVarValues`. */
    method SaveEachVar(vars: seq<Var>) returns (r: Status)
      modifies this
      ensures trace == old(trace) + SaveEach(types, vars, |vars|).code && r == SaveEach(types, vars, |vars|).status
      ensures offsets == old(offsets)
    {
      var i := 0;
      while i < |vars|
        invariant 0 <= i <= |vars|
        invariant offsets == old(offsets)
        invariant SaveEach(types, vars, i).status == Done
        invariant trace == old(trace) + SaveEach(types, vars, i).code
      {
        r := SaveStep(vars, i, old(trace));
        if r.Failed? {
          SaveEachStops(types, vars, i + 1, |vars|);
          return;
        }
        i := i + 1;
      }
      r := Done;
    }

    /** One iteration of the save loop. */
    method SaveStep(vars: seq<Var>, i: nat, ghost base: seq<Insn>) returns (r: Status)
      requires i < |vars| && SaveEach(types, vars, i).status == Done
      requires trace == base + SaveEach(types, vars, i).code
      modifies this
      ensures trace == base + SaveEach(types, vars, i + 1).code && r == SaveEach(types, vars, i + 1).status
      ensures offsets == old(offsets)
    {
      ghost var before := trace;
      r := SaveVar(vars[i]);
      SaveEachNext(types, vars, i, base, before, trace);
    }

    /** The body of the save loop for one variable. */
    method SaveVar(v: Var) returns (r: Status)
      modifies this
      ensures trace == old(trace) + SaveOne(types, v).code && r == SaveOne(types, v).status
      ensures offsets == old(offsets)
    {
      if !types.supported(v.desc) {
        return Failed(UnsupportedLocal(v.desc));
      }
      trace := trace + [LdcString(v.name)];
      var op := LoadOrStoreOpcode(v.desc, true);
      if op.None? {
        return Failed(UnexpectedDesc(v.desc));
      }
      trace := trace + [VarInsn(op.value, v.slot)];
      if types.primitive(v.desc) {
        trace := trace + [Box(v.desc)];
      }
      trace := trace + [Invoke(AddToMemory)];
      r := Done;
    }

    /** `updateLocalVarValues`: read each variable but `this` back from the memory and store it. */
    method UpdateLocalVarValues(vars: seq<Var>) returns (r: Status)
      modifies this
      ensures trace == old(trace) + UpdateEach(types, vars, |vars|).code && r == UpdateEach(types, vars, |vars|).status
      ensures offsets == old(offsets)
    {
      var i := 0;
      while i < |vars|
        invariant 0 <= i <= |vars|
        invariant offsets == old(offsets)
        invariant UpdateEach(types, vars, i).status == Done
        invariant trace == old(trace) + UpdateEach(types, vars, i).code
      {
        r := UpdateStep(vars, i, old(trace));
        if r.Failed? {
          UpdateEachStops(types, vars, i + 1, |vars|);
          return;
        }
        i := i + 1;
      }
      r := Done;
    }

    /** One iteration of the write-back loop. */
    method UpdateStep(vars: seq<Var>, i: nat, ghost base: seq<Insn>) returns (r: Status)
      requires i < |vars| && UpdateEach(types, vars, i).status == Done
      requires trace == base + UpdateEach(types, vars, i).code
      modifies this
      ensures trace == base + UpdateEach(types, vars, i + 1).code && r == UpdateEach(types, vars, i + 1).status
      ensures offsets == old(offsets)
    {
      ghost var before := trace;
      r := UpdateVar(vars[i]);
      UpdateEachNext(types, vars, i, base, before, trace);
    }

    /** The body of the write-back loop for one variable. */
    method UpdateVar(v: Var) returns (r: Status)
      modifies this
      ensures trace == old(trace) + UpdateOne(types, v).code && r == UpdateOne(types, v).status
      ensures offsets == old(offsets)
    {
      if v.name == "this" {
        return Done;
      }
      if !types.supported(v.desc) {
        return Failed(UnsupportedLocal(v.desc));
      }
      trace := trace + [LdcString(v.name), Invoke(GetFromMemoryValueOfVar)];
      if types.primitive(v.desc) {
        trace := trace + [TypeInsn(CHECKCAST, types.wrapper(v.desc)), Unbox(v.desc)];
      } else {
        trace := trace + [TypeInsn(CHECKCAST, types.internal(v.desc))];
      }
      var op := LoadOrStoreOpcode(v.desc, false);
      if op.None? {
        return Failed(UnexpectedDesc(v.desc));
      }
      trace := trace + [VarInsn(op.value, v.slot)];
      r := Done;
    }
  }
}
