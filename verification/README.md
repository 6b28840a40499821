# Sketchy: the evaluator, the identifier nodes, the sketch API and the local-variable instrumentation

Sketchy lets a Java program contain *sketches*: expressions and statements
with holes. An identifier lists candidate names, an operator node lists
candidate operators, and an alternative node lists candidate sub-sketches. A
driver resolves every choice. `EvalVisitor` then evaluates the resolved tree
against the program's live variables. A bytecode rewriter makes those
variables visible. Around every `eval()` call it copies the locals in scope
into a runtime memory and copies them back afterwards.

This Dafny project models the core of that system:

- **`Java`** (`java.dfy`): the exception classes the code throws and catches,
  and `isAssignableFrom` on them. It also holds 32- and 64-bit wrap-around,
  division that truncates toward zero, and shift distances (chapter 15.17
  and 15.19 of the Java Language Specification).
- **`Values`** (`values.dfy`): the boxed values on the evaluator's stack and
  the operator enums. It gives the meaning of `op.apply` on ints and longs,
  `PRE_INC`, and `Array.get`/`Array.set`. Double arithmetic is a parameter
  (`FloatOps`).
- **`Ids`** (`ids.dfy`): the identifier nodes `IntId`, `DoubleId`, `BoolId`
  and `RefId`, their constructors and `getIdType`.
- **`Ast`** (`ast.dfy`): resolved expression and statement trees.
- **`Machine`** (`machine.dfy`): `EvalVisitor` as pure functions of its state:
  - the operand deque (top = last element), the short-circuit flag and the
    binding environment;
  - every `visit`/`endVisit` and `visitStmt`, with each exception the code
    can throw;
  - the accept protocol: `visit`, then the children, then `endVisit`.
- **`EvalVisitor`** (`eval_visitor.dfy`): class `Evaluator` with those three
  fields, updated in place. Each method is proved to leave the object in the
  state the `Machine` function computes, and to return its outcome.
- **`Reference`** (`reference.dfy`): a stack-free, call-by-value meaning of
  the same trees. It has Java's conditional `&&`/`||` and a loop condition
  evaluated once per iteration.
- **`EvalProperties`**, **`EvalFrames`**, **`EvalInvariants`**: what the
  evaluator guarantees:
  - it agrees with `Reference` on short-circuit-safe trees;
  - it changes no binding an expression or statement does not write;
  - it leaves a clean state (empty stack, clear flag) after each statement.
- **`EvalExamples`**: concrete programs on which the evaluator as written
  and Java part ways.
- **`Sketchy`** (`sketchy.dfy`): the sketch-construction API. `Instance(s, e)`
  says which resolved trees a sketch stands for. The lemmas state exactly
  what each builder offers the driver.
- **`Instrumentation`** (`save_local_vars.dfy`): `SaveLocalVarValuesMethodVisitor`
  as a class whose `trace` field is the instruction sequence handed to the
  next visitor. `pushIntOntoStack`
  (`SaveLocalVarValuesMethodVisitor.java:329-337`) is private and never called
  in that file. `Instrumentation.PushInt` models it anyway, but the visitor
  never takes that path.

Two behaviours of the evaluator are modelled as written and proved as
properties:

- **The while loop evaluates its condition twice per iteration.** It runs
  `while (cond) { body; cond; }`, so a condition with a side effect runs it
  twice per iteration (`EvalExamples.WhileEvaluatesConditionTwice` against
  `EvalExamples.CountLoopReference`).
- **The short-circuit flag skips only five node classes.** These are
  `BoolId`, `BoolVal`, `ImBoolVal`, `LogExp` and `RelExp`. A `RefId<Boolean>`
  right operand of a decided `&&` is still pushed, and the enclosing
  statement then fails (`EvalExamples.ShortCircuitLeavesRefOperand`). The
  agreement theorems therefore assume trees whose logic operands are of a
  skipped class (`Ast.ShortCircuitSafe`).

## Model

| member | source | states |
|---|---|---|
| Java.EverythingIsThrowable | tool/api/src/main/java/sketchy/ast/visitor/EvalVisitor.java:275-276 | every exception class is assignable to Throwable, so the evaluator's `catch (Throwable e)` sees every exception its try block raises |
| Java.SubclassTransitive | tool/api/src/main/java/sketchy/ast/visitor/EvalVisitor.java:276 | `isAssignableFrom` on the exception classes is transitive |
| Java.SubclassAntisymmetric | tool/api/src/main/java/sketchy/ast/visitor/EvalVisitor.java:276 | two exception classes each assignable to the other are the same class |
| Java.SubclassOfDepth | tool/api/src/main/java/sketchy/ast/visitor/EvalVisitor.java:276 | a superclass is never deeper in the class tree than its subclass |
| Java.Wrap32 | tool/api/src/main/java/sketchy/ast/visitor/EvalVisitor.java:224 | narrowing to int yields the int congruent to the value modulo 2^32, and leaves in-range values unchanged |
| Java.Wrap64 | tool/api/src/main/java/sketchy/ast/visitor/EvalVisitor.java:224 | narrowing to long yields the long congruent to the value modulo 2^64, and leaves in-range values unchanged |
| Java.TruncRem | tool/api/src/main/java/sketchy/ast/visitor/EvalVisitor.java:66 | `%` satisfies a == b*(a/b) + r with \|r\| < \|b\| and r carrying the sign of the dividend |
| Java.ShiftDistance | tool/api/src/main/java/sketchy/ast/visitor/EvalVisitor.java:75 | the shift distance used is below the operand width (32 for int, 64 for long) |
| Values.IntegralAri | tool/api/src/main/java/sketchy/ast/visitor/EvalVisitor.java:62-67 | int/long arithmetic fails exactly for DIV or MOD by zero, with ArithmeticException, and otherwise stays in the operand width |
| Values.ApplyAri | tool/api/src/main/java/sketchy/ast/visitor/EvalVisitor.java:62-67 | `op.apply(left, right)` keeps the left operand's box type; an ArithmeticException comes only from DIV or MOD by an int or long zero |
| Values.ApplyRel | tool/api/src/main/java/sketchy/ast/visitor/EvalVisitor.java:213-218 | a comparison yields a Boolean, and fails exactly when the operands are not two ints, two longs or two doubles |
| Values.PreIncValue | tool/api/src/main/java/sketchy/ast/visitor/EvalVisitor.java:222-227 | `PRE_INC` gives v+1 wrapped to 32 bits for an Integer and to 64 bits for a Long, and fails exactly for non-numbers |
| Values.ArrayGet | tool/api/src/main/java/sketchy/ast/visitor/EvalVisitor.java:168 | `Array.get` succeeds exactly on an array and an in-range index, giving that element; out of range is ArrayIndexOutOfBoundsException |
| Values.ArraySet | tool/api/src/main/java/sketchy/ast/visitor/EvalVisitor.java:225 | an element write succeeds exactly on an array, an in-range index and a value of the element kind, and changes only that element |
| Values.JavaOps | tool/api/src/main/java/sketchy/ast/visitor/EvalVisitor.java:62-76 | the operator table the evaluator is run with applies Java's arithmetic, shift, comparison and increment |
| Ids.GetIdType | tool/api/src/main/java/sketchy/ast/exp/IntId.java:20-23 | an IntId denotes Integer, a DoubleId Double, a BoolId Boolean, and a RefId its declared class |
| Ids.IntIdExcluding | tool/api/src/main/java/sketchy/ast/exp/IntId.java:16-18 | the two-argument IntId constructor keeps the exclude flag and the names it is given |
| Ids.IntId | tool/api/src/main/java/sketchy/ast/exp/IntId.java:12-14 | the one-argument IntId constructor is the two-argument one with exclude = false |
| Ids.DoubleIdExcluding | tool/api/src/main/java/sketchy/ast/exp/DoubleId.java:16-18 | the two-argument DoubleId constructor as written: the node never excludes, whatever flag is passed |
| Ids.DoubleIdForwarding | tool/api/src/main/java/sketchy/ast/exp/DoubleId.java:16-18 | the corrected constructor forwards the flag, and differs from the IntId one only in the node class |
| Ids.DoubleId | tool/api/src/main/java/sketchy/ast/exp/DoubleId.java:12-14 | the one-argument DoubleId constructor has exclude = false; as-written and corrected constructors agree on it |
| Ids.DoubleIdDropsExclude | tool/api/src/main/java/sketchy/ast/exp/DoubleId.java:16-18 | asking DoubleId for exclusion gives the same node as not asking, unlike the corrected constructor and unlike IntId |
| Ids.BoolId | tool/api/src/main/java/sketchy/Sketchy.java:312-314 | `boolId` builds a non-excluding Boolean identifier over the names given |
| Ids.RefId | tool/api/src/main/java/sketchy/Sketchy.java:341-347 | `refId` builds an identifier of the given class with the given flag and names |
| Ast.TargetExp | tool/api/src/main/java/sketchy/ast/visitor/EvalVisitor.java:222-235 | the expression an assignment or increment target is read as is an identifier, or an array identifier indexed by a literal or an identifier; targets with a computed index or array are not modelled (see Left out) |
| Ast.Size | tool/api/src/main/java/sketchy/ast/visitor/EvalVisitor.java:62-235 | every node counts at least one, the measure that makes evaluation terminate |
| Ast.TargetExpSize | tool/api/src/main/java/sketchy/ast/visitor/EvalVisitor.java:222-235 | reading a target visits exactly as many nodes as the target has |
| Machine.Pop | tool/api/src/main/java/sketchy/ast/visitor/EvalVisitor.java:63-64 | `stack.pop()` succeeds exactly on a non-empty deque, removing and returning its top; on an empty one it throws NoSuchElementException and changes nothing |
| Machine.CastToInteger | tool/api/src/main/java/sketchy/ast/visitor/EvalVisitor.java:311-324 | `castToInteger` succeeds exactly on an Integer, giving its value; otherwise it throws RuntimeException |
| Machine.CastToBoolean | tool/api/src/main/java/sketchy/ast/visitor/EvalVisitor.java:307-324 | `castToBoolean` succeeds exactly on a Boolean, giving its value; otherwise it throws RuntimeException |
| Machine.UnboxBoolean | tool/api/src/main/java/sketchy/ast/visitor/EvalVisitor.java:247 | `(boolean) obj` succeeds exactly on a Boolean; null gives NullPointerException, any other value ClassCastException |
| Machine.EndVisitTerminal | tool/api/src/main/java/sketchy/ast/visitor/EvalVisitor.java:301-303 | a terminal node pushes one value and keeps the stack below, the flag and the environment |
| Machine.EndVisitAri | tool/api/src/main/java/sketchy/ast/visitor/EvalVisitor.java:62-67 | a completed arithmetic node replaces its two operands by one result, and keeps the stack below, the flag and the environment |
| Machine.EndVisitShift | tool/api/src/main/java/sketchy/ast/visitor/EvalVisitor.java:71-76 | a completed shift consumed an Integer distance from the top and leaves one value fewer |
| Machine.EndVisitRel | tool/api/src/main/java/sketchy/ast/visitor/EvalVisitor.java:213-218 | a completed comparison replaces its two operands by one result |
| Machine.VisitOp | tool/api/src/main/java/sketchy/ast/visitor/EvalVisitor.java:172-182 | visiting a logic node's operator succeeds exactly when the top is a Boolean; the flag becomes set when that value decides the operator; otherwise RuntimeException and no change |
| Machine.EndVisitLog | tool/api/src/main/java/sketchy/ast/visitor/EvalVisitor.java:192-201 | a logic node always clears the flag; with the flag set it changes nothing else |
| Machine.EndVisitArrAccess | tool/api/src/main/java/sketchy/ast/visitor/EvalVisitor.java:162-169 | a completed array access replaces the array and the index by one element |
| Machine.UpdateVal | tool/api/src/main/java/sketchy/ast/visitor/EvalVisitor.java:225 | `updateVal` changes the binding of the target's name and no other; an array element write replaces the whole array value of that binding (no aliasing, see Left out) |
| Machine.EndVisitPreInc | tool/api/src/main/java/sketchy/ast/visitor/EvalVisitor.java:221-227 | a completed increment replaces the old value by the new one on the stack |
| Machine.EndVisitAssign | tool/api/src/main/java/sketchy/ast/visitor/EvalVisitor.java:229-235 | a completed assignment pops only the target's value and leaves the assigned value on top |
| Machine.Accept | tool/api/src/main/java/sketchy/ast/exp/IntId.java:25-30 | `accept` ends normally or with an exception, never out of fuel |
| Machine.AcceptNode | tool/api/src/main/java/sketchy/ast/visitor/EvalVisitor.java:62-235 | the children then `endVisit` end normally or with an exception, never out of fuel |
| Machine.GetResult | tool/api/src/main/java/sketchy/ast/visitor/EvalVisitor.java:53-58 | `getResult` succeeds exactly on a non-empty stack and gives its top |
| Machine.AssertStackIsEmpty | tool/api/src/main/java/sketchy/ast/visitor/EvalVisitor.java:295-299 | normal exactly on an empty stack, RuntimeException otherwise; the state is unchanged |
| Machine.CondAndEval | tool/api/src/main/java/sketchy/ast/visitor/EvalVisitor.java:288-293 | a condition evaluated to the end leaves an empty stack |
| Machine.Peek | tool/api/src/main/java/sketchy/ast/visitor/EvalVisitor.java:234 | `peek` gives the top of a non-empty deque, and null on an empty one |
| Machine.Visits | tool/api/src/main/java/sketchy/ast/visitor/EvalVisitor.java:78-115 | with the flag clear every node is visited; array access, arithmetic, shift, increment and assignment nodes are visited whatever the flag; logic and comparison nodes are skipped while it is set |
| Machine.ExecExprStmt | tool/api/src/main/java/sketchy/ast/visitor/EvalVisitor.java:237-242 | an expression statement ends normally or with an exception, and ends normally only on an empty stack |
| Machine.ExecIf | tool/api/src/main/java/sketchy/ast/visitor/EvalVisitor.java:244-254 | with the stack restored before a handler, an if statement that completes leaves an empty stack |
| Machine.ExecWhile | tool/api/src/main/java/sketchy/ast/visitor/EvalVisitor.java:256-262 | a loop that completes leaves an empty stack, in both modes |
| Machine.ExecIteration | tool/api/src/main/java/sketchy/ast/visitor/EvalVisitor.java:259-260 | the same for one loop pass |
| Machine.ExecSeq | tool/api/src/main/java/sketchy/ast/visitor/EvalVisitor.java:264-269 | with the stack restored before a handler, a completed block leaves an empty stack or the one it started on |
| Machine.ExecTry | tool/api/src/main/java/sketchy/ast/visitor/EvalVisitor.java:271-286 | the same for try/catch/finally |
| Machine.ExecCatch | tool/api/src/main/java/sketchy/ast/visitor/EvalVisitor.java:273-280 | the same for the try-and-handler part |
| Machine.Resume | tool/api/src/main/java/sketchy/ast/visitor/EvalVisitor.java:272-280 | the state a handler starts in keeps the current bindings; as written it is the state the exception left, and corrected it has the stack and flag the try statement started with |
| Machine.Exec | tool/api/src/main/java/sketchy/ast/visitor/EvalVisitor.java:237-286 | with the stack restored before a handler, a completed statement leaves an empty stack or the one it started on |
| EvalVisitor.Evaluator.constructor | tool/api/src/main/java/sketchy/ast/visitor/EvalVisitor.java:46-51 | a new evaluator has an empty stack and a clear flag |
| EvalVisitor.Evaluator.Pop | tool/api/src/main/java/sketchy/ast/visitor/EvalVisitor.java:63 | the deque's `pop` in place, as `Machine.Pop` |
| EvalVisitor.Evaluator.Peek | tool/api/src/main/java/sketchy/ast/visitor/EvalVisitor.java:234 | `peek` returns the top, or null on an empty deque |
| EvalVisitor.Evaluator.GetResult | tool/api/src/main/java/sketchy/ast/visitor/EvalVisitor.java:53-58 | succeeds exactly when the stack is not empty, as `Machine.GetResult` |
| EvalVisitor.Evaluator.Visit | tool/api/src/main/java/sketchy/ast/visitor/EvalVisitor.java:78-84 | `visit` returns false only for the five skipped node classes and only while the flag is set |
| EvalVisitor.Evaluator.EndVisitTerminal | tool/api/src/main/java/sketchy/ast/visitor/EvalVisitor.java:301-303 | updates the object as `Machine.EndVisitTerminal` |
| EvalVisitor.Evaluator.EndVisitAri | tool/api/src/main/java/sketchy/ast/visitor/EvalVisitor.java:62-67 | updates the object as `Machine.EndVisitAri` |
| EvalVisitor.Evaluator.EndVisitShift | tool/api/src/main/java/sketchy/ast/visitor/EvalVisitor.java:71-76 | updates the object as `Machine.EndVisitShift` |
| EvalVisitor.Evaluator.EndVisitRel | tool/api/src/main/java/sketchy/ast/visitor/EvalVisitor.java:213-218 | updates the object as `Machine.EndVisitRel` |
| EvalVisitor.Evaluator.VisitOp | tool/api/src/main/java/sketchy/ast/visitor/EvalVisitor.java:172-182 | updates the object as `Machine.VisitOp` |
| EvalVisitor.Evaluator.EndVisitLog | tool/api/src/main/java/sketchy/ast/visitor/EvalVisitor.java:192-201 | updates the object as `Machine.EndVisitLog` |
| EvalVisitor.Evaluator.EndVisitArrAccess | tool/api/src/main/java/sketchy/ast/visitor/EvalVisitor.java:162-169 | updates the object as `Machine.EndVisitArrAccess` |
| EvalVisitor.Evaluator.EndVisitPreInc | tool/api/src/main/java/sketchy/ast/visitor/EvalVisitor.java:221-227 | updates the object as `Machine.EndVisitPreInc` |
| EvalVisitor.Evaluator.EndVisitAssign | tool/api/src/main/java/sketchy/ast/visitor/EvalVisitor.java:229-235 | updates the object as `Machine.EndVisitAssign` |
| EvalVisitor.Evaluator.Accept | tool/api/src/main/java/sketchy/ast/exp/IntId.java:25-30 | the accept protocol in place, as `Machine.Accept` |
| EvalVisitor.Evaluator.AcceptNode | tool/api/src/main/java/sketchy/ast/visitor/EvalVisitor.java:62-235 | children then `endVisit` in place, as `Machine.AcceptNode` |
| EvalVisitor.Evaluator.AssertStackIsEmpty | tool/api/src/main/java/sketchy/ast/visitor/EvalVisitor.java:295-299 | normal exactly when the stack is empty |
| EvalVisitor.Evaluator.CondAndEval | tool/api/src/main/java/sketchy/ast/visitor/EvalVisitor.java:288-293 | returns the condition and updates the object as `Machine.CondAndEval` |
| EvalVisitor.Evaluator.VisitStmt | tool/api/src/main/java/sketchy/ast/visitor/EvalVisitor.java:237-286 | runs a statement in place exactly as `Machine.Exec` in the as-written mode |
| EvalVisitor.Evaluator.VisitExprStmt | tool/api/src/main/java/sketchy/ast/visitor/EvalVisitor.java:237-242 | as `Machine.ExecExprStmt` |
| EvalVisitor.Evaluator.VisitIf | tool/api/src/main/java/sketchy/ast/visitor/EvalVisitor.java:244-254 | as `Machine.ExecIf` |
| EvalVisitor.Evaluator.VisitWhile | tool/api/src/main/java/sketchy/ast/visitor/EvalVisitor.java:256-262 | the loop in place equals `Machine.ExecWhile`, with the extra condition evaluation after each body |
| EvalVisitor.Evaluator.Iteration | tool/api/src/main/java/sketchy/ast/visitor/EvalVisitor.java:259-260 | one loop pass; it either goes round again with the state `Machine.ExecIteration` hands to the loop head, or ends as `Machine.ExecIteration` |
| EvalVisitor.Evaluator.VisitBlock | tool/api/src/main/java/sketchy/ast/visitor/EvalVisitor.java:264-269 | as `Machine.ExecSeq`: the statements in order up to the first that does not complete |
| EvalVisitor.Evaluator.VisitTry | tool/api/src/main/java/sketchy/ast/visitor/EvalVisitor.java:271-286 | as `Machine.ExecTry` |
| EvalVisitor.Evaluator.VisitCatch | tool/api/src/main/java/sketchy/ast/visitor/EvalVisitor.java:273-280 | as `Machine.ExecCatch` |
| Reference.Eval | tool/api/src/main/java/sketchy/ast/visitor/EvalVisitor.java:62-235 | ordinary evaluation ends normally or with an exception, and never removes a binding |
| Reference.ReadOnlyEval | tool/api/src/main/java/sketchy/ast/visitor/EvalVisitor.java:222-235 | an expression with no assignment or increment leaves the environment unchanged |
| Reference.EvalCond | tool/api/src/main/java/sketchy/ast/visitor/EvalVisitor.java:288-293 | a condition ends normally exactly when it evaluates to a Boolean, giving that value and the evaluation's bindings, and otherwise throws |
| Reference.Run | tool/api/src/main/java/sketchy/ast/visitor/EvalVisitor.java:237-286 | executing a statement never removes a binding |
| Reference.RunWhile | tool/api/src/main/java/sketchy/ast/visitor/EvalVisitor.java:256-262 | a loop never removes a binding |
| Reference.RunWhileExit | tool/api/src/main/java/sketchy/ast/visitor/EvalVisitor.java:256-262 | a loop whose condition writes nothing ends normally only in a state where that condition evaluates to false |
| Reference.RunSeq | tool/api/src/main/java/sketchy/ast/visitor/EvalVisitor.java:264-269 | a block never removes a binding |
| EvalProperties.AcceptAgrees | tool/api/src/main/java/sketchy/ast/visitor/EvalVisitor.java:62-235 | on a short-circuit-safe expression the stack machine pushes exactly the value ordinary evaluation computes, leaves the stack below untouched, ends with the same outcome and environment, and leaves the flag clear |
| EvalProperties.AcceptNodeAgrees | tool/api/src/main/java/sketchy/ast/visitor/EvalVisitor.java:62-235 | the same for the children-then-`endVisit` half |
| EvalProperties.ArrAccessAgrees | tool/api/src/main/java/sketchy/ast/visitor/EvalVisitor.java:162-169 | an array access agrees with ordinary evaluation, index first |
| EvalProperties.ArrAccessCombine | tool/api/src/main/java/sketchy/ast/visitor/EvalVisitor.java:162-169 | agreeing operands make the array access agree |
| EvalProperties.AriAgrees | tool/api/src/main/java/sketchy/ast/visitor/EvalVisitor.java:62-67 | an arithmetic node agrees with ordinary left-to-right evaluation |
| EvalProperties.AriCombine | tool/api/src/main/java/sketchy/ast/visitor/EvalVisitor.java:62-67 | agreeing operands make the arithmetic node agree |
| EvalProperties.ShiftAgrees | tool/api/src/main/java/sketchy/ast/visitor/EvalVisitor.java:71-76 | a shift agrees with ordinary evaluation, including the Integer check on the distance |
| EvalProperties.ShiftCombine | tool/api/src/main/java/sketchy/ast/visitor/EvalVisitor.java:71-76 | agreeing operands make the shift agree |
| EvalProperties.RelAgrees | tool/api/src/main/java/sketchy/ast/visitor/EvalVisitor.java:203-218 | a comparison agrees with ordinary evaluation |
| EvalProperties.RelCombine | tool/api/src/main/java/sketchy/ast/visitor/EvalVisitor.java:203-218 | agreeing operands make the comparison agree |
| EvalProperties.LogAgrees | tool/api/src/main/java/sketchy/ast/visitor/EvalVisitor.java:171-201 | when the right operand is of a skipped class, the flag mechanism computes Java's conditional `&&`/`\|\|` |
| EvalProperties.LogCombine | tool/api/src/main/java/sketchy/ast/visitor/EvalVisitor.java:171-201 | agreeing operands and the operator visit make the logic node agree |
| EvalProperties.PreIncAgrees | tool/api/src/main/java/sketchy/ast/visitor/EvalVisitor.java:220-227 | an increment agrees with ordinary evaluation, value and write |
| EvalProperties.AssignAgrees | tool/api/src/main/java/sketchy/ast/visitor/EvalVisitor.java:229-235 | an assignment agrees with ordinary evaluation, value first |
| EvalProperties.AssignCombine | tool/api/src/main/java/sketchy/ast/visitor/EvalVisitor.java:229-235 | agreeing value and target make the assignment agree |
| EvalProperties.CondAgrees | tool/api/src/main/java/sketchy/ast/visitor/EvalVisitor.java:288-293 | `visitCondAndEval` from an empty stack is ordinary evaluation plus unboxing, and leaves a clean state |
| EvalProperties.ExecAgrees | tool/api/src/main/java/sketchy/ast/visitor/EvalVisitor.java:237-286 | with the stack restored before a handler, every safe statement ends as ordinary Java execution does, and a normal end leaves a clean state |
| EvalProperties.IfAgrees | tool/api/src/main/java/sketchy/ast/visitor/EvalVisitor.java:244-254 | the same for if statements |
| EvalProperties.WhileAgrees | tool/api/src/main/java/sketchy/ast/visitor/EvalVisitor.java:256-262 | the same for while loops whose condition writes nothing |
| EvalProperties.IterationAgrees | tool/api/src/main/java/sketchy/ast/visitor/EvalVisitor.java:259-260 | the extra condition evaluation after a body changes nothing when the condition writes nothing |
| EvalProperties.SeqAgrees | tool/api/src/main/java/sketchy/ast/visitor/EvalVisitor.java:264-269 | the same for blocks |
| EvalProperties.TryAgrees | tool/api/src/main/java/sketchy/ast/visitor/EvalVisitor.java:271-286 | the same for try/catch/finally |
| EvalProperties.CatchAgrees | tool/api/src/main/java/sketchy/ast/visitor/EvalVisitor.java:273-280 | the same for the try-and-handler part |
| EvalProperties.ModeIrrelevantWithoutTry | tool/api/src/main/java/sketchy/ast/visitor/EvalVisitor.java:237-286 | without a try statement, the evaluator as written and the corrected one give identical results from any state |
| EvalProperties.IfModes | tool/api/src/main/java/sketchy/ast/visitor/EvalVisitor.java:244-254 | the same for if statements |
| EvalProperties.WhileModes | tool/api/src/main/java/sketchy/ast/visitor/EvalVisitor.java:256-262 | the same for loops |
| EvalProperties.IterationModes | tool/api/src/main/java/sketchy/ast/visitor/EvalVisitor.java:259-260 | the same for one loop pass |
| EvalProperties.SeqModes | tool/api/src/main/java/sketchy/ast/visitor/EvalVisitor.java:264-269 | the same for blocks |
| EvalProperties.AsWrittenAgreesWithoutTry | tool/api/src/main/java/sketchy/ast/visitor/EvalVisitor.java:237-286 | the evaluator as written agrees with ordinary Java execution on safe statements without try |
| EvalProperties.ShortCircuitSkipsRight | tool/api/src/main/java/sketchy/ast/visitor/EvalVisitor.java:171-201 | a decided left operand suppresses the right one: the node leaves only the left value and the right operand's writes do not happen |
| EvalProperties.CatchThrowableCatchesAll | tool/api/src/main/java/sketchy/ast/visitor/EvalVisitor.java:275-277 | a handler declared for Throwable runs on any exception of the try block |
| EvalProperties.UncaughtPassesThrough | tool/api/src/main/java/sketchy/ast/visitor/EvalVisitor.java:278-279 | an exception of a class not assignable to the declared one is rethrown unchanged, with no handler run |
| EvalFrames.TargetReadsOnly | tool/api/src/main/java/sketchy/ast/visitor/EvalVisitor.java:222-235 | reading a target writes nothing |
| EvalFrames.AcceptFrame | tool/api/src/main/java/sketchy/ast/visitor/EvalVisitor.java:62-235 | evaluating an expression, from any state and flag, changes no binding it does not assign or increment |
| EvalFrames.AcceptNodeFrame | tool/api/src/main/java/sketchy/ast/visitor/EvalVisitor.java:62-235 | the same for the children-then-`endVisit` half |
| EvalFrames.OperandsFrame | tool/api/src/main/java/sketchy/ast/visitor/EvalVisitor.java:62-76 | two operands in sequence change nothing either does not write |
| EvalFrames.ArrAccessFrame | tool/api/src/main/java/sketchy/ast/visitor/EvalVisitor.java:162-169 | the frame property for array access |
| EvalFrames.AriFrame | tool/api/src/main/java/sketchy/ast/visitor/EvalVisitor.java:62-67 | the frame property for arithmetic |
| EvalFrames.ShiftFrame | tool/api/src/main/java/sketchy/ast/visitor/EvalVisitor.java:71-76 | the frame property for shifts |
| EvalFrames.RelFrame | tool/api/src/main/java/sketchy/ast/visitor/EvalVisitor.java:203-218 | the frame property for comparisons |
| EvalFrames.LogFrame | tool/api/src/main/java/sketchy/ast/visitor/EvalVisitor.java:171-201 | the frame property for logic nodes, whether or not the right operand is skipped |
| EvalFrames.PreIncFrame | tool/api/src/main/java/sketchy/ast/visitor/EvalVisitor.java:220-227 | an increment changes only its target's binding |
| EvalFrames.AssignFrame | tool/api/src/main/java/sketchy/ast/visitor/EvalVisitor.java:229-235 | an assignment changes only its target's binding and what its value writes |
| EvalFrames.CondFrame | tool/api/src/main/java/sketchy/ast/visitor/EvalVisitor.java:288-293 | evaluating a condition changes nothing it does not write |
| EvalFrames.ExecFrame | tool/api/src/main/java/sketchy/ast/visitor/EvalVisitor.java:237-286 | executing a statement in either mode changes no binding the statement does not write |
| EvalFrames.IfFrame | tool/api/src/main/java/sketchy/ast/visitor/EvalVisitor.java:244-254 | the frame property for if |
| EvalFrames.WhileFrame | tool/api/src/main/java/sketchy/ast/visitor/EvalVisitor.java:256-262 | the frame property for while |
| EvalFrames.IterationFrame | tool/api/src/main/java/sketchy/ast/visitor/EvalVisitor.java:259-260 | the frame property for one loop pass |
| EvalFrames.SeqFrame | tool/api/src/main/java/sketchy/ast/visitor/EvalVisitor.java:264-269 | the frame property for blocks |
| EvalFrames.TryFrame | tool/api/src/main/java/sketchy/ast/visitor/EvalVisitor.java:271-286 | the frame property for try/catch/finally |
| EvalFrames.CatchFrame | tool/api/src/main/java/sketchy/ast/visitor/EvalVisitor.java:273-280 | the frame property for try and handler |
| EvalInvariants.AcceptKeepsFlag | tool/api/src/main/java/sketchy/ast/visitor/EvalVisitor.java:78-115 | while the flag is set, evaluation that completes leaves it set |
| EvalInvariants.AcceptNodeKeepsFlag | tool/api/src/main/java/sketchy/ast/visitor/EvalVisitor.java:184-201 | the same for a visited node of a class that is not skipped |
| EvalInvariants.OperandsKeepFlag | tool/api/src/main/java/sketchy/ast/visitor/EvalVisitor.java:62-76 | the same for two operands in sequence |
| EvalInvariants.AcceptClearsFlag | tool/api/src/main/java/sketchy/ast/visitor/EvalVisitor.java:192-197 | evaluation started with the flag clear that completes leaves it clear |
| EvalInvariants.OperandsClearFlag | tool/api/src/main/java/sketchy/ast/visitor/EvalVisitor.java:62-76 | the same for two operands in sequence |
| EvalInvariants.LogClearsFlag | tool/api/src/main/java/sketchy/ast/visitor/EvalVisitor.java:192-197 | a logic node started with the flag clear clears any flag its operator set |
| EvalInvariants.CondLeavesClean | tool/api/src/main/java/sketchy/ast/visitor/EvalVisitor.java:288-293 | a completed condition leaves an empty stack and a clear flag |
| EvalInvariants.ExecKeepsClean | tool/api/src/main/java/sketchy/ast/visitor/EvalVisitor.java:237-286 | with the try statement corrected, a statement started clean that completes leaves the state clean |
| EvalInvariants.IfKeepsClean | tool/api/src/main/java/sketchy/ast/visitor/EvalVisitor.java:244-254 | the same for if |
| EvalInvariants.WhileKeepsClean | tool/api/src/main/java/sketchy/ast/visitor/EvalVisitor.java:256-262 | the same for while |
| EvalInvariants.IterationKeepsClean | tool/api/src/main/java/sketchy/ast/visitor/EvalVisitor.java:259-260 | the same for one loop pass |
| EvalInvariants.SeqKeepsClean | tool/api/src/main/java/sketchy/ast/visitor/EvalVisitor.java:264-269 | the same for blocks |
| EvalInvariants.TryKeepsClean | tool/api/src/main/java/sketchy/ast/visitor/EvalVisitor.java:271-286 | the same for try/catch/finally |
| EvalInvariants.CatchKeepsClean | tool/api/src/main/java/sketchy/ast/visitor/EvalVisitor.java:273-280 | the same for try and handler |
| EvalExamples.DivByZeroLeavesOperand | tool/api/src/main/java/sketchy/ast/visitor/EvalVisitor.java:62-67 | in `z = 1 + 1 / 0;` the division throws ArithmeticException with the addition's left operand still on the stack |
| EvalExamples.DivByZeroThrows | tool/api/src/main/java/sketchy/ast/visitor/EvalVisitor.java:62-67 | `1 / 0` throws ArithmeticException and leaves the stack it started on |
| EvalExamples.SetWOnLeftover | tool/api/src/main/java/sketchy/ast/visitor/EvalVisitor.java:237-242 | `w = 1;` started on a non-empty stack assigns w, then throws "Stack should be empty!" |
| EvalExamples.HandlerInheritsStack | tool/api/src/main/java/sketchy/ast/visitor/EvalVisitor.java:272-286 | as written, catching the division by zero ends in RuntimeException although the handler assigned w |
| EvalExamples.SilentHandlerLeavesStack | tool/api/src/main/java/sketchy/ast/visitor/EvalVisitor.java:272-286 | an empty handler completes on a non-empty stack, and the next statement of the block fails |
| EvalExamples.CatchDivByZeroReference | tool/api/src/main/java/sketchy/ast/visitor/EvalVisitor.java:272-286 | under Java semantics the same try statement completes normally with w = 1 |
| EvalExamples.CatchDivByZeroCorrected | tool/api/src/main/java/sketchy/ast/visitor/EvalVisitor.java:272-286 | with the stack reset before the handler, the evaluator completes normally with w = 1 and a clean state |
| EvalExamples.ShortCircuitLeavesRefOperand | tool/api/src/main/java/sketchy/ast/visitor/EvalVisitor.java:171-190 | `false && b` with a `RefId<Boolean>` b leaves two values; as a statement it throws, where Java gives false |
| EvalExamples.IncBelowFourStep | tool/api/src/main/java/sketchy/ast/visitor/EvalVisitor.java:288-293 | each evaluation of `++i < 4` increments i and yields whether the new value is below 4 |
| EvalExamples.CountLoopEnters | tool/api/src/main/java/sketchy/ast/visitor/EvalVisitor.java:258 | a loop head whose condition holds starts a pass with i incremented |
| EvalExamples.CountLoopIterates | tool/api/src/main/java/sketchy/ast/visitor/EvalVisitor.java:259-260 | a pass runs the body, then increments i again before the loop head |
| EvalExamples.WhileEvaluatesConditionTwice | tool/api/src/main/java/sketchy/ast/visitor/EvalVisitor.java:256-262 | `while (++i < 4) { }` from i = 0 ends with i = 5 in the evaluator |
| EvalExamples.CountLoopFrom | tool/api/src/main/java/sketchy/ast/visitor/EvalVisitor.java:256-262 | from i = 0, 2 or 4 the evaluator's loop ends with i = 5 |
| EvalExamples.CountLoopFromFour | tool/api/src/main/java/sketchy/ast/visitor/EvalVisitor.java:258 | from i = 4 the loop stops at once with i = 5 |
| EvalExamples.CountLoopReferenceStep | tool/api/src/main/java/sketchy/ast/visitor/EvalVisitor.java:256-262 | in Java a pass of the loop increments i once |
| EvalExamples.CountLoopReferenceLast | tool/api/src/main/java/sketchy/ast/visitor/EvalVisitor.java:256-262 | in Java from i = 3 the loop stops with i = 4 |
| EvalExamples.CountLoopReferenceFrom | tool/api/src/main/java/sketchy/ast/visitor/EvalVisitor.java:256-262 | in Java from i = n ≤ 3 the loop ends with i = 4 |
| EvalExamples.CountLoopReference | tool/api/src/main/java/sketchy/ast/visitor/EvalVisitor.java:256-262 | in Java the same loop from i = 0 ends with i = 4 |
| EvalExamples.IncKFromAnyState | tool/api/src/main/java/sketchy/ast/visitor/EvalVisitor.java:220-227 | `++k;` increments k by one with int wrap-around from any state, in either mode |
| EvalExamples.FinallyRunsOnce | tool/api/src/main/java/sketchy/ast/visitor/EvalVisitor.java:281-285 | `finally { ++k; }` runs exactly once however the try block and handler end, in both modes |
| Sketchy.ConstantListsComplete | tool/api/src/main/java/sketchy/Sketchy.java:184-189 | each `values()` list holds every constant of its enum |
| Sketchy.Instance | tool/api/src/main/java/sketchy/Sketchy.java:684-690 | what a sketch stands for; whichever way the driver resolves a sketch with no assignment, increment or inferred index, the tree writes no binding |
| Sketchy.StmtInstance | tool/api/src/main/java/sketchy/Sketchy.java:831-841 | an `ifStmt`/`whileStmt` sketch stands only for if/while statements, and a read-only condition sketch gives a condition that writes nothing |
| Sketchy.AriCandidates | tool/api/src/main/java/sketchy/Sketchy.java:184-189 | an empty arithmetic operator list means all operators; a non-empty one is kept as given |
| Sketchy.ShiftCandidates | tool/api/src/main/java/sketchy/Sketchy.java:228-233 | the same for shift operators |
| Sketchy.LogCandidates | tool/api/src/main/java/sketchy/Sketchy.java:252-257 | the same for logic operators |
| Sketchy.RelCandidates | tool/api/src/main/java/sketchy/Sketchy.java:300-305 | the same for comparison operators |
| Sketchy.Arithmetic | tool/api/src/main/java/sketchy/Sketchy.java:184-189 | `arithmetic(e1, e2, ops…)` builds an arithmetic node over e1 and e2 whose candidate operators are those listed, or all when none is listed |
| Sketchy.ShiftExp | tool/api/src/main/java/sketchy/Sketchy.java:228-233 | the same for `shift` |
| Sketchy.Logic | tool/api/src/main/java/sketchy/Sketchy.java:252-257 | the same for `logic` |
| Sketchy.Relation | tool/api/src/main/java/sketchy/Sketchy.java:300-305 | the same for `relation` |
| Sketchy.BinaryInstances | tool/api/src/main/java/sketchy/Sketchy.java:184-305 | `arithmetic`, `shift`, `logic` and `relation` offer exactly the nodes with a listed operator (any when none is listed) over resolutions of both operands |
| Sketchy.IndexOf | tool/api/src/main/java/sketchy/Sketchy.java:455 | `indexOf(c)` is -1 exactly when c is absent, and otherwise the first position of c |
| Sketchy.IndexOfFirst | tool/api/src/main/java/sketchy/Sketchy.java:455 | any first occurrence of c is the position `indexOf` reports |
| Sketchy.ParseInt | tool/api/src/main/java/sketchy/Sketchy.java:464 | `Integer.parseInt` of a digit string gives its value exactly when that fits in int, and NumberFormatException otherwise |
| Sketchy.ShowNatParses | tool/api/src/main/java/sketchy/Sketchy.java:462-464 | printing a number and reading it back as digits gives the number |
| Sketchy.AsIntArrAccess | tool/api/src/main/java/sketchy/Sketchy.java:453-469 | a string without '[' is a RuntimeException; otherwise the result is an access to the int array named by the text before '[' |
| Sketchy.ElementAt | tool/api/src/main/java/sketchy/Sketchy.java:462-468 | the index text gives an element of the named int array, or NumberFormatException |
| Sketchy.AsIntIdOrIntArrAccess | tool/api/src/main/java/sketchy/Sketchy.java:475-481 | a string containing '[' is parsed as an array access, and otherwise becomes an int identifier of that name |
| Sketchy.ParseLiteralIndex | tool/api/src/main/java/sketchy/Sketchy.java:453-469 | "arr[n]…" is read back as arr at the literal n |
| Sketchy.ParseNamedIndex | tool/api/src/main/java/sketchy/Sketchy.java:453-469 | "arr[i]…" with a non-numeric i is read back as arr at the int identifier i |
| Sketchy.ParseFrame | tool/api/src/main/java/sketchy/Sketchy.java:453-469 | "arr[idx]tail" is read as arr at the index text idx; the tail is ignored |
| Sketchy.ParseUnclosed | tool/api/src/main/java/sketchy/Sketchy.java:460-461 | a '[' without any ']' gives StringIndexOutOfBoundsException |
| Sketchy.ParseOverflow | tool/api/src/main/java/sketchy/Sketchy.java:462-464 | a numeric index beyond the int range gives NumberFormatException |
| Sketchy.AsInt | tool/api/src/main/java/sketchy/Sketchy.java:641-643 | `asInt(val)` stands for exactly the immutable int literal val, and writes nothing |
| Sketchy.AsBool | tool/api/src/main/java/sketchy/Sketchy.java:648-650 | `asBool(val)` stands for exactly the immutable boolean literal val |
| Sketchy.IntArrAccess | tool/api/src/main/java/sketchy/Sketchy.java:437-439 | `intArrAccessExp(id, index)` stands for exactly the accesses of the int array id at a resolution of index; it is read-only exactly when index is |
| Sketchy.Operands | tool/api/src/main/java/sketchy/Sketchy.java:134-164 | the `arithmetic` and `relation` overloads convert the left argument first: they succeed exactly when both convert, and the first failure is the one thrown |
| Sketchy.ShiftOperands | tool/api/src/main/java/sketchy/Sketchy.java:201-203 | `shift(String, String)` converts the right name first: it succeeds exactly when both convert, and a failing right name is the exception thrown, whatever the left |
| Sketchy.FromIntArg | tool/api/src/main/java/sketchy/Sketchy.java:475-481 | an int constant or expression argument always converts (a constant to a read-only literal); only a name holding '[' can fail, with StringIndexOutOfBoundsException or NumberFormatException |
| Sketchy.ArithmeticOf | tool/api/src/main/java/sketchy/Sketchy.java:134-164 | the String/int/Exp overloads of `arithmetic` build the arithmetic node over both converted arguments exactly when both convert; a failing left argument is the exception thrown |
| Sketchy.ShiftOf | tool/api/src/main/java/sketchy/Sketchy.java:193-226 | the same for `shift`, except that a failing right argument is the exception thrown |
| Sketchy.RelationOf | tool/api/src/main/java/sketchy/Sketchy.java:261-291 | the same for `relation`, left argument first |
| Sketchy.LogicOf | tool/api/src/main/java/sketchy/Sketchy.java:237-250 | the boolean/Exp overloads of `logic` build a logic node over the listed operators (all when none); a `boolean` argument becomes a literal of exactly that value |
| Sketchy.ShiftConvertsRightFirst | tool/api/src/main/java/sketchy/Sketchy.java:134-210 | with an unclosed left name and an out-of-range literal index on the right, `shift` throws NumberFormatException while `arithmetic` and `relation` throw StringIndexOutOfBoundsException |
| Sketchy.Alt | tool/api/src/main/java/sketchy/Sketchy.java:684-690 | `alt(e1, e2, es…)` lists e1, e2 and then es, in order |
| Sketchy.AltInstances | tool/api/src/main/java/sketchy/Sketchy.java:684-690 | an alternative stands for exactly what one of its candidates stands for |
| Sketchy.AltInstancesOnly | tool/api/src/main/java/sketchy/Sketchy.java:684-690 | what an alternative stands for, one of its candidates stands for |
| Sketchy.AltInstancesAll | tool/api/src/main/java/sketchy/Sketchy.java:684-690 | what any candidate stands for, the alternative stands for |
| Sketchy.AltStmt | tool/api/src/main/java/sketchy/Sketchy.java:664-670 | `alt(s1, s2, ss…)` lists s1, s2 and then ss, in order |
| Sketchy.AltStmtInstances | tool/api/src/main/java/sketchy/Sketchy.java:664-670 | an alternative statement stands for exactly what one of its candidates stands for |
| Sketchy.AltStmtInstancesOnly | tool/api/src/main/java/sketchy/Sketchy.java:664-670 | one direction of the above |
| Sketchy.AltStmtInstancesAll | tool/api/src/main/java/sketchy/Sketchy.java:664-670 | the other direction of the above |
| Sketchy.WithShifts | tool/api/src/main/java/sketchy/Sketchy.java:738-744 | the combined list holds the given arithmetic operators and every shift operator, and nothing else |
| Sketchy.Candidates | tool/api/src/main/java/sketchy/Sketchy.java:745-753 | one candidate per operator |
| Sketchy.CandidateInstance | tool/api/src/main/java/sketchy/Sketchy.java:746-752 | the candidate for an operator stands for the nodes with exactly that operator over the operands' resolutions |
| Sketchy.AllAriOrShiftOps | tool/api/src/main/java/sketchy/Sketchy.java:739-743 | the array copies give all arithmetic operators followed by all shift operators |
| Sketchy.ArithOrShift | tool/api/src/main/java/sketchy/Sketchy.java:736-755 | `arithOrShift` offers one single-operator candidate per listed operator, in order; no operators means all of them |
| Sketchy.ArithOrShiftInstances | tool/api/src/main/java/sketchy/Sketchy.java:736-755 | the result stands for exactly the arithmetic and shift nodes whose operator is listed, over resolutions of both operands |
| Sketchy.OfferedOnlyListed | tool/api/src/main/java/sketchy/Sketchy.java:736-755 | one direction of the above |
| Sketchy.ListedOffered | tool/api/src/main/java/sketchy/Sketchy.java:736-755 | the other direction of the above |
| Sketchy.ExcludeDivMod | tool/api/src/main/java/sketchy/Sketchy.java:170-178 | the copy loop gives the arithmetic operators other than DIV and MOD, in enum order |
| Sketchy.ExcludeDivModWithShifts | tool/api/src/main/java/sketchy/Sketchy.java:696-706 | the copy loop and `arraycopy` give the non-DIV/MOD arithmetic operators followed by every shift operator |
| Sketchy.ArithmeticExcluding | tool/api/src/main/java/sketchy/Sketchy.java:166-179 | `arithmetic(l, r, true)` offers every arithmetic node except DIV and MOD; with false it offers every arithmetic node |
| Sketchy.ArithOrShiftExcluding | tool/api/src/main/java/sketchy/Sketchy.java:692-707 | `arithOrShift(l, r, true)` offers every shift and every arithmetic node except DIV and MOD |
| Sketchy.TryStmt | tool/api/src/main/java/sketchy/Sketchy.java:817-820 | `tryStmt(body, type, handler)` stands for exactly the try statements catching that type, with resolutions of body and handler and an empty finally block |
| Sketchy.EmptyFinallyIsNoOp | tool/api/src/main/java/sketchy/Sketchy.java:817-820 | that empty finally block changes neither the outcome nor the environment in the evaluator, and as written nothing at all |
| Sketchy.AssignStmt | tool/api/src/main/java/sketchy/Sketchy.java:843-845 | `assignStmt(target, value)` stands for exactly the expression statements assigning a resolution of value to a resolution of target |
| Sketchy.PreIncIntStmt | tool/api/src/main/java/sketchy/Sketchy.java:847-849 | `preIncIntStmt(exclude, ids…)` stands only for increments of one identifier the driver may choose, and writes that binding alone |
| Sketchy.PreIncIntStmtInstances | tool/api/src/main/java/sketchy/Sketchy.java:847-849 | `preIncIntStmt` stands for exactly the increments of one Integer identifier the driver may choose |
| Instrumentation.LoadOrStoreFamilies | tool/api/src/main/java/sketchy/bytecode/SaveLocalVarValuesMethodVisitor.java:174-193 | an opcode is found exactly for the five computational types; it is the family's base plus the type's offset (chapter 2.11.1 of the Java Virtual Machine Specification) |
| Instrumentation.LoadStorePair | tool/api/src/main/java/sketchy/bytecode/SaveLocalVarValuesMethodVisitor.java:166-193 | a local has a store instruction exactly when it has a load instruction, and the store pairs with the load |
| Instrumentation.LoadOrStoreOpcode | tool/api/src/main/java/sketchy/bytecode/SaveLocalVarValuesMethodVisitor.java:174-193 | an opcode exists exactly for the descriptors with a computational type; a load lies between ILOAD and ALOAD, a store between ISTORE and ASTORE |
| Instrumentation.Boxing | tool/api/src/main/java/sketchy/bytecode/SaveLocalVarValuesMethodVisitor.java:219-231 | `invokeBoxing` is a non-interface INVOKESTATIC on the wrapper class whose descriptor takes the primitive |
| Instrumentation.Unboxing | tool/api/src/main/java/sketchy/bytecode/SaveLocalVarValuesMethodVisitor.java:200-212 | `invokeUnboxing` is a non-interface INVOKEVIRTUAL on the same wrapper class whose descriptor returns the primitive |
| Instrumentation.SaveOne | tool/api/src/main/java/sketchy/bytecode/SaveLocalVarValuesMethodVisitor.java:148-162 | one variable's save code completes exactly when its type is supported and has a load instruction, and then starts with its name and ends with `addToMemory`; an unsupported type throws "We should not have collected…" |
| Instrumentation.UpdateOne | tool/api/src/main/java/sketchy/bytecode/SaveLocalVarValuesMethodVisitor.java:112-136 | one variable's write-back completes exactly for `this` (with no code) or a supported type with a store instruction, and then is its name, `getFromMemoryValueOfVar`, the cast and a store to its slot |
| Instrumentation.SaveEach | tool/api/src/main/java/sketchy/bytecode/SaveLocalVarValuesMethodVisitor.java:147-163 | n completed passes of the save loop emit at least three instructions each; a failure is a thrown exception, never the empty queue |
| Instrumentation.UpdateEach | tool/api/src/main/java/sketchy/bytecode/SaveLocalVarValuesMethodVisitor.java:111-137 | a failure of the write-back loop is a thrown exception, never the empty queue |
| Instrumentation.SaveCode | tool/api/src/main/java/sketchy/bytecode/SaveLocalVarValuesMethodVisitor.java:145-164 | the save code starts with `resetMemory`, and completes exactly when every variable is saveable |
| Instrumentation.FieldSaveCode | tool/api/src/main/java/sketchy/bytecode/SaveLocalVarValuesMethodVisitor.java:87-99 | the field save stores no local, and loads only `this` (slot 0, reference type) and only in an instance method |
| Instrumentation.WrapCode | tool/api/src/main/java/sketchy/bytecode/SaveLocalVarValuesMethodVisitor.java:75-84 | the wrapped code starts with `resetMemory`, completes only if the save completes, and then has the original call right after the local and field saves |
| Instrumentation.PushInt | tool/api/src/main/java/sketchy/bytecode/SaveLocalVarValuesMethodVisitor.java:329-337 | `bipush` exactly for a byte value, `sipush` exactly for other short values, `ldc` for the rest |
| Instrumentation.PushIntRoundTrip | tool/api/src/main/java/sketchy/bytecode/SaveLocalVarValuesMethodVisitor.java:329-337 | whichever instruction is chosen, the JVM pushes exactly the number asked for (chapter 6.5 of the Java Virtual Machine Specification) |
| Instrumentation.SaveEachNext | tool/api/src/main/java/sketchy/bytecode/SaveLocalVarValuesMethodVisitor.java:147-163 | one more loop pass appends exactly that variable's save code |
| Instrumentation.UpdateEachNext | tool/api/src/main/java/sketchy/bytecode/SaveLocalVarValuesMethodVisitor.java:111-137 | one more loop pass appends exactly that variable's write-back code |
| Instrumentation.SaveEachStops | tool/api/src/main/java/sketchy/bytecode/SaveLocalVarValuesMethodVisitor.java:148-151 | after a variable throws, later variables emit nothing |
| Instrumentation.UpdateEachStops | tool/api/src/main/java/sketchy/bytecode/SaveLocalVarValuesMethodVisitor.java:117-119 | the same for the write-back loop |
| Instrumentation.SaveEachDone | tool/api/src/main/java/sketchy/bytecode/SaveLocalVarValuesMethodVisitor.java:145-164 | the save loop completes exactly when every variable has a supported type with a load instruction |
| Instrumentation.UpdateEachDone | tool/api/src/main/java/sketchy/bytecode/SaveLocalVarValuesMethodVisitor.java:110-138 | the write-back loop completes exactly when every variable other than `this` is supported with a load instruction |
| Instrumentation.AccessesAppend | tool/api/src/main/java/sketchy/bytecode/SaveLocalVarValuesMethodVisitor.java:166-172 | the locals accessed by concatenated code are those of each part, in order |
| Instrumentation.AccessesPair | tool/api/src/main/java/sketchy/bytecode/SaveLocalVarValuesMethodVisitor.java:166-172 | the same for two instructions |
| Instrumentation.SaveOneAccesses | tool/api/src/main/java/sketchy/bytecode/SaveLocalVarValuesMethodVisitor.java:159-163 | a saved variable's code loads exactly its own slot with its type's family, and stores nothing |
| Instrumentation.UpdateOneAccesses | tool/api/src/main/java/sketchy/bytecode/SaveLocalVarValuesMethodVisitor.java:112-137 | a written-back variable's code stores exactly its own slot with its type's family (nothing for `this`), and loads nothing |
| Instrumentation.NoAccesses | tool/api/src/main/java/sketchy/bytecode/SaveLocalVarValuesMethodVisitor.java:166-172 | code without local-variable instructions accesses no local |
| Instrumentation.SaveEachLoads | tool/api/src/main/java/sketchy/bytecode/SaveLocalVarValuesMethodVisitor.java:145-164 | the completed save loop loads every variable from its own slot, in order, with its type's load instruction, and stores nothing |
| Instrumentation.UpdateEachStores | tool/api/src/main/java/sketchy/bytecode/SaveLocalVarValuesMethodVisitor.java:110-138 | the completed write-back loop stores every variable but `this` into its own slot, in order, and loads nothing |
| Instrumentation.Available | tool/api/src/main/java/sketchy/bytecode/SaveLocalVarValuesMethodVisitor.java:68-73 | the set holds exactly the method's locals reachable at the offset, each once |
| Instrumentation.WrapTrace | tool/api/src/main/java/sketchy/bytecode/SaveLocalVarValuesMethodVisitor.java:75-84 | save, field save, call, write-back and field update add up to the wrapped code |
| Instrumentation.WrapCompletes | tool/api/src/main/java/sketchy/bytecode/SaveLocalVarValuesMethodVisitor.java:56-85 | wrapping completes exactly when every local in scope is saveable; the code then ends by updating the fields, and every local read before the call except `this` is written back to the same slot with the same type family |
| Instrumentation.SaveLocalVarValuesMethodVisitor.constructor | tool/api/src/main/java/sketchy/bytecode/SaveLocalVarValuesMethodVisitor.java:25-35 | the visitor starts with the method's eval offsets and an empty output |
| Instrumentation.SaveLocalVarValuesMethodVisitor.VisitMethodInsn | tool/api/src/main/java/sketchy/bytecode/SaveLocalVarValuesMethodVisitor.java:37-54 | an INVOKEVIRTUAL of `eval` with its descriptor is wrapped, using the next offset; any other call passes through unchanged |
| Instrumentation.SaveLocalVarValuesMethodVisitor.WrapEval | tool/api/src/main/java/sketchy/bytecode/SaveLocalVarValuesMethodVisitor.java:56-85 | an empty offset queue throws "Queue of evals is empty!" and emits nothing; otherwise the head offset is consumed and the wrapped code for the locals in scope there is emitted |
| Instrumentation.SaveLocalVarValuesMethodVisitor.Wrap | tool/api/src/main/java/sketchy/bytecode/SaveLocalVarValuesMethodVisitor.java:75-84 | appends exactly the wrapped code, and stops at the first throw |
| Instrumentation.SaveLocalVarValuesMethodVisitor.CollectAvailable | tool/api/src/main/java/sketchy/bytecode/SaveLocalVarValuesMethodVisitor.java:68-73 | the loop collects the locals reachable at the offset, each once |
| Instrumentation.SaveLocalVarValuesMethodVisitor.SaveFields | tool/api/src/main/java/sketchy/bytecode/SaveLocalVarValuesMethodVisitor.java:87-99 | appends the field analysis for the class (static method) or for `this`, then the field save |
| Instrumentation.SaveLocalVarValuesMethodVisitor.SaveLocalVarValues | tool/api/src/main/java/sketchy/bytecode/SaveLocalVarValuesMethodVisitor.java:145-164 | appends the memory reset, then each variable's save code |
| Instrumentation.SaveLocalVarValuesMethodVisitor.SaveEachVar | tool/api/src/main/java/sketchy/bytecode/SaveLocalVarValuesMethodVisitor.java:147-163 | the loop appends each variable's save code in order, stopping at the first throw |
| Instrumentation.SaveLocalVarValuesMethodVisitor.SaveStep | tool/api/src/main/java/sketchy/bytecode/SaveLocalVarValuesMethodVisitor.java:147-163 | one pass of the save loop |
| Instrumentation.SaveLocalVarValuesMethodVisitor.SaveVar | tool/api/src/main/java/sketchy/bytecode/SaveLocalVarValuesMethodVisitor.java:148-163 | for one variable: a throw for an unsupported type; otherwise its name, its load (boxed when primitive) and `addToMemory` |
| Instrumentation.SaveLocalVarValuesMethodVisitor.UpdateLocalVarValues | tool/api/src/main/java/sketchy/bytecode/SaveLocalVarValuesMethodVisitor.java:110-138 | appends each variable's write-back code in order, stopping at the first throw |
| Instrumentation.SaveLocalVarValuesMethodVisitor.UpdateStep | tool/api/src/main/java/sketchy/bytecode/SaveLocalVarValuesMethodVisitor.java:111-137 | one pass of the write-back loop |
| Instrumentation.SaveLocalVarValuesMethodVisitor.UpdateVar | tool/api/src/main/java/sketchy/bytecode/SaveLocalVarValuesMethodVisitor.java:112-137 | for one variable: nothing for `this`, a throw for an unsupported type, otherwise fetch, cast (and unbox) and store |

## Left out

- **Operators.** `AriOp`, `ShiftOp`, `RelOp`, `LogOp` and `IncDecOp` are not
  part of this model. Their `apply` methods are taken to be Java's operators
  (chapters 15.17 to 15.21 of the Java Language Specification). They reach
  the evaluator through the `Ops` parameter.
- **Doubles.** Double arithmetic and comparison are not modelled: a double
  is an opaque 64-bit pattern, and `FloatOps` supplies its operations.
- **Loop fuel.** Statements take a `fuel` bound on while-loop iterations. A
  loop that runs out ends with `OutOfFuel`, which is not a Java outcome;
  non-terminating loops are not modelled beyond that bound.
- **Child visit order.** The node classes' `accept` methods other than
  `IntId`'s and `DoubleId`'s are not part of this model. The order in which
  children are visited is inferred from the order `endVisit` pops them:
  - array access: the index, then the array;
  - assignment: the value, then the target;
  - binary nodes: left, then right;
  - logic nodes: left, then the operator node, then right.
- **Reading identifiers.** `Id.getVal` and `updateVal` are not part of this
  model. They become a map from binding names to values, and an unbound
  name reads as null.
- **Agreement theorems.** They cover short-circuit-safe trees
  (`Ast.ShortCircuitSafe`). The loop theorems also need a condition that
  writes nothing (`Ast.Writes`). Outside those, the examples show how the
  evaluator differs.
- **Literal builders and value ranges.** `intVal`, `doubleVal`, `intArrVal`
  and the like, and the `Config`/random choices behind mutable literals, are
  left out. A literal node carries the value the driver chose.
- **Resolving sketches.** The driver's resolution of `AltExp`, of identifier
  names and of operator lists is described by `Sketchy.Instance` rather than
  implemented. How the driver searches is outside this model.
- **Ast.TargetExp, Ast.Target:** an assignment or increment target is an
  identifier, or an array identifier indexed by a literal or by an
  identifier. A target whose array or index is a computed expression, such
  as the `intArrAccessExp(id, Exp index)` target `a[i+1]` built at
  `Sketchy.java:437-446`, cannot be expressed. `RefArrAccessExp.updateVal`,
  which would re-read such an index or array when writing, is not part of
  this model, so `Sketchy.Instance` offers no resolved tree for such a target.
- **Machine.UpdateVal, Values.ArraySet:** arrays are values (`ArrV` holds the
  element sequence), not heap objects. Two names bound to the same Java array
  are two independent copies here. Writing an element rebuilds the array
  value and rebinds the target's name, so the write is not seen through
  another name. For example, with `a` and `b` aliased and `b[0] == 0`,
  `(a[0] = 5) + b[0]` gives 10 in Java but 5 here. The frame lemmas
  (`EvalFrames.AssignFrame`, `EvalFrames.PreIncFrame`,
  `EvalFrames.ExecFrame` and the others built on them) therefore hold only
  for programs whose arrays are not aliased.
- **Long, double and `refArrAccessExp` builders.** The long and double
  overloads and the `refArrAccessExp` builders are not modelled
  individually. `SArrAccess` with no index stands for an index the driver
  infers.
- **Sketchy.ExcludeDivMod, Sketchy.ExcludeDivModWithShifts:** these require
  DIV and MOD to be the last two constants of `AriOp` (`DivModLast`). The
  source's copy loop writes `ops[i]` for every kept index, so it relies on
  that order; `AriOp.java` is not part of this model.
- **External classes.** ASM's `MethodVisitor` chain, `Data`,
  `FieldAnalyzer`, `TypeUtil` and `Var.isReachableAt` are not part of this
  model:
  - descriptor queries are the `TypeUtil` parameter;
  - scopes are the `reachable` parameter;
  - the method's locals and eval offsets are constructor arguments;
  - emitting an instruction is appending it to `trace`.
- **Eval name and descriptor.** `Constants.EVAL_METH_NAME` and
  `EVAL_METH_DESC` are constructor parameters (`evalName`, `evalDesc`).
- **Instrumentation.Available:** the source collects the locals into a
  `HashSet` and iterates over it in hash order. The model takes the order in
  which the method lists its locals. The contracts state membership and
  uniqueness, not an order.
- **Box and Unbox.** `invokeBoxing` and `invokeUnboxing` are emitted as
  symbolic `Box`/`Unbox` instructions; `Expand` spells out the calls they
  stand for. Their "is not a primitive type!" throws are not modelled,
  because both are only called on descriptors `TypeUtil.isPrimitive` has
  accepted.
- **ASM frames and label handling.** Neither is part of the rewriter's code
  shown, so neither is modelled.

## Findings

| source | as written | input that shows it | evidently intended | confidence | as-written member | corrected member |
|---|---|---|---|---|---|---|
| tool/api/src/main/java/sketchy/ast/visitor/EvalVisitor.java:272-286 | the handler (and the finally block) run on the operand stack the interrupted expression left behind | `try { z = 1 + 1 / 0; } catch (ArithmeticException e) { w = 1; }`: the handler's statement finds `1` on the stack and throws "Stack should be empty!" | the handler starts on the stack the try statement started with, as the JVM clears a handler's operand stack; the statement then completes with w = 1, as in Java | high, not executed | EvalExamples.HandlerInheritsStack | EvalExamples.CatchDivByZeroCorrected |
| tool/api/src/main/java/sketchy/ast/exp/DoubleId.java:16-18 | `DoubleId(boolean exclude, List<String> ids)` calls `super(ids)`, dropping `exclude` | `new DoubleId(true, ids)` builds the same node as `new DoubleId(false, ids)` | `super(exclude, ids)`, as `IntId` does | high, not executed | Ids.DoubleIdDropsExclude | Ids.DoubleIdForwarding |

The corrected try statement is `Machine.Mode.StackReset`. For it,
`EvalProperties.ExecAgrees` and `EvalInvariants.ExecKeepsClean` are proved
for all statements. `EvalProperties.ModeIrrelevantWithoutTry` shows the
correction changes nothing for programs without try.
