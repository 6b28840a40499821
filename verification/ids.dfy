/**
 * Identifier terminals of the sketch language. An identifier node carries
 * the candidate binding names the driver may choose from, an "exclude" flag
 * (when set the driver picks from the complement of those names instead)
 * and a class, which fixes the static type reported by `getIdType`. The
 * flag shapes the driver's search space only; evaluation never reads it.
 */
module Ids {

  /** The Java classes an identifier or a value can be declared with. */
  datatype JType =
    | TBoolean | TInteger | TLong | TDouble
    | TIntArray | TLongArray | TDoubleArray
    | TObject(name: string)

  /** Which identifier class a node is: IntId, DoubleId, BoolId or RefId<T>. */
  datatype IdKind = IntIdKind | DoubleIdKind | BoolIdKind | RefIdKind(ty: JType)

  datatype IdNode = IdNode(kind: IdKind, ids: seq<string>, exclude: bool)

  /** `getIdType()`: the class of the values the identifier denotes. */
  function GetIdType(n: IdNode): (t: JType)
    ensures n.kind == IntIdKind ==> t == TInteger
    ensures n.kind == DoubleIdKind ==> t == TDouble
    ensures n.kind == BoolIdKind ==> t == TBoolean
    ensures n.kind.RefIdKind? ==> t == n.kind.ty
  {
    match n.kind
    case IntIdKind => TInteger
    case DoubleIdKind => TDouble
    case BoolIdKind => TBoolean
    case RefIdKind(ty) => ty
  }

  /** `new IntId(exclude, ids)`: the flag reaches the node unchanged. */
  function IntIdExcluding(exclude: bool, ids: seq<string>): (n: IdNode)
    ensures n.exclude == exclude && n.ids == ids
    ensures GetIdType(n) == TInteger
  {
    IdNode(IntIdKind, ids, exclude)
  }

  /** `new IntId(ids)`: delegates to the two-argument constructor with `exclude = false`. */
  function IntId(ids: seq<string>): (n: IdNode)
    ensures n == IntIdExcluding(false, ids)
    ensures !n.exclude
  {
    IntIdExcluding(false, ids)
  }

  /**
   * `new DoubleId(exclude, ids)` as written: it calls `super(ids)`, so the
   * flag is dropped and the node is never exclusion-flavoured.
   */
  function DoubleIdExcluding(exclude: bool, ids: seq<string>): (n: IdNode)
    ensures !n.exclude && n.ids == ids
    ensures GetIdType(n) == TDouble
  {
    IdNode(DoubleIdKind, ids, false)
  }

  /** The two-argument DoubleId constructor as IntId's shows it was meant: the flag is forwarded. */
  function DoubleIdForwarding(exclude: bool, ids: seq<string>): (n: IdNode)
    ensures n.exclude == exclude && n.ids == ids
    ensures GetIdType(n) == TDouble
    ensures n == IntIdExcluding(exclude, ids).(kind := DoubleIdKind)
  {
    IdNode(DoubleIdKind, ids, exclude)
  }

  /** `new DoubleId(ids)`: delegates with `exclude = false`; the two constructors then agree. */
  function DoubleId(ids: seq<string>): (n: IdNode)
    ensures n == DoubleIdExcluding(false, ids)
    ensures n == DoubleIdForwarding(false, ids)
  {
    DoubleIdExcluding(false, ids)
  }

  /** The dropped flag is observable: asking for exclusion gives an ordinary node. */
  lemma DoubleIdDropsExclude(ids: seq<string>)
    ensures DoubleIdExcluding(true, ids) == DoubleIdExcluding(false, ids)
    ensures DoubleIdExcluding(true, ids) != DoubleIdForwarding(true, ids)
    ensures IntIdExcluding(true, ids) != IntIdExcluding(false, ids)
  {
  }

  /** `new BoolId(ids)`. */
  function BoolId(ids: seq<string>): (n: IdNode)
    ensures GetIdType(n) == TBoolean && !n.exclude && n.ids == ids
  {
    IdNode(BoolIdKind, ids, false)
  }

  /** `new RefId<>(type, exclude, ids)`; the two-argument form has `exclude = false`. */
  function RefId(ty: JType, exclude: bool, ids: seq<string>): (n: IdNode)
    ensures GetIdType(n) == ty && n.exclude == exclude && n.ids == ids
  {
    IdNode(RefIdKind(ty), ids, exclude)
  }
}
