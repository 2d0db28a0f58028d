/** Column types, the type inferred for a schema-tree node, and the widening applied
    to an existing table column when new data does not fit it. */
module ColumnTypes {
  import opened Inference

  datatype LType =
    | TBoolean | TTinyInt | TSmallInt | TInteger | TBigInt | THugeInt
    | TUTinyInt | TUSmallInt | TUInteger
    | TFloat | TDouble | TDate | TTimestamp | TVarchar
    | TJson
    | TList(elem: LType)
    | TExotic(name: string)  // any other database type a user may have declared

  function KindToType(k: Kind): (r: LType) {
    match k
    case BOOLEAN => TBoolean
    case BIGINT => TBigInt
    case DOUBLE => TDouble
    case DATE => TDate
    case TIMESTAMP => TTimestamp
    case _ => TVarchar
  }

  function NodeToType(n: Node): (r: LType)
    ensures Inferred(r)
  {
    match n
    case Unset => TVarchar
    case Scalar(k) => KindToType(k)
    case Array(e) =>
      (match e
       case Unset => TList(TVarchar)
       case Scalar(k) => TList(KindToType(k))
       case Array(_) => TList(NodeToType(e))
       case _ => TJson)
    case _ => TJson
  }

  /** The types inference can produce. */
  predicate Inferred(t: LType) {
    match t
    case TBoolean | TBigInt | TDouble | TDate | TTimestamp | TVarchar | TJson => true
    case TList(e) => Inferred(e)
    case _ => false
  }

  predicate IsInteger(t: LType) {
    t.TTinyInt? || t.TSmallInt? || t.TInteger? || t.TBigInt? || t.THugeInt?
    || t.TUTinyInt? || t.TUSmallInt? || t.TUInteger?
  }

  predicate IsPlainScalar(t: LType) {
    t.TBoolean? || t.TFloat? || t.TDouble? || t.TDate? || t.TTimestamp? || t.TVarchar? || IsInteger(t)
  }

  predicate IsNumericType(t: LType) { IsInteger(t) || t.TFloat? || t.TDouble? }

  predicate IsTemporalType(t: LType) { t.TDate? || t.TTimestamp? }

  /** `JoinColumnTypes`. */
  function Widen(existing: LType, incoming: LType): (r: LType)
    decreases existing
  {
    if existing == incoming then existing
    else if existing.TJson? || incoming.TJson? then TJson
    else if existing.TList? && incoming.TList? then TList(Widen(existing.elem, incoming.elem))
    else if existing.TList? || incoming.TList? then
      if !IsPlainScalar(existing) && !IsPlainScalar(incoming) then existing else TJson
    else if !IsPlainScalar(existing) then existing
    else if IsInteger(existing) && IsInteger(incoming) then
      if existing.THugeInt? then existing else incoming
    else if IsNumericType(existing) && IsNumericType(incoming) then TDouble
    else if IsTemporalType(existing) && IsTemporalType(incoming) then TTimestamp
    else TVarchar
  }

  predicate Absorbs(t: LType, incoming: LType) { Widen(t, incoming) == t }

  lemma {:induction false} WidenAbsorbs(existing: LType, incoming: LType)
    requires Inferred(incoming)
    ensures Absorbs(Widen(existing, incoming), incoming)
    decreases existing
  {
    if existing.TList? && incoming.TList? {
      WidenAbsorbs(existing.elem, incoming.elem);
    }
  }

  /** Between types of inference, JSON arises from JSON, and from a list beside something else. */
  lemma {:induction false} WidenIsJsonIff(existing: LType, incoming: LType)
    requires Inferred(existing) && Inferred(incoming)
    ensures Widen(existing, incoming).TJson? <==> existing.TJson? || incoming.TJson? || existing.TList? != incoming.TList?
    ensures Widen(existing, incoming).TList? <==> existing.TList? && incoming.TList?
  {
  }

  /** The integers a column type holds. */
  function Lowest(t: LType): (i: int)
    requires IsInteger(t)
  {
    match t
    case TTinyInt => -0x80 case TSmallInt => -0x8000 case TInteger => -0x8000_0000 case TBigInt => -0x8000_0000_0000_0000
    case THugeInt => -0x8000_0000_0000_0000_0000_0000_0000_0000
    case _ => 0
  }

  function Highest(t: LType): (i: int)
    requires IsInteger(t)
  {
    match t
    case TTinyInt => 0x7f case TSmallInt => 0x7fff case TInteger => 0x7fff_ffff case TBigInt => 0x7fff_ffff_ffff_ffff
    case THugeInt => 0x7fff_ffff_ffff_ffff_ffff_ffff_ffff_ffff
    case TUTinyInt => 0xff case TUSmallInt => 0xffff case _ => 0xffff_ffff
  }

  predicate HoldsInteger(t: LType, i: int)
    requires IsInteger(t)
  {
    Lowest(t) <= i <= Highest(t)
  }

  /** An integer column stays one of integers, and holds all that it and BIGINT held, and no more. */
  lemma WidenIntegers(existing: LType, i: int)
    requires IsInteger(existing)
    ensures IsInteger(Widen(existing, TBigInt))
    ensures HoldsInteger(Widen(existing, TBigInt), i) <==> HoldsInteger(existing, i) || HoldsInteger(TBigInt, i)
  {
  }

  /** Numbers beside numbers, times beside times; a column of any other scalar type takes text. */
  lemma WidenScalars(existing: LType, incoming: LType)
    requires IsPlainScalar(existing) && IsPlainScalar(incoming) && Inferred(incoming) && existing != incoming
    ensures Widen(existing, incoming).TDouble? <==>
      IsNumericType(existing) && IsNumericType(incoming) && !(IsInteger(existing) && IsInteger(incoming))
    ensures Widen(existing, incoming).TTimestamp? <==> existing in {TDate, TTimestamp} && incoming in {TDate, TTimestamp}
    ensures Widen(existing, incoming).TVarchar? <==>
      !(IsNumericType(existing) && IsNumericType(incoming))
      && !(existing in {TDate, TTimestamp} && incoming in {TDate, TTimestamp})
  {
  }

  /** A column of a type inference does not know is left alone, unless JSON or a list comes in. */
  lemma WidenExotic(name: string, incoming: LType)
    requires Inferred(incoming)
    ensures Widen(TExotic(name), incoming) == if incoming.TJson? then TJson else TExotic(name)
  {
  }

  /** What a column once absorbed it absorbs for good, whatever it widens to later. */
  lemma {:induction false} AbsorptionPersists(t: LType, absorbed: LType, next: LType)
    requires Inferred(absorbed) && Inferred(next) && Absorbs(t, absorbed)
    ensures Absorbs(Widen(t, next), absorbed)
    decreases t
  {
    if t.TList? && absorbed.TList? && next.TList? {
      AbsorptionPersists(t.elem, absorbed.elem, next.elem);
    }
  }

  /** The restriction to inferred types is needed: an incoming TINYINT would narrow. */
  lemma WidenNarrowsForForeignIncoming()
    ensures !Absorbs(Widen(TBigInt, TTinyInt), TBigInt)
  {
  }

  /** How many more times a column of this type can be rewritten. */
  function Rank(t: LType): (r: nat) {
    match t
    case TJson => 0
    case TVarchar | TExotic(_) => 1
    case TBoolean | TDouble | TTimestamp => 2
    case TBigInt | THugeInt | TFloat | TDate => 3
    case TList(e) => Rank(e) + 1
    case _ => 4
  }

  lemma {:induction false} WidenDescends(existing: LType, incoming: LType)
    requires Inferred(incoming) && !Absorbs(existing, incoming)
    ensures Rank(Widen(existing, incoming)) < Rank(existing)
    decreases existing
  {
    if existing.TList? && incoming.TList? {
      WidenDescends(existing.elem, incoming.elem);
    }
  }

  /** The column's type after a run of ingests. */
  function WidenAll(t: LType, incoming: seq<LType>): (r: LType)
    decreases |incoming|
  {
    if incoming == [] then t else WidenAll(Widen(t, incoming[0]), incoming[1..])
  }

  /** How many of those ingests rewrote the column. */
  function Alters(t: LType, incoming: seq<LType>): (r: nat)
    decreases |incoming|
  {
    if incoming == [] then 0
    else (if Absorbs(t, incoming[0]) then 0 else 1) + Alters(Widen(t, incoming[0]), incoming[1..])
  }

  ghost predicate AllInferred(ts: seq<LType>) {
    forall i :: 0 <= i < |ts| ==> Inferred(ts[i])
  }

  /** Over any run, a column is rewritten at most `Rank` times, however long the run. */
  lemma {:induction false} AltersBounded(t: LType, incoming: seq<LType>)
    requires AllInferred(incoming)
    ensures Alters(t, incoming) + Rank(WidenAll(t, incoming)) <= Rank(t)
    decreases |incoming|
  {
    if incoming != [] {
      if !Absorbs(t, incoming[0]) { WidenDescends(t, incoming[0]); }
      AltersBounded(Widen(t, incoming[0]), incoming[1..]);
    }
  }

  /** At the end of any run the column absorbs every type that was ever ingested. */
  lemma {:induction false} RunAbsorbs(t: LType, incoming: seq<LType>, i: nat)
    requires AllInferred(incoming) && i < |incoming|
    ensures Absorbs(WidenAll(t, incoming), incoming[i])
    decreases |incoming|
  {
    var next := Widen(t, incoming[0]);
    if i == 0 {
      WidenAbsorbs(t, incoming[0]);
      KeepsAbsorbing(next, incoming[0], incoming[1..]);
    } else {
      RunAbsorbs(next, incoming[1..], i - 1);
    }
  }

  lemma {:induction false} KeepsAbsorbing(t: LType, absorbed: LType, incoming: seq<LType>)
    requires AllInferred(incoming) && Inferred(absorbed) && Absorbs(t, absorbed)
    ensures Absorbs(WidenAll(t, incoming), absorbed)
    decreases |incoming|
  {
    if incoming != [] {
      AbsorptionPersists(t, absorbed, incoming[0]);
      KeepsAbsorbing(Widen(t, incoming[0]), absorbed, incoming[1..]);
    }
  }
}
