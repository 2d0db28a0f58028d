/** What a column of a given type keeps of a value, and what its cells say about it, in terms
    of the value and the type alone. */
module Fits {
  import opened Json
  import opened Inference
  import opened ColumnTypes
  import opened Filling

  /** A value without any scalar in it. */
  predicate NoScalars(v: Json) {
    match v
    case Null => true
    case Arr(es) => forall i :: 0 <= i < |es| ==> NoScalars(es[i])
    case Obj(fs) => forall i :: 0 <= i < |fs| ==> NoScalars(fs[i].value)
    case _ => false
  }

  /** JSON and VARCHAR columns take everything, other scalar columns the values of their
      own kind, lists what fits element by element. */
  predicate FitsType(t: Temporal, v: Json, ty: LType)
    decreases ty
  {
    match ty
    case TJson => true
    case TVarchar => true
    case TBoolean => v.Bool? || NoScalars(v)
    case TBigInt => (v.Int? && v.i < TWO63) || NoScalars(v)
    case TDouble => v.Int? || v.Real? || NoScalars(v)
    case TDate => (v.Str? && t.date(v.s)) || NoScalars(v)
    case TTimestamp => (v.Str? && t.timestamp(v.s)) || NoScalars(v)
    case TList(e) => if v.Arr? then forall i :: 0 <= i < |v.elems| ==> FitsType(t, v.elems[i], e) else NoScalars(v)
    case _ => NoScalars(v)
  }

  ghost predicate ScalarAt(v: Json, pos: seq<Hop>, leaf: Json) { At(v, pos) == Some(leaf) && IsScalar(leaf) }

  lemma {:induction false} NoScalarsMeans(v: Json, pos: seq<Hop>, leaf: Json)
    requires NoScalars(v) && At(v, pos) == Some(leaf)
    ensures !IsScalar(leaf)
    decreases |pos|
  {
    if pos != [] {
      match pos[0]
      case Key(k) =>
        var w := Get(v.fields, k).value;
        var i :| 0 <= i < |v.fields| && v.fields[i] == Field(k, w);
        NoScalarsMeans(w, pos[1..], leaf);
      case Index(i) => NoScalarsMeans(v.elems[i], pos[1..], leaf);
    }
  }

  lemma HopDown(v: Json, hop: Hop, w: Json, pos: seq<Hop>, leaf: Json)
    requires At(v, [hop]) == Some(w) && At(w, pos) == Some(leaf)
    ensures At(v, [hop] + pos) == Some(leaf)
  {
    assert [hop][1..] == [] && ([hop] + pos)[1..] == pos;
  }

  lemma FieldHop(v: Json, i: nat)
    requires v.Obj? && UniqueKeys(v.fields) && i < |v.fields|
    ensures At(v, [Key(v.fields[i].key)]) == Some(v.fields[i].value)
  {
    GetUnique(v.fields, i);
    assert [Key(v.fields[i].key)][1..] == [];
  }

  lemma ElementHop(v: Json, i: nat)
    requires v.Arr? && i < |v.elems|
    ensures At(v, [Index(i)]) == Some(v.elems[i])
  {
    assert [Index(i)][1..] == [];
  }

  /** Otherwise there is a scalar to be found. */
  lemma {:induction false} SomeScalar(v: Json) returns (pos: seq<Hop>, leaf: Json)
    requires !NoScalars(v) && DeepUnique(v)
    ensures ScalarAt(v, pos, leaf)
    decreases v
  {
    match v
    case Arr(es) =>
      var i :| 0 <= i < |es| && !NoScalars(es[i]);
      var rest;
      rest, leaf := SomeScalar(es[i]);
      ElementHop(v, i);
      HopDown(v, Index(i), es[i], rest, leaf);
      pos := [Index(i)] + rest;
    case Obj(fs) =>
      var i :| 0 <= i < |fs| && !NoScalars(fs[i].value);
      var rest;
      rest, leaf := SomeScalar(fs[i].value);
      FieldHop(v, i);
      HopDown(v, Key(fs[i].key), fs[i].value, rest, leaf);
      pos := [Key(fs[i].key)] + rest;
    case _ => pos, leaf := [], v;
  }

  /** What fits is held. */
  lemma {:induction false} FitIsHeld(t: Temporal, v: Json, ty: LType, pos: seq<Hop>, leaf: Json)
    requires FitsType(t, v, ty) && ScalarAt(v, pos, leaf)
    ensures Holds(Fill(t, Some(v), ty), pos, leaf)
    decreases ty
  {
    if NoScalars(v) {
      NoScalarsMeans(v, pos, leaf);
    } else if ty.TList? {
      FitIsHeld(t, v.elems[pos[0].index], ty.elem, pos[1..], leaf);
    }
  }

  /** What does not fit loses a scalar. */
  lemma {:induction false} MisfitLoses(t: Temporal, v: Json, ty: LType) returns (pos: seq<Hop>, leaf: Json)
    requires !FitsType(t, v, ty) && DeepUnique(v)
    ensures ScalarAt(v, pos, leaf) && !Holds(Fill(t, Some(v), ty), pos, leaf)
    decreases ty
  {
    if ty.TList? && v.Arr? {
      var i :| 0 <= i < |v.elems| && !FitsType(t, v.elems[i], ty.elem);
      var rest;
      rest, leaf := MisfitLoses(t, v.elems[i], ty.elem);
      ElementHop(v, i);
      HopDown(v, Index(i), v.elems[i], rest, leaf);
      pos := [Index(i)] + rest;
      assert pos[1..] == rest;
    } else {
      pos, leaf := SomeScalar(v);
    }
  }

  /** A value keeps all its scalars in a column of a type if and only if it fits it. */
  lemma LosslessIffFits(t: Temporal, v: Json, ty: LType)
    requires DeepUnique(v)
    ensures Lossless(t, v, ty) <==> FitsType(t, v, ty)
  {
    if FitsType(t, v, ty) {
      forall pos, leaf | At(v, pos) == Some(leaf) && IsScalar(leaf) ensures Holds(Fill(t, Some(v), ty), pos, leaf) {
        FitIsHeld(t, v, ty, pos, leaf);
      }
    } else {
      var pos, leaf := MisfitLoses(t, v, ty);
    }
  }

  // ---------------------------------------------------------------------------
  // What a cell says about the value it was filled from
  // ---------------------------------------------------------------------------

  /** NULL, or a cell of the type's own kind, throughout a list. */
  predicate OfType(cell: Cell, ty: LType)
    decreases ty
  {
    || cell.NullCell?
    || match ty
       case TBoolean => cell.Flag?
       case TBigInt => cell.Int64?
       case TDouble => cell.Num?
       case TDate => cell.Day?
       case TTimestamp => cell.Moment?
       case TVarchar => cell.Text?
       case TJson => cell.Doc?
       case TList(e) => cell.Items? && forall i :: 0 <= i < |cell.cells| ==> OfType(cell.cells[i], e)
       case _ => false
  }

  /** The values a column of the type does not turn into NULL. */
  predicate Accepts(t: Temporal, v: Json, ty: LType) {
    match ty
    case TBoolean => v.Bool?
    case TBigInt => v.Int?
    case TDouble => v.Int? || v.Real?
    case TDate => v.Str? && t.date(v.s)
    case TTimestamp => v.Str? && t.timestamp(v.s)
    case TVarchar | TJson => !v.Null?
    case TList(_) => v.Arr?
    case _ => false
  }

  /** `x` is the signed 64-bit integer with the bits of `i`, signed or unsigned. */
  predicate SameBits(x: int, i: int) {
    (i < TWO63 ==> x == i) && (TWO63 <= i ==> x == i - TWO64)
  }

  /** The cell a column of a type the writer fills has for a value, if there is one. */
  ghost predicate Stores(t: Temporal, cell: Cell, val: Option<Json>, ty: LType)
    decreases ty
  {
    && OfType(cell, ty)
    && (cell.NullCell? <==> val.None? || !Accepts(t, val.value, ty))
    && (val.Some? ==>
          && (forall pos, leaf :: FitsType(t, val.value, ty) && ScalarAt(val.value, pos, leaf) ==> Holds(cell, pos, leaf))
          && (ty.TBigInt? && val.value.Int? ==> SameBits(cell.i, val.value.i))
          && ((ty.TVarchar? || ty.TJson?) && !val.value.Null? ==> cell.value == val.value)
          && (ty.TList? && val.value.Arr? ==>
                && |cell.cells| == |val.value.elems|
                && forall i :: 0 <= i < |cell.cells| ==> Stores(t, cell.cells[i], Some(val.value.elems[i]), ty.elem)))
  }

  lemma {:induction false} FillStores(t: Temporal, val: Option<Json>, ty: LType)
    requires FillSupported(ty)
    ensures Stores(t, Fill(t, val, ty), val, ty)
    decreases ty
  {
    if val.Some? {
      var v := val.value;
      forall pos, leaf | FitsType(t, v, ty) && ScalarAt(v, pos, leaf) ensures Holds(Fill(t, val, ty), pos, leaf) {
        FitIsHeld(t, v, ty, pos, leaf);
      }
      if ty.TList? && v.Arr? {
        forall i | 0 <= i < |v.elems| ensures Stores(t, Fill(t, Some(v.elems[i]), ty.elem), Some(v.elems[i]), ty.elem) {
          FillStores(t, Some(v.elems[i]), ty.elem);
        }
      }
    }
  }

  /** That leaves no other cell. */
  lemma {:induction false} StoresIsFill(t: Temporal, cell: Cell, val: Option<Json>, ty: LType)
    requires FillSupported(ty) && Stores(t, cell, val, ty)
    ensures cell == Fill(t, val, ty)
    decreases ty
  {
    if val.Some? && Accepts(t, val.value, ty) {
      var v := val.value;
      if ty.TList? {
        forall i | 0 <= i < |v.elems| ensures cell.cells[i] == Fill(t, Some(v.elems[i]), ty.elem) {
          StoresIsFill(t, cell.cells[i], Some(v.elems[i]), ty.elem);
        }
      } else if IsScalar(v) && FitsType(t, v, ty) {
        assert ScalarAt(v, [], v);
        assert Holds(cell, [], v);
      }
    }
  }

  // ---------------------------------------------------------------------------
  // Widening is least
  // ---------------------------------------------------------------------------

  /** Some value with a scalar in it that fits the type. */
  function Sample(ty: LType, date: string, moment: string): (v: Json)
    decreases ty
  {
    match ty
    case TBoolean => Bool(true)
    case TBigInt => Int(1)
    case TDouble => Real("0.5")
    case TDate => Str(date)
    case TTimestamp => Str(moment)
    case TList(e) => Arr([Sample(e, date, moment)])
    case _ => Str("")
  }

  lemma {:induction false} SampleFits(t: Temporal, ty: LType, date: string, moment: string)
    requires Inferred(ty) && t.date(date) && t.timestamp(moment)
    ensures FitsType(t, Sample(ty, date, moment), ty) && !NoScalars(Sample(ty, date, moment))
    decreases ty
  {
    if ty.TList? {
      SampleFits(t, ty.elem, date, moment);
      assert Sample(ty, date, moment).elems[0] == Sample(ty.elem, date, moment);
    }
  }

  ghost predicate Within(t: Temporal, narrow: LType, wide: LType) {
    forall v :: FitsType(t, v, narrow) ==> FitsType(t, v, wide)
  }

  lemma WithinElement(t: Temporal, a: LType, c: LType)
    requires Within(t, TList(a), TList(c))
    ensures Within(t, a, c)
  {
    forall v | FitsType(t, v, a) ensures FitsType(t, v, c) {
      var list := Arr([v]);
      assert list.elems[0] == v;
      assert FitsType(t, list, TList(a));
      assert FitsType(t, list, TList(c));
    }
  }

  predicate TakesAll(c: LType) { c.TVarchar? || c.TJson? }

  /** Different types, neither of them the widened one: only a column for everything takes both. */
  lemma NothingBetween(t: Temporal, a: LType, b: LType, c: LType, date: string, moment: string)
    requires Inferred(a) && Inferred(b) && Inferred(c) && t.date(date) && t.timestamp(moment)
    requires Within(t, a, c) && Within(t, b, c)
    requires Widen(a, b) != a && Widen(a, b) != b && !(a.TList? && b.TList?)
    ensures TakesAll(c)
  {
    SampleFits(t, a, date, moment);
    SampleFits(t, b, date, moment);
    assert FitsType(t, Sample(a, date, moment), c) && FitsType(t, Sample(b, date, moment), c);
    if TakesAll(a) { WithinAll(t, a, c); }
    if TakesAll(b) { WithinAll(t, b, c); }
    hide Within;
  }

  lemma WithinAll(t: Temporal, a: LType, c: LType)
    requires TakesAll(a) && Inferred(c) && Within(t, a, c)
    ensures TakesAll(c)
  {
    assert FitsType(t, Bool(true), a) && FitsType(t, Int(1), a);
    assert FitsType(t, Bool(true), c) && FitsType(t, Int(1), c);
  }

  /** A list of something beside a column for everything. */
  lemma ListsWithin(t: Temporal, a: LType, c: LType, date: string, moment: string)
    requires Inferred(a) && Inferred(c) && t.date(date) && t.timestamp(moment) && a.TList? && Within(t, a, c)
    ensures c.TList? || TakesAll(c)
  {
    SampleFits(t, a, date, moment);
    assert FitsType(t, Sample(a, date, moment), c);
  }

  /** A type that takes the values of two types takes those of the widened one. */
  lemma {:induction false} WideningIsLeast(t: Temporal, a: LType, b: LType, c: LType, date: string, moment: string)
    requires Inferred(a) && Inferred(b) && Inferred(c) && t.date(date) && t.timestamp(moment)
    requires Within(t, a, c) && Within(t, b, c)
    ensures Within(t, Widen(a, b), c)
    decreases a
  {
    if a.TList? && b.TList? {
      ListsWithin(t, a, c, date, moment);
      if c.TList? {
        WithinElement(t, a.elem, c.elem);
        WithinElement(t, b.elem, c.elem);
        WideningIsLeast(t, a.elem, b.elem, c.elem, date, moment);
      }
    } else if Widen(a, b) != a && Widen(a, b) != b {
      NothingBetween(t, a, b, c, date, moment);
    }
  }
}
