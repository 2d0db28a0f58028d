/** Writing JSON values into typed columns. `Fill` says which cell one value becomes;
    `FillVector` is the batch writer with its shared child vector for lists. */
module Filling {
  import opened Json
  import opened Inference
  import opened ColumnTypes

  /** A stored cell. `Num` keeps the number it was converted from, `Text` and `Doc` the
      value they render (a string as itself, anything else as its JSON literal). */
  datatype Cell =
    | NullCell
    | Flag(b: bool)
    | Int64(i: int)
    | Num(source: Json)
    | Day(s: string)
    | Moment(s: string)
    | Text(value: Json)
    | Doc(value: Json)
    | Items(cells: seq<Cell>)

  const TWO63: int := 0x8000_0000_0000_0000
  const TWO64: int := 0x1_0000_0000_0000_0000

  /** Reinterpreting a 64-bit unsigned integer as signed. */
  function AsInt64(i: int): (r: int) {
    if i >= TWO63 then i - TWO64 else i
  }

  predicate FillSupported(t: LType) {
    match t
    case TJson | TBoolean | TBigInt | TDouble | TDate | TTimestamp | TVarchar => true
    case TList(e) => FillSupported(e)
    case _ => false
  }

  function Fill(t: Temporal, val: Option<Json>, ty: LType): (c: Cell)
    decreases ty
  {
    if val.None? then NullCell
    else
      var v := val.value;
      match ty
      case TJson => if v.Null? then NullCell else Doc(v)
      case TBoolean => if v.Bool? then Flag(v.b) else NullCell
      case TBigInt => if v.Int? then Int64(AsInt64(v.i)) else NullCell
      case TDouble => if v.Int? || v.Real? then Num(v) else NullCell
      case TDate => if v.Str? && t.date(v.s) then Day(v.s) else NullCell
      case TTimestamp => if v.Str? && t.timestamp(v.s) then Moment(v.s) else NullCell
      case TVarchar => if v.Null? then NullCell else Text(v)
      case TList(e) =>
        if !v.Arr? then NullCell
        else Items(seq(|v.elems|, i requires 0 <= i < |v.elems| => Fill(t, Some(v.elems[i]), e)))
      case _ => NullCell
  }

  /** `cell` still holds the scalar `leaf` that sat at `pos` in the filled value. */
  predicate Holds(cell: Cell, pos: seq<Hop>, leaf: Json)
    decreases |pos|
  {
    match cell
    case NullCell => false
    case Flag(b) => pos == [] && leaf == Bool(b)
    case Int64(i) => pos == [] && leaf == Int(i)
    case Num(source) => pos == [] && leaf == source
    case Day(s) => pos == [] && leaf == Str(s)
    case Moment(s) => pos == [] && leaf == Str(s)
    case Text(v) => At(v, pos) == Some(leaf)
    case Doc(v) => At(v, pos) == Some(leaf)
    case Items(cs) => pos != [] && pos[0].Index? && pos[0].index < |cs| && Holds(cs[pos[0].index], pos[1..], leaf)
  }

  /** Filling `v` at type `ty` loses no scalar, at any depth. */
  ghost predicate Lossless(t: Temporal, v: Json, ty: LType) {
    forall pos, leaf :: At(v, pos) == Some(leaf) && IsScalar(leaf) ==> Holds(Fill(t, Some(v), ty), pos, leaf)
  }

  /** Widening never turns a value that was stored into NULL: what fits the inferred
      type without loss fits every fill-supported joined type without loss. */
  lemma {:induction false} WideningIsLossless(t: Temporal, v: Json, existing: LType, incoming: LType)
    requires t.Valid() && Inferred(incoming) && Lossless(t, v, incoming)
    requires FillSupported(Widen(existing, incoming))
    ensures Lossless(t, v, Widen(existing, incoming))
    decreases existing
  {
    var wide := Widen(existing, incoming);
    forall pos: seq<Hop>, leaf | At(v, pos) == Some(leaf) && IsScalar(leaf)
      ensures Holds(Fill(t, Some(v), wide), pos, leaf)
    {
      assert Holds(Fill(t, Some(v), incoming), pos, leaf);
      if existing != incoming && existing.TList? && incoming.TList? {
        var i := pos[0].index;
        var w := v.elems[i];
        ElementLossless(t, v, incoming.elem, i);
        WideningIsLossless(t, w, existing.elem, incoming.elem);
        assert At(w, pos[1..]) == Some(leaf);
      }
    }
  }

  lemma ElementLossless(t: Temporal, v: Json, e: LType, i: nat)
    requires v.Arr? && i < |v.elems| && Lossless(t, v, TList(e))
    ensures Lossless(t, v.elems[i], e)
  {
    forall pos: seq<Hop>, leaf | At(v.elems[i], pos) == Some(leaf) && IsScalar(leaf)
      ensures Holds(Fill(t, Some(v.elems[i]), e), pos, leaf)
    {
      var outer := [Index(i)] + pos;
      assert outer[1..] == pos;
      assert At(v, outer) == Some(leaf);
      assert Holds(Fill(t, Some(v), TList(e)), outer, leaf);
    }
  }

  // ---------------------------------------------------------------------------
  // The batch writer
  // ---------------------------------------------------------------------------

  datatype Entry = Entry(valid: bool, offset: nat, length: nat)

  /** A column vector: flat cells, or list entries pointing into one child vector. */
  datatype Vector =
    | Flat(cells: seq<Cell>)
    | Lists(entries: seq<Entry>, child: Vector)

  function Size(vec: Vector): (n: nat) {
    match vec case Flat(cs) => |cs| case Lists(es, _) => |es|
  }

  ghost predicate WellTyped(vec: Vector, ty: LType) {
    match ty
    case TList(e) =>
      && vec.Lists?
      && WellTyped(vec.child, e)
      && (forall i :: 0 <= i < |vec.entries| ==> vec.entries[i].offset + vec.entries[i].length <= Size(vec.child))
    case _ => vec.Flat?
  }

  /** The cell a reader of the vector sees at row `i`. */
  ghost function Read(vec: Vector, ty: LType, i: nat): (c: Cell)
    requires WellTyped(vec, ty) && i < Size(vec)
    decreases ty
  {
    match ty
    case TList(e) =>
      var entry := vec.entries[i];
      if !entry.valid then NullCell
      else Items(seq(entry.length, j requires 0 <= j < entry.length => Read(vec.child, e, entry.offset + j)))
    case _ => vec.cells[i]
  }

  /** `after` still reads like `before` wherever `before` had rows. */
  ghost predicate Extends(before: Vector, after: Vector, ty: LType)
    requires WellTyped(before, ty) && WellTyped(after, ty)
  {
    Size(before) <= Size(after) && forall i :: 0 <= i < Size(before) ==> Read(after, ty, i) == Read(before, ty, i)
  }

  /** Appends one cell per value; on lists all elements of the batch go to the child
      vector in one recursive call, and reading back gives exactly `Fill`. */
  method FillVector(t: Temporal, vals: seq<Option<Json>>, ty: LType, result: Vector) returns (r: Vector)
    requires WellTyped(result, ty)
    ensures WellTyped(r, ty) && Size(r) == Size(result) + |vals|
    ensures Extends(result, r, ty)
    ensures forall i :: 0 <= i < |vals| ==> Read(r, ty, Size(result) + i) == Fill(t, vals[i], ty)
    decreases ty
  {
    if ty.TList? {
      var childOffset := Size(result.child);
      var childVals: seq<Option<Json>> := [];
      var entries := result.entries;
      for i := 0 to |vals|
        invariant |entries| == |result.entries| + i
        invariant entries[..|result.entries|] == result.entries
        invariant forall k :: 0 <= k < i ==>
          EntryFor(entries[|result.entries| + k], vals[k], childOffset, childVals)
      {
        var prior := childVals;
        if vals[i].None? || !vals[i].value.Arr? {
          entries := entries + [Entry(false, childOffset + |childVals|, 0)];
        } else {
          var elems := vals[i].value.elems;
          entries := entries + [Entry(true, childOffset + |childVals|, |elems|)];
          childVals := childVals + seq(|elems|, j requires 0 <= j < |elems| => Some(elems[j]));
        }
        forall k | 0 <= k < i
          ensures EntryFor(entries[|result.entries| + k], vals[k], childOffset, childVals)
        {
          EntryForGrows(entries[|result.entries| + k], vals[k], childOffset, prior, childVals);
        }
      }
      var child := FillVector(t, childVals, ty.elem, result.child);
      r := Lists(entries, child);
      ListReadsBack(t, vals, ty.elem, result, childVals, r);
    } else {
      var cells := result.cells;
      for i := 0 to |vals|
        invariant |cells| == |result.cells| + i
        invariant cells[..|result.cells|] == result.cells
        invariant forall k :: 0 <= k < i ==> cells[|result.cells| + k] == Fill(t, vals[k], ty)
      {
        cells := cells + [Fill(t, vals[i], ty)];
      }
      r := Flat(cells);
      assert forall i :: 0 <= i < |result.cells| ==> cells[i] == cells[..|result.cells|][i];
    }
  }

  /** The list entry written for one value: its elements sit at the entry's slice. */
  ghost predicate EntryFor(entry: Entry, val: Option<Json>, childOffset: nat, childVals: seq<Option<Json>>) {
    && childOffset <= entry.offset
    && entry.offset + entry.length <= childOffset + |childVals|
    && entry.valid == (val.Some? && val.value.Arr?)
    && (entry.valid ==>
          && entry.length == |val.value.elems|
          && forall j :: 0 <= j < entry.length ==> childVals[entry.offset - childOffset + j] == Some(val.value.elems[j]))
  }

  lemma EntryForGrows(entry: Entry, val: Option<Json>, childOffset: nat, prior: seq<Option<Json>>, grown: seq<Option<Json>>)
    requires EntryFor(entry, val, childOffset, prior) && prior <= grown
    ensures EntryFor(entry, val, childOffset, grown)
  {
  }

  lemma ListReadsBack(t: Temporal, vals: seq<Option<Json>>, e: LType, result: Vector, childVals: seq<Option<Json>>, r: Vector)
    requires result.Lists? && r.Lists? && WellTyped(result, TList(e)) && WellTyped(r.child, e)
    requires |r.entries| == |result.entries| + |vals| && r.entries[..|result.entries|] == result.entries
    requires Size(r.child) == Size(result.child) + |childVals| && Extends(result.child, r.child, e)
    requires forall j :: 0 <= j < |childVals| ==> Read(r.child, e, Size(result.child) + j) == Fill(t, childVals[j], e)
    requires forall k :: 0 <= k < |vals| ==>
      EntryFor(r.entries[|result.entries| + k], vals[k], Size(result.child), childVals)
    ensures WellTyped(r, TList(e)) && Extends(result, r, TList(e))
    ensures forall i :: 0 <= i < |vals| ==> Read(r, TList(e), Size(result) + i) == Fill(t, vals[i], TList(e))
  {
    var n := |result.entries|;
    assert forall i :: 0 <= i < n ==> r.entries[i] == result.entries[i] by {
      assert forall i :: 0 <= i < n ==> r.entries[i] == r.entries[..n][i];
    }
    forall i | 0 <= i < |r.entries|
      ensures r.entries[i].offset + r.entries[i].length <= Size(r.child)
    {
      if i >= n { assert EntryFor(r.entries[n + (i - n)], vals[i - n], Size(result.child), childVals); }
    }
    forall i | 0 <= i < n ensures Read(r, TList(e), i) == Read(result, TList(e), i) {
      assert result.entries[i] == r.entries[i];
    }
    forall i | 0 <= i < |vals| ensures Read(r, TList(e), n + i) == Fill(t, vals[i], TList(e)) {
      var entry := r.entries[n + i];
      var base := Size(result.child);
      assert EntryFor(entry, vals[i], base, childVals);
      if entry.valid {
        forall j | 0 <= j < entry.length
          ensures Read(r.child, e, entry.offset + j) == Fill(t, Some(vals[i].value.elems[j]), e)
        {
          var c := entry.offset - base + j;
          assert childVals[c] == Some(vals[i].value.elems[j]);
          assert Read(r.child, e, base + c) == Fill(t, childVals[c], e);
        }
      }
    }
  }
}
