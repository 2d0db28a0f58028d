/** What a merge of payloads keeps. Merged rows are routed through the first payload's tree
    and columns, whatever their own payload had inferred. */
module MergeLoss {
  import opened Json
  import opened Inference
  import opened ColumnTypes
  import opened Filling
  import opened Fits
  import opened Flatten
  import opened Extract
  import opened NoLoss

  // ---------------------------------------------------------------------------
  // What a tree keeps of a row
  // ---------------------------------------------------------------------------

  /** Storage types by column path: the first payload's own, or those of the table. */
  type TypeOf = seq<string> -> LType

  /** Whether the columns below the opened object `n`, met at `path`, keep every scalar of
      `v`: known keys recurse, unknown ones must have nothing to lose. */
  predicate Keeps(t: Temporal, types: TypeOf, n: Node, v: Json, path: seq<string>, depth: nat)
    decreases v, 1
  {
    if !v.Obj? || !n.Object? then NoScalars(v)
    else forall i :: 0 <= i < |v.fields| ==> FieldKept(t, types, n, v, path, depth, i)
  }

  predicate FieldKept(t: Temporal, types: TypeOf, n: Node, v: Json, path: seq<string>, depth: nat, i: nat)
    requires n.Object? && v.Obj? && i < |v.fields|
    decreases v, 0
  {
    var f := v.fields[i];
    match Find(n.children, f.key)
    case None => NoScalars(f.value)
    case Some(c) =>
      var child, inner := n.children[c].node, path + [f.key];
      if Opens(child, depth) then Keeps(t, types, child, f.value, inner, depth + 1)
      else FitsType(t, f.value, types(inner))
  }

  /** Some leaf below `n` holds the scalar at `pos` of `v`. */
  ghost predicate HeldBelow(t: Temporal, types: TypeOf, n: Node, v: Json, path: seq<string>, depth: nat, pos: seq<Hop>, leaf: Json) {
    exists p: seq<string> :: HeldAt(t, types, n, v, path, depth, pos, leaf, p)
  }

  ghost predicate HeldAt(t: Temporal, types: TypeOf, n: Node, v: Json, path: seq<string>, depth: nat, pos: seq<Hop>, leaf: Json,
                         p: seq<string>) {
    LeafAt(n, p, depth).Some? && KeyHops(p) <= pos && Holds(Fill(t, PathLookup(v, p), types(path + p)), pos[|p|..], leaf)
  }

  lemma HeldUp(t: Temporal, types: TypeOf, n: Node, v: Json, path: seq<string>, depth: nat, k: string, rest: seq<Hop>, leaf: Json)
    requires n.Object? && v.Obj? && Get(v.fields, k).Some? && Find(n.children, k).Some?
    requires
      var c := n.children[Find(n.children, k).value].node;
      if Opens(c, depth) then HeldBelow(t, types, c, Get(v.fields, k).value, path + [k], depth + 1, rest, leaf)
      else Holds(Fill(t, Get(v.fields, k), types(path + [k])), rest, leaf)
    ensures HeldBelow(t, types, n, v, path, depth, [Key(k)] + rest, leaf)
  {
    var c, w := n.children[Find(n.children, k).value].node, Get(v.fields, k).value;
    if Opens(c, depth) {
      var p: seq<string> :| HeldAt(t, types, c, w, path + [k], depth + 1, rest, leaf, p);
      OneHopUp(n, v, k, p, depth);
      HeldShift(t, types, n, v, path, depth, k, rest, leaf, p);
    } else {
      OneHop(n, v, k, depth);
      assert path + [k] == (path + [k]) + [] && rest[0..] == rest;
      HeldShift(t, types, n, v, path, depth, k, rest, leaf, []);
    }
  }

  lemma HeldShift(t: Temporal, types: TypeOf, n: Node, v: Json, path: seq<string>, depth: nat, k: string, rest: seq<Hop>, leaf: Json,
                  p: seq<string>)
    requires LeafAt(n, [k] + p, depth).Some? && KeyHops(p) <= rest
    requires Holds(Fill(t, PathLookup(v, [k] + p), types((path + [k]) + p)), rest[|p|..], leaf)
    ensures HeldAt(t, types, n, v, path, depth, [Key(k)] + rest, leaf, [k] + p)
  {
    hide Holds, Fill, PathLookup, LeafAt;
    var q := [k] + p;
    assert KeyHops(q) == [Key(k)] + KeyHops(p);
    assert ([Key(k)] + rest)[|q|..] == rest[|p|..];
    assert path + q == (path + [k]) + p;
  }

  lemma HeldDown(t: Temporal, types: TypeOf, n: Node, v: Json, path: seq<string>, depth: nat, k: string, rest: seq<Hop>, leaf: Json)
    requires n.Object? && v.Obj? && Get(v.fields, k).Some?
    requires HeldBelow(t, types, n, v, path, depth, [Key(k)] + rest, leaf)
    ensures Find(n.children, k).Some?
    ensures
      var c := n.children[Find(n.children, k).value].node;
      if Opens(c, depth) then HeldBelow(t, types, c, Get(v.fields, k).value, path + [k], depth + 1, rest, leaf)
      else Holds(Fill(t, Get(v.fields, k), types(path + [k])), rest, leaf)
  {
    var pos := [Key(k)] + rest;
    var q: seq<string> :| HeldAt(t, types, n, v, path, depth, pos, leaf, q);
    assert q != [] && KeyHops(q)[0] == pos[0] && q[0] == k;
    var p := q[1..];
    assert q == [k] + p && path + q == (path + [k]) + p;
    assert pos[|q|..] == rest[|p|..];
    var c, w := n.children[Find(n.children, k).value].node, Get(v.fields, k).value;
    if Opens(c, depth) {
      assert KeyHops(p) == KeyHops(q)[1..] && pos[1..] == rest;
      OneHopUp(n, v, k, p, depth);
      assert HeldAt(t, types, c, w, path + [k], depth + 1, rest, leaf, p);
    } else {
      assert p == [] && rest[0..] == rest && path + q == path + [k];
      OneHop(n, v, k, depth);
      assert [k] + [] == q;
    }
  }

  /** No column lies on the way to a scalar that is not reached through an object. */
  lemma NotBelowColumns(t: Temporal, types: TypeOf, n: Node, v: Json, path: seq<string>, depth: nat, pos: seq<Hop>, leaf: Json)
    requires !v.Obj? && ScalarAt(v, pos, leaf)
    ensures !HeldBelow(t, types, n, v, path, depth, pos, leaf)
  {
    if HeldBelow(t, types, n, v, path, depth, pos, leaf) { StartsWithKey(t, types, n, v, path, depth, pos, leaf); }
  }

  lemma StartsWithKey(t: Temporal, types: TypeOf, n: Node, v: Json, path: seq<string>, depth: nat, pos: seq<Hop>, leaf: Json)
    requires HeldBelow(t, types, n, v, path, depth, pos, leaf)
    ensures pos != [] && pos[0].Key?
  {
    var p: seq<string> :| HeldAt(t, types, n, v, path, depth, pos, leaf, p);
    assert p != [] && pos[0] == KeyHops(p)[0];
  }

  lemma {:induction false} KeptIsHeld(t: Temporal, types: TypeOf, n: Node, v: Json, path: seq<string>, depth: nat, pos: seq<Hop>, leaf: Json)
    requires n.Object? && Keeps(t, types, n, v, path, depth) && ScalarAt(v, pos, leaf)
    ensures HeldBelow(t, types, n, v, path, depth, pos, leaf)
    decreases v
  {
    if !v.Obj? {
      NoScalarsMeans(v, pos, leaf);
    } else {
      var k, rest := pos[0].key, pos[1..];
      var w := Get(v.fields, k).value;
      var i :| 0 <= i < |v.fields| && v.fields[i] == Field(k, w);
      assert pos == [Key(k)] + rest && ScalarAt(w, rest, leaf);
      assert FieldKept(t, types, n, v, path, depth, i);
      match Find(n.children, k)
      case None => NoScalarsMeans(w, rest, leaf);
      case Some(c) =>
        var child := n.children[c].node;
        if Opens(child, depth) {
          KeptIsHeld(t, types, child, w, path + [k], depth + 1, rest, leaf);
        } else {
          FitIsHeld(t, w, types(path + [k]), rest, leaf);
        }
        HeldUp(t, types, n, v, path, depth, k, rest, leaf);
    }
  }

  lemma {:induction false} LostBelow(t: Temporal, types: TypeOf, n: Node, v: Json, path: seq<string>, depth: nat)
    returns (pos: seq<Hop>, leaf: Json)
    requires n.Object? && DeepUnique(v) && !Keeps(t, types, n, v, path, depth)
    ensures ScalarAt(v, pos, leaf) && !HeldBelow(t, types, n, v, path, depth, pos, leaf)
    decreases v
  {
    if !v.Obj? {
      pos, leaf := SomeScalar(v);
      NotBelowColumns(t, types, n, v, path, depth, pos, leaf);
    } else {
      var i :| 0 <= i < |v.fields| && !FieldKept(t, types, n, v, path, depth, i);
      var k, w := v.fields[i].key, v.fields[i].value;
      var rest;
      match Find(n.children, k) {
        case None => rest, leaf := SomeScalar(w);
        case Some(c) =>
          var child := n.children[c].node;
          if Opens(child, depth) {
            rest, leaf := LostBelow(t, types, child, w, path + [k], depth + 1);
          } else {
            rest, leaf := MisfitLoses(t, w, types(path + [k]));
          }
      }
      FieldHop(v, i);
      GetUnique(v.fields, i);
      HopDown(v, Key(k), w, rest, leaf);
      pos := [Key(k)] + rest;
      if HeldBelow(t, types, n, v, path, depth, pos, leaf) { HeldDown(t, types, n, v, path, depth, k, rest, leaf); }
    }
  }

  // ---------------------------------------------------------------------------
  // Merged rows
  // ---------------------------------------------------------------------------

  /** The columns a flattened payload can have: one per leaf, the lone row column, or none. */
  ghost predicate FlattenedFrom(root: Node, cols: seq<Column>) {
    || (root.Object? && WellFlattened(root, cols))
    || (|cols| == 1 && cols[0].path == [])
    || (cols == [] && !root.Object?)
  }

  /** What the caller of a merge can check of a donor row beforehand. */
  ghost predicate RowKept(t: Temporal, types: TypeOf, root: Node, cols: seq<Column>, row: Json) {
    if |cols| == 1 && cols[0].path == [] then FitsType(t, row, types([]))
    else if root.Object? then Keeps(t, types, root, row, [], 0)
    else NoScalars(row)
  }

  /** Every scalar of row `i` is held by a cell of some column, stored at its type. */
  ghost predicate AllStored(t: Temporal, types: TypeOf, p: Parsed, i: nat)
    requires i < |p.rows|
  {
    forall pos, leaf :: ScalarAt(p.rows[i], pos, leaf) ==> SomeColumn(t, types, p.columns, p.rows[i], pos, leaf)
  }

  ghost predicate SomeColumn(t: Temporal, types: TypeOf, cols: seq<Column>, row: Json, pos: seq<Hop>, leaf: Json) {
    exists c :: 0 <= c < |cols| && StoredIn(t, cols[c].(ty := types(cols[c].path)), row, pos, leaf)
  }

  lemma ColumnHolds(t: Temporal, types: TypeOf, root: Node, cols: seq<Column>, row: Json, pos: seq<Hop>, leaf: Json, c: nat)
    requires root.Object? && WellFlattened(root, cols) && c < |cols|
    ensures StoredIn(t, cols[c].(ty := types(cols[c].path)), row, pos, leaf)
       <==> HeldAt(t, types, root, row, [], 0, pos, leaf, cols[c].path)
  {
    hide Holds, Fill, PathLookup, LeafAt;
    assert [] + cols[c].path == cols[c].path;
  }

  lemma ColumnsHold(t: Temporal, types: TypeOf, root: Node, cols: seq<Column>, row: Json, pos: seq<Hop>, leaf: Json)
    requires root.Object? && WellFlattened(root, cols)
    ensures SomeColumn(t, types, cols, row, pos, leaf) <==> HeldBelow(t, types, root, row, [], 0, pos, leaf)
  {
    if SomeColumn(t, types, cols, row, pos, leaf) {
      var c :| 0 <= c < |cols| && StoredIn(t, cols[c].(ty := types(cols[c].path)), row, pos, leaf);
      ColumnHolds(t, types, root, cols, row, pos, leaf, c);
    }
    if HeldBelow(t, types, root, row, [], 0, pos, leaf) {
      var p: seq<string> :| HeldAt(t, types, root, row, [], 0, pos, leaf, p);
      assert LeafAt(root, p, 0).Some?;
      hide HeldAt, StoredIn, LeafAt;
      var c :| 0 <= c < |cols| && cols[c].path == p;
      ColumnHolds(t, types, root, cols, row, pos, leaf, c);
    }
  }

  lemma ValueColumnHolds(t: Temporal, types: TypeOf, cols: seq<Column>, row: Json, pos: seq<Hop>, leaf: Json)
    requires |cols| == 1 && cols[0].path == []
    ensures SomeColumn(t, types, cols, row, pos, leaf) <==> Holds(Fill(t, Some(row), types([])), pos, leaf)
  {
    assert pos[0..] == pos && PathLookup(row, []) == Some(row);
    if Holds(Fill(t, Some(row), types([])), pos, leaf) {
      assert StoredIn(t, cols[0].(ty := types(cols[0].path)), row, pos, leaf);
    }
  }

  /** For every donor row, whatever its own payload inferred, and whatever types the columns
      are stored at: the merge keeps all its scalars if and only if the first payload's
      columns keep the row. */
  lemma MergedRowKeptIff(t: Temporal, types: TypeOf, into: Parsed, from: Parsed, i: nat)
    requires FlattenedFrom(into.root, into.columns) && i < |from.rows| && DeepUnique(from.rows[i])
    ensures |MergeParsed(into, from).rows| == |into.rows| + |from.rows|
    ensures AllStored(t, types, MergeParsed(into, from), |into.rows| + i)
       <==> RowKept(t, types, into.root, into.columns, from.rows[i])
  {
    var merged, row, cols := MergeParsed(into, from), from.rows[i], into.columns;
    assert merged.rows[|into.rows| + i] == row;
    if |cols| == 1 && cols[0].path == [] {
      LosslessIffFits(t, row, types([]));
      forall pos, leaf ensures SomeColumn(t, types, cols, row, pos, leaf) <==> Holds(Fill(t, Some(row), types([])), pos, leaf) {
        ValueColumnHolds(t, types, cols, row, pos, leaf);
      }
      if !FitsType(t, row, types([])) { var pos, leaf := MisfitLoses(t, row, types([])); }
    } else if into.root.Object? {
      KeepsIff(t, types, into.root, cols, row);
    } else if NoScalars(row) {
      forall pos, leaf ensures !ScalarAt(row, pos, leaf) {
        if At(row, pos) == Some(leaf) { NoScalarsMeans(row, pos, leaf); }
      }
    } else {
      var pos, leaf := SomeScalar(row);
      assert !SomeColumn(t, types, cols, row, pos, leaf);
    }
  }

  lemma KeepsIff(t: Temporal, types: TypeOf, root: Node, cols: seq<Column>, row: Json)
    requires root.Object? && WellFlattened(root, cols) && DeepUnique(row)
    ensures (forall pos, leaf :: ScalarAt(row, pos, leaf) ==> SomeColumn(t, types, cols, row, pos, leaf))
       <==> Keeps(t, types, root, row, [], 0)
  {
    if Keeps(t, types, root, row, [], 0) {
      forall pos, leaf | ScalarAt(row, pos, leaf) ensures SomeColumn(t, types, cols, row, pos, leaf) {
        KeptIsHeld(t, types, root, row, [], 0, pos, leaf);
        ColumnsHold(t, types, root, cols, row, pos, leaf);
      }
    } else {
      var pos, leaf := LostBelow(t, types, root, row, [], 0);
      ColumnsHold(t, types, root, cols, row, pos, leaf);
    }
  }

  /** The types a payload's columns have of their own. */
  ghost predicate OwnTypes(types: TypeOf, cols: seq<Column>) {
    forall c :: 0 <= c < |cols| ==> types(cols[c].path) == cols[c].ty
  }

  /** In particular a row keeps everything whose payload's shape the first payload's tree has
      absorbed, above all one of equal shape. */
  lemma AbsorbedRowsAreKept(t: Temporal, types: TypeOf, into: Parsed, from: Parsed, i: nat)
    requires t.Valid() && i < |from.rows| && DeepUnique(from.rows[i])
    requires WellFormed(into.root) && into.root.Object? && WellFlattened(into.root, into.columns)
    requires from.root == Infer(t, from.rows) && Below(Forget(from.root), Forget(into.root))
    requires OwnTypes(types, into.columns)
    ensures RowKept(t, types, into.root, into.columns, from.rows[i])
  {
    MergedRowKeptIff(t, types, into, from, i);
    var merged, k := MergeParsed(into, from), |into.rows| + i;
    assert merged.rows[k] == from.rows[i];
    forall pos, leaf | ScalarAt(merged.rows[k], pos, leaf)
      ensures SomeColumn(t, types, merged.columns, merged.rows[k], pos, leaf)
    {
      MergedRowsKept(t, into, from, i, pos, leaf);
      var c :| 0 <= c < |merged.columns| && StoredIn(t, merged.columns[c], merged.rows[k], pos, leaf);
      assert merged.columns[c].(ty := types(merged.columns[c].path)) == merged.columns[c];
    }
  }

  /** Equal column paths do not help: the second row's string does not fit the BIGINT column
      the first payload inferred, and becomes NULL. */
  lemma MergeLosesForeignValue()
    ensures
      var t := Temporal(_ => false, _ => false);
      var into := Parsed([Obj([Field("a", Int(1))])], Object([Child("a", Scalar(BIGINT))]),
                         [Column("a", ["a"], TBigInt, Scalar(BIGINT))]);
      var from := Parsed([Obj([Field("a", Str("x"))])], Object([Child("a", Scalar(VARCHAR))]),
                         [Column("a", ["a"], TVarchar, Scalar(VARCHAR))]);
      var slot := Extracted(into.columns, MergeParsed(into, from).rows)[0][1];
      && SamePaths(into.columns, from.columns)
      && slot == Some(Str("x"))
      && Fill(t, slot, TBigInt) == NullCell && Fill(t, slot, TVarchar) == Text(Str("x"))
  {
  }
}
