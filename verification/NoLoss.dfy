/** Nothing is dropped: every scalar of every row is still held by some stored cell. */
module NoLoss {
  import opened Json
  import opened Inference
  import opened ColumnTypes
  import opened Filling
  import opened Flatten
  import opened Extract

  // ---------------------------------------------------------------------------
  // A tree that has absorbed a value covers each part of it
  // ---------------------------------------------------------------------------

  lemma {:induction false} FieldShape(t: Temporal, v: Json, count: nat, depth: nat, i: nat)
    requires v.Obj? && UniqueKeys(v.fields) && i < count <= |v.fields|
    ensures v.fields[i].key in ShapeOfFields(t, v, count, depth)
    ensures ShapeOfFields(t, v, count, depth)[v.fields[i].key] == ShapeOf(t, v.fields[i].value, depth + 1)
    decreases count
  {
    if i < count - 1 {
      FieldShape(t, v, count - 1, depth, i);
    } else {
      LaterKeyAbsent(t, v, count - 1, depth, i);
    }
  }

  lemma {:induction false} LaterKeyAbsent(t: Temporal, v: Json, count: nat, depth: nat, i: nat)
    requires v.Obj? && UniqueKeys(v.fields) && count <= i < |v.fields|
    ensures v.fields[i].key !in ShapeOfFields(t, v, count, depth)
    decreases count
  {
    if count > 0 { LaterKeyAbsent(t, v, count - 1, depth, i); }
  }

  lemma {:induction false} ElementBelow(t: Temporal, v: Json, count: nat, depth: nat, i: nat)
    requires v.Arr? && i < count <= |v.elems|
    ensures Below(ShapeOf(t, v.elems[i], depth + 1), ShapeOfElements(t, v, count, depth))
    decreases count
  {
    var before := ShapeOfElements(t, v, count - 1, depth);
    var last := ShapeOf(t, v.elems[count - 1], depth + 1);
    BelowJoin(before, last);
    if i < count - 1 {
      ElementBelow(t, v, count - 1, depth, i);
      BelowTransitive(ShapeOf(t, v.elems[i], depth + 1), before, Join(before, last));
    }
  }

  /** The node has absorbed `v` met at this depth. */
  ghost predicate Covers(t: Temporal, n: Node, v: Json, depth: nat) {
    WellFormed(n) && DeepUnique(v) && Below(ShapeOf(t, v, depth), Forget(n))
  }

  lemma CoversField(t: Temporal, n: Node, v: Json, depth: nat, key: string)
    requires Covers(t, n, v, depth) && n.Object? && v.Obj? && depth <= MAX_NESTING
    requires Get(v.fields, key).Some?
    ensures Find(n.children, key).Some?
    ensures Covers(t, n.children[Find(n.children, key).value].node, Get(v.fields, key).value, depth + 1)
  {
    var w := Get(v.fields, key).value;
    var i :| 0 <= i < |v.fields| && v.fields[i] == Field(key, w);
    FieldShape(t, v, |v.fields|, depth, i);
    var f, g := ShapeOfFields(t, v, |v.fields|, depth), Forget(n).fields;
    assert key in f;
    assert Join(Record(g), Record(f)).fields == g;
    assert key in g.Keys + f.Keys;
    assert key in g && Join(g[key], f[key]) == g[key];
    assert key in ChildNames(n.children);
    var j :| 0 <= j < |n.children| && n.children[j].name == key;
    FindUnique(n.children, j);
    ForgetLookup(n.children, j);
  }

  lemma CoversElement(t: Temporal, n: Node, v: Json, depth: nat, i: nat)
    requires Covers(t, n, v, depth) && n.Array? && v.Arr? && depth <= MAX_NESTING && i < |v.elems|
    ensures Covers(t, n.element, v.elems[i], depth + 1)
  {
    ElementBelow(t, v, |v.elems|, depth, i);
    BelowTransitive(ShapeOf(t, v.elems[i], depth + 1), ShapeOfElements(t, v, |v.elems|, depth), Forget(n.element));
  }

  // ---------------------------------------------------------------------------
  // A covered value fills the node's own column type without loss
  // ---------------------------------------------------------------------------

  lemma {:induction false} InferredTypeIsLossless(t: Temporal, n: Node, v: Json, depth: nat)
    requires t.Valid() && Covers(t, n, v, depth)
    ensures Lossless(t, v, NodeToType(n))
    decreases v
  {
    forall pos: seq<Hop>, leaf | At(v, pos) == Some(leaf) && IsScalar(leaf)
      ensures Holds(Fill(t, Some(v), NodeToType(n)), pos, leaf)
    {
      match n
      case Object(_) =>
      case JsonNode =>
      case Unset =>
      case Scalar(k) => ScalarFillHolds(t, k, v, depth, pos, leaf);
      case Array(e) =>
        if NodeToType(n).TList? {
          var i := pos[0].index;
          assert NodeToType(n) == TList(NodeToType(e));
          CoversElement(t, n, v, depth, i);
          InferredTypeIsLossless(t, e, v.elems[i], depth + 1);
          assert At(v.elems[i], pos[1..]) == Some(leaf);
        }
    }
  }

  lemma ScalarFillHolds(t: Temporal, k: Kind, v: Json, depth: nat, pos: seq<Hop>, leaf: Json)
    requires t.Valid() && Below(ShapeOf(t, v, depth), Plain(k))
    requires At(v, pos) == Some(leaf) && IsScalar(leaf)
    ensures Holds(Fill(t, Some(v), KindToType(k)), pos, leaf)
  {
    assert IsScalar(v) && pos == [] && leaf == v;
    assert JoinKinds(k, SniffScalar(t, v)) == k;
  }

  // ---------------------------------------------------------------------------
  // Each scalar lies under a column
  // ---------------------------------------------------------------------------

  lemma PrefixGrows(key: string, rest: seq<string>, pos: seq<Hop>, path: seq<string>)
    requires pos != [] && pos[0] == Key(key) && |rest| < |pos| && pos[1..][..|rest|] == KeyHops(rest)
    requires path == [key] + rest
    ensures |path| <= |pos| && pos[..|path|] == KeyHops(path)
    ensures pos[|path|..] == pos[1..][|rest|..]
  {
    forall i | 0 <= i <= |rest| ensures pos[i] == Key(path[i]) {
      if i > 0 { assert pos[1..][..|rest|][i - 1] == KeyHops(rest)[i - 1]; }
    }
  }

  /** A scalar below an opened object lies below one of its children. */
  lemma FirstHop(t: Temporal, n: Node, v: Json, depth: nat, pos: seq<Hop>, leaf: Json)
    requires Covers(t, n, v, depth) && n.Object? && depth <= MAX_FLATTEN_DEPTH
    requires At(v, pos) == Some(leaf) && IsScalar(leaf)
    ensures v.Obj? && pos != [] && pos[0].Key?
    ensures Get(v.fields, pos[0].key).Some? && Find(n.children, pos[0].key).Some?
    ensures At(Get(v.fields, pos[0].key).value, pos[1..]) == Some(leaf)
    ensures Covers(t, n.children[Find(n.children, pos[0].key).value].node, Get(v.fields, pos[0].key).value, depth + 1)
  {
    assert v.Obj? && pos != [] && pos[0].Key?;
    CoversField(t, n, v, depth, pos[0].key);
  }

  /** `node` is the leaf of the tree at `path`, `w` the row's value there, and the rest of
      `pos` leads from `w` to the scalar. */
  ghost predicate LeafFor(t: Temporal, n: Node, v: Json, depth: nat, pos: seq<Hop>, leaf: Json,
                          path: seq<string>, node: Node, w: Json) {
    && LeafAt(n, path, depth) == Some(node)
    && |path| <= |pos| && pos[..|path|] == KeyHops(path)
    && PathLookup(v, path) == Some(w)
    && Covers(t, node, w, depth + |path|)
    && At(w, pos[|path|..]) == Some(leaf)
  }

  /** Walks from an opened object to the leaf above `pos`. */
  lemma {:induction false} LeafAbove(t: Temporal, n: Node, v: Json, depth: nat, pos: seq<Hop>, leaf: Json)
    returns (path: seq<string>, node: Node, w: Json)
    requires Covers(t, n, v, depth) && n.Object? && depth <= MAX_FLATTEN_DEPTH
    requires At(v, pos) == Some(leaf) && IsScalar(leaf)
    ensures LeafFor(t, n, v, depth, pos, leaf, path, node, w)
    decreases |pos|
  {
    hide LeafFor, Covers, At;
    FirstHop(t, n, v, depth, pos, leaf);
    var key := pos[0].key;
    var child := Get(v.fields, key).value;
    var c := n.children[Find(n.children, key).value].node;
    if Opens(c, depth) {
      var rest;
      rest, node, w := LeafAbove(t, c, child, depth + 1, pos[1..], leaf);
      path := [key] + rest;
      LeafDeeper(t, n, v, depth, pos, leaf, rest, node, w);
    } else {
      path, node, w := [key] + [], c, child;
      LeafHere(t, n, v, depth, pos, leaf);
    }
  }

  lemma LeafDeeper(t: Temporal, n: Node, v: Json, depth: nat, pos: seq<Hop>, leaf: Json,
                   rest: seq<string>, node: Node, w: Json)
    requires n.Object? && v.Obj? && pos != [] && pos[0].Key?
    requires Get(v.fields, pos[0].key).Some? && Find(n.children, pos[0].key).Some?
    requires
      var c := n.children[Find(n.children, pos[0].key).value].node;
      Opens(c, depth) && LeafFor(t, c, Get(v.fields, pos[0].key).value, depth + 1, pos[1..], leaf, rest, node, w)
    ensures LeafFor(t, n, v, depth, pos, leaf, [pos[0].key] + rest, node, w)
  {
    hide Covers, At;
    OneHopUp(n, v, pos[0].key, rest, depth);
    Assemble(t, pos[0].key, rest, [pos[0].key] + rest, pos, node, w, depth, leaf);
  }

  lemma LeafHere(t: Temporal, n: Node, v: Json, depth: nat, pos: seq<Hop>, leaf: Json)
    requires n.Object? && v.Obj? && pos != [] && pos[0].Key?
    requires Get(v.fields, pos[0].key).Some? && Find(n.children, pos[0].key).Some?
    requires
      var c, w := n.children[Find(n.children, pos[0].key).value].node, Get(v.fields, pos[0].key).value;
      !Opens(c, depth) && Covers(t, c, w, depth + 1) && At(w, pos[1..]) == Some(leaf)
    ensures
      var c, w := n.children[Find(n.children, pos[0].key).value].node, Get(v.fields, pos[0].key).value;
      LeafFor(t, n, v, depth, pos, leaf, [pos[0].key] + [], c, w)
  {
    var c, w := n.children[Find(n.children, pos[0].key).value].node, Get(v.fields, pos[0].key).value;
    OneHop(n, v, pos[0].key, depth);
    assert pos[1..][0..] == pos[1..];
    Assemble(t, pos[0].key, [], [pos[0].key] + [], pos, c, w, depth, leaf);
  }

  lemma Assemble(t: Temporal, key: string, rest: seq<string>, path: seq<string>, pos: seq<Hop>, node: Node, w: Json,
                 depth: nat, leaf: Json)
    requires pos != [] && pos[0] == Key(key) && |rest| < |pos| && pos[1..][..|rest|] == KeyHops(rest)
    requires path == [key] + rest
    requires Covers(t, node, w, depth + 1 + |rest|) && At(w, pos[1..][|rest|..]) == Some(leaf)
    ensures |path| <= |pos| && pos[..|path|] == KeyHops(path)
    ensures Covers(t, node, w, depth + |path|) && At(w, pos[|path|..]) == Some(leaf)
  {
    hide Covers, At;
    PrefixGrows(key, rest, pos, path);
  }

  lemma OneHopUp(n: Node, v: Json, key: string, rest: seq<string>, depth: nat)
    requires n.Object? && v.Obj? && Get(v.fields, key).Some? && Find(n.children, key).Some?
    requires Opens(n.children[Find(n.children, key).value].node, depth)
    requires LeafAt(n.children[Find(n.children, key).value].node, rest, depth + 1).Some?
    ensures LeafAt(n, [key] + rest, depth) == LeafAt(n.children[Find(n.children, key).value].node, rest, depth + 1)
    ensures PathLookup(v, [key] + rest) == PathLookup(Get(v.fields, key).value, rest)
  {
    assert ([key] + rest)[1..] == rest;
  }

  lemma OneHop(n: Node, v: Json, key: string, depth: nat)
    requires n.Object? && v.Obj? && Get(v.fields, key).Some? && Find(n.children, key).Some?
    requires !Opens(n.children[Find(n.children, key).value].node, depth)
    ensures LeafAt(n, [key] + [], depth) == Some(n.children[Find(n.children, key).value].node)
    ensures PathLookup(v, [key] + []) == Get(v.fields, key)
  {
    assert ([key] + [])[1..] == [];
  }

  /** Column `c` stores the scalar found at `pos` of the row. */
  ghost predicate StoredIn(t: Temporal, col: Column, row: Json, pos: seq<Hop>, leaf: Json) {
    && KeyHops(col.path) <= pos
    && Holds(Fill(t, PathLookup(row, col.path), col.ty), pos[|col.path|..], leaf)
  }

  lemma {:induction false} RowsCovered(t: Temporal, rows: seq<Json>, i: nat)
    requires i < |rows| && DeepUnique(rows[i])
    ensures Covers(t, Infer(t, rows), rows[i], 0)
  {
    InferIsJoin(t, rows);
    RowBelowAll(t, rows, i);
  }

  /** The column above a scalar, and the value routed to it. */
  lemma ColumnAbove(t: Temporal, root: Node, row: Json, cols: seq<Column>, pos: seq<Hop>, leaf: Json)
    returns (c: nat, w: Json)
    requires t.Valid() && Covers(t, root, row, 0)
    requires root.Object? && WellFlattened(root, cols)
    requires At(row, pos) == Some(leaf) && IsScalar(leaf)
    ensures c < |cols| && KeyHops(cols[c].path) <= pos
    ensures PathLookup(row, cols[c].path) == Some(w)
    ensures Lossless(t, w, cols[c].ty) && At(w, pos[|cols[c].path|..]) == Some(leaf)
  {
    var path, node;
    path, node, w := LeafAbove(t, root, row, 0, pos, leaf);
    InferredTypeIsLossless(t, node, w, |path|);
    c := ColumnOn(root, cols, path, node);
  }

  lemma ColumnOn(root: Node, cols: seq<Column>, path: seq<string>, node: Node) returns (c: nat)
    requires WellFlattened(root, cols) && LeafAt(root, path, 0) == Some(node)
    ensures c < |cols| && cols[c].path == path && cols[c].ty == NodeToType(node)
  {
    var k :| 0 <= k < |cols| && cols[k].path == path;
    c := k;
  }

  /** Rows that are objects: whatever the columns were renamed to, each scalar of each
      row, at any depth, is held by a cell of one of them. */
  lemma NothingDropped(t: Temporal, rows: seq<Json>, cols: seq<Column>, i: nat, pos: seq<Hop>, leaf: Json)
    requires t.Valid() && i < |rows| && DeepUnique(rows[i])
    requires Infer(t, rows).Object? && WellFlattened(Infer(t, rows), cols)
    requires At(rows[i], pos) == Some(leaf) && IsScalar(leaf)
    ensures exists c :: 0 <= c < |cols| && StoredIn(t, cols[c], rows[i], pos, leaf)
  {
    RowsCovered(t, rows, i);
    var c, w := ColumnAbove(t, Infer(t, rows), rows[i], cols, pos, leaf);
    assert StoredIn(t, cols[c], rows[i], pos, leaf);
  }

  /** Rows that are not objects: the lone `value` column holds every scalar. */
  lemma NothingDroppedFromValueRows(t: Temporal, rows: seq<Json>, i: nat, pos: seq<Hop>, leaf: Json)
    requires t.Valid() && i < |rows| && DeepUnique(rows[i])
    requires At(rows[i], pos) == Some(leaf) && IsScalar(leaf)
    ensures
      var root := Infer(t, rows);
      !root.Unset? && StoredIn(t, Column("value", [], NodeToType(root), root), rows[i], pos, leaf)
  {
    RowsCovered(t, rows, i);
    InferredTypeIsLossless(t, Infer(t, rows), rows[i], 0);
    assert pos[0..] == pos;
  }

  /** Storing into a table column that had to be widened loses nothing either, when the
      column the scalar belongs to is one the writer fills. */
  lemma NothingDroppedAfterWidening(
      t: Temporal, rows: seq<Json>, cols: seq<Column>, i: nat, pos: seq<Hop>, leaf: Json, table: seq<LType>)
    requires t.Valid() && i < |rows| && DeepUnique(rows[i])
    requires Infer(t, rows).Object? && WellFlattened(Infer(t, rows), cols)
    requires At(rows[i], pos) == Some(leaf) && IsScalar(leaf)
    requires |table| == |cols|
    requires forall c :: 0 <= c < |cols| && KeyHops(cols[c].path) <= pos ==> FillSupported(Widen(table[c], cols[c].ty))
    ensures exists c ::
      0 <= c < |cols| && StoredIn(t, cols[c].(ty := Widen(table[c], cols[c].ty)), rows[i], pos, leaf)
  {
    RowsCovered(t, rows, i);
    var c, w := ColumnAbove(t, Infer(t, rows), rows[i], cols, pos, leaf);
    WideningIsLossless(t, w, table[c], cols[c].ty);
    assert StoredIn(t, cols[c].(ty := Widen(table[c], cols[c].ty)), rows[i], pos, leaf);
  }

  /** Merging keeps the first payload's tree: a donor row loses nothing as long as that
      tree has absorbed the row's shape too (in particular for equal inferred shapes). */
  lemma MergedRowsKept(t: Temporal, into: Parsed, from: Parsed, i: nat, pos: seq<Hop>, leaf: Json)
    requires t.Valid() && i < |from.rows| && DeepUnique(from.rows[i])
    requires WellFormed(into.root) && into.root.Object? && WellFlattened(into.root, into.columns)
    requires from.root == Infer(t, from.rows) && Below(Forget(from.root), Forget(into.root))
    requires At(from.rows[i], pos) == Some(leaf) && IsScalar(leaf)
    ensures
      var merged := MergeParsed(into, from);
      exists c :: 0 <= c < |merged.columns|
        && StoredIn(t, merged.columns[c], merged.rows[|into.rows| + i], pos, leaf)
  {
    RowsCovered(t, from.rows, i);
    BelowTransitive(ShapeOf(t, from.rows[i], 0), Forget(from.root), Forget(into.root));
    var c, w := ColumnAbove(t, into.root, from.rows[i], into.columns, pos, leaf);
    var merged := MergeParsed(into, from);
    assert merged.rows[|into.rows| + i] == from.rows[i];
    assert StoredIn(t, merged.columns[c], merged.rows[|into.rows| + i], pos, leaf);
  }
}
