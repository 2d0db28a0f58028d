/** What appended rows keep of a payload: its scalars, through columns, widening and the
    writer, up to the cells of the table. */
module AppendLoss {
  import opened Json
  import opened Names
  import opened Inference
  import opened ColumnTypes
  import opened Filling
  import opened Fits
  import opened Flatten
  import opened Extract
  import opened NoLoss
  import opened MergeLoss
  import AppendPool

  /** The batch that the columns extract from the rows. */
  ghost predicate Routed(b: AppendPool.Batch, cols: seq<Column>, rows: seq<Json>) {
    && |b.cols| == |cols| && |b.rows| == |rows|
    && (forall c :: 0 <= c < |cols| ==> b.cols[c] == AppendPool.Col(Lower(cols[c].name), cols[c].ty))
    && (forall r :: 0 <= r < |rows| ==> |b.rows[r]| == |cols|)
    && (forall r, c {:trigger b.rows[r][c]} :: 0 <= r < |rows| && 0 <= c < |cols| ==>
          b.rows[r][c] == PathLookup(rows[r], cols[c].path))
  }

  /** The cell holds the scalar, or is the cast of one that does. */
  ghost predicate CellHolds(env: AppendPool.Env, cell: Cell, ty: LType, pos: seq<Hop>, leaf: Json) {
    if FillSupported(ty) then Holds(cell, pos, leaf)
    else exists c :: cell == env.cast(c, ty) && Holds(c, pos, leaf)
  }

  ghost predicate HeldIn(env: AppendPool.Env, table: seq<AppendPool.Col>, row: AppendPool.Row, col: Column, s: nat,
                         pos: seq<Hop>, leaf: Json) {
    && s < |table| == |row| && table[s].key == Lower(col.name)
    && KeyHops(col.path) <= pos && CellHolds(env, row[s], table[s].ty, pos[|col.path|..], leaf)
  }

  /** A cell of the appended row, in a column on the way to the scalar, holds it. */
  ghost predicate HeldByRow(env: AppendPool.Env, table: seq<AppendPool.Col>, row: AppendPool.Row, cols: seq<Column>,
                            pos: seq<Hop>, leaf: Json) {
    exists c, s: nat :: 0 <= c < |cols| && HeldIn(env, table, row, cols[c], s, pos, leaf)
  }

  lemma {:induction false} LookupDeepUnique(v: Json, path: seq<string>)
    requires DeepUnique(v) && PathLookup(v, path).Some?
    ensures DeepUnique(PathLookup(v, path).value)
    decreases |path|
  {
    if path != [] {
      var w := Get(v.fields, path[0]).value;
      var i :| 0 <= i < |v.fields| && v.fields[i] == Field(path[0], w);
      LookupDeepUnique(w, path[1..]);
    }
  }

  lemma {:induction false} InferredIsFilled(ty: LType)
    requires Inferred(ty)
    ensures FillSupported(ty)
    decreases ty
  {
    if ty.TList? { InferredIsFilled(ty.elem); }
  }

  /** The cell for a value that loses nothing at the payload's type, in a column that has
      absorbed that type. */
  lemma AbsorbedCellHolds(env: AppendPool.Env, cell: Cell, v: Json, from: LType, to: LType, pos: seq<Hop>, leaf: Json)
    requires env.t.Valid() && DeepUnique(v) && Inferred(from) && Absorbs(to, from)
    requires Lossless(env.t, v, from) && ScalarAt(v, pos, leaf)
    requires AppendPool.CellSays(env, cell, Some(v), from, to)
    ensures CellHolds(env, cell, to, pos, leaf)
  {
    if FillSupported(to) {
      WideningIsLossless(env.t, v, to, from);
      LosslessIffFits(env.t, v, to);
    } else {
      InferredIsFilled(from);
      LosslessIffFits(env.t, v, from);
      var c :| cell == env.cast(c, to) && Stores(env.t, c, Some(v), from);
      assert Holds(c, pos, leaf);
    }
  }

  /** From rows to cells: whatever the table had before, once its columns have absorbed the
      payload's, each scalar of each row is held by a cell of the appended row. */
  lemma NothingDroppedOnAppend(env: AppendPool.Env, rows: seq<Json>, cols: seq<Column>, b: AppendPool.Batch, r: nat,
                               table: seq<AppendPool.Col>, row: AppendPool.Row, pos: seq<Hop>, leaf: Json)
    requires env.t.Valid() && r < |rows| && DeepUnique(rows[r])
    requires Infer(env.t, rows).Object? && WellFlattened(Infer(env.t, rows), cols)
    requires Routed(b, cols, rows) && AppendPool.Covers(table, b) && AppendPool.RowSays(env, b, r, table, row)
    requires forall c, s :: 0 <= c < |cols| && 0 <= s < |table| && table[s].key == Lower(cols[c].name) ==>
               Absorbs(table[s].ty, cols[c].ty)
    requires ScalarAt(rows[r], pos, leaf)
    ensures HeldByRow(env, table, row, cols, pos, leaf)
  {
    RowsCovered(env.t, rows, r);
    var c, w := ColumnAbove(env.t, Infer(env.t, rows), rows[r], cols, pos, leaf);
    LookupDeepUnique(rows[r], cols[c].path);
    assert AppendPool.Has(table, b.cols[c].key);
    var s := AppendPool.IndexOf(table, b.cols[c].key).value;
    assert b.rows[r][c] == Some(w);
    assert AppendPool.CellSays(env, row[s], b.rows[r][c], b.cols[c].ty, table[s].ty);
    AbsorbedCellHolds(env, row[s], w, cols[c].ty, table[s].ty, pos[|cols[c].path|..], leaf);
    assert HeldIn(env, table, row, cols[c], s, pos, leaf);
  }

  /** The table stores each of the columns at the given type, which the writer fills. */
  ghost predicate StoredAs(types: TypeOf, cols: seq<Column>, table: seq<AppendPool.Col>) {
    && AppendPool.DistinctKeys(table)
    && forall c :: 0 <= c < |cols| ==>
         && FillSupported(types(cols[c].path))
         && AppendPool.Col(Lower(cols[c].name), types(cols[c].path)) in table
  }

  lemma AppendedIsStored(env: AppendPool.Env, types: TypeOf, rows: seq<Json>, cols: seq<Column>, b: AppendPool.Batch, r: nat,
                         table: seq<AppendPool.Col>, row: AppendPool.Row, c: nat, pos: seq<Hop>, leaf: Json)
    requires r < |rows| && c < |cols| && Routed(b, cols, rows) && StoredAs(types, cols, table)
    requires AppendPool.RowSays(env, b, r, table, row)
    ensures (exists s: nat :: HeldIn(env, table, row, cols[c], s, pos, leaf))
       <==> StoredIn(env.t, cols[c].(ty := types(cols[c].path)), rows[r], pos, leaf)
  {
    var ty := types(cols[c].path);
    var s :| 0 <= s < |table| && table[s] == AppendPool.Col(Lower(cols[c].name), ty);
    assert AppendPool.CellSays(env, row[s], b.rows[r][c], b.cols[c].ty, table[s].ty);
    StoresIsFill(env.t, row[s], b.rows[r][c], ty);
    if s': nat :| HeldIn(env, table, row, cols[c], s', pos, leaf) { assert s' == s; }
    if StoredIn(env.t, cols[c].(ty := ty), rows[r], pos, leaf) { assert HeldIn(env, table, row, cols[c], s, pos, leaf); }
  }

  /** A donor row of a merge, appended: all its scalars are held by cells of the table if and
      only if the first payload's columns keep the row. */
  lemma AppendedDonorKeptIff(env: AppendPool.Env, types: TypeOf, into: Parsed, from: Parsed, i: nat, b: AppendPool.Batch,
                             table: seq<AppendPool.Col>, row: AppendPool.Row)
    requires FlattenedFrom(into.root, into.columns) && i < |from.rows| && DeepUnique(from.rows[i])
    requires Routed(b, into.columns, MergeParsed(into, from).rows) && StoredAs(types, into.columns, table)
    requires |into.rows| + i < |b.rows| && AppendPool.RowSays(env, b, |into.rows| + i, table, row)
    ensures (forall pos, leaf :: ScalarAt(from.rows[i], pos, leaf) ==> HeldByRow(env, table, row, into.columns, pos, leaf))
       <==> RowKept(env.t, types, into.root, into.columns, from.rows[i])
  {
    var merged, r, cols := MergeParsed(into, from), |into.rows| + i, into.columns;
    MergedRowKeptIff(env.t, types, into, from, i);
    assert merged.rows[r] == from.rows[i];
    forall pos, leaf
      ensures HeldByRow(env, table, row, cols, pos, leaf) <==> SomeColumn(env.t, types, cols, from.rows[i], pos, leaf)
    {
      forall c: nat | c < |cols|
        ensures (exists s: nat :: HeldIn(env, table, row, cols[c], s, pos, leaf))
           <==> StoredIn(env.t, cols[c].(ty := types(cols[c].path)), from.rows[i], pos, leaf)
      {
        AppendedIsStored(env, types, merged.rows, cols, b, r, table, row, c, pos, leaf);
      }
    }
  }
}
