/** Row-major extraction: each row is traversed once and its values are routed through
    the schema tree to column slots. Tree nodes are identified by their path. */
module Extract {
  import opened Json
  import opened Inference
  import opened ColumnTypes
  import opened Flatten

  type Slots = seq<seq<Option<Json>>>

  /** One slot after routing `val`, met at `path`, into the row that owns the slot. */
  function SlotAfter(col: Column, prior: Option<Json>, path: seq<string>, owner: bool, val: Json): (r: Option<Json>) {
    if owner && path <= col.path && PathLookup(val, col.path[|path|..]).Some?
    then PathLookup(val, col.path[|path|..])
    else prior
  }

  lemma SlotAfterRoot(col: Column, prior: Option<Json>, owner: bool, val: Json)
    ensures SlotAfter(col, prior, [], owner, val)
         == if owner && PathLookup(val, col.path).Some? then PathLookup(val, col.path) else prior
  {
    assert [] <= col.path && col.path[0..] == col.path;
  }

  ghost predicate Sized(cols: seq<Column>, values: Slots, rowCount: nat) {
    |values| == |cols| && forall c :: 0 <= c < |cols| ==> |values[c]| == rowCount
  }

  /** All slots change exactly as path lookup dictates, in row `row` only. */
  ghost predicate Routed(cols: seq<Column>, rowCount: nat, before: Slots, after: Slots, path: seq<string>, row: nat, val: Json) {
    && Sized(cols, before, rowCount) && Sized(cols, after, rowCount)
    && forall c, r :: 0 <= c < |cols| && 0 <= r < rowCount ==>
         after[c][r] == SlotAfter(cols[c], before[c][r], path, r == row, val)
  }

  /** Every column strictly below `path` is a leaf under `node`. */
  ghost predicate Leads(cols: seq<Column>, node: Node, path: seq<string>) {
    forall c :: 0 <= c < |cols| && path < cols[c].path ==> LeafAt(node, cols[c].path[|path|..], |path|).Some?
  }

  lemma LeadsToChild(cols: seq<Column>, node: Node, path: seq<string>, i: nat)
    requires WellFormed(node) && node.Object? && i < |node.children| && Leads(cols, node, path)
    ensures Leads(cols, node.children[i].node, path + [node.children[i].name])
  {
    var inner := path + [node.children[i].name];
    FindUnique(node.children, i);
    forall c | 0 <= c < |cols| && inner < cols[c].path
      ensures LeafAt(node.children[i].node, cols[c].path[|inner|..], |inner|).Some?
    {
      var rest := cols[c].path[|path|..];
      assert path < cols[c].path && rest[0] == cols[c].path[..|inner|][|path|];
      assert rest[1..] == cols[c].path[|inner|..];
    }
  }

  /** One more member of the object has been routed. */
  lemma RoutedStep(cols: seq<Column>, rowCount: nat, before: Slots, mid: Slots, after: Slots,
                   path: seq<string>, row: nat, fields: seq<Field>, i: nat)
    requires UniqueKeys(fields) && i < |fields|
    requires forall c :: 0 <= c < |cols| ==> cols[c].path != path
    requires Routed(cols, rowCount, before, mid, path, row, Obj(fields[..i]))
    requires Routed(cols, rowCount, mid, after, path + [fields[i].key], row, fields[i].value)
    ensures Routed(cols, rowCount, before, after, path, row, Obj(fields[..i + 1]))
  {
    forall c, r | 0 <= c < |cols| && 0 <= r < rowCount
      ensures after[c][r] == SlotAfter(cols[c], before[c][r], path, r == row, Obj(fields[..i + 1]))
    {
      if path < cols[c].path {
        var rest := cols[c].path[|path|..];
        LookupStep(fields, i, rest);
        var inner := path + [fields[i].key];
        if inner <= cols[c].path {
          assert rest[0] == cols[c].path[..|inner|][|path|] == fields[i].key;
          assert rest[1..] == cols[c].path[|inner|..];
        } else {
          assert rest[0] != fields[i].key;
        }
      }
    }
  }

  lemma LookupStep(fields: seq<Field>, i: nat, rest: seq<string>)
    requires UniqueKeys(fields) && i < |fields| && rest != []
    ensures PathLookup(Obj(fields[..i + 1]), rest)
         == if rest[0] == fields[i].key then PathLookup(fields[i].value, rest[1..])
            else PathLookup(Obj(fields[..i]), rest)
    ensures rest[0] == fields[i].key ==> PathLookup(Obj(fields[..i]), rest).None?
  {
    GetStep(fields[..i], fields[i], rest[0]);
    assert fields[..i + 1] == fields[..i] + [fields[i]];
  }

  lemma {:induction false} GetStep(fields: seq<Field>, f: Field, key: string)
    requires forall j :: 0 <= j < |fields| ==> fields[j].key != f.key
    ensures Get(fields + [f], key) == if key == f.key then Some(f.value) else Get(fields, key)
    ensures Get(fields, f.key).None?
    decreases |fields|
  {
    if fields != [] {
      assert (fields + [f])[1..] == fields[1..] + [f];
      GetStep(fields[1..], f, key);
    }
  }

  class RawExtractor {
    const root: Node
    const columns: seq<Column>
    const columnOf: map<seq<string>, nat>
    const rootIsColumn: bool
    var values: Slots

    /** The columns are those of the tree: prefix-free leaf paths, or the lone row column. */
    ghost predicate Valid() {
      && WellFormed(root)
      && (forall i, j :: 0 <= i < |columns| && 0 <= j < |columns| && columns[i].path <= columns[j].path ==> i == j)
      && (forall p :: p in columnOf ==> columnOf[p] < |columns| && columns[columnOf[p]].path == p)
      && (forall c :: 0 <= c < |columns| ==> columns[c].path in columnOf)
      && (rootIsColumn <==> [] in columnOf)
      && Leads(columns, root, [])
    }

    constructor (root: Node, columns: seq<Column>)
      requires WellFormed(root) && (WellFlattened(root, columns) || (|columns| <= 1 && forall c :: 0 <= c < |columns| ==> columns[c].path == []))
      ensures Valid() && this.root == root && this.columns == columns
      ensures Sized(columns, values, 0)
    {
      var slot: map<seq<string>, nat> := map[];
      var whole := false;
      for col := 0 to |columns|
        invariant forall p :: p in slot ==> slot[p] < col && columns[slot[p]].path == p
        invariant forall c :: 0 <= c < col ==> columns[c].path in slot
        invariant whole <==> [] in slot
      {
        if columns[col].path == [] { whole := true; }
        slot := slot[columns[col].path := col];
      }
      this.root, this.columns, this.columnOf, this.rootIsColumn := root, columns, slot, whole;
      this.values := seq(|columns|, _ => []);
      assert forall c :: 0 <= c < |columns| && columns[c].path != [] ==> columns[c].path[0..] == columns[c].path;
    }

    method Reset(rowCount: nat)
      modifies this
      ensures Sized(columns, values, rowCount)
      ensures forall c, r :: 0 <= c < |columns| && 0 <= r < rowCount ==> values[c][r] == None
    {
      values := seq(|columns|, _ => seq(rowCount, _ => None));
    }

    method Traverse(val: Json, node: Node, path: seq<string>, row: nat, ghost rowCount: nat)
      requires Valid() && Sized(columns, values, rowCount) && row < rowCount
      requires DeepUnique(val) && WellFormed(node) && Leads(columns, node, path)
      modifies this
      ensures Routed(columns, rowCount, old(values), values, path, row, val)
      decreases val
    {
      if path in columnOf {
        var col := columnOf[path];
        values := values[col := values[col][row := Some(val)]];
        assert columns[col].path[|path|..] == [];
        assert forall c :: 0 <= c < |columns| && path <= columns[c].path ==> c == col;
        return;
      }
      if !node.Object? || !val.Obj? {
        NothingToRoute(columns, node, path, val);
        return;
      }
      ghost var before := values;
      RoutedStart(columns, rowCount, values, path, row);
      assert val.fields[..0] == [];
      for i := 0 to |val.fields|
        invariant Routed(columns, rowCount, before, values, path, row, Obj(val.fields[..i]))
      {
        var f := val.fields[i];
        ghost var mid := values;
        var child := Find(node.children, f.key);
        if child.Some? {
          LeadsToChild(columns, node, path, child.value);
          Traverse(f.value, node.children[child.value].node, path + [f.key], row, rowCount);
        } else {
          NoColumnBelow(columns, node, path, f.key);
        }
        RoutedStep(columns, rowCount, before, mid, values, path, row, val.fields, i);
      }
      assert val.fields[..|val.fields|] == val.fields;
    }

    /** Slots of the row become what walking each column's path in the row gives. */
    method AssignRow(val: Json, row: nat, ghost rowCount: nat)
      requires Valid() && Sized(columns, values, rowCount) && row < rowCount && DeepUnique(val)
      modifies this
      ensures Routed(columns, rowCount, old(values), values, [], row, val)
    {
      if rootIsColumn {
        var col := columnOf[[]];
        values := values[col := values[col][row := Some(val)]];
        forall c | 0 <= c < |columns| ensures columns[c].path == [] && c == col {
          assert columns[col].path <= columns[c].path;
        }
        assert columns[col].path[0..] == [];
        return;
      }
      Traverse(val, root, [], row, rowCount);
    }

    /** The chunk loop: after it, slot (column, row) holds exactly the path lookup. */
    method ExtractRows(rows: seq<Json>)
      requires Valid() && forall i :: 0 <= i < |rows| ==> DeepUnique(rows[i])
      modifies this
      ensures values == Extracted(columns, rows)
    {
      Reset(|rows|);
      for i := 0 to |rows|
        invariant RowsDone(columns, rows, values, i)
      {
        ghost var prior := values;
        AssignRow(rows[i], i, |rows|);
        RowDone(columns, rows, prior, values, i);
      }
      AllRowsDone(columns, rows, values);
    }
  }

  /** The first `n` rows are routed, the others still hold nothing. */
  ghost predicate RowsDone(cols: seq<Column>, rows: seq<Json>, values: Slots, n: nat) {
    && Sized(cols, values, |rows|)
    && forall c, r {:trigger values[c][r]} :: 0 <= c < |cols| && 0 <= r < |rows| ==>
         values[c][r] == if r < n then PathLookup(rows[r], cols[c].path) else None
  }

  lemma RowDone(cols: seq<Column>, rows: seq<Json>, before: Slots, after: Slots, i: nat)
    requires i < |rows| && RowsDone(cols, rows, before, i)
    requires Routed(cols, |rows|, before, after, [], i, rows[i])
    ensures RowsDone(cols, rows, after, i + 1)
  {
    forall c, r | 0 <= c < |cols| && 0 <= r < |rows|
      ensures after[c][r] == if r < i + 1 then PathLookup(rows[r], cols[c].path) else None
    {
      SlotAfterRoot(cols[c], before[c][r], r == i, rows[i]);
    }
  }

  lemma AllRowsDone(cols: seq<Column>, rows: seq<Json>, values: Slots)
    requires RowsDone(cols, rows, values, |rows|)
    ensures values == Extracted(cols, rows)
  {
    forall c | 0 <= c < |cols| ensures values[c] == Extracted(cols, rows)[c] {
    }
  }

  lemma RoutedStart(cols: seq<Column>, rowCount: nat, values: Slots, path: seq<string>, row: nat)
    requires Sized(cols, values, rowCount)
    requires forall c :: 0 <= c < |cols| ==> cols[c].path != path
    ensures Routed(cols, rowCount, values, values, path, row, Obj([]))
  {
    assert forall c :: 0 <= c < |cols| && path <= cols[c].path ==> cols[c].path[|path|..] != [];
  }

  lemma NothingToRoute(cols: seq<Column>, node: Node, path: seq<string>, val: Json)
    requires Leads(cols, node, path) && (!node.Object? || !val.Obj?)
    requires forall c :: 0 <= c < |cols| ==> cols[c].path != path
    ensures forall c :: 0 <= c < |cols| && path <= cols[c].path ==> PathLookup(val, cols[c].path[|path|..]).None?
  {
    forall c | 0 <= c < |cols| && path <= cols[c].path
      ensures PathLookup(val, cols[c].path[|path|..]).None?
    {
      assert path < cols[c].path;
    }
  }

  lemma NoColumnBelow(cols: seq<Column>, node: Node, path: seq<string>, key: string)
    requires node.Object? && Find(node.children, key).None? && Leads(cols, node, path)
    ensures forall c :: 0 <= c < |cols| ==> !(path + [key] <= cols[c].path)
  {
    forall c | 0 <= c < |cols| && path < cols[c].path ensures !(path + [key] <= cols[c].path) {
      assert cols[c].path[|path|..][0] != key;
    }
  }

  /** Column-wise path lookup over all rows: the reference reading of a payload. */
  function Extracted(cols: seq<Column>, rows: seq<Json>): (r: Slots)
    ensures |r| == |cols|
    ensures Sized(cols, r, |rows|)
    ensures forall c, i {:trigger r[c][i]} :: 0 <= c < |cols| && 0 <= i < |rows| ==> r[c][i] == PathLookup(rows[i], cols[c].path)
  {
    seq(|cols|, c requires 0 <= c < |cols| =>
      seq(|rows|, i requires 0 <= i < |rows| => PathLookup(rows[i], cols[c].path)))
  }

  // ---------------------------------------------------------------------------
  // Merged payloads keep only the first tree and its columns
  // ---------------------------------------------------------------------------

  datatype Parsed = Parsed(rows: seq<Json>, root: Node, columns: seq<Column>)

  function MergeParsed(into: Parsed, from: Parsed): (r: Parsed) {
    into.(rows := into.rows + from.rows)
  }

  ghost predicate SamePaths(a: seq<Column>, b: seq<Column>) {
    |a| == |b| && forall c :: 0 <= c < |a| ==> a[c].path == b[c].path
  }

  /** Over equal column paths, merging payloads concatenates their extractions. */
  lemma MergeConcatenates(into: Parsed, from: Parsed, c: nat)
    requires SamePaths(into.columns, from.columns) && c < |into.columns|
    ensures
      var merged := MergeParsed(into, from);
      Extracted(merged.columns, merged.rows)[c]
      == Extracted(into.columns, into.rows)[c] + Extracted(from.columns, from.rows)[c]
  {
    var merged := MergeParsed(into, from);
    var left := Extracted(merged.columns, merged.rows)[c];
    var right := Extracted(into.columns, into.rows)[c] + Extracted(from.columns, from.rows)[c];
    assert |left| == |right| by {
      assert |Extracted(into.columns, into.rows)[c]| == |into.rows|;
    }
    forall i | 0 <= i < |left| ensures left[i] == right[i] {
      if i >= |into.rows| { assert merged.rows[i] == from.rows[i - |into.rows|]; }
    }
  }

  /** Without that condition merging loses data: the second row's value goes nowhere. */
  lemma MergeLosesForeignColumn()
    ensures
      var leaf := Scalar(BIGINT);
      var into := Parsed([Obj([Field("a", Int(1))])], Object([Child("a", leaf)]), [Column("a", ["a"], TBigInt, leaf)]);
      var from := Parsed([Obj([Field("b", Int(2))])], Object([Child("b", leaf)]), [Column("b", ["b"], TBigInt, leaf)]);
      var merged := MergeParsed(into, from);
      && Extracted(from.columns, from.rows)[0][0] == Some(Int(2))
      && forall c :: 0 <= c < |merged.columns| ==> Extracted(merged.columns, merged.rows)[c][1] == None
  {
  }
}
