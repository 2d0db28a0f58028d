/** Flattening the schema tree into uniquely named columns. */
module Flatten {
  import opened Json
  import opened Inference
  import opened ColumnTypes
  import opened Names

  const MAX_FLATTEN_DEPTH: nat := 16
  const MAX_COLUMNS: nat := 10000

  datatype Column = Column(name: string, path: seq<string>, ty: LType, node: Node)

  /** An object met at this depth is opened into columns of its own. */
  predicate Opens(n: Node, depth: nat) {
    n.Object? && n.children != [] && depth < MAX_FLATTEN_DEPTH
  }

  function Dotted(prefix: string, name: string): (r: string) {
    if prefix == "" then name else prefix + "." + name
  }

  /** The columns below the first `count` children of an opened object. */
  function Columns(n: Node, count: nat, prefix: string, path: seq<string>, depth: nat): (r: seq<Column>)
    requires n.Object? && count <= |n.children|
    decreases n, count
  {
    if count == 0 then []
    else
      var c := n.children[count - 1];
      Columns(n, count - 1, prefix, path, depth) + ChildColumns(c, prefix, path, depth)
  }

  function ChildColumns(c: Child, prefix: string, path: seq<string>, depth: nat): (r: seq<Column>)
    decreases c, 0
  {
    var name := Dotted(prefix, c.name);
    if Opens(c.node, depth)
    then Columns(c.node, |c.node.children|, name, path + [c.name], depth + 1)
    else [Column(name, path + [c.name], NodeToType(c.node), c.node)]
  }

  method FlattenInto(n: Node, prefix: string, path: seq<string>, depth: nat, result: seq<Column>)
    returns (r: seq<Column>)
    requires n.Object?
    ensures r == result + Columns(n, |n.children|, prefix, path, depth)
    decreases n
  {
    r := result;
    for i := 0 to |n.children|
      invariant r == result + Columns(n, i, prefix, path, depth)
    {
      var c := n.children[i];
      var columnName := Dotted(prefix, c.name);
      if Opens(c.node, depth) {
        r := FlattenInto(c.node, columnName, path + [c.name], depth + 1, r);
      } else {
        r := r + [Column(columnName, path + [c.name], NodeToType(c.node), c.node)];
      }
    }
  }

  /** The tree's leaves, walked by path and without reference to any column list. */
  function LeafAt(n: Node, path: seq<string>, depth: nat): (r: Option<Node>)
    decreases |path|
  {
    if path == [] || !n.Object? then None
    else
      match Find(n.children, path[0])
      case None => None
      case Some(i) =>
        var c := n.children[i].node;
        if |path| == 1 then if Opens(c, depth) then None else Some(c)
        else if Opens(c, depth) then LeafAt(c, path[1..], depth + 1)
        else None
  }

  /** Every column below `n` is a leaf of `n`, with that leaf's type. */
  lemma {:induction false} ColumnIsLeaf(n: Node, count: nat, prefix: string, path: seq<string>, depth: nat, i: nat)
    requires n.Object? && WellFormed(n) && count <= |n.children|
    requires i < |Columns(n, count, prefix, path, depth)|
    ensures
      var col := Columns(n, count, prefix, path, depth)[i];
      && |path| < |col.path| && col.path[..|path|] == path
      && LeafAt(n, col.path[|path|..], depth) == Some(col.node)
      && col.ty == NodeToType(col.node)
      && exists j :: 0 <= j < count && n.children[j].name == col.path[|path|]
    decreases n, count
  {
    var col := Columns(n, count, prefix, path, depth)[i];
    var before := Columns(n, count - 1, prefix, path, depth);
    if i < |before| {
      ColumnIsLeaf(n, count - 1, prefix, path, depth, i);
    } else {
      var c := n.children[count - 1];
      FindUnique(n.children, count - 1);
      if Opens(c.node, depth) {
        var inner := path + [c.name];
        ColumnIsLeaf(c.node, |c.node.children|, Dotted(prefix, c.name), inner, depth + 1, i - |before|);
        assert col.path[|path|..][1..] == col.path[|inner|..];
        assert col.path[..|path|] == col.path[..|inner|][..|path|];
        assert col.path[|path|] == col.path[..|inner|][|path|] == c.name;
      } else {
        assert col.path[|path|..] == [c.name];
      }
    }
  }

  /** The keys with dots between them. */
  function DotJoin(path: seq<string>): (r: string) {
    if path == [] then ""
    else if |path| == 1 then path[0]
    else DotJoin(path[..|path| - 1]) + "." + path[|path| - 1]
  }

  /** Empty keys at the front of a path leave nothing in the name. */
  function Named(path: seq<string>): (rest: seq<string>) {
    if path != [] && path[0] == "" then Named(path[1..]) else path
  }

  lemma {:induction false} NamedAppend(path: seq<string>, key: string)
    ensures Named(path + [key]) == if Named(path) == [] && key == "" then [] else Named(path) + [key]
    decreases |path|
  {
    var more := path + [key];
    if path == [] {
      assert more == [key] && more[1..] == [];
    } else if path[0] == "" {
      assert more[1..] == path[1..] + [key];
      NamedAppend(path[1..], key);
    }
  }

  lemma {:induction false} NamedIsNamed(path: seq<string>)
    ensures Named(path) != [] ==> Named(path)[0] != ""
    decreases |path|
  {
    if path != [] && path[0] == "" { NamedIsNamed(path[1..]); }
  }

  lemma {:induction false} DotJoinEmpty(path: seq<string>)
    requires path != [] && path[0] != ""
    ensures DotJoin(path) != ""
  {
  }

  lemma DottedName(path: seq<string>, key: string)
    ensures Dotted(DotJoin(Named(path)), key) == DotJoin(Named(path + [key]))
  {
    NamedAppend(path, key);
    NamedIsNamed(path);
    var named := Named(path);
    if named != [] {
      DotJoinEmpty(named);
      assert (named + [key])[..|named|] == named;
    }
  }

  /** A column is called by its path, joined with dots; empty keys at the front are left out. */
  lemma {:induction false} ColumnIsNamed(n: Node, count: nat, path: seq<string>, depth: nat, i: nat)
    requires n.Object? && count <= |n.children|
    requires i < |Columns(n, count, DotJoin(Named(path)), path, depth)|
    ensures
      var col := Columns(n, count, DotJoin(Named(path)), path, depth)[i];
      col.name == DotJoin(Named(col.path))
    decreases n, count
  {
    var before := Columns(n, count - 1, DotJoin(Named(path)), path, depth);
    if i < |before| {
      ColumnIsNamed(n, count - 1, path, depth, i);
    } else {
      var c := n.children[count - 1];
      DottedName(path, c.name);
      if Opens(c.node, depth) {
        ColumnIsNamed(c.node, |c.node.children|, path + [c.name], depth + 1, i - |before|);
      }
    }
  }

  /** Where each key of a path sits among its siblings. */
  function Ranks(n: Node, path: seq<string>): (r: seq<nat>)
    decreases |path|
  {
    if path == [] || !n.Object? || Find(n.children, path[0]).None? then []
    else
      var i := Find(n.children, path[0]).value;
      [i] + Ranks(n.children[i].node, path[1..])
  }

  /** At the first difference the smaller one comes first. */
  ghost predicate RanksBefore(a: seq<nat>, b: seq<nat>) {
    exists m: nat {:trigger a[..m]} :: m < |a| && m < |b| && a[..m] == b[..m] && a[m] < b[m]
  }

  lemma RanksDeeper(i: nat, a: seq<nat>, b: seq<nat>)
    requires RanksBefore(a, b)
    ensures RanksBefore([i] + a, [i] + b)
  {
    var m: nat :| m < |a| && m < |b| && a[..m] == b[..m] && a[m] < b[m];
    var x, y := [i] + a, [i] + b;
    assert x[..m + 1] == [i] + a[..m] && y[..m + 1] == [i] + b[..m];
    assert x[m + 1] < y[m + 1];
  }

  /** Below a child all ranks start with the child's. */
  lemma ColumnRanks(n: Node, j: nat, prefix: string, path: seq<string>, depth: nat, i: nat)
    requires n.Object? && WellFormed(n) && j < |n.children| && i < |ChildColumns(n.children[j], prefix, path, depth)|
    ensures
      var c, col := n.children[j], ChildColumns(n.children[j], prefix, path, depth)[i];
      && |path| < |col.path|
      && Ranks(n, col.path[|path|..]) == [j] + Ranks(c.node, col.path[|path| + 1..])
  {
    var c, col := n.children[j], ChildColumns(n.children[j], prefix, path, depth)[i];
    ChildColumnStarts(c, prefix, path, depth, i);
    FindUnique(n.children, j);
    assert col.path[|path|..][0] == c.name && col.path[|path|..][1..] == col.path[|path| + 1..];
  }

  ghost predicate InOrder(n: Node, path: seq<string>, a: Column, b: Column) {
    && |path| <= |a.path| && |path| <= |b.path|
    && RanksBefore(Ranks(n, a.path[|path|..]), Ranks(n, b.path[|path|..]))
  }

  /** Columns are listed in the order of the members. */
  lemma {:induction false} ColumnsInOrder(n: Node, count: nat, prefix: string, path: seq<string>, depth: nat, i: nat, j: nat)
    requires n.Object? && WellFormed(n) && count <= |n.children|
    requires i < j < |Columns(n, count, prefix, path, depth)|
    ensures InOrder(n, path, Columns(n, count, prefix, path, depth)[i], Columns(n, count, prefix, path, depth)[j])
    decreases n, count
  {
    var front, last := Columns(n, count - 1, prefix, path, depth), ChildColumns(n.children[count - 1], prefix, path, depth);
    assert Columns(n, count, prefix, path, depth) == front + last;
    if j < |front| {
      ColumnsInOrder(n, count - 1, prefix, path, depth, i, j);
    } else if i < |front| {
      LaterChild(n, count - 1, prefix, path, depth, i, j - |front|);
    } else {
      ChildInOrder(n, count - 1, prefix, path, depth, i - |front|, j - |front|);
    }
  }

  lemma {:induction false} ChildInOrder(n: Node, k: nat, prefix: string, path: seq<string>, depth: nat, i: nat, j: nat)
    requires n.Object? && WellFormed(n) && k < |n.children|
    requires i < j < |ChildColumns(n.children[k], prefix, path, depth)|
    ensures
      var cols := ChildColumns(n.children[k], prefix, path, depth);
      InOrder(n, path, cols[i], cols[j])
    decreases n, 0
  {
    var c, cols := n.children[k], ChildColumns(n.children[k], prefix, path, depth);
    ColumnsInOrder(c.node, |c.node.children|, Dotted(prefix, c.name), path + [c.name], depth + 1, i, j);
    assert InOrder(c.node, path + [c.name], cols[i], cols[j]);
    ColumnRanks(n, k, prefix, path, depth, i);
    ColumnRanks(n, k, prefix, path, depth, j);
    hide RanksBefore, Ranks, ChildColumns, Columns, WellFormed;
    RanksDeeper(k, Ranks(c.node, cols[i].path[|path| + 1..]), Ranks(c.node, cols[j].path[|path| + 1..]));
  }

  lemma LaterChild(n: Node, k: nat, prefix: string, path: seq<string>, depth: nat, i: nat, j: nat)
    requires n.Object? && WellFormed(n) && k < |n.children|
    requires i < |Columns(n, k, prefix, path, depth)| && j < |ChildColumns(n.children[k], prefix, path, depth)|
    ensures InOrder(n, path, Columns(n, k, prefix, path, depth)[i], ChildColumns(n.children[k], prefix, path, depth)[j])
  {
    var at := ColumnChild(n, k, prefix, path, depth, i);
    ColumnRanks(n, k, prefix, path, depth, j);
    var x, y := Columns(n, k, prefix, path, depth)[i], ChildColumns(n.children[k], prefix, path, depth)[j];
    var a, b := Ranks(n, x.path[|path|..]), Ranks(n, y.path[|path|..]);
    assert a[..0] == b[..0] && a[0] < b[0];
  }

  lemma {:induction false} ColumnChild(n: Node, count: nat, prefix: string, path: seq<string>, depth: nat, i: nat) returns (k: nat)
    requires n.Object? && WellFormed(n) && count <= |n.children|
    requires i < |Columns(n, count, prefix, path, depth)|
    ensures
      var col := Columns(n, count, prefix, path, depth)[i];
      && k < count && |path| < |col.path|
      && Ranks(n, col.path[|path|..]) != [] && Ranks(n, col.path[|path|..])[0] == k
    decreases count
  {
    var front := Columns(n, count - 1, prefix, path, depth);
    if i < |front| {
      k := ColumnChild(n, count - 1, prefix, path, depth, i);
    } else {
      k := count - 1;
      ColumnRanks(n, k, prefix, path, depth, i - |front|);
    }
  }

  /** Every leaf of `n` has a column. */
  lemma {:induction false} LeafIsColumn(n: Node, prefix: string, path: seq<string>, depth: nat, below: seq<string>)
      returns (i: nat)
    requires n.Object? && WellFormed(n) && LeafAt(n, below, depth).Some?
    ensures i < |Columns(n, |n.children|, prefix, path, depth)|
    ensures Columns(n, |n.children|, prefix, path, depth)[i].path == path + below
    decreases n
  {
    var j := Find(n.children, below[0]).value;
    var c := n.children[j];
    var inner := path + [c.name];
    if Opens(c.node, depth) {
      i := LeafIsColumn(c.node, Dotted(prefix, c.name), inner, depth + 1, below[1..]);
      assert inner + below[1..] == path + below;
    } else {
      i := 0;
      assert below == [c.name];
    }
    assert ChildColumns(c, prefix, path, depth)[i].path == path + below;
    i := ChildColumnsInside(n, |n.children|, prefix, path, depth, j, i);
  }

  /** Where the columns of child `j` sit in the whole list. */
  lemma {:induction false} ChildColumnsInside(
      n: Node, count: nat, prefix: string, path: seq<string>, depth: nat, j: nat, i: nat)
    returns (k: nat)
    requires n.Object? && count <= |n.children| && j < count
    requires i < |ChildColumns(n.children[j], prefix, path, depth)|
    ensures k < |Columns(n, count, prefix, path, depth)|
    ensures Columns(n, count, prefix, path, depth)[k] == ChildColumns(n.children[j], prefix, path, depth)[i]
    decreases count
  {
    if j == count - 1 {
      k := |Columns(n, count - 1, prefix, path, depth)| + i;
    } else {
      k := ChildColumnsInside(n, count - 1, prefix, path, depth, j, i);
    }
  }

  /** Two columns never share a path. */
  lemma {:induction false} PathsDistinct(
      n: Node, count: nat, prefix: string, path: seq<string>, depth: nat, i: nat, j: nat)
    requires n.Object? && WellFormed(n) && count <= |n.children|
    requires i < j < |Columns(n, count, prefix, path, depth)|
    ensures Columns(n, count, prefix, path, depth)[i].path != Columns(n, count, prefix, path, depth)[j].path
    decreases n, count
  {
    var before := Columns(n, count - 1, prefix, path, depth);
    var c := n.children[count - 1];
    if j < |before| {
      PathsDistinct(n, count - 1, prefix, path, depth, i, j);
    } else if i >= |before| {
      if Opens(c.node, depth) {
        PathsDistinct(c.node, |c.node.children|, Dotted(prefix, c.name), path + [c.name], depth + 1,
                      i - |before|, j - |before|);
      }
    } else {
      ColumnIsLeaf(n, count - 1, prefix, path, depth, i);
      ChildColumnStarts(c, prefix, path, depth, j - |before|);
    }
  }

  /** The columns of a child go through it. */
  lemma ChildColumnStarts(c: Child, prefix: string, path: seq<string>, depth: nat, i: nat)
    requires WellFormed(c.node) && i < |ChildColumns(c, prefix, path, depth)|
    ensures
      var p := ChildColumns(c, prefix, path, depth)[i].path;
      |path| < |p| && p[|path|] == c.name
  {
    if Opens(c.node, depth) {
      ColumnIsLeaf(c.node, |c.node.children|, Dotted(prefix, c.name), path + [c.name], depth + 1, i);
      var p := ChildColumns(c, prefix, path, depth)[i].path;
      assert p[|path|] == p[..|path| + 1][|path|] == c.name;
    }
  }

  /** No leaf lies on the way to another leaf. */
  lemma {:induction false} LeavesPrefixFree(n: Node, p: seq<string>, q: seq<string>, depth: nat)
    requires LeafAt(n, p, depth).Some? && LeafAt(n, q, depth).Some? && p <= q
    ensures p == q
    decreases |p|
  {
    if |p| > 1 {
      LeavesPrefixFree(n.children[Find(n.children, p[0]).value].node, p[1..], q[1..], depth + 1);
    }
  }

  datatype FlattenResult = Flattened(columns: seq<Column>) | TooManyColumns(count: nat)

  /** The names already handed out to columns `0 .. n - 1`, case-folded. */
  function SeenNames(cols: seq<Column>, n: nat): (r: set<string>)
    requires n <= |cols|
  {
    set i | 0 <= i < n :: Lower(cols[i].name)
  }

  lemma SeenNamesStep(cols: seq<Column>, n: nat)
    requires n < |cols|
    ensures SeenNames(cols, n + 1) == SeenNames(cols, n) + {Lower(cols[n].name)}
  {
    forall s | s in SeenNames(cols, n + 1) ensures s in SeenNames(cols, n) + {Lower(cols[n].name)} {
      var i :| 0 <= i < n + 1 && s == Lower(cols[i].name);
      if i < n { assert Lower(cols[i].name) in SeenNames(cols, n); }
    }
    forall s | s in SeenNames(cols, n) ensures s in SeenNames(cols, n + 1) {
      var i :| 0 <= i < n && s == Lower(cols[i].name);
      assert Lower(cols[i].name) in SeenNames(cols, n + 1);
    }
    assert Lower(cols[n].name) in SeenNames(cols, n + 1);
  }

  /** `name` is `base` when that is free, else `base_k` for the least free `k >= 1`. */
  ghost predicate FirstFree(base: string, name: string, seen: set<string>) {
    || (name == base && Lower(base) !in seen)
    || (&& Lower(base) in seen
        && exists k: nat :: k >= 1 && name == WithSuffix(base, k) && Lower(name) !in seen
             && forall j: nat :: 1 <= j < k ==> Lower(WithSuffix(base, j)) in seen)
  }

  /** A second "a.b" becomes "a.b_1". */
  lemma SecondName(name: string)
    ensures FirstFree("a.b", name, {"a.b"}) <==> name == "a.b_1"
  {
    assert Lower("a.b") == "a.b";
    assert WithSuffix("a.b", 1) == "a.b_1" by { assert Decimal(1) == "1"; }
    assert Lower("a.b_1") == "a.b_1" && Lower("a.b_1") !in {"a.b"};
  }

  /** What the renaming pass promises: only names change, each to the first free one. */
  ghost predicate Renamed(before: seq<Column>, after: seq<Column>) {
    && |after| == |before|
    && forall i :: 0 <= i < |after| ==>
         && after[i].(name := before[i].name) == before[i]
         && FirstFree(before[i].name, after[i].name, SeenNames(after, i))
  }

  ghost predicate DistinctNames(cols: seq<Column>) {
    forall i, j :: 0 <= i < j < |cols| ==> Lower(cols[i].name) != Lower(cols[j].name)
  }

  lemma RenamedDistinct(before: seq<Column>, after: seq<Column>)
    requires Renamed(before, after)
    ensures DistinctNames(after)
  {
    forall i, j | 0 <= i < j < |after| ensures Lower(after[i].name) != Lower(after[j].name) {
      assert FirstFree(before[j].name, after[j].name, SeenNames(after, j));
      assert Lower(after[i].name) in SeenNames(after, j);
    }
  }

  /** The suffix loop; it ends because each rejected suffix is a different taken name. */
  method PickName(base: string, seen: set<string>) returns (name: string)
    ensures FirstFree(base, name, seen)
    ensures Lower(name) !in seen
  {
    name := base;
    var suffix := 1;
    while Lower(name) in seen
      invariant suffix >= 1
      invariant suffix == 1 ==> name == base
      invariant suffix > 1 ==> name == WithSuffix(base, suffix - 1) && Lower(base) in seen
      invariant forall j: nat :: 1 <= j < suffix - 1 ==> Lower(WithSuffix(base, j)) in seen
      decreases |seen| + 1 - suffix
    {
      SuffixesNeedRoom(base, suffix - 1, seen);
      name := WithSuffix(base, suffix);
      suffix := suffix + 1;
    }
  }

  method FlattenSchema(root: Node, scalarRows: bool) returns (r: FlattenResult)
    requires WellFormed(root)
    ensures
      if scalarRows || !root.Object? then
        r == Flattened(if root.Unset? then [] else [Column("value", [], NodeToType(root), root)])
      else
        var raw := Columns(root, |root.children|, "", [], 0);
        if |raw| > MAX_COLUMNS then r == TooManyColumns(|raw|)
        else r.Flattened? && Renamed(raw, r.columns)
  {
    if scalarRows || !root.Object? {
      r := Flattened(if root.Unset? then [] else [Column("value", [], NodeToType(root), root)]);
      return;
    }
    var raw := FlattenInto(root, "", [], 0, []);
    if |raw| > MAX_COLUMNS {
      r := TooManyColumns(|raw|);
      return;
    }
    var cols := raw;
    var seen := {};
    for i := 0 to |cols|
      invariant |cols| == |raw|
      invariant seen == SeenNames(cols, i)
      invariant forall k :: 0 <= k < i ==>
        && cols[k].(name := raw[k].name) == raw[k]
        && FirstFree(raw[k].name, cols[k].name, SeenNames(cols, k))
      invariant forall k :: i <= k < |cols| ==> cols[k] == raw[k]
    {
      var name := PickName(cols[i].name, seen);
      ghost var prior := cols;
      cols := cols[i := cols[i].(name := name)];
      seen := seen + {Lower(name)};
      forall k | 0 <= k <= i ensures SeenNames(cols, k) == SeenNames(prior, k) {
        assert forall m :: 0 <= m < k ==> cols[m] == prior[m];
      }
      SeenNamesStep(cols, i);
    }
    r := Flattened(cols);
  }

  /** The columns of an object schema: one per leaf of the tree and no others, typed by
      that leaf, on prefix-free paths, under pairwise distinct case-folded names. */
  ghost predicate WellFlattened(root: Node, cols: seq<Column>) {
    && (forall i :: 0 <= i < |cols| ==>
          LeafAt(root, cols[i].path, 0) == Some(cols[i].node) && cols[i].ty == NodeToType(cols[i].node))
    && (forall p :: LeafAt(root, p, 0).Some? ==> exists i :: 0 <= i < |cols| && cols[i].path == p)
    && (forall i, j :: 0 <= i < |cols| && 0 <= j < |cols| && cols[i].path <= cols[j].path ==> i == j)
    && DistinctNames(cols)
  }

  lemma FlattenIsWellFormed(root: Node, cols: seq<Column>)
    requires root.Object? && WellFormed(root)
    requires Renamed(Columns(root, |root.children|, "", [], 0), cols)
    ensures WellFlattened(root, cols)
  {
    var raw := Columns(root, |root.children|, "", [], 0);
    forall i | 0 <= i < |cols|
      ensures cols[i].path == raw[i].path
      ensures LeafAt(root, cols[i].path, 0) == Some(cols[i].node) && cols[i].ty == NodeToType(cols[i].node)
    {
      ColumnIsLeaf(root, |root.children|, "", [], 0, i);
      assert cols[i].(name := raw[i].name) == raw[i];
      assert cols[i].path[0..] == cols[i].path;
    }
    forall p | LeafAt(root, p, 0).Some?
      ensures exists i :: 0 <= i < |cols| && cols[i].path == p
    {
      var i := LeafIsColumn(root, "", [], 0, p);
      assert [] + p == p;
      assert cols[i].path == p;
    }
    forall i, j | 0 <= i < |cols| && 0 <= j < |cols| && cols[i].path <= cols[j].path ensures i == j {
      LeavesPrefixFree(root, cols[i].path, cols[j].path, 0);
      if i < j { PathsDistinct(root, |root.children|, "", [], 0, i, j); }
      if j < i { PathsDistinct(root, |root.children|, "", [], 0, j, i); }
    }
    RenamedDistinct(raw, cols);
  }
}
