/** Schema inference: values are merged one by one into a schema tree whose scalar
    types widen along a lattice and whose structural conflicts become JSON. */
module Inference {
  import opened Json

  datatype Kind = UNSET | BOOLEAN | BIGINT | DOUBLE | DATE | TIMESTAMP | VARCHAR

  /** The two string parsers of the host database. The only fact used about them is
      that a string accepted as a date is also accepted as a timestamp. */
  datatype Temporal = Temporal(date: string -> bool, timestamp: string -> bool) {
    ghost predicate Valid() {
      forall s :: date(s) ==> timestamp(s)
    }
  }

  /** Objects and arrays nested deeper than this are kept verbatim. */
  const MAX_NESTING: nat := 128
  const INT64_MAX: int := 0x7fff_ffff_ffff_ffff

  predicate Numeric(k: Kind) { k == BIGINT || k == DOUBLE }

  predicate IsTemporal(k: Kind) { k == DATE || k == TIMESTAMP }

  function JoinKinds(a: Kind, b: Kind): (k: Kind) {
    if a == UNSET then b
    else if b == UNSET || a == b then a
    else if Numeric(a) && Numeric(b) then DOUBLE
    else if IsTemporal(a) && IsTemporal(b) then TIMESTAMP
    else VARCHAR
  }

  function SniffString(t: Temporal, s: string): (k: Kind)
    ensures k == DATE ==> t.date(s)
    ensures k == TIMESTAMP ==> t.timestamp(s)
    ensures k in {DATE, TIMESTAMP, VARCHAR}
  {
    if |s| < 8 || |s| > 40 || !('0' <= s[0] <= '9') then VARCHAR
    else if t.date(s) then DATE
    else if t.timestamp(s) then TIMESTAMP
    else VARCHAR
  }

  function SniffScalar(t: Temporal, v: Json): (k: Kind)
    requires IsScalar(v)
    ensures k != UNSET
  {
    match v
    case Bool(_) => BOOLEAN
    case Int(i) => if i > INT64_MAX then DOUBLE else BIGINT
    case Real(_) => DOUBLE
    case Str(s) => SniffString(t, s)
  }

  /** The schema tree; children keep first-seen order. */
  datatype Node =
    | Unset
    | Scalar(kind: Kind)
    | Object(children: seq<Child>)
    | Array(element: Node)
    | JsonNode

  datatype Child = Child(name: string, node: Node)

  function Find(children: seq<Child>, name: string): (r: Option<nat>)
    ensures r.Some? ==> r.value < |children| && children[r.value].name == name
    ensures r.None? ==> forall i :: 0 <= i < |children| ==> children[i].name != name
  {
    if children == [] then None
    else
      var last := |children| - 1;
      if children[last].name == name then Some(last)
      else Find(children[..last], name)
  }

  ghost predicate UniqueNames(children: seq<Child>) {
    forall i, j :: 0 <= i < j < |children| ==> children[i].name != children[j].name
  }

  /** Sibling names are pairwise distinct everywhere in the tree. */
  ghost predicate WellFormed(n: Node) {
    match n
    case Object(cs) => UniqueNames(cs) && forall i :: 0 <= i < |cs| ==> WellFormed(cs[i].node)
    case Array(e) => WellFormed(e)
    case _ => true
  }

  /** `MergeValueInternal`: the tree after absorbing `v` at nesting `depth`. */
  function Merge(t: Temporal, n: Node, v: Json, depth: nat): (r: Node)
    decreases v, 1, 0
  {
    if depth > MAX_NESTING then JsonNode
    else if v.Null? || n.JsonNode? then n
    else if v.Obj? then
      var start := if n.Unset? then Object([]) else n;
      if !start.Object? then JsonNode
      else Object(MergeFields(t, start.children, v, |v.fields|, depth))
    else if v.Arr? then
      var start := if n.Unset? then Array(Unset) else n;
      if !start.Array? then JsonNode
      else Array(MergeElements(t, start.element, v, |v.elems|, depth))
    else if n == Scalar(VARCHAR) then n
    else if n.Unset? then Scalar(SniffScalar(t, v))
    else if !n.Scalar? then JsonNode
    else Scalar(JoinKinds(n.kind, SniffScalar(t, v)))
  }

  /** The children after absorbing the first `count` members of `v`. */
  function MergeFields(t: Temporal, cs: seq<Child>, v: Json, count: nat, depth: nat): (r: seq<Child>)
    requires v.Obj? && count <= |v.fields|
    decreases v, 0, count
  {
    if count == 0 then cs
    else
      var before := MergeFields(t, cs, v, count - 1, depth);
      MergeField(t, before, v, count - 1, depth)
  }

  function MergeField(t: Temporal, cs: seq<Child>, v: Json, at: nat, depth: nat): (r: seq<Child>)
    requires v.Obj? && at < |v.fields|
    decreases v, 0, at
  {
    var f := v.fields[at];
    match Find(cs, f.key)
    case Some(i) => cs[i := Child(f.key, Merge(t, cs[i].node, f.value, depth + 1))]
    case None => cs + [Child(f.key, Merge(t, Unset, f.value, depth + 1))]
  }

  function MergeElements(t: Temporal, e: Node, v: Json, count: nat, depth: nat): (r: Node)
    requires v.Arr? && count <= |v.elems|
    decreases v, 0, count
  {
    if count == 0 then e
    else Merge(t, MergeElements(t, e, v, count - 1, depth), v.elems[count - 1], depth + 1)
  }

  /** `InferSchema`. */
  function Infer(t: Temporal, rows: seq<Json>): (r: Node) {
    if rows == [] then Unset
    else Merge(t, Infer(t, rows[..|rows| - 1]), rows[|rows| - 1], 0)
  }

  // ---------------------------------------------------------------------------
  // The order-free reading of a tree, and the join it carries
  // ---------------------------------------------------------------------------

  /** A tree with the order of children forgotten. */
  datatype Shape =
    | Nothing
    | Plain(kind: Kind)
    | Record(fields: map<string, Shape>)
    | ListOf(element: Shape)
    | Opaque

  function Join(a: Shape, b: Shape): (r: Shape)
    decreases a
  {
    match (a, b)
    case (Nothing, _) => b
    case (_, Nothing) => a
    case (Plain(x), Plain(y)) => Plain(JoinKinds(x, y))
    case (ListOf(x), ListOf(y)) => ListOf(Join(x, y))
    case (Record(f), Record(g)) =>
      Record(map k | k in f.Keys + g.Keys ::
               if k !in g then f[k] else if k !in f then g[k] else Join(f[k], g[k]))
    case _ => Opaque
  }

  /** The shape one value contributes, independent of everything merged before. */
  function ShapeOf(t: Temporal, v: Json, depth: nat): (r: Shape)
    decreases v, 1, 0
  {
    if depth > MAX_NESTING then Opaque
    else
      match v
      case Null => Nothing
      case Obj(fs) => Record(ShapeOfFields(t, v, |fs|, depth))
      case Arr(es) => ListOf(ShapeOfElements(t, v, |es|, depth))
      case _ => Plain(SniffScalar(t, v))
  }

  function ShapeOfFields(t: Temporal, v: Json, count: nat, depth: nat): (r: map<string, Shape>)
    requires v.Obj? && count <= |v.fields|
    decreases v, 0, count
  {
    if count == 0 then map[]
    else
      var before := ShapeOfFields(t, v, count - 1, depth);
      var f := v.fields[count - 1];
      before[f.key := Join(if f.key in before then before[f.key] else Nothing, ShapeOf(t, f.value, depth + 1))]
  }

  function ShapeOfElements(t: Temporal, v: Json, count: nat, depth: nat): (r: Shape)
    requires v.Arr? && count <= |v.elems|
    decreases v, 0, count
  {
    if count == 0 then Nothing
    else Join(ShapeOfElements(t, v, count - 1, depth), ShapeOf(t, v.elems[count - 1], depth + 1))
  }

  function ChildNames(cs: seq<Child>): (r: set<string>) {
    set i | 0 <= i < |cs| :: cs[i].name
  }

  function Forget(n: Node): (r: Shape) {
    match n
    case Unset => Nothing
    case Scalar(k) => Plain(k)
    case JsonNode => Opaque
    case Array(e) => ListOf(Forget(e))
    case Object(cs) => Record(map k | k in ChildNames(cs) :: Forget(cs[Find(cs, k).value].node))
  }

  /** The join of the shapes of all rows. */
  function JoinAll(t: Temporal, rows: seq<Json>): (r: Shape) {
    if rows == [] then Nothing
    else Join(JoinAll(t, rows[..|rows| - 1]), ShapeOf(t, rows[|rows| - 1], 0))
  }

  /** `a` is already absorbed by `b`. */
  predicate Below(a: Shape, b: Shape) { Join(b, a) == b }

  // ---------------------------------------------------------------------------
  // Join laws
  // ---------------------------------------------------------------------------

  lemma {:induction false} JoinCommutes(a: Shape, b: Shape)
    ensures Join(a, b) == Join(b, a)
    decreases a
  {
    match (a, b)
    case (ListOf(x), ListOf(y)) => JoinCommutes(x, y);
    case (Record(f), Record(g)) =>
      forall k | k in f && k in g ensures Join(f[k], g[k]) == Join(g[k], f[k]) { JoinCommutes(f[k], g[k]); }
      assert Join(a, b).fields == Join(b, a).fields;
    case _ =>
  }

  lemma {:induction false} JoinIdempotent(a: Shape)
    ensures Join(a, a) == a
  {
    match a
    case ListOf(x) => JoinIdempotent(x);
    case Record(f) =>
      forall k | k in f ensures Join(f[k], f[k]) == f[k] { JoinIdempotent(f[k]); }
      assert Join(a, a).fields == f;
    case _ =>
  }

  lemma JoinKindsAssociates(a: Kind, b: Kind, c: Kind)
    ensures JoinKinds(JoinKinds(a, b), c) == JoinKinds(a, JoinKinds(b, c))
  {
  }

  lemma {:induction false} JoinAssociates(a: Shape, b: Shape, c: Shape)
    ensures Join(Join(a, b), c) == Join(a, Join(b, c))
    decreases a
  {
    match (a, b, c)
    case (ListOf(x), ListOf(y), ListOf(z)) => JoinAssociates(x, y, z);
    case (Plain(x), Plain(y), Plain(z)) => JoinKindsAssociates(x, y, z);
    case (Record(f), Record(g), Record(h)) =>
      forall k | k in f && k in g && k in h
        ensures Join(Join(f[k], g[k]), h[k]) == Join(f[k], Join(g[k], h[k]))
      { JoinAssociates(f[k], g[k], h[k]); }
      assert Join(Join(a, b), c).fields == Join(a, Join(b, c)).fields;
    case _ =>
  }

  // ---------------------------------------------------------------------------
  // Merging into the tree is joining with the value's own shape
  // ---------------------------------------------------------------------------

  lemma FindUnique(cs: seq<Child>, i: nat)
    requires UniqueNames(cs) && i < |cs|
    ensures Find(cs, cs[i].name) == Some(i)
  {
  }

  lemma ForgetLookup(cs: seq<Child>, i: nat)
    requires UniqueNames(cs) && i < |cs|
    ensures cs[i].name in Forget(Object(cs)).fields
    ensures Forget(Object(cs)).fields[cs[i].name] == Forget(cs[i].node)
  {
    FindUnique(cs, i);
    assert cs[i].name in ChildNames(cs);
  }

  lemma {:induction false} MergeKeepsWellFormed(t: Temporal, n: Node, v: Json, depth: nat)
    requires WellFormed(n)
    ensures WellFormed(Merge(t, n, v, depth))
    decreases v, 1, 0
  {
    if depth <= MAX_NESTING && !n.JsonNode? {
      match v
      case Obj(fs) =>
        if n.Unset? || n.Object? {
          MergeFieldsKeepsWellFormed(t, if n.Object? then n.children else [], v, |fs|, depth);
        }
      case Arr(es) =>
        if n.Unset? || n.Array? {
          MergeElementsKeepsWellFormed(t, if n.Array? then n.element else Unset, v, |es|, depth);
        }
      case _ =>
    }
  }

  lemma {:induction false} MergeFieldsKeepsWellFormed(t: Temporal, cs: seq<Child>, v: Json, count: nat, depth: nat)
    requires v.Obj? && count <= |v.fields| && WellFormed(Object(cs))
    ensures WellFormed(Object(MergeFields(t, cs, v, count, depth)))
    decreases v, 0, count
  {
    if count > 0 {
      MergeFieldsKeepsWellFormed(t, cs, v, count - 1, depth);
      var before := MergeFields(t, cs, v, count - 1, depth);
      var f := v.fields[count - 1];
      var found := Find(before, f.key);
      MergeKeepsWellFormed(t, if found.Some? then before[found.value].node else Unset, f.value, depth + 1);
    }
  }

  lemma {:induction false} MergeElementsKeepsWellFormed(t: Temporal, e: Node, v: Json, count: nat, depth: nat)
    requires v.Arr? && count <= |v.elems| && WellFormed(e)
    ensures WellFormed(MergeElements(t, e, v, count, depth))
    decreases v, 0, count
  {
    if count > 0 {
      MergeElementsKeepsWellFormed(t, e, v, count - 1, depth);
      MergeKeepsWellFormed(t, MergeElements(t, e, v, count - 1, depth), v.elems[count - 1], depth + 1);
    }
  }

  /** The central step: whatever the tree held before, absorbing a value joins in
      exactly the shape that value has on its own. */
  lemma {:induction false} MergeIsJoin(t: Temporal, n: Node, v: Json, depth: nat)
    requires WellFormed(n)
    ensures Forget(Merge(t, n, v, depth)) == Join(Forget(n), ShapeOf(t, v, depth))
    decreases v, 1, 0
  {
    if depth <= MAX_NESTING && !n.JsonNode? {
      match v
      case Obj(fs) =>
        if n.Unset? || n.Object? {
          var cs := if n.Object? then n.children else [];
          assert Forget(Object([])) == Record(map[]);
          MergeFieldsIsJoin(t, cs, v, |fs|, depth);
          JoinEmptyRecord(Record(ShapeOfFields(t, v, |fs|, depth)));
        }
      case Arr(es) =>
        if n.Unset? || n.Array? {
          MergeElementsIsJoin(t, if n.Array? then n.element else Unset, v, |es|, depth);
        }
      case _ =>
    }
  }

  lemma JoinEmptyRecord(s: Shape)
    requires s.Record?
    ensures Join(Record(map[]), s) == s
  {
    assert Join(Record(map[]), s).fields == s.fields;
  }

  lemma {:induction false} MergeFieldsIsJoin(t: Temporal, cs: seq<Child>, v: Json, count: nat, depth: nat)
    requires v.Obj? && count <= |v.fields| && WellFormed(Object(cs))
    ensures WellFormed(Object(MergeFields(t, cs, v, count, depth)))
    ensures Forget(Object(MergeFields(t, cs, v, count, depth)))
         == Join(Forget(Object(cs)), Record(ShapeOfFields(t, v, count, depth)))
    decreases v, 0, count
  {
    MergeFieldsKeepsWellFormed(t, cs, v, count, depth);
    var target := Forget(Object(cs));
    if count == 0 {
      assert Join(target, Record(map[])).fields == target.fields;
    } else {
      MergeFieldsIsJoin(t, cs, v, count - 1, depth);
      var before := MergeFields(t, cs, v, count - 1, depth);
      var f := v.fields[count - 1];
      var prior := Prior(before, f.key);
      assert WellFormed(prior);
      MergeIsJoin(t, prior, f.value, depth + 1);
      MergeFieldIsJoin(t, before, v, count, depth, target.fields);
    }
  }

  /** The subtree a member is merged into. */
  function Prior(cs: seq<Child>, key: string): (n: Node) {
    var found := Find(cs, key);
    if found.Some? then cs[found.value].node else Unset
  }

  lemma MergeFieldIsJoin(t: Temporal, before: seq<Child>, v: Json, count: nat, depth: nat, target: map<string, Shape>)
    requires v.Obj? && 0 < count <= |v.fields| && WellFormed(Object(before))
    requires WellFormed(Object(MergeField(t, before, v, count - 1, depth)))
    requires Forget(Object(before)) == Join(Record(target), Record(ShapeOfFields(t, v, count - 1, depth)))
    requires
      var f := v.fields[count - 1];
      Forget(Merge(t, Prior(before, f.key), f.value, depth + 1))
      == Join(Forget(Prior(before, f.key)), ShapeOf(t, f.value, depth + 1))
    ensures Forget(Object(MergeField(t, before, v, count - 1, depth)))
         == Join(Record(target), Record(ShapeOfFields(t, v, count, depth)))
  {
    var f := v.fields[count - 1];
    MergeFieldShape(t, before, v, count - 1, depth);
    JoinPutField(target, ShapeOfFields(t, v, count - 1, depth), f.key, ShapeOf(t, f.value, depth + 1));
  }

  /** Absorbing one member replaces exactly that member's entry in the record. */
  lemma MergeFieldShape(t: Temporal, cs: seq<Child>, v: Json, at: nat, depth: nat)
    requires v.Obj? && at < |v.fields| && WellFormed(Object(cs))
    requires WellFormed(Object(MergeField(t, cs, v, at, depth)))
    ensures
      var f := v.fields[at];
      var found := Find(cs, f.key);
      var prior := if found.Some? then cs[found.value].node else Unset;
      Forget(Object(MergeField(t, cs, v, at, depth))).fields
      == Forget(Object(cs)).fields[f.key := Forget(Merge(t, prior, f.value, depth + 1))]
  {
    var f := v.fields[at];
    var slot := match Find(cs, f.key) case Some(i) => i case None => |cs|;
    PutChildShape(cs, MergeField(t, cs, v, at, depth), slot);
  }

  ghost predicate PutChild(cs: seq<Child>, after: seq<Child>, slot: nat) {
    && UniqueNames(cs) && UniqueNames(after)
    && |cs| <= |after| && slot < |after| <= |cs| + 1
    && (|after| > |cs| ==> slot == |cs|)
    && (forall i :: 0 <= i < |cs| && i != slot ==> after[i] == cs[i])
    && (slot < |cs| ==> after[slot].name == cs[slot].name)
  }

  lemma PutChildShape(cs: seq<Child>, after: seq<Child>, slot: nat)
    requires PutChild(cs, after, slot)
    ensures Forget(Object(after)).fields
         == Forget(Object(cs)).fields[after[slot].name := Forget(after[slot].node)]
  {
    var was, now := Forget(Object(cs)).fields, Forget(Object(after)).fields;
    var expected := was[after[slot].name := Forget(after[slot].node)];
    forall k ensures k in now <==> k in expected { PutChildKeys(cs, after, slot, k); }
    forall k | k in now ensures now[k] == expected[k] { PutChildEntry(cs, after, slot, k); }
  }

  lemma PutChildKeys(cs: seq<Child>, after: seq<Child>, slot: nat, k: string)
    requires PutChild(cs, after, slot)
    ensures k in ChildNames(after) <==> k in ChildNames(cs) || k == after[slot].name
  {
    if k in ChildNames(cs) {
      var i :| 0 <= i < |cs| && cs[i].name == k;
      assert after[i].name == k;
    }
  }

  lemma PutChildEntry(cs: seq<Child>, after: seq<Child>, slot: nat, k: string)
    requires PutChild(cs, after, slot) && k in Forget(Object(after)).fields
    ensures Forget(Object(after)).fields[k]
         == if k == after[slot].name then Forget(after[slot].node)
            else if k in Forget(Object(cs)).fields then Forget(Object(cs)).fields[k] else Nothing
  {
    var i :| 0 <= i < |after| && after[i].name == k;
    ForgetLookup(after, i);
    if i != slot { ForgetLookup(cs, i); }
  }

  /** Writing the joined member into a joined record is joining the written record. */
  lemma JoinPutField(f: map<string, Shape>, g: map<string, Shape>, k: string, s: Shape)
    ensures
      var g' := g[k := Join(if k in g then g[k] else Nothing, s)];
      var j := Join(Record(f), Record(g)).fields;
      Join(Record(f), Record(g')).fields == j[k := Join(if k in j then j[k] else Nothing, s)]
  {
    if k in f && k in g {
      JoinAssociates(f[k], g[k], s);
    }
  }

  lemma {:induction false} MergeElementsIsJoin(t: Temporal, e: Node, v: Json, count: nat, depth: nat)
    requires v.Arr? && count <= |v.elems| && WellFormed(e)
    ensures Forget(MergeElements(t, e, v, count, depth)) == Join(Forget(e), ShapeOfElements(t, v, count, depth))
    decreases v, 0, count
  {
    if count == 0 {
      JoinCommutes(Forget(e), Nothing);
    } else {
      MergeElementsIsJoin(t, e, v, count - 1, depth);
      MergeElementsKeepsWellFormed(t, e, v, count - 1, depth);
      MergeIsJoin(t, MergeElements(t, e, v, count - 1, depth), v.elems[count - 1], depth + 1);
      JoinAssociates(Forget(e), ShapeOfElements(t, v, count - 1, depth), ShapeOf(t, v.elems[count - 1], depth + 1));
    }
  }

  // ---------------------------------------------------------------------------
  // Order independence
  // ---------------------------------------------------------------------------

  lemma {:induction false} InferIsJoin(t: Temporal, rows: seq<Json>)
    ensures WellFormed(Infer(t, rows))
    ensures Forget(Infer(t, rows)) == JoinAll(t, rows)
  {
    if rows != [] {
      var init, last := rows[..|rows| - 1], rows[|rows| - 1];
      InferIsJoin(t, init);
      MergeKeepsWellFormed(t, Infer(t, init), last, 0);
      MergeIsJoin(t, Infer(t, init), last, 0);
    }
  }

  lemma BelowTransitive(a: Shape, b: Shape, c: Shape)
    requires Below(a, b) && Below(b, c)
    ensures Below(a, c)
  {
    JoinAssociates(c, b, a);
  }

  lemma BelowJoin(a: Shape, b: Shape)
    ensures Below(a, Join(a, b)) && Below(b, Join(a, b))
  {
    JoinAssociates(a, b, b);
    JoinIdempotent(b);
    JoinCommutes(a, b);
    JoinAssociates(b, a, a);
    JoinIdempotent(a);
  }

  lemma {:induction false} RowBelowAll(t: Temporal, rows: seq<Json>, i: nat)
    requires i < |rows|
    ensures Below(ShapeOf(t, rows[i], 0), JoinAll(t, rows))
  {
    var init, last := rows[..|rows| - 1], rows[|rows| - 1];
    BelowJoin(JoinAll(t, init), ShapeOf(t, last, 0));
    if i < |rows| - 1 {
      RowBelowAll(t, init, i);
      assert init[i] == rows[i];
      BelowTransitive(ShapeOf(t, rows[i], 0), JoinAll(t, init), JoinAll(t, rows));
    }
  }

  lemma {:induction false} AllBelow(t: Temporal, rows: seq<Json>, bound: Shape)
    requires forall i :: 0 <= i < |rows| ==> Below(ShapeOf(t, rows[i], 0), bound)
    ensures Below(JoinAll(t, rows), bound)
  {
    if rows == [] {
      JoinCommutes(bound, Nothing);
    } else {
      var init, last := rows[..|rows| - 1], rows[|rows| - 1];
      assert forall i :: 0 <= i < |init| ==> init[i] == rows[i];
      AllBelow(t, init, bound);
      JoinAssociates(bound, JoinAll(t, init), ShapeOf(t, last, 0));
    }
  }

  /** Inference sees a payload as a set of rows: reordering or repeating rows changes
      nothing but the order of children. */
  lemma InferIgnoresOrderAndDuplicates(t: Temporal, rows: seq<Json>, rows': seq<Json>)
    requires forall r :: r in rows <==> r in rows'
    ensures Forget(Infer(t, rows)) == Forget(Infer(t, rows'))
  {
    InferIsJoin(t, rows);
    InferIsJoin(t, rows');
    var a, b := JoinAll(t, rows), JoinAll(t, rows');
    forall i | 0 <= i < |rows| ensures Below(ShapeOf(t, rows[i], 0), b) {
      assert rows[i] in rows;
      var j :| 0 <= j < |rows'| && rows'[j] == rows[i];
      RowBelowAll(t, rows', j);
    }
    forall i | 0 <= i < |rows'| ensures Below(ShapeOf(t, rows'[i], 0), a) {
      assert rows'[i] in rows';
      var j :| 0 <= j < |rows| && rows[j] == rows'[i];
      RowBelowAll(t, rows, j);
    }
    AllBelow(t, rows, b);
    AllBelow(t, rows', a);
    JoinCommutes(a, b);
  }

  /** Inferring a concatenation joins the two inferred trees. */
  lemma {:induction false} InferConcat(t: Temporal, xs: seq<Json>, ys: seq<Json>)
    ensures Forget(Infer(t, xs + ys)) == Join(Forget(Infer(t, xs)), Forget(Infer(t, ys)))
  {
    InferIsJoin(t, xs);
    InferIsJoin(t, ys);
    InferIsJoin(t, xs + ys);
    if ys == [] {
      assert xs + ys == xs;
      JoinCommutes(JoinAll(t, xs), Nothing);
    } else {
      var init, last := ys[..|ys| - 1], ys[|ys| - 1];
      assert (xs + ys)[..|xs + ys| - 1] == xs + init;
      InferConcat(t, xs, init);
      InferIsJoin(t, xs + init);
      InferIsJoin(t, init);
      JoinAssociates(JoinAll(t, xs), JoinAll(t, init), ShapeOf(t, last, 0));
    }
  }
}
