/** Exactly which node, and which column type, inference arrives at, in terms of the values the
    rows have at a place. */
module Kinds {
  import opened Json
  import opened Inference
  import opened ColumnTypes
  import opened Flatten

  // ---------------------------------------------------------------------------
  // The values at a place
  // ---------------------------------------------------------------------------

  /** A place in the schema: under a member's name, or among the elements of lists. */
  datatype Place = Member(key: string) | Element

  function FieldValues(fields: seq<Field>, key: string): (ws: seq<Json>) {
    if fields == [] then []
    else
      var last := fields[|fields| - 1];
      FieldValues(fields[..|fields| - 1], key) + if last.key == key then [last.value] else []
  }

  function MembersOf(ws: seq<Json>, key: string): (r: seq<Json>) {
    if ws == [] then []
    else
      var last := ws[|ws| - 1];
      MembersOf(ws[..|ws| - 1], key) + if last.Obj? then FieldValues(last.fields, key) else []
  }

  function ElementsOf(ws: seq<Json>): (r: seq<Json>) {
    if ws == [] then []
    else
      var last := ws[|ws| - 1];
      ElementsOf(ws[..|ws| - 1]) + if last.Arr? then last.elems else []
  }

  /** The values that the rows have at a place, in order, repeated members included. */
  function ValuesAt(rows: seq<Json>, at: seq<Place>): (ws: seq<Json>)
    decreases |at|
  {
    if at == [] then rows
    else ValuesAt(match at[0] case Member(k) => MembersOf(rows, k) case Element => ElementsOf(rows), at[1..])
  }

  predicate SomeValue(ws: seq<Json>) { exists i :: 0 <= i < |ws| && !ws[i].Null? }

  predicate Only(ws: seq<Json>, p: Json -> bool) { forall i :: 0 <= i < |ws| && !ws[i].Null? ==> p(ws[i]) }

  const IS_SCALAR: Json -> bool := (v: Json) => IsScalar(v)
  const IS_OBJECT: Json -> bool := (v: Json) => v.Obj?
  const IS_LIST: Json -> bool := (v: Json) => v.Arr?
  const IS_BOOLEAN: Json -> bool := (v: Json) => v.Bool?
  const IS_NUMBER: Json -> bool := (v: Json) => v.Int? || v.Real?
  const IS_INT64: Json -> bool := (v: Json) => v.Int? && v.i <= 0x7fff_ffff_ffff_ffff

  /** Eight to forty characters, the first of them a digit. */
  predicate LooksTemporal(v: Json) { v.Str? && 8 <= |v.s| <= 40 && '0' <= v.s[0] <= '9' }

  function IsDate(t: Temporal): (p: Json -> bool) { (v: Json) => LooksTemporal(v) && t.date(v.s) }

  function IsMoment(t: Temporal): (p: Json -> bool) { (v: Json) => LooksTemporal(v) && (t.date(v.s) || t.timestamp(v.s)) }

  lemma OnlyStep(ws: seq<Json>, last: Json, p: Json -> bool)
    ensures Only(ws + [last], p) <==> Only(ws, p) && (last.Null? || p(last))
  {
    var all := ws + [last];
    assert all[|ws|] == last;
    if Only(all, p) {
      forall i | 0 <= i < |ws| && !ws[i].Null? ensures p(ws[i]) { assert all[i] == ws[i]; }
    }
  }

  lemma SomeStep(ws: seq<Json>, last: Json)
    ensures SomeValue(ws + [last]) <==> SomeValue(ws) || !last.Null?
  {
    var all := ws + [last];
    assert all[|ws|] == last;
    if i :| 0 <= i < |ws| && !ws[i].Null? { assert !all[i].Null?; }
  }

  // ---------------------------------------------------------------------------
  // One place: what the join of the values' shapes is
  // ---------------------------------------------------------------------------

  /** The kind of a place with scalars only. */
  ghost predicate KindSays(t: Temporal, ws: seq<Json>, k: Kind) {
    && k != UNSET
    && (k == BOOLEAN <==> Only(ws, IS_BOOLEAN))
    && (k == BIGINT <==> Only(ws, IS_INT64))
    && (k == DOUBLE <==> Only(ws, IS_NUMBER) && !Only(ws, IS_INT64))
    && (k == DATE <==> Only(ws, IsDate(t)))
    && (k == TIMESTAMP <==> Only(ws, IsMoment(t)) && !Only(ws, IsDate(t)))
    && (k == VARCHAR <==> !Only(ws, IS_BOOLEAN) && !Only(ws, IS_NUMBER) && !Only(ws, IsMoment(t)))
  }

  ghost predicate ShapeSays(t: Temporal, ws: seq<Json>, s: Shape) {
    && (s.Nothing? <==> !SomeValue(ws))
    && (s.Plain? <==> SomeValue(ws) && Only(ws, IS_SCALAR))
    && (s.Record? <==> SomeValue(ws) && Only(ws, IS_OBJECT))
    && (s.ListOf? <==> SomeValue(ws) && Only(ws, IS_LIST))
    && (s.Plain? ==> KindSays(t, ws, s.kind))
  }

  function JoinOf(t: Temporal, ws: seq<Json>, depth: nat): (s: Shape) {
    if ws == [] then Nothing else Join(JoinOf(t, ws[..|ws| - 1], depth), ShapeOf(t, ws[|ws| - 1], depth))
  }

  lemma {:induction false} JoinOfRows(t: Temporal, rows: seq<Json>)
    ensures JoinOf(t, rows, 0) == JoinAll(t, rows)
  {
    if rows != [] { JoinOfRows(t, rows[..|rows| - 1]); }
  }

  lemma {:induction false} JoinOfConcat(t: Temporal, ws: seq<Json>, xs: seq<Json>, depth: nat)
    ensures JoinOf(t, ws + xs, depth) == Join(JoinOf(t, ws, depth), JoinOf(t, xs, depth))
  {
    if xs == [] {
      assert ws + xs == ws;
      JoinCommutes(JoinOf(t, ws, depth), Nothing);
    } else {
      var init, last := xs[..|xs| - 1], xs[|xs| - 1];
      assert (ws + xs)[..|ws + xs| - 1] == ws + init;
      JoinOfConcat(t, ws, init, depth);
      JoinAssociates(JoinOf(t, ws, depth), JoinOf(t, init, depth), ShapeOf(t, last, depth));
    }
  }

  lemma OneSays(t: Temporal, v: Json, depth: nat)
    requires depth <= MAX_NESTING
    ensures ShapeSays(t, [v], ShapeOf(t, v, depth))
  {
    var ws := [v];
    assert ws[0] == v;
    assert [] + [v] == ws;
    SomeStep([], v);
    OnlyStep([], v, IS_SCALAR); OnlyStep([], v, IS_OBJECT); OnlyStep([], v, IS_LIST); OnlyStep([], v, IS_BOOLEAN);
    OnlyStep([], v, IS_NUMBER); OnlyStep([], v, IS_INT64); OnlyStep([], v, IsDate(t)); OnlyStep([], v, IsMoment(t));
    assert IsDate(t)(v) <==> LooksTemporal(v) && t.date(v.s);
    assert IsMoment(t)(v) <==> LooksTemporal(v) && (t.date(v.s) || t.timestamp(v.s));
  }

  lemma OnlyConcat(ws: seq<Json>, xs: seq<Json>, p: Json -> bool)
    ensures Only(ws + xs, p) <==> Only(ws, p) && Only(xs, p)
  {
    var all := ws + xs;
    assert forall i :: 0 <= i < |ws| ==> all[i] == ws[i];
    assert forall i :: 0 <= i < |xs| ==> all[|ws| + i] == xs[i];
  }

  lemma SomeConcat(ws: seq<Json>, xs: seq<Json>)
    ensures SomeValue(ws + xs) <==> SomeValue(ws) || SomeValue(xs)
  {
    var all := ws + xs;
    if i :| 0 <= i < |ws| && !ws[i].Null? { assert !all[i].Null?; }
    if i :| 0 <= i < |xs| && !xs[i].Null? { assert !all[|ws| + i].Null?; }
  }

  lemma JoinTwoSays(t: Temporal, ws: seq<Json>, xs: seq<Json>, a: Shape, b: Shape)
    requires ShapeSays(t, ws, a) && ShapeSays(t, xs, b)
    ensures ShapeSays(t, ws + xs, Join(a, b))
  {
    SomeConcat(ws, xs);
    forall p: Json -> bool
      ensures Only(ws + xs, p) <==> Only(ws, p) && Only(xs, p)
      ensures !SomeValue(ws) ==> Only(ws, p)
      ensures !SomeValue(xs) ==> Only(xs, p)
    {
      OnlyConcat(ws, xs, p);
    }
    hide Only, SomeValue;
  }

  lemma {:induction false} JoinSays(t: Temporal, ws: seq<Json>, depth: nat)
    requires depth <= MAX_NESTING
    ensures ShapeSays(t, ws, JoinOf(t, ws, depth))
  {
    if ws != [] {
      var init, v := ws[..|ws| - 1], ws[|ws| - 1];
      JoinSays(t, init, depth);
      OneSays(t, v, depth);
      JoinTwoSays(t, init, [v], JoinOf(t, init, depth), ShapeOf(t, v, depth));
      assert ws == init + [v];
    }
  }

  // ---------------------------------------------------------------------------
  // From a place to the places below it
  // ---------------------------------------------------------------------------

  function FieldOr(fields: map<string, Shape>, key: string): (s: Shape) {
    if key in fields then fields[key] else Nothing
  }

  lemma {:induction false} FieldsJoin(t: Temporal, v: Json, count: nat, depth: nat, key: string)
    requires v.Obj? && count <= |v.fields|
    ensures key in ShapeOfFields(t, v, count, depth) <==> FieldValues(v.fields[..count], key) != []
    ensures FieldOr(ShapeOfFields(t, v, count, depth), key) == JoinOf(t, FieldValues(v.fields[..count], key), depth + 1)
    decreases count
  {
    if count > 0 {
      FieldsJoin(t, v, count - 1, depth, key);
      var fields, last := v.fields[..count], v.fields[count - 1];
      assert fields[..count - 1] == v.fields[..count - 1];
      var init := FieldValues(v.fields[..count - 1], key);
      if last.key == key { JoinOfOneMore(t, init, last.value, depth + 1); } else { assert init + [] == init; }
    }
  }

  lemma JoinOfOneMore(t: Temporal, ws: seq<Json>, v: Json, depth: nat)
    ensures JoinOf(t, ws + [v], depth) == Join(JoinOf(t, ws, depth), ShapeOf(t, v, depth))
  {
    assert (ws + [v])[..|ws|] == ws;
  }

  lemma {:induction false} ElementsJoin(t: Temporal, v: Json, count: nat, depth: nat)
    requires v.Arr? && count <= |v.elems|
    ensures ShapeOfElements(t, v, count, depth) == JoinOf(t, v.elems[..count], depth + 1)
    decreases count
  {
    if count > 0 {
      ElementsJoin(t, v, count - 1, depth);
      assert v.elems[..count][..count - 1] == v.elems[..count - 1];
    }
  }

  /** A record's fields are the joins of the members' values. */
  lemma {:induction false} RecordJoins(t: Temporal, ws: seq<Json>, depth: nat, key: string)
    requires depth <= MAX_NESTING && (JoinOf(t, ws, depth).Record? || JoinOf(t, ws, depth).Nothing?)
    ensures
      var s, below := JoinOf(t, ws, depth), MembersOf(ws, key);
      if s.Nothing? then below == []
      else (key in s.fields <==> below != []) && FieldOr(s.fields, key) == JoinOf(t, below, depth + 1)
  {
    if ws != [] {
      var init, v := ws[..|ws| - 1], ws[|ws| - 1];
      var a, b := JoinOf(t, init, depth), ShapeOf(t, v, depth);
      assert a.Record? || a.Nothing?;
      assert b.Record? || b.Nothing?;
      RecordJoins(t, init, depth, key);
      var before := MembersOf(init, key);
      if v.Obj? {
        var now := FieldValues(v.fields, key);
        FieldsJoin(t, v, |v.fields|, depth, key);
        assert v.fields[..|v.fields|] == v.fields;
        JoinOfConcat(t, before, now, depth + 1);
        JoinCommutes(FieldOr(b.fields, key), Nothing);
        if a.Nothing? { assert before + now == now; }
      } else {
        assert before + [] == before;
        JoinCommutes(a, Nothing);
      }
    }
  }

  /** A list's element is the join of all elements. */
  lemma {:induction false} ListJoins(t: Temporal, ws: seq<Json>, depth: nat)
    requires depth <= MAX_NESTING && (JoinOf(t, ws, depth).ListOf? || JoinOf(t, ws, depth).Nothing?)
    ensures
      var s, below := JoinOf(t, ws, depth), ElementsOf(ws);
      if s.Nothing? then below == [] else s.element == JoinOf(t, below, depth + 1)
  {
    if ws != [] {
      var init, v := ws[..|ws| - 1], ws[|ws| - 1];
      var a, b := JoinOf(t, init, depth), ShapeOf(t, v, depth);
      assert a.ListOf? || a.Nothing?;
      assert b.ListOf? || b.Nothing?;
      ListJoins(t, init, depth);
      var before := ElementsOf(init);
      if v.Arr? {
        ElementsJoin(t, v, |v.elems|, depth);
        assert v.elems[..|v.elems|] == v.elems;
        JoinOfConcat(t, before, v.elems, depth + 1);
        if a.Nothing? { assert before + v.elems == v.elems; }
      } else {
        assert before + [] == before;
        JoinCommutes(a, Nothing);
      }
    }
  }

  function NodeAt(n: Node, at: seq<Place>): (r: Option<Node>)
    decreases |at|
  {
    if at == [] then Some(n)
    else
      match at[0]
      case Member(k) =>
        if n.Object? && Find(n.children, k).Some? then NodeAt(n.children[Find(n.children, k).value].node, at[1..]) else None
      case Element => if n.Array? then NodeAt(n.element, at[1..]) else None
  }

  function ChildAt(n: Node, at: seq<Place>): (r: Node)
    requires at != [] && NodeAt(n, at).Some?
  {
    if at[0].Member? then n.children[Find(n.children, at[0].key).value].node else n.element
  }

  lemma MemberJoins(t: Temporal, n: Node, ws: seq<Json>, depth: nat, key: string)
    requires WellFormed(n) && Forget(n) == JoinOf(t, ws, depth) && n.Object? && Find(n.children, key).Some?
    ensures
      var child := n.children[Find(n.children, key).value].node;
      WellFormed(child) && Forget(child) == JoinOf(t, MembersOf(ws, key), depth + 1)
  {
    DeepIsOpaque(t, ws, depth);
    RecordJoins(t, ws, depth, key);
    ForgetLookup(n.children, Find(n.children, key).value);
  }

  lemma ElementJoins(t: Temporal, n: Node, ws: seq<Json>, depth: nat)
    requires WellFormed(n) && Forget(n) == JoinOf(t, ws, depth) && n.Array?
    ensures WellFormed(n.element) && Forget(n.element) == JoinOf(t, ElementsOf(ws), depth + 1)
  {
    DeepIsOpaque(t, ws, depth);
    ListJoins(t, ws, depth);
  }

  /** The node at a place has absorbed exactly the values at that place. */
  lemma {:induction false} NodeJoins(t: Temporal, n: Node, ws: seq<Json>, depth: nat, at: seq<Place>)
    requires WellFormed(n) && Forget(n) == JoinOf(t, ws, depth) && NodeAt(n, at).Some?
    ensures WellFormed(NodeAt(n, at).value) && Forget(NodeAt(n, at).value) == JoinOf(t, ValuesAt(ws, at), depth + |at|)
    decreases |at|
  {
    if at != [] {
      hide Forget, JoinOf, WellFormed, MembersOf, ElementsOf;
      var child := ChildAt(n, at);
      var below := match at[0] case Member(k) => MembersOf(ws, k) case Element => ElementsOf(ws);
      if at[0].Member? { MemberJoins(t, n, ws, depth, at[0].key); } else { ElementJoins(t, n, ws, depth); }
      NodeJoins(t, child, below, depth + 1, at[1..]);
      assert NodeAt(n, at) == NodeAt(child, at[1..]);
    }
  }

  /** Below the nesting limit nothing is looked at. */
  lemma {:induction false} DeepIsOpaque(t: Temporal, ws: seq<Json>, depth: nat)
    ensures depth > MAX_NESTING ==> JoinOf(t, ws, depth) == if ws == [] then Nothing else Opaque
  {
    if ws != [] { DeepIsOpaque(t, ws[..|ws| - 1], depth); }
  }

  /** Objects with a member, and lists, have a node below them; nothing else has. */
  lemma NodeBelow(t: Temporal, n: Node, ws: seq<Json>, depth: nat, key: string)
    requires WellFormed(n) && Forget(n) == JoinOf(t, ws, depth) && depth <= MAX_NESTING
    ensures NodeAt(n, [Member(key)]).Some? <==> SomeValue(ws) && Only(ws, IS_OBJECT) && MembersOf(ws, key) != []
    ensures NodeAt(n, [Element]).Some? <==> SomeValue(ws) && Only(ws, IS_LIST)
  {
    JoinSays(t, ws, depth);
    if n.Object? {
      RecordJoins(t, ws, depth, key);
      assert key in Forget(n).fields <==> key in ChildNames(n.children);
    }
  }

  // ---------------------------------------------------------------------------
  // Nodes and column types, by the values of the rows
  // ---------------------------------------------------------------------------

  ghost predicate NoValues(ws: seq<Json>, depth: nat) { if depth > 128 then ws == [] else !SomeValue(ws) }
  ghost predicate Scalars(ws: seq<Json>, depth: nat) { depth <= 128 && SomeValue(ws) && Only(ws, IS_SCALAR) }
  ghost predicate Objects(ws: seq<Json>, depth: nat) { depth <= 128 && SomeValue(ws) && Only(ws, IS_OBJECT) }
  ghost predicate Lists(ws: seq<Json>, depth: nat) { depth <= 128 && SomeValue(ws) && Only(ws, IS_LIST) }

  /** Values that have no type in common, or lie too deep to be looked at. */
  ghost predicate Mixed(ws: seq<Json>, depth: nat) {
    !NoValues(ws, depth) && !Scalars(ws, depth) && !Objects(ws, depth) && !Lists(ws, depth)
  }

  ghost predicate NodeSays(t: Temporal, ws: seq<Json>, depth: nat, n: Node) {
    && (n.Unset? <==> NoValues(ws, depth))
    && (n.Scalar? <==> Scalars(ws, depth))
    && (n.Object? <==> Objects(ws, depth))
    && (n.Array? <==> Lists(ws, depth))
    && (n.JsonNode? <==> Mixed(ws, depth))
    && (n.Scalar? ==> KindSays(t, ws, n.kind))
  }

  lemma JoinNodeSays(t: Temporal, n: Node, ws: seq<Json>, depth: nat)
    requires Forget(n) == JoinOf(t, ws, depth)
    ensures NodeSays(t, ws, depth, n)
  {
    if depth <= MAX_NESTING { JoinSays(t, ws, depth); } else { DeepIsOpaque(t, ws, depth); }
  }

  lemma InferredAt(t: Temporal, rows: seq<Json>, at: seq<Place>)
    requires NodeAt(Infer(t, rows), at).Some?
    ensures
      var n := NodeAt(Infer(t, rows), at).value;
      WellFormed(n) && Forget(n) == JoinOf(t, ValuesAt(rows, at), |at|)
  {
    hide *;
    InferIsJoin(t, rows);
    JoinOfRows(t, rows);
    NodeJoins(t, Infer(t, rows), rows, 0, at);
  }

  /** What inference finds at a place is decided by the values there: one kind exactly when they
      are all of that kind, and the narrowest that takes them all. */
  lemma InferredNodeSays(t: Temporal, rows: seq<Json>, at: seq<Place>)
    requires NodeAt(Infer(t, rows), at).Some?
    ensures NodeSays(t, ValuesAt(rows, at), |at|, NodeAt(Infer(t, rows), at).value)
  {
    InferredAt(t, rows, at);
    JoinNodeSays(t, NodeAt(Infer(t, rows), at).value, ValuesAt(rows, at), |at|);
  }

  /** And which places there are: the root, and below a place the members of its objects when
      it has nothing else, or the elements of its lists. */
  lemma PlacesBelow(t: Temporal, rows: seq<Json>, at: seq<Place>, key: string)
    requires NodeAt(Infer(t, rows), at).Some?
    ensures
      var n, ws := NodeAt(Infer(t, rows), at).value, ValuesAt(rows, at);
      && (NodeAt(n, [Member(key)]).Some? <==> Objects(ws, |at|) && MembersOf(ws, key) != [])
      && (NodeAt(n, [Element]).Some? <==> Lists(ws, |at|))
  {
    InferredAt(t, rows, at);
    var n, ws := NodeAt(Infer(t, rows), at).value, ValuesAt(rows, at);
    if |at| <= MAX_NESTING { NodeBelow(t, n, ws, |at|, key); } else { DeepIsOpaque(t, ws, |at|); }
  }

  /** The column type of a place. Lists of objects, and of values without a type in common, are
      JSON as a whole. */
  ghost predicate TypeSays(t: Temporal, ws: seq<Json>, depth: nat, ty: LType)
    decreases ty
  {
    var elems := ElementsOf(ws);
    var loose := Objects(elems, depth + 1) || Mixed(elems, depth + 1);
    match ty
    case TBoolean => Scalars(ws, depth) && Only(ws, IS_BOOLEAN)
    case TBigInt => Scalars(ws, depth) && Only(ws, IS_INT64)
    case TDouble => Scalars(ws, depth) && Only(ws, IS_NUMBER) && !Only(ws, IS_INT64)
    case TDate => Scalars(ws, depth) && Only(ws, IsDate(t))
    case TTimestamp => Scalars(ws, depth) && Only(ws, IsMoment(t)) && !Only(ws, IsDate(t))
    case TVarchar =>
      || NoValues(ws, depth)
      || (Scalars(ws, depth) && !Only(ws, IS_BOOLEAN) && !Only(ws, IS_NUMBER) && !Only(ws, IsMoment(t)))
    case TList(e) => Lists(ws, depth) && !loose && TypeSays(t, elems, depth + 1, e)
    case TJson => Objects(ws, depth) || Mixed(ws, depth) || (Lists(ws, depth) && loose)
    case _ => false
  }

  lemma {:induction false} NodeTypeSays(t: Temporal, n: Node, ws: seq<Json>, depth: nat)
    requires WellFormed(n) && Forget(n) == JoinOf(t, ws, depth)
    ensures TypeSays(t, ws, depth, NodeToType(n))
    decreases n
  {
    JoinNodeSays(t, n, ws, depth);
    if n.Array? {
      ElementJoins(t, n, ws, depth);
      JoinNodeSays(t, n.element, ElementsOf(ws), depth + 1);
      NodeTypeSays(t, n.element, ElementsOf(ws), depth + 1);
    }
  }

  lemma {:induction false} OneTypeSays(t: Temporal, ws: seq<Json>, depth: nat, n: Node, ty: LType)
    requires WellFormed(n) && Forget(n) == JoinOf(t, ws, depth) && TypeSays(t, ws, depth, ty)
    ensures ty == NodeToType(n)
    decreases n
  {
    JoinNodeSays(t, n, ws, depth);
    if n.Array? {
      ElementJoins(t, n, ws, depth);
      JoinNodeSays(t, n.element, ElementsOf(ws), depth + 1);
      if ty.TList? { OneTypeSays(t, ElementsOf(ws), depth + 1, n.element, ty.elem); }
    }
  }

  function Members(path: seq<string>): (at: seq<Place>)
    ensures |at| == |path|
  {
    seq(|path|, i requires 0 <= i < |path| => Member(path[i]))
  }

  /** Leaves by depth: an object with members is a leaf at the flattening limit only. */
  lemma {:induction false} LeafAtIff(n: Node, path: seq<string>, depth: nat, leaf: Node)
    requires depth <= MAX_FLATTEN_DEPTH
    ensures LeafAt(n, path, depth) == Some(leaf) <==>
      && 1 <= |path| && depth + |path| <= 17
      && NodeAt(n, Members(path)) == Some(leaf)
      && (leaf.Object? && leaf.children != [] ==> depth + |path| == 17)
    decreases |path|
  {
    if path != [] {
      assert Members(path)[1..] == Members(path[1..]);
      if n.Object? && Find(n.children, path[0]).Some? {
        var c := n.children[Find(n.children, path[0]).value].node;
        if Opens(c, depth) { LeafAtIff(c, path[1..], depth + 1, leaf); }
      }
    }
  }

  /** The type of a column, for whatever payload: `ty` is it exactly when the values at the
      column's path say so. */
  lemma ColumnTypeIff(t: Temporal, rows: seq<Json>, cols: seq<Column>, c: nat, ty: LType)
    requires Infer(t, rows).Object? && WellFlattened(Infer(t, rows), cols) && c < |cols|
    ensures cols[c].ty == ty <==> TypeSays(t, ValuesAt(rows, Members(cols[c].path)), |cols[c].path|, ty)
  {
    var root, at := Infer(t, rows), Members(cols[c].path);
    LeafAtIff(root, cols[c].path, 0, cols[c].node);
    InferredAt(t, rows, at);
    var ws := ValuesAt(rows, at);
    NodeTypeSays(t, cols[c].node, ws, |at|);
    if TypeSays(t, ws, |at|, ty) { OneTypeSays(t, ws, |at|, cols[c].node, ty); }
  }

  /** The same for the lone column of rows that are not objects. */
  lemma ValueColumnTypeIff(t: Temporal, rows: seq<Json>, ty: LType)
    ensures NodeToType(Infer(t, rows)) == ty <==> TypeSays(t, rows, 0, ty)
  {
    InferredAt(t, rows, []);
    NodeTypeSays(t, Infer(t, rows), rows, 0);
    if TypeSays(t, rows, 0, ty) { OneTypeSays(t, rows, 0, Infer(t, rows), ty); }
  }

  // ---------------------------------------------------------------------------
  // The order of members
  // ---------------------------------------------------------------------------

  function KeysIn(fields: seq<Field>): (names: seq<string>) {
    seq(|fields|, i requires 0 <= i < |fields| => fields[i].key)
  }

  /** The member names of all objects, in order and with repetitions. */
  function KeysOf(ws: seq<Json>): (names: seq<string>) {
    if ws == [] then []
    else KeysOf(ws[..|ws| - 1]) + if ws[|ws| - 1].Obj? then KeysIn(ws[|ws| - 1].fields) else []
  }

  /** Each further name is added the first time it is seen. */
  function FirstSeen(names: seq<string>, more: seq<string>): (r: seq<string>) {
    if more == [] then names
    else
      var r, last := FirstSeen(names, more[..|more| - 1]), more[|more| - 1];
      if last in r then r else r + [last]
  }

  lemma {:induction false} FirstSeenConcat(names: seq<string>, xs: seq<string>, ys: seq<string>)
    ensures FirstSeen(names, xs + ys) == FirstSeen(FirstSeen(names, xs), ys)
    decreases |ys|
  {
    if ys == [] {
      assert xs + ys == xs;
    } else {
      assert (xs + ys)[..|xs + ys| - 1] == xs + ys[..|ys| - 1];
      FirstSeenConcat(names, xs, ys[..|ys| - 1]);
    }
  }

  function NamesOf(cs: seq<Child>): (names: seq<string>) {
    seq(|cs|, i requires 0 <= i < |cs| => cs[i].name)
  }

  function MergeFrom(t: Temporal, n: Node, ws: seq<Json>, depth: nat): (r: Node) {
    if ws == [] then n else Merge(t, MergeFrom(t, n, ws[..|ws| - 1], depth), ws[|ws| - 1], depth)
  }

  lemma {:induction false} MergeFromConcat(t: Temporal, n: Node, ws: seq<Json>, xs: seq<Json>, depth: nat)
    ensures MergeFrom(t, n, ws + xs, depth) == MergeFrom(t, MergeFrom(t, n, ws, depth), xs, depth)
    decreases |xs|
  {
    if xs == [] {
      assert ws + xs == ws;
    } else {
      assert (ws + xs)[..|ws + xs| - 1] == ws + xs[..|xs| - 1];
      MergeFromConcat(t, n, ws, xs[..|xs| - 1], depth);
    }
  }

  lemma {:induction false} InferIsMergeFrom(t: Temporal, rows: seq<Json>)
    ensures Infer(t, rows) == MergeFrom(t, Unset, rows, 0)
  {
    if rows != [] { InferIsMergeFrom(t, rows[..|rows| - 1]); }
  }

  lemma MergeFieldChild(t: Temporal, cs: seq<Child>, v: Json, at: nat, depth: nat, key: string)
    requires v.Obj? && at < |v.fields| && WellFormed(Object(cs))
    ensures
      var f, r := v.fields[at], MergeField(t, cs, v, at, depth);
      && NamesOf(r) == FirstSeen(NamesOf(cs), [f.key])
      && Prior(r, key) == if key == f.key then Merge(t, Prior(cs, key), f.value, depth + 1) else Prior(cs, key)
  {
    var f, r := v.fields[at], MergeField(t, cs, v, at, depth);
    assert [f.key][..0] == [] && FirstSeen(NamesOf(cs), []) == NamesOf(cs);
    MergeFieldNames(t, cs, v, at, depth);
    MergeFieldKeepsNames(t, cs, v, at, depth);
    var slot := match Find(cs, f.key) case Some(i) => i case None => |cs|;
    assert r[slot].name == f.key && forall i :: 0 <= i < |cs| && i != slot ==> r[i] == cs[i];
    FindUnique(r, slot);
    if key != f.key { OtherChild(cs, r, slot, key); }
  }

  lemma MergeFieldKeepsNames(t: Temporal, cs: seq<Child>, v: Json, at: nat, depth: nat)
    requires v.Obj? && at < |v.fields| && UniqueNames(cs)
    ensures UniqueNames(MergeField(t, cs, v, at, depth))
  {
  }

  lemma OtherChild(cs: seq<Child>, r: seq<Child>, slot: nat, key: string)
    requires UniqueNames(cs) && UniqueNames(r) && |cs| <= |r| <= |cs| + 1 && slot < |r| && (|r| > |cs| ==> slot == |cs|)
    requires forall i :: 0 <= i < |cs| && i != slot ==> r[i] == cs[i]
    requires r[slot].name != key && (slot < |cs| ==> cs[slot].name != key)
    ensures Prior(r, key) == Prior(cs, key)
  {
    if Find(cs, key).Some? { FindUnique(r, Find(cs, key).value); }
  }

  lemma MergeFieldNames(t: Temporal, cs: seq<Child>, v: Json, at: nat, depth: nat)
    requires v.Obj? && at < |v.fields| && WellFormed(Object(cs))
    ensures
      var f, r := v.fields[at], MergeField(t, cs, v, at, depth);
      NamesOf(r) == if f.key in NamesOf(cs) then NamesOf(cs) else NamesOf(cs) + [f.key]
  {
    var f := v.fields[at];
    match Find(cs, f.key)
    case Some(i) => assert NamesOf(cs)[i] == f.key;
    case None =>
      if f.key in NamesOf(cs) { var i :| 0 <= i < |cs| && NamesOf(cs)[i] == f.key; }
  }

  lemma {:induction false} MergeFieldsChild(t: Temporal, cs: seq<Child>, v: Json, count: nat, depth: nat, key: string)
    requires v.Obj? && count <= |v.fields| && WellFormed(Object(cs))
    ensures
      var r := MergeFields(t, cs, v, count, depth);
      && NamesOf(r) == FirstSeen(NamesOf(cs), KeysIn(v.fields[..count]))
      && Prior(r, key) == MergeFrom(t, Prior(cs, key), FieldValues(v.fields[..count], key), depth + 1)
    decreases count
  {
    if count > 0 {
      var before, f := MergeFields(t, cs, v, count - 1, depth), v.fields[count - 1];
      MergeFieldsChild(t, cs, v, count - 1, depth, key);
      MergeFieldsKeepsWellFormed(t, cs, v, count - 1, depth);
      MergeFieldChild(t, before, v, count - 1, depth, key);
      FieldsStep(t, Prior(cs, key), v.fields, count, depth + 1, key);
      FirstSeenConcat(NamesOf(cs), KeysIn(v.fields[..count - 1]), [f.key]);
      hide MergeFrom, FieldValues, KeysIn, FirstSeen, MergeField, Prior, NamesOf, Merge;
    }
  }

  lemma FieldsStep(t: Temporal, n: Node, fields: seq<Field>, count: nat, depth: nat, key: string)
    requires 0 < count <= |fields|
    ensures KeysIn(fields[..count]) == KeysIn(fields[..count - 1]) + [fields[count - 1].key]
    ensures
      var before, f := MergeFrom(t, n, FieldValues(fields[..count - 1], key), depth), fields[count - 1];
      MergeFrom(t, n, FieldValues(fields[..count], key), depth) == if f.key == key then Merge(t, before, f.value, depth) else before
  {
    var init, f := FieldValues(fields[..count - 1], key), fields[count - 1];
    assert fields[..count][..count - 1] == fields[..count - 1];
    if f.key == key { assert (init + [f.value])[..|init|] == init; } else { assert init + [] == init; }
  }

  /** An opened object's children, after any number of values. */
  lemma {:induction false} MergedChildren(t: Temporal, ws: seq<Json>, depth: nat, key: string)
    requires depth <= MAX_NESTING
    ensures
      var n := MergeFrom(t, Unset, ws, depth);
      && (n.Unset? ==> KeysOf(ws) == [] && MembersOf(ws, key) == [])
      && (n.Object? ==>
            && NamesOf(n.children) == FirstSeen([], KeysOf(ws))
            && Prior(n.children, key) == MergeFrom(t, Unset, MembersOf(ws, key), depth + 1))
      && WellFormed(n)
    decreases |ws|
  {
    if ws != [] {
      var init, v := ws[..|ws| - 1], ws[|ws| - 1];
      var n := MergeFrom(t, Unset, init, depth);
      MergedChildren(t, init, depth, key);
      MergeKeepsWellFormed(t, n, v, depth);
      if v.Obj? && (n.Unset? || n.Object?) {
        var cs := if n.Object? then n.children else [];
        assert v.fields[..|v.fields|] == v.fields && NamesOf([]) == [];
        MergeFieldsChild(t, cs, v, |v.fields|, depth, key);
        FirstSeenConcat([], KeysOf(init), KeysIn(v.fields));
        MergeFromConcat(t, Unset, MembersOf(init, key), FieldValues(v.fields, key), depth + 1);
      } else if !v.Obj? {
        assert MembersOf(init, key) + [] == MembersOf(init, key) && KeysOf(init) + [] == KeysOf(init);
      }
    }
  }

  lemma {:induction false} MergeElementsFrom(t: Temporal, e: Node, v: Json, count: nat, depth: nat)
    requires v.Arr? && count <= |v.elems|
    ensures MergeElements(t, e, v, count, depth) == MergeFrom(t, e, v.elems[..count], depth + 1)
    decreases count
  {
    if count > 0 {
      MergeElementsFrom(t, e, v, count - 1, depth);
      assert v.elems[..count][..count - 1] == v.elems[..count - 1];
    }
  }

  lemma {:induction false} MergedElement(t: Temporal, ws: seq<Json>, depth: nat)
    requires depth <= MAX_NESTING
    ensures
      var n := MergeFrom(t, Unset, ws, depth);
      && (n.Unset? ==> ElementsOf(ws) == [])
      && (n.Array? ==> n.element == MergeFrom(t, Unset, ElementsOf(ws), depth + 1))
    decreases |ws|
  {
    if ws != [] {
      var init, v := ws[..|ws| - 1], ws[|ws| - 1];
      var n := MergeFrom(t, Unset, init, depth);
      MergedElement(t, init, depth);
      if v.Arr? && (n.Unset? || n.Array?) {
        MergeElementsFrom(t, if n.Array? then n.element else Unset, v, |v.elems|, depth);
        assert v.elems[..|v.elems|] == v.elems;
        MergeFromConcat(t, Unset, ElementsOf(init), v.elems, depth + 1);
      } else if !v.Arr? {
        assert ElementsOf(init) + [] == ElementsOf(init);
      }
    }
  }

  lemma {:induction false} DeepMergeFrom(t: Temporal, ws: seq<Json>, depth: nat)
    ensures depth > MAX_NESTING ==> MergeFrom(t, Unset, ws, depth) == if ws == [] then Unset else JsonNode
  {
    if ws != [] { DeepMergeFrom(t, ws[..|ws| - 1], depth); }
  }

  lemma StepDown(t: Temporal, ws: seq<Json>, depth: nat, at: seq<Place>)
    requires at != [] && NodeAt(MergeFrom(t, Unset, ws, depth), at).Some?
    ensures ChildAt(MergeFrom(t, Unset, ws, depth), at)
         == MergeFrom(t, Unset, match at[0] case Member(k) => MembersOf(ws, k) case Element => ElementsOf(ws), depth + 1)
  {
    DeepMergeFrom(t, ws, depth);
    match at[0]
    case Member(k) => MergedChildren(t, ws, depth, k);
    case Element => MergedElement(t, ws, depth);
  }

  /** Inference is compositional: the node at a place is inferred from the values there. */
  lemma {:induction false} NodeIsMergeFrom(t: Temporal, ws: seq<Json>, depth: nat, at: seq<Place>)
    requires NodeAt(MergeFrom(t, Unset, ws, depth), at).Some?
    ensures NodeAt(MergeFrom(t, Unset, ws, depth), at).value == MergeFrom(t, Unset, ValuesAt(ws, at), depth + |at|)
    decreases |at|
  {
    if at != [] {
      StepDown(t, ws, depth, at);
      var n := MergeFrom(t, Unset, ws, depth);
      var below := match at[0] case Member(k) => MembersOf(ws, k) case Element => ElementsOf(ws);
      hide MergeFrom, MembersOf, ElementsOf;
      assert NodeAt(n, at) == NodeAt(ChildAt(n, at), at[1..]);
      NodeIsMergeFrom(t, below, depth + 1, at[1..]);
    }
  }

  /** The members of an object stay in the order in which the rows first have them. */
  lemma MembersInOrder(t: Temporal, rows: seq<Json>, at: seq<Place>)
    requires NodeAt(Infer(t, rows), at).Some? && NodeAt(Infer(t, rows), at).value.Object?
    ensures NamesOf(NodeAt(Infer(t, rows), at).value.children) == FirstSeen([], KeysOf(ValuesAt(rows, at)))
  {
    InferIsMergeFrom(t, rows);
    NodeIsMergeFrom(t, rows, 0, at);
    DeepMergeFrom(t, ValuesAt(rows, at), |at|);
    MergedChildren(t, ValuesAt(rows, at), |at|, "");
  }
}
