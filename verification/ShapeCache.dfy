/** The shape cache: payload shapes already absorbed by a table skip the schema delta, as
    long as the table's storage token is the one they were absorbed under. */
module ShapeCache {
  import opened Json
  import opened Inference
  import opened ColumnTypes
  import opened Names

  /** A payload column: name and inferred type. */
  datatype PayloadColumn = PayloadColumn(name: string, ty: LType)

  /** A table schema by case-folded column name. */
  type Schema = map<string, LType>

  /** `type.id()`: JSON is an alias of VARCHAR and list element types do not show. */
  datatype TypeId = Id(ty: LType) | VarcharId | ListId

  function IdOf(ty: LType): (r: TypeId) {
    if ty.TVarchar? || ty.TJson? then VarcharId else if ty.TList? then ListId else Id(ty)
  }

  /** What the payload hash is computed from. The hash itself is taken as injective. */
  type Signature = seq<(string, TypeId)>

  function SignatureOf(cols: seq<PayloadColumn>): (r: Signature)
    ensures |r| == |cols|
  {
    seq(|cols|, i requires 0 <= i < |cols| => (Lower(cols[i].name), IdOf(cols[i].ty)))
  }

  /** Payload columns as flattening leaves them: distinct folded names, inferred types. */
  ghost predicate ValidPayload(cols: seq<PayloadColumn>) {
    && (forall i, j :: 0 <= i < j < |cols| ==> Lower(cols[i].name) != Lower(cols[j].name))
    && (forall i :: 0 <= i < |cols| ==> Inferred(cols[i].ty))
  }

  /** `ComputeDelta` finds nothing to add and nothing to widen. */
  ghost predicate NoDelta(schema: Schema, cols: seq<PayloadColumn>) {
    forall i :: 0 <= i < |cols| ==>
      var key := Lower(cols[i].name);
      key in schema && Absorbs(schema[key], cols[i].ty)
  }

  /** One column of `EvolveNative`, decided against the schema before the batch. */
  function EvolveColumn(before: Schema, schema: Schema, col: PayloadColumn): (r: Schema) {
    var key := Lower(col.name);
    schema[key := if key in before then Widen(before[key], col.ty) else col.ty]
  }

  function Evolve(before: Schema, cols: seq<PayloadColumn>): (r: Schema) {
    if cols == [] then before
    else EvolveColumn(before, Evolve(before, cols[..|cols| - 1]), cols[|cols| - 1])
  }

  /** The columns the batch adds. */
  function Added(before: Schema, cols: seq<PayloadColumn>): (r: seq<PayloadColumn>) {
    if cols == [] then []
    else
      var last := cols[|cols| - 1];
      Added(before, cols[..|cols| - 1]) + if Lower(last.name) in before then [] else [last]
  }

  /** The columns the batch rewrites. */
  function Widened(before: Schema, cols: seq<PayloadColumn>): (r: seq<PayloadColumn>) {
    if cols == [] then []
    else
      var last := cols[|cols| - 1];
      Widened(before, cols[..|cols| - 1]) +
        if Lower(last.name) in before && !Absorbs(before[Lower(last.name)], last.ty) then [last] else []
  }

  /** `EvolveNative`: adds and widenings are chosen from the entry as it was looked up. */
  method EvolveNative(before: Schema, cols: seq<PayloadColumn>) returns (after: Schema, added: nat, widened: nat)
    ensures after == Evolve(before, cols)
    ensures added == |Added(before, cols)| && widened == |Widened(before, cols)|
  {
    after, added, widened := before, 0, 0;
    for i := 0 to |cols|
      invariant after == Evolve(before, cols[..i])
      invariant added == |Added(before, cols[..i])| && widened == |Widened(before, cols[..i])|
    {
      var key := Lower(cols[i].name);
      assert cols[..i + 1][..i] == cols[..i];
      if key !in before {
        added := added + 1;
        after := after[key := cols[i].ty];
      } else {
        var target := Widen(before[key], cols[i].ty);
        if target != before[key] { widened := widened + 1; }
        after := after[key := target];
      }
    }
    assert cols[..|cols|] == cols;
  }

  /** Nothing added and nothing widened is exactly an empty delta, and then the schema is
      left as it was. */
  lemma {:induction false} NoDeltaIff(before: Schema, cols: seq<PayloadColumn>)
    ensures Added(before, cols) == [] && Widened(before, cols) == [] <==> NoDelta(before, cols)
    ensures NoDelta(before, cols) ==> Evolve(before, cols) == before
    decreases |cols|
  {
    if cols != [] {
      var init := cols[..|cols| - 1];
      NoDeltaIff(before, init);
      assert cols == init + [cols[|cols| - 1]];
      assert NoDelta(before, cols) ==> NoDelta(before, init) by {
        assert forall k :: 0 <= k < |init| ==> init[k] == cols[k];
      }
    }
  }

  function FoldedNames(cols: seq<PayloadColumn>): (r: set<string>) {
    if cols == [] then {} else FoldedNames(cols[..|cols| - 1]) + {Lower(cols[|cols| - 1].name)}
  }

  lemma {:induction false} InFoldedNames(cols: seq<PayloadColumn>, key: string)
    requires key in FoldedNames(cols)
    ensures exists i :: 0 <= i < |cols| && Lower(cols[i].name) == key
    decreases |cols|
  {
    var init, last := cols[..|cols| - 1], cols[|cols| - 1];
    if Lower(last.name) != key {
      InFoldedNames(init, key);
      var i :| 0 <= i < |init| && Lower(init[i].name) == key;
      assert Lower(cols[i].name) == key;
    }
  }

  lemma LastIsFresh(cols: seq<PayloadColumn>)
    requires ValidPayload(cols) && cols != []
    ensures Lower(cols[|cols| - 1].name) !in FoldedNames(cols[..|cols| - 1])
  {
    var init, key := cols[..|cols| - 1], Lower(cols[|cols| - 1].name);
    if key in FoldedNames(init) {
      InFoldedNames(init, key);
    }
  }

  lemma PutSize(m: Schema, key: string, ty: LType)
    ensures |m[key := ty]| == |m| + (if key in m then 0 else 1)
    ensures m[key := ty].Keys == m.Keys + {key}
  {
    assert m[key := ty].Keys == m.Keys + {key};
    if key in m { assert m.Keys + {key} == m.Keys; }
    assert |m[key := ty]| == |m[key := ty].Keys| && |m| == |m.Keys|;
  }

  /** Evolution only adds columns: each added one is new, and no column disappears. */
  lemma {:induction false} EvolveGrows(before: Schema, cols: seq<PayloadColumn>)
    requires ValidPayload(cols)
    ensures |Evolve(before, cols)| == |before| + |Added(before, cols)|
    ensures Evolve(before, cols).Keys == before.Keys + FoldedNames(cols)
    decreases |cols|
  {
    if cols != [] {
      var init, last := cols[..|cols| - 1], cols[|cols| - 1];
      EvolveGrows(before, init);
      LastIsFresh(cols);
      var key := Lower(last.name);
      PutSize(Evolve(before, init), key, if key in before then Widen(before[key], last.ty) else last.ty);
      EvolveGrowsStep(before, Evolve(before, init), FoldedNames(init), key);
    }
  }

  lemma EvolveGrowsStep(before: Schema, mid: Schema, names: set<string>, key: string)
    requires mid.Keys == before.Keys + names && key !in names
    ensures key in mid <==> key in before
    ensures mid.Keys + {key} == before.Keys + (names + {key})
  {
  }

  lemma {:induction false} EvolveLookup(before: Schema, cols: seq<PayloadColumn>, i: nat)
    requires ValidPayload(cols) && i < |cols|
    ensures
      var key := Lower(cols[i].name);
      && key in Evolve(before, cols)
      && Evolve(before, cols)[key] == if key in before then Widen(before[key], cols[i].ty) else cols[i].ty
    decreases |cols|
  {
    var init, last := cols[..|cols| - 1], cols[|cols| - 1];
    if i < |cols| - 1 {
      assert Lower(cols[i].name) != Lower(last.name);
      assert ValidPayload(init) && init[i] == cols[i];
      EvolveLookup(before, init, i);
    }
  }

  /** Columns that the payload does not have keep their types. */
  lemma {:induction false} EvolveKeeps(before: Schema, cols: seq<PayloadColumn>, key: string)
    requires key in before && forall i :: 0 <= i < |cols| ==> Lower(cols[i].name) != key
    ensures key in Evolve(before, cols) && Evolve(before, cols)[key] == before[key]
    decreases |cols|
  {
    if cols != [] { EvolveKeeps(before, cols[..|cols| - 1], key); }
  }

  /** Counted as widened are exactly the columns that were there and have changed. */
  lemma {:induction false} WidenedIff(before: Schema, cols: seq<PayloadColumn>, i: nat)
    requires ValidPayload(cols) && i < |cols|
    ensures
      var key := Lower(cols[i].name);
      && key in Evolve(before, cols)
      && (cols[i] in Widened(before, cols) <==> key in before && Evolve(before, cols)[key] != before[key])
    decreases |cols|
  {
    EvolveLookup(before, cols, i);
    var init, last := cols[..|cols| - 1], cols[|cols| - 1];
    if i < |init| {
      assert Lower(cols[i].name) != Lower(last.name) && init[i] == cols[i];
      WidenedIff(before, init, i);
      EvolveLookup(before, init, i);
    } else if cols[i] in Widened(before, init) {
      WidenedFrom(before, init, cols[i]);
    }
  }

  lemma {:induction false} WidenedFrom(before: Schema, cols: seq<PayloadColumn>, col: PayloadColumn)
    requires col in Widened(before, cols)
    ensures col in cols
    decreases |cols|
  {
    if col in Widened(before, cols[..|cols| - 1]) { WidenedFrom(before, cols[..|cols| - 1], col); }
  }

  /** A payload has no further delta against the schema it was just evolved into. */
  lemma EvolveAbsorbs(before: Schema, cols: seq<PayloadColumn>)
    requires ValidPayload(cols)
    ensures NoDelta(Evolve(before, cols), cols)
  {
    forall i | 0 <= i < |cols|
      ensures
        var key := Lower(cols[i].name);
        key in Evolve(before, cols) && Absorbs(Evolve(before, cols)[key], cols[i].ty)
    {
      EvolveLookup(before, cols, i);
      if Lower(cols[i].name) in before { WidenAbsorbs(before[Lower(cols[i].name)], cols[i].ty); }
    }
  }

  // ---------------------------------------------------------------------------
  // Runs
  // ---------------------------------------------------------------------------

  type Token = nat

  datatype Entry = Entry(token: Token, shapes: set<Signature>)

  /** `schemas` records the schema each storage object was created with; storage objects
      are replaced, never changed, and tokens are never handed out twice. */
  datatype State = State(schemas: map<Token, Schema>, next: Token, cache: Option<Entry>)

  datatype Event =
    | Ingest(view: Token, cols: seq<PayloadColumn>)  // sees the table under storage `view`
    | Alter(schema: Schema)                          // somebody else's DDL

  /** A rollback, or another transaction's snapshot, is any earlier token being seen
      again: an ingest may run against every token that ever existed. */
  ghost predicate Enabled(s: State, e: Event) {
    e.Ingest? ==> e.view in s.schemas && ValidPayload(e.cols) && e.cols != []
  }

  predicate Hit(s: State, view: Token, cols: seq<PayloadColumn>) {
    s.cache.Some? && s.cache.value.token == view && SignatureOf(cols) in s.cache.value.shapes
  }

  ghost function Step(s: State, e: Event): (r: State)
    requires Enabled(s, e)
  {
    match e
    case Alter(schema) => s.(schemas := s.schemas[s.next := schema], next := s.next + 1)
    case Ingest(view, cols) =>
      if Hit(s, view, cols) then s
      else
        var schema := s.schemas[view];
        var changed := !NoDelta(schema, cols);
        var token := if changed then s.next else view;
        var entry := if s.cache.Some? && s.cache.value.token == token then s.cache.value else Entry(token, {});
        State(
          if changed then s.schemas[token := Evolve(schema, cols)] else s.schemas,
          if changed then s.next + 1 else s.next,
          Some(entry.(shapes := entry.shapes + {SignatureOf(cols)})))
  }

  ghost function Run(s: State, es: seq<Event>): (r: Option<State>)
    decreases |es|
  {
    if es == [] then Some(s)
    else
      var before := Run(s, es[..|es| - 1]);
      if before.Some? && Enabled(before.value, es[|es| - 1]) then Some(Step(before.value, es[|es| - 1])) else None
  }

  ghost predicate Initial(s: State) {
    s.cache.None? && forall t :: t in s.schemas ==> t < s.next
  }

  /** Every cached shape stands for a payload the token's schema has absorbed. */
  ghost predicate Inv(s: State) {
    && (forall t :: t in s.schemas ==> t < s.next)
    && (s.cache.Some? ==>
          && s.cache.value.token in s.schemas
          && forall sig :: sig in s.cache.value.shapes ==> AbsorbedShape(s.schemas[s.cache.value.token], sig))
  }

  ghost predicate AbsorbedShape(schema: Schema, sig: Signature) {
    exists q :: ValidPayload(q) && SignatureOf(q) == sig && NoDelta(schema, q)
  }

  lemma StepKeepsInv(s: State, e: Event)
    requires Inv(s) && Enabled(s, e)
    ensures Inv(Step(s, e))
  {
    if e.Ingest? && !Hit(s, e.view, e.cols) {
      var schema := s.schemas[e.view];
      var s' := Step(s, e);
      EvolveAbsorbs(schema, e.cols);
      assert AbsorbedShape(s'.schemas[s'.cache.value.token], SignatureOf(e.cols));
    }
  }

  lemma {:induction false} RunKeepsInv(s: State, es: seq<Event>)
    requires Initial(s) && Run(s, es).Some?
    ensures Inv(Run(s, es).value)
  {
    if es != [] {
      RunKeepsInv(s, es[..|es| - 1]);
      StepKeepsInv(Run(s, es[..|es| - 1]).value, es[|es| - 1]);
    }
  }

  /** No JSON and no list columns: the payload's types are visible in its signature. */
  predicate ScalarColumns(cols: seq<PayloadColumn>) {
    forall i :: 0 <= i < |cols| ==> !cols[i].ty.TJson? && !cols[i].ty.TList?
  }

  /** An equal signature over scalar columns carries the absorption over, even when the
      absorbed payload had a JSON column where this one has a VARCHAR. */
  lemma SameSignatureAbsorbed(schema: Schema, q: seq<PayloadColumn>, p: seq<PayloadColumn>)
    requires SignatureOf(q) == SignatureOf(p) && NoDelta(schema, q)
    requires ScalarColumns(p) && ValidPayload(p) && ValidPayload(q)
    ensures NoDelta(schema, p)
  {
    forall i | 0 <= i < |p|
      ensures
        var key := Lower(p[i].name);
        key in schema && Absorbs(schema[key], p[i].ty)
    {
      assert SignatureOf(q)[i] == SignatureOf(p)[i];
      assert Lower(q[i].name) == Lower(p[i].name) && IdOf(q[i].ty) == IdOf(p[i].ty);
      var t := schema[Lower(p[i].name)];
      if q[i].ty != p[i].ty {
        assert q[i].ty.TJson? && p[i].ty.TVarchar?;
        assert t.TJson?;
      }
    }
  }

  /** Over every run, a hit on a scalar payload means the slow path had nothing to do. */
  lemma HitAgreesWithSlowPath(s: State, es: seq<Event>, view: Token, cols: seq<PayloadColumn>)
    requires Initial(s) && Run(s, es).Some?
    requires Hit(Run(s, es).value, view, cols)
    requires ValidPayload(cols) && ScalarColumns(cols)
    ensures view in Run(s, es).value.schemas && NoDelta(Run(s, es).value.schemas[view], cols)
  {
    RunKeepsInv(s, es);
    var end := Run(s, es).value;
    assert AbsorbedShape(end.schemas[view], SignatureOf(cols));
    var q :| ValidPayload(q) && SignatureOf(q) == SignatureOf(cols) && NoDelta(end.schemas[view], q);
    SameSignatureAbsorbed(end.schemas[view], q, cols);
  }

  // ---------------------------------------------------------------------------
  // The scalar restriction is exact
  // ---------------------------------------------------------------------------

  /** Whatever run comes first, a hit for these columns leaves nothing undone. */
  ghost predicate HitsAreSafe(cols: seq<PayloadColumn>) {
    forall s, es, view ::
      Initial(s) && Run(s, es).Some? && Hit(Run(s, es).value, view, cols) ==>
        view in Run(s, es).value.schemas && NoDelta(Run(s, es).value.schemas[view], cols)
  }

  /** A column type with the same id that `ty` does not absorb into. */
  function Lookalike(ty: LType): (r: LType)
    requires Inferred(ty) && (ty.TJson? || ty.TList?)
    ensures Inferred(r) && IdOf(r) == IdOf(ty) && !Absorbs(r, ty)
  {
    if ty.TJson? then TVarchar
    else if ty.elem.TBoolean? then TList(TBigInt)
    else TList(TBoolean)
  }

  /** One JSON or list column is enough: ingesting a look-alike first makes the cache
      claim the shape is absorbed although the table still has to be altered. */
  lemma LookalikeFoolsCache(cols: seq<PayloadColumn>, i: nat)
    requires ValidPayload(cols) && i < |cols| && (cols[i].ty.TJson? || cols[i].ty.TList?)
    ensures !HitsAreSafe(cols)
  {
    var like := cols[i := cols[i].(ty := Lookalike(cols[i].ty))];
    assert ValidPayload(like);
    assert SignatureOf(like) == SignatureOf(cols);
    var empty: Schema := map[];
    var s := State(map[0 := empty], 1, None);
    var first := Ingest(0, like);
    var es := [first];
    assert es[..0] == [] && Run(s, []) == Some(s);
    assert !NoDelta(empty, like) by { assert Lower(like[0].name) !in empty; }
    var s' := Step(s, first);
    assert Run(s, es) == Some(s');
    assert Hit(s', 1, cols);
    EvolveLookup(empty, like, i);
    assert s'.schemas[1][Lower(cols[i].name)] == Lookalike(cols[i].ty);
    assert !NoDelta(s'.schemas[1], cols);
  }

  /** Cache hits can be trusted for exactly the payloads without JSON and list columns. */
  lemma HitsAreSafeIffScalar(cols: seq<PayloadColumn>)
    requires ValidPayload(cols)
    ensures HitsAreSafe(cols) <==> ScalarColumns(cols)
  {
    if ScalarColumns(cols) {
      forall s, es, view | Initial(s) && Run(s, es).Some? && Hit(Run(s, es).value, view, cols)
        ensures view in Run(s, es).value.schemas && NoDelta(Run(s, es).value.schemas[view], cols)
      {
        HitAgreesWithSlowPath(s, es, view, cols);
      }
    } else {
      var i :| 0 <= i < |cols| && (cols[i].ty.TJson? || cols[i].ty.TList?);
      LookalikeFoolsCache(cols, i);
    }
  }
}
