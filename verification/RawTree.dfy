/** The schema tree in memory: nodes merged in place, children found by scanning while they
    are few and by hashing afterwards. Refines the tree of values in `Inference`. */
module RawTree {
  import opened Json
  import opened Inference

  datatype NodeClass = NoClass | ScalarClass | ObjectClass | ArrayClass | JsonClass

  /** Up to this fanout children are found by a linear scan. */
  const LINEAR_SCAN_LIMIT: nat := 24

  datatype Entry = Entry(name: string, node: RawNode)

  /** The footprints of siblings do not overlap. */
  ghost predicate Apart(parts: seq<set<RawNode>>) {
    forall i, j :: 0 <= i < j < |parts| ==> parts[i] !! parts[j]
  }

  lemma ApartAppend(parts: seq<set<RawNode>>, whole: set<RawNode>, more: set<RawNode>)
    requires Apart(parts) && more !! whole && forall i :: 0 <= i < |parts| ==> parts[i] <= whole
    ensures Apart(parts + [more])
  {
  }

  lemma ApartUpdate(parts: seq<set<RawNode>>, whole: set<RawNode>, at: nat, grown: set<RawNode>)
    requires Apart(parts) && at < |parts| && forall i :: 0 <= i < |parts| ==> parts[i] <= whole
    requires grown - parts[at] !! whole
    ensures Apart(parts[at := grown])
  {
    forall i | 0 <= i < |parts| && i != at ensures parts[i] !! grown {
      assert parts[i] !! parts[at] by { if i < at {} else {} }
      assert parts[i] <= whole;
    }
  }

  class RawNode {
    var nodeClass: NodeClass
    var scalar: Kind
    var children: seq<Entry>
    var childLookup: map<string, nat>
    var element: RawNode?
    ghost var Repr: set<RawNode>
    /** The footprint of each child. */
    ghost var parts: seq<set<RawNode>>
    /** The tree this node stands for. */
    ghost var model: Node

    ghost predicate Valid()
      reads this, Repr
      ensures Valid() ==> this in Repr
      decreases Repr, 0
    {
      && this in Repr
      && |parts| == |children| && Apart(parts)
      && (forall i :: 0 <= i < |children| ==>
            children[i].node in parts[i] && parts[i] <= Repr && this !in parts[i] && children[i].node.Repr == parts[i])
      && (forall i :: 0 <= i < |children| ==> children[i].node.Sound())
      && (element != null ==> element in Repr && element.Repr <= Repr && this !in element.Repr && element.Sound())
      && (element != null <==> nodeClass.ArrayClass?)
      && (children != [] ==> nodeClass.ObjectClass?)
      && Indexed(children, childLookup)
      && ModelOk()
    }

    /** `Valid`, under a name that proofs about the parent need not look into. */
    ghost predicate Sound()
      reads this, Repr
      decreases Repr, 1
    {
      Valid()
    }

    lemma SoundIsValid()
      ensures Sound() <==> Valid()
    {
    }

    ghost predicate ModelOk()
      reads this, set e | e in children :: e.node, element
    {
      match nodeClass
      case NoClass => model == Unset
      case ScalarClass => model == Scalar(scalar)
      case ObjectClass =>
        && model.Object? && |model.children| == |children|
        && forall i :: 0 <= i < |children| ==> model.children[i] == Child(children[i].name, children[i].node.model)
      case ArrayClass => element != null && model == Array(element.model)
      case JsonClass => model == JsonNode
    }

    constructor ()
      ensures Valid() && fresh(Repr) && model == Unset
    {
      nodeClass, scalar, children, childLookup, element := NoClass, UNSET, [], map[], null;
      Repr, parts, model := {this}, [], Unset;
    }

    lemma NamesAreUnique()
      requires Valid() && nodeClass.ObjectClass?
      ensures UniqueNames(model.children)
      ensures forall i :: 0 <= i < |children| ==> Find(model.children, children[i].name) == Some(i)
    {
      forall i, j | 0 <= i < j < |children| ensures model.children[i].name != model.children[j].name {
        assert childLookup[children[i].name] == i && childLookup[children[j].name] == j;
      }
      forall i | 0 <= i < |children| ensures Find(model.children, children[i].name) == Some(i) {
        assert model.children[i].name == children[i].name;
        FindIs(model.children, children[i].name);
      }
    }

    /** Scanning and hashing give the same child, at any fanout. */
    method FindChild(key: string) returns (r: Option<nat>)
      requires Valid() && nodeClass.ObjectClass?
      ensures model.Object? && |model.children| == |children| && r == Find(model.children, key)
      ensures r.Some? ==> children[r.value].name == key
    {
      NamesAreUnique();
      if |children| <= LINEAR_SCAN_LIMIT {
        for i := 0 to |children|
          invariant forall j :: 0 <= j < i ==> children[j].name != key
        {
          if children[i].name == key { return Some(i); }
        }
        return None;
      }
      r := if key in childLookup then Some(childLookup[key]) else None;
    }

    method GetOrCreateChild(key: string) returns (at: nat)
      requires Valid() && nodeClass.ObjectClass? && model.Object?
      modifies this
      ensures Valid() && nodeClass.ObjectClass? && fresh(Repr - old(Repr)) && at < |children|
      ensures
        var cs := old(model).children;
        match Find(cs, key)
        case Some(i) => at == i && model == old(model)
        case None => at == |cs| && model == Object(cs + [Child(key, Unset)])
    {
      var existing := FindChild(key);
      if existing.Some? { return existing.value; }
      at := |children|;
      AddChild(key);
    }

    lemma IndexedIsFound(key: string)
      requires Valid() && nodeClass.ObjectClass?
      ensures key in childLookup ==> Find(model.children, key).Some?
    {
      if key in childLookup { assert model.children[childLookup[key]].name == key; }
    }

    method AddChild(key: string)
      requires Valid() && nodeClass.ObjectClass? && model.Object? && Find(model.children, key).None?
      modifies this
      ensures Valid() && nodeClass.ObjectClass? && fresh(Repr - old(Repr)) && |children| == |old(children)| + 1
      ensures model == Object(old(model).children + [Child(key, Unset)])
    {
      hide Sound, Apart, Indexed;
      IndexedIsFound(key);
      var node := new RawNode();
      node.SoundIsValid();
      ApartAppend(parts, Repr, node.Repr);
      IndexedAppend(children, childLookup, Entry(key, node));
      Attach(Entry(key, node));
      assert forall i :: 0 <= i < |children| ==> this !in parts[i];
      assert forall i :: 0 <= i < |children| ==> children[i].node.Sound();
    }

    method Attach(e: Entry)
      requires model.Object?
      modifies this
      ensures nodeClass == old(nodeClass) && element == old(element)
      ensures children == old(children) + [e] && childLookup == old(childLookup)[e.name := |old(children)|]
      ensures parts == old(parts) + [old(e.node.Repr)] && Repr == old(Repr) + old(e.node.Repr)
      ensures model == Object(old(model).children + [Child(e.name, Unset)])
    {
      childLookup := childLookup[e.name := |children|];
      children := children + [e];
      parts, Repr := parts + [e.node.Repr], Repr + e.node.Repr;
      model := Object(model.children + [Child(e.name, Unset)]);
    }

    method DemoteToJson()
      requires Valid()
      modifies this
      ensures Valid() && Repr == old(Repr) && model == JsonNode
    {
      nodeClass, children, childLookup, element := JsonClass, [], map[], null;
      parts, model := [], JsonNode;
    }

    method MergeChild(t: Temporal, at: nat, v: Json, depth: nat)
      requires Valid() && nodeClass.ObjectClass? && at < |children| && model.Object?
      modifies Repr
      ensures Valid() && nodeClass.ObjectClass? && fresh(Repr - old(Repr))
      ensures
        var cs := old(model).children;
        at < |cs| && model == Object(cs[at := Child(cs[at].name, Merge(t, cs[at].node, v, depth))])
      decreases v, 2
    {
      hide Merge, Sound, Indexed;
      var c := children[at].node;
      ghost var cs := model.children;
      assert cs[at] == Child(children[at].name, c.model);
      c.SoundIsValid();
      c.MergeValue(t, v, depth);
      c.SoundIsValid();
      forall i | 0 <= i < |children| && i != at
        ensures children[i].node.Sound() && children[i].node.Repr == parts[i] && children[i].node.model == cs[i].node
      {
        assert parts[i] !! parts[at];
      }
      ApartUpdate(parts, Repr, at, c.Repr);
      Regrow(at, c);
      assert forall i :: 0 <= i < |children| ==> this !in parts[i];
      assert forall i :: 0 <= i < |children| ==> children[i].node.Sound();
    }

    ghost method Regrow(at: nat, c: RawNode)
      requires at < |parts| && model.Object? && at < |model.children|
      modifies this`parts, this`Repr, this`model
      ensures parts == old(parts)[at := old(c.Repr)] && Repr == old(Repr) + old(c.Repr)
      ensures model == Object(old(model).children[at := Child(old(model).children[at].name, old(c.model))])
    {
      var cs := model.children;
      parts, model := parts[at := c.Repr], Object(cs[at := Child(cs[at].name, c.model)]);
      Repr := Repr + c.Repr;
    }

    method MergeElement(t: Temporal, v: Json, depth: nat)
      requires Valid() && nodeClass.ArrayClass? && model.Array?
      modifies Repr
      ensures Valid() && nodeClass.ArrayClass? && fresh(Repr - old(Repr))
      ensures model == Array(Merge(t, old(model).element, v, depth))
      decreases v, 2
    {
      hide Merge, Sound;
      element.SoundIsValid();
      element.MergeValue(t, v, depth);
      element.SoundIsValid();
      Repr := Repr + element.Repr;
      model := Array(element.model);
    }

    /** `MergeValueInternal`: in-place merging computes `Merge`. */
    method MergeValue(t: Temporal, v: Json, depth: nat)
      requires Valid()
      modifies Repr
      ensures Valid() && fresh(Repr - old(Repr))
      ensures model == Merge(t, old(model), v, depth)
      decreases v, 1
    {
      if depth > MAX_NESTING { DemoteToJson(); return; }
      if v.Null? || nodeClass.JsonClass? { return; }
      if v.Obj? {
        if nodeClass.NoClass? { nodeClass, model := ObjectClass, Object([]); }
        if nodeClass.ObjectClass? { MergeMembers(t, v, depth); } else { DemoteToJson(); }
      } else if v.Arr? {
        if nodeClass.NoClass? { BecomeArray(); }
        if nodeClass.ArrayClass? { MergeItems(t, v, depth); } else { DemoteToJson(); }
      } else {
        MergeScalar(t, v);
      }
    }

    method BecomeArray()
      requires Valid() && nodeClass.NoClass?
      modifies this
      ensures Valid() && nodeClass.ArrayClass? && fresh(Repr - old(Repr)) && model == Array(Unset)
    {
      var e := new RawNode();
      e.SoundIsValid();
      nodeClass, element := ArrayClass, e;
      Repr := Repr + e.Repr;
      model := Array(Unset);
    }

    method MergeMembers(t: Temporal, v: Json, depth: nat)
      requires Valid() && v.Obj? && nodeClass.ObjectClass? && model.Object?
      modifies Repr
      ensures Valid() && fresh(Repr - old(Repr))
      ensures model == Object(MergeFields(t, old(model).children, v, |v.fields|, depth))
      decreases v, 0
    {
      hide Valid, Merge, MergeField, Find;
      ghost var start := model.children;
      for k := 0 to |v.fields|
        invariant Valid() && nodeClass.ObjectClass? && fresh(Repr - old(Repr))
        invariant model == Object(MergeFields(t, start, v, k, depth))
      {
        MergeMember(t, v, k, depth);
      }
    }

    method MergeMember(t: Temporal, v: Json, k: nat, depth: nat)
      requires Valid() && v.Obj? && nodeClass.ObjectClass? && model.Object? && k < |v.fields|
      modifies Repr
      ensures Valid() && nodeClass.ObjectClass? && fresh(Repr - old(Repr))
      ensures model == Object(MergeField(t, old(model).children, v, k, depth))
      decreases v, 0, k
    {
      hide Valid, Merge, MergeField;
      FieldStep(t, model.children, v, k, depth);
      var at := GetOrCreateChild(v.fields[k].key);
      MergeChild(t, at, v.fields[k].value, depth + 1);
    }

    method MergeItems(t: Temporal, v: Json, depth: nat)
      requires Valid() && v.Arr? && nodeClass.ArrayClass? && model.Array?
      modifies Repr
      ensures Valid() && fresh(Repr - old(Repr))
      ensures model == Array(MergeElements(t, old(model).element, v, |v.elems|, depth))
      decreases v, 0
    {
      hide Valid, Merge;
      ghost var start := model.element;
      for k := 0 to |v.elems|
        invariant Valid() && nodeClass.ArrayClass? && fresh(Repr - old(Repr))
        invariant model == Array(MergeElements(t, start, v, k, depth))
      {
        MergeElement(t, v.elems[k], depth + 1);
      }
    }

    method MergeScalar(t: Temporal, v: Json)
      requires Valid() && IsScalar(v) && !nodeClass.JsonClass?
      modifies this
      ensures Valid() && Repr == old(Repr)
      ensures forall depth: nat :: depth <= MAX_NESTING ==> model == Merge(t, old(model), v, depth)
    {
      if nodeClass.ScalarClass? && scalar == VARCHAR { return; }
      var kind := SniffScalar(t, v);
      if nodeClass.NoClass? {
        nodeClass, scalar, model := ScalarClass, kind, Scalar(kind);
      } else if !nodeClass.ScalarClass? {
        DemoteToJson();
      } else {
        scalar := JoinKinds(scalar, kind);
        model := Scalar(scalar);
      }
    }
  }

  /** The hash index agrees with the child list, which therefore has no duplicates. */
  ghost predicate Indexed(children: seq<Entry>, lookup: map<string, nat>) {
    && (forall i :: 0 <= i < |children| ==> children[i].name in lookup && lookup[children[i].name] == i)
    && (forall k :: k in lookup ==> lookup[k] < |children| && children[lookup[k]].name == k)
  }

  lemma IndexedAppend(children: seq<Entry>, lookup: map<string, nat>, e: Entry)
    requires Indexed(children, lookup) && e.name !in lookup
    ensures Indexed(children + [e], lookup[e.name := |children|])
  {
  }

  /** Finding or adding the child first, then merging into it, is one member's merge. */
  lemma FieldStep(t: Temporal, before: seq<Child>, v: Json, k: nat, depth: nat)
    requires v.Obj? && k < |v.fields|
    ensures
      var key, val := v.fields[k].key, v.fields[k].value;
      match Find(before, key)
      case Some(i) =>
        MergeField(t, before, v, k, depth) == before[i := Child(before[i].name, Merge(t, before[i].node, val, depth + 1))]
      case None =>
        var more := before + [Child(key, Unset)];
        MergeField(t, before, v, k, depth)
          == more[|before| := Child(more[|before|].name, Merge(t, more[|before|].node, val, depth + 1))]
  {
  }

  lemma FindIs(cs: seq<Child>, key: string)
    requires UniqueNames(cs)
    ensures forall i :: 0 <= i < |cs| && cs[i].name == key ==> Find(cs, key) == Some(i)
  {
  }

  /** `InferSchema`. */
  method InferSchema(t: Temporal, rows: seq<Json>) returns (root: RawNode)
    ensures root.Valid() && root.model == Infer(t, rows)
  {
    root := new RawNode();
    for k := 0 to |rows|
      invariant root.Valid() && fresh(root.Repr) && root.model == Infer(t, rows[..k])
    {
      assert rows[..k + 1][..k] == rows[..k];
      root.MergeValue(t, rows[k], 0);
    }
    assert rows[..|rows|] == rows;
  }
}
