/** Multi-level explode: a dotted path descends into object keys, arrays on the way fan
    out, and each leaf becomes one row merged with the envelopes it was found in. */
module Explode {
  import opened Json
  import opened Fanout

  /** A traversed object and the key that was descended into. */
  datatype Envelope = Envelope(members: seq<Field>, descended: string)

  // ---------------------------------------------------------------------------
  // What an exploded row must be
  // ---------------------------------------------------------------------------

  /** Where a field's value comes from: the nearest enclosing envelope that holds the
      key other than as its descended key. */
  function Nearest(envs: seq<Envelope>, key: string): (r: Option<Json>)
    decreases |envs|
  {
    if envs == [] then None
    else
      var e := envs[|envs| - 1];
      if e.descended != key && Get(e.members, key).Some? then Get(e.members, key)
      else Nearest(envs[..|envs| - 1], key)
  }

  function Resolve(leaf: seq<Field>, envs: seq<Envelope>, key: string): (r: Option<Json>) {
    if Get(leaf, key).Some? then Get(leaf, key) else Nearest(envs, key)
  }

  /** The leaf's own keys, then those of the envelopes from the last to the first. */
  function KeysFor(leaf: seq<Field>, envs: seq<Envelope>): (keys: seq<string>) {
    if envs == [] then Joined([], KeysOf(leaf), None)
    else Joined(KeysFor(leaf, envs[1..]), KeysOf(envs[0].members), Some(envs[0].descended))
  }

  /** A row emitted for `leaf` under `envs`. */
  ghost predicate RowFor(row: Json, leaf: Json, envs: seq<Envelope>) {
    if !leaf.Obj? then row == leaf
    else
      && row.Obj? && UniqueKeys(row.fields) && KeysOf(row.fields) == KeysFor(leaf.fields, envs)
      && forall key :: Get(row.fields, key) == Resolve(leaf.fields, envs, key)
  }

  datatype Leaf = Leaf(node: Json, envelopes: seq<Envelope>)

  function Stops(node: Json, path: seq<string>, depth: nat): (r: bool)
    requires depth <= |path|
  {
    depth == |path| || !node.Obj? || Get(node.fields, path[depth]).None?
  }

  lemma GetSmaller(node: Json, key: string)
    requires node.Obj? && Get(node.fields, key).Some?
    ensures Get(node.fields, key).value < node
  {
  }

  /** The leaves reached from `node`, left to right, each with its own envelopes. */
  function Leaves(node: Json, path: seq<string>, depth: nat, envs: seq<Envelope>): (r: seq<Leaf>)
    requires depth <= |path|
    decreases node, 1, 0
  {
    if Stops(node, path, depth) then [Leaf(node, envs)]
    else
      GetSmaller(node, path[depth]);
      var child := Get(node.fields, path[depth]).value;
      var inner := envs + [Envelope(node.fields, path[depth])];
      if child.Arr? then ElementLeaves(child, |child.elems|, path, depth + 1, inner)
      else Leaves(child, path, depth + 1, inner)
  }

  function ElementLeaves(list: Json, count: nat, path: seq<string>, depth: nat, envs: seq<Envelope>): (r: seq<Leaf>)
    requires list.Arr? && count <= |list.elems| && depth <= |path|
    decreases list, 0, count
  {
    if count == 0 then []
    else ElementLeaves(list, count - 1, path, depth, envs) + Leaves(list.elems[count - 1], path, depth, envs)
  }

  /** How many leaves there are, counted without collecting them. */
  function LeafCount(node: Json, path: seq<string>, depth: nat): (n: nat)
    requires depth <= |path|
    decreases node, 1, 0
  {
    if Stops(node, path, depth) then 1
    else
      GetSmaller(node, path[depth]);
      var child := Get(node.fields, path[depth]).value;
      if child.Arr? then ElementCount(child, |child.elems|, path, depth + 1) else LeafCount(child, path, depth + 1)
  }

  function ElementCount(list: Json, count: nat, path: seq<string>, depth: nat): (n: nat)
    requires list.Arr? && count <= |list.elems| && depth <= |path|
    decreases list, 0, count
  {
    if count == 0 then 0
    else ElementCount(list, count - 1, path, depth) + LeafCount(list.elems[count - 1], path, depth)
  }

  lemma {:induction false} LeavesCounted(node: Json, path: seq<string>, depth: nat, envs: seq<Envelope>)
    requires depth <= |path|
    ensures |Leaves(node, path, depth, envs)| == LeafCount(node, path, depth)
    decreases node, 1, 0
  {
    if !Stops(node, path, depth) {
      GetSmaller(node, path[depth]);
      var child := Get(node.fields, path[depth]).value;
      var inner := envs + [Envelope(node.fields, path[depth])];
      if child.Arr? { ElementLeavesCounted(child, |child.elems|, path, depth + 1, inner); }
      else { LeavesCounted(child, path, depth + 1, inner); }
    }
  }

  lemma {:induction false} ElementLeavesCounted(list: Json, count: nat, path: seq<string>, depth: nat, envs: seq<Envelope>)
    requires list.Arr? && count <= |list.elems| && depth <= |path|
    ensures |ElementLeaves(list, count, path, depth, envs)| == ElementCount(list, count, path, depth)
    decreases list, 0, count
  {
    if count > 0 {
      ElementLeavesCounted(list, count - 1, path, depth, envs);
      LeavesCounted(list.elems[count - 1], path, depth, envs);
    }
  }

  /** The rows emitted are the rows for the leaves reached, one each, in order. */
  ghost predicate RowsFor(rows: seq<Json>, leaves: seq<Leaf>) {
    |rows| == |leaves| && forall i :: 0 <= i < |rows| ==> RowFor(rows[i], leaves[i].node, leaves[i].envelopes)
  }

  lemma RowsForConcat(rows: seq<Json>, leaves: seq<Leaf>, more: seq<Json>, moreLeaves: seq<Leaf>)
    requires RowsFor(rows, leaves) && RowsFor(more, moreLeaves)
    ensures RowsFor(rows + more, leaves + moreLeaves)
  {
  }

  // ---------------------------------------------------------------------------
  // The traversal
  // ---------------------------------------------------------------------------

  /** `r` has the fields of `merged`, and those of `members` that were not there, but for one. */
  ghost predicate Added(merged: seq<Field>, members: seq<Field>, skip: Option<string>, r: seq<Field>) {
    && UniqueKeys(r)
    && (forall key :: Get(r, key) == ValueAdded(merged, members, skip, key))
    && KeysOf(r) == Joined(KeysOf(merged), KeysOf(members), skip)
  }

  /** `AddObjectFields`: first writer wins, the descended key is skipped. */
  method AddObjectFields(merged: seq<Field>, members: seq<Field>, skip: Option<string>) returns (r: seq<Field>)
    requires UniqueKeys(merged)
    ensures Added(merged, members, skip, r)
  {
    r := merged;
    for i := 0 to |members|
      invariant Added(merged, members[..i], skip, r)
    {
      var f := members[i];
      MemberAdded(merged, members, i, skip, r);
      if skip == Some(f.key) || Get(r, f.key).Some? { continue; }
      r := r + [f];
    }
    assert members[..|members|] == members;
  }

  function AddMember(r: seq<Field>, f: Field, skip: Option<string>): (r': seq<Field>) {
    if skip == Some(f.key) || Get(r, f.key).Some? then r else r + [f]
  }

  function ValueAdded(merged: seq<Field>, members: seq<Field>, skip: Option<string>, key: string): (v: Option<Json>) {
    if Get(merged, key).Some? then Get(merged, key) else if skip == Some(key) then None else Get(members, key)
  }

  lemma ValueStep(merged: seq<Field>, members: seq<Field>, i: nat, skip: Option<string>, r: seq<Field>, key: string)
    requires i < |members| && Get(r, key) == ValueAdded(merged, members[..i], skip, key)
    requires Get(r, members[i].key) == ValueAdded(merged, members[..i], skip, members[i].key)
    ensures Get(AddMember(r, members[i], skip), key) == ValueAdded(merged, members[..i + 1], skip, key)
  {
    assert members[..i + 1] == members[..i] + [members[i]];
    GetAppend(members[..i], members[i], key);
    GetAppend(r, members[i], key);
    hide Get;
  }

  lemma KeysAdded(keys: seq<string>, members: seq<Field>, i: nat, skip: Option<string>, r: seq<Field>)
    requires i < |members| && KeysOf(r) == Joined(keys, KeysOf(members[..i]), skip)
    ensures KeysOf(AddMember(r, members[i], skip)) == Joined(keys, KeysOf(members[..i + 1]), skip)
  {
    KeysStep(members, i);
    KeyIn(r, members[i].key);
    assert KeysOf(r + [members[i]]) == KeysOf(r) + [members[i].key];
  }

  lemma MemberAdded(merged: seq<Field>, members: seq<Field>, i: nat, skip: Option<string>, r: seq<Field>)
    requires i < |members| && Added(merged, members[..i], skip, r)
    ensures Added(merged, members[..i + 1], skip, AddMember(r, members[i], skip))
  {
    KeysAdded(KeysOf(merged), members, i, skip, r);
    forall key ensures Get(AddMember(r, members[i], skip), key) == ValueAdded(merged, members[..i + 1], skip, key) {
      ValueStep(merged, members, i, skip, r, key);
    }
    hide Get, KeysOf, Joined;
  }

  lemma KeysStep(members: seq<Field>, i: nat)
    requires i < |members|
    ensures KeysOf(members[..i + 1]) == KeysOf(members[..i]) + [members[i].key]
    ensures KeysOf(members[..i + 1])[..i] == KeysOf(members[..i])
  {
  }

  lemma KeyIn(fields: seq<Field>, key: string)
    ensures key in KeysOf(fields) <==> Get(fields, key).Some?
  {
    if Get(fields, key).None? {
      assert forall i :: 0 <= i < |fields| ==> KeysOf(fields)[i] != key;
    } else {
      var i :| 0 <= i < |fields| && fields[i] == Field(key, Get(fields, key).value);
      assert KeysOf(fields)[i] == key;
    }
  }

  lemma {:induction false} GetAppend(fields: seq<Field>, f: Field, key: string)
    ensures Get(fields + [f], key) == if Get(fields, key).Some? then Get(fields, key)
                                      else if key == f.key then Some(f.value) else None
    decreases |fields|
  {
    if fields != [] {
      assert (fields + [f])[1..] == fields[1..] + [f];
      GetAppend(fields[1..], f, key);
    }
  }

  class Exploder {
    const path: seq<string>
    var envelopes: seq<Envelope>
    var outRows: seq<Json>

    constructor (path: seq<string>)
      ensures this.path == path && envelopes == [] && outRows == []
    {
      this.path := path;
      envelopes, outRows := [], [];
    }

    method EmitMergedRow(leaf: Json)
      modifies this`outRows
      ensures |outRows| == |old(outRows)| + 1 && old(outRows) <= outRows
      ensures RowFor(outRows[|old(outRows)|], leaf, envelopes)
    {
      if !leaf.Obj? {
        outRows := outRows + [leaf];
        return;
      }
      var merged := AddObjectFields([], leaf.fields, None);
      assert KeysOf([]) == [];
      var i := |envelopes|;
      assert envelopes[i..] == [];
      while i > 0
        invariant 0 <= i <= |envelopes| && outRows == old(outRows)
        invariant UniqueKeys(merged)
        invariant forall key :: Get(merged, key) == Resolve(leaf.fields, envelopes[i..], key)
        invariant KeysOf(merged) == KeysFor(leaf.fields, envelopes[i..])
      {
        i := i - 1;
        ghost var was := merged;
        merged := AddObjectFields(merged, envelopes[i].members, Some(envelopes[i].descended));
        assert envelopes[i..] == [envelopes[i]] + envelopes[i + 1..];
        forall key ensures Get(merged, key) == Resolve(leaf.fields, envelopes[i..], key) {
          assert Get(was, key) == Resolve(leaf.fields, envelopes[i + 1..], key);
          NearestPrepend(envelopes[i], envelopes[i + 1..], key);
        }
      }
      assert envelopes[0..] == envelopes;
      outRows := outRows + [Obj(merged)];
    }

    /** Appends one row per leaf below `node`; the envelope stack comes back unchanged. */
    method ExplodeInto(node: Json, depth: nat)
      requires depth <= |path|
      modifies this
      ensures envelopes == old(envelopes)
      ensures old(outRows) <= outRows
      ensures RowsFor(outRows[|old(outRows)|..], Leaves(node, path, depth, old(envelopes)))
      decreases node
    {
      if Stops(node, path, depth) {
        EmitMergedRow(node);
        return;
      }
      GetSmaller(node, path[depth]);
      var child := Get(node.fields, path[depth]).value;
      envelopes := envelopes + [Envelope(node.fields, path[depth])];
      ghost var inner := envelopes;
      ghost var start := outRows;
      if child.Arr? {
        for i := 0 to |child.elems|
          invariant envelopes == inner
          invariant start <= outRows
          invariant RowsFor(outRows[|start|..], ElementLeaves(child, i, path, depth + 1, inner))
        {
          ghost var mid := outRows;
          ExplodeInto(child.elems[i], depth + 1);
          assert outRows[|start|..] == mid[|start|..] + outRows[|mid|..];
        }
      } else {
        ExplodeInto(child, depth + 1);
      }
      envelopes := envelopes[..|envelopes| - 1];
    }

    /** `RawPayload::Explode`: every row of the payload in turn. */
    method ExplodeAll(rows: seq<Json>)
      requires envelopes == [] && outRows == []
      modifies this
      ensures envelopes == []
      ensures RowsFor(outRows, AllLeaves(rows, path))
      ensures exists spots :: AllStops(rows, path, spots) && RowsAt(outRows, rows, spots)
    {
      AllSpotsExact(rows, path);
      hide RowsFor, AllLeaves, Leaves;
      NoLeaves(path);
      for i := 0 to |rows|
        invariant envelopes == []
        invariant RowsFor(outRows, AllLeaves(rows[..i], path))
      {
        ghost var mid := outRows;
        ExplodeInto(rows[i], 0);
        AllLeavesStep(rows, i, path);
        RowsForConcat(mid, AllLeaves(rows[..i], path), outRows[|mid|..], Leaves(rows[i], path, 0, []));
        assert outRows == mid + outRows[|mid|..];
      }
      assert rows[..|rows|] == rows;
      LeafRowsAt(rows, path, outRows);
    }
  }

  function AllLeaves(rows: seq<Json>, path: seq<string>): (r: seq<Leaf>) {
    if rows == [] then []
    else AllLeaves(rows[..|rows| - 1], path) + Leaves(rows[|rows| - 1], path, 0, [])
  }

  lemma NoLeaves(path: seq<string>)
    ensures AllLeaves([], path) == [] && RowsFor([], [])
  {
  }

  lemma AllLeavesStep(rows: seq<Json>, i: nat, path: seq<string>)
    requires i < |rows|
    ensures AllLeaves(rows[..i + 1], path) == AllLeaves(rows[..i], path) + Leaves(rows[i], path, 0, [])
  {
    assert rows[..i + 1][..i] == rows[..i];
  }

  lemma {:induction false} NearestPrepend(e: Envelope, envs: seq<Envelope>, key: string)
    ensures Nearest([e] + envs, key)
         == if Nearest(envs, key).Some? then Nearest(envs, key)
            else if e.descended != key then Get(e.members, key) else None
    decreases |envs|
  {
    var all := [e] + envs;
    if envs != [] {
      assert all[..|all| - 1] == [e] + envs[..|envs| - 1];
      NearestPrepend(e, envs[..|envs| - 1], key);
    } else {
      assert all[..0] == [];
    }
  }

  function Total(rows: seq<Json>, path: seq<string>): (n: nat) {
    if rows == [] then 0 else Total(rows[..|rows| - 1], path) + LeafCount(rows[|rows| - 1], path, 0)
  }

  /** Exploding yields exactly as many rows as there are leaves, over the whole payload. */
  lemma {:induction false} RowCountIsLeafCount(rows: seq<Json>, path: seq<string>, outRows: seq<Json>)
    requires RowsFor(outRows, AllLeaves(rows, path))
    ensures |outRows| == Total(rows, path)
  {
    AllLeavesCounted(rows, path);
  }

  lemma {:induction false} AllLeavesCounted(rows: seq<Json>, path: seq<string>)
    ensures |AllLeaves(rows, path)| == Total(rows, path)
  {
    if rows != [] {
      AllLeavesCounted(rows[..|rows| - 1], path);
      LeavesCounted(rows[|rows| - 1], path, 0, []);
    }
  }

  /** An empty path, or a path absent from every row, leaves each object row with the same fields. */
  lemma AbsentHopPassesThrough(node: Json, path: seq<string>, row: Json, key: string)
    requires Stops(node, path, 0) && RowsFor([row], Leaves(node, path, 0, [])) && node.Obj?
    ensures row.Obj? && Get(row.fields, key) == Get(node.fields, key)
  {
    assert RowFor([row][0], node, []);
  }

  // ---------------------------------------------------------------------------
  // The rows, by positions in the payload
  // ---------------------------------------------------------------------------

  /** The objects passed on the way to a position, each with the key it is left through. */
  function EnvelopesOf(node: Json, pos: seq<Hop>): (envs: seq<Envelope>)
    requires At(node, pos).Some?
    decreases |pos|
  {
    if pos == [] then []
    else
      match pos[0]
      case Key(k) => [Envelope(node.fields, k)] + EnvelopesOf(Get(node.fields, k).value, pos[1..])
      case Index(i) => EnvelopesOf(node.elems[i], pos[1..])
  }

  ghost predicate LeafAtPosition(leaf: Leaf, node: Json, pos: seq<Hop>, envs: seq<Envelope>) {
    At(node, pos).Some? && leaf == Leaf(At(node, pos).value, envs + EnvelopesOf(node, pos))
  }

  ghost predicate LeavesAtPositions(leaves: seq<Leaf>, node: Json, ps: seq<seq<Hop>>, envs: seq<Envelope>) {
    |leaves| == |ps| && forall i :: 0 <= i < |ps| ==> LeafAtPosition(leaves[i], node, ps[i], envs)
  }

  lemma KeyFirst(leaf: Leaf, node: Json, key: string, pos: seq<Hop>, envs: seq<Envelope>)
    requires node.Obj? && Get(node.fields, key).Some?
    requires LeafAtPosition(leaf, Get(node.fields, key).value, pos, envs + [Envelope(node.fields, key)])
    ensures LeafAtPosition(leaf, node, [Key(key)] + pos, envs)
  {
    assert ([Key(key)] + pos)[1..] == pos;
    var e, inner := [Envelope(node.fields, key)], EnvelopesOf(Get(node.fields, key).value, pos);
    assert (envs + e) + inner == envs + (e + inner);
  }

  lemma IndexFirst(leaf: Leaf, list: Json, i: nat, pos: seq<Hop>, envs: seq<Envelope>)
    requires list.Arr? && i < |list.elems| && LeafAtPosition(leaf, list.elems[i], pos, envs)
    ensures LeafAtPosition(leaf, list, [Index(i)] + pos, envs)
  {
    assert ([Index(i)] + pos)[1..] == pos;
  }

  lemma {:induction false} LeavesArePositions(node: Json, path: seq<string>, depth: nat, envs: seq<Envelope>)
    requires depth <= |path|
    ensures LeavesAtPositions(Leaves(node, path, depth, envs), node, Positions(node, path[depth..]), envs)
    decreases node, 1, 0
  {
    if Stops(node, path, depth) {
      assert envs + [] == envs;
    } else {
      GetSmaller(node, path[depth]);
      var child := Get(node.fields, path[depth]).value;
      var inner := envs + [Envelope(node.fields, path[depth])];
      assert path[depth..][1..] == path[depth + 1..];
      if child.Arr? { ElementsArePositions(child, |child.elems|, path, depth + 1, inner); }
      else { LeavesArePositions(child, path, depth + 1, inner); }
      var leaves := Leaves(node, path, depth, envs);
      var below := if child.Arr? then ElementPositions(child, |child.elems|, path[depth + 1..])
                   else Positions(child, path[depth + 1..]);
      forall i | 0 <= i < |below| ensures LeafAtPosition(leaves[i], node, [Key(path[depth])] + below[i], envs) {
        KeyFirst(leaves[i], node, path[depth], below[i], envs);
      }
    }
  }

  lemma {:induction false} ElementsArePositions(list: Json, count: nat, path: seq<string>, depth: nat, envs: seq<Envelope>)
    requires list.Arr? && count <= |list.elems| && depth <= |path|
    ensures LeavesAtPositions(ElementLeaves(list, count, path, depth, envs), list,
                              ElementPositions(list, count, path[depth..]), envs)
    decreases list, 0, count
  {
    if count > 0 {
      ElementsArePositions(list, count - 1, path, depth, envs);
      var elem := list.elems[count - 1];
      LeavesArePositions(elem, path, depth, envs);
      var last, below := Leaves(elem, path, depth, envs), Positions(elem, path[depth..]);
      forall i | 0 <= i < |below| ensures LeafAtPosition(last[i], list, [Index(count - 1)] + below[i], envs) {
        IndexFirst(last[i], list, count - 1, below[i], envs);
      }
    }
  }

  lemma HeldDeeper(root: Json, pos: seq<Hop>, n: nat, key: string)
    requires pos != [] && At(root, pos[..1]).Some? && n < |pos|
    ensures At(root, pos[..n + 1]) == At(At(root, pos[..1]).value, pos[1..][..n])
    ensures HeldAt(root, pos, n + 1, key) <==> HeldAt(At(root, pos[..1]).value, pos[1..], n, key)
  {
    assert pos[..n + 1][1..] == pos[1..][..n];
    assert pos[..1][1..] == [];
  }

  lemma FirstAt(root: Json, pos: seq<Hop>)
    requires pos != [] && At(root, pos).Some?
    ensures At(root, pos[..1]).Some? && At(At(root, pos[..1]).value, pos[1..]) == At(root, pos)
    ensures pos[0].Key? ==> root.Obj? && Get(root.fields, pos[0].key) == At(root, pos[..1])
    ensures pos[0].Index? ==> root.Arr? && pos[0].index < |root.elems| && Some(root.elems[pos[0].index]) == At(root, pos[..1])
  {
    assert pos[..1][1..] == [];
  }

  /** One hop further out, the outermost object comes last. */
  lemma ResolveOutward(root: Json, pos: seq<Hop>, key: string)
    requires pos != [] && At(root, pos).Some? && At(root, pos).value.Obj?
    ensures At(root, pos[..1]).Some? && At(At(root, pos[..1]).value, pos[1..]) == At(root, pos)
    ensures
      var leaf := At(root, pos).value.fields;
      var inner := Resolve(leaf, EnvelopesOf(At(root, pos[..1]).value, pos[1..]), key);
      Resolve(leaf, EnvelopesOf(root, pos), key)
        == if inner.Some? || pos[0].Index? || pos[0].key == key then inner else Get(root.fields, key)
  {
    FirstAt(root, pos);
    if pos[0].Key? {
      NearestPrepend(Envelope(root.fields, pos[0].key), EnvelopesOf(At(root, pos[..1]).value, pos[1..]), key);
    }
  }

  lemma {:induction false} ResolvedIsHeld(root: Json, pos: seq<Hop>, key: string) returns (n: nat)
    requires At(root, pos).Some? && At(root, pos).value.Obj?
    requires Resolve(At(root, pos).value.fields, EnvelopesOf(root, pos), key).Some?
    ensures HeldAt(root, pos, n, key)
    decreases |pos|
  {
    n := 0;
    if pos != [] {
      ResolveOutward(root, pos, key);
      var sub := At(root, pos[..1]).value;
      if Resolve(At(root, pos).value.fields, EnvelopesOf(sub, pos[1..]), key).Some? {
        n := ResolvedIsHeld(sub, pos[1..], key);
        HeldDeeper(root, pos, n, key);
        n := n + 1;
      }
    }
  }

  /** What the envelopes on the way resolve a key to is what the deepest holder has. */
  lemma {:induction false} SourceIsHolder(root: Json, pos: seq<Hop>, n: nat, key: string)
    requires At(root, pos).Some? && At(root, pos).value.Obj? && DeepestAt(root, pos, n, key)
    ensures Resolve(At(root, pos).value.fields, EnvelopesOf(root, pos), key) == Get(At(root, pos[..n]).value.fields, key)
    decreases |pos|
  {
    if pos != [] {
      ResolveOutward(root, pos, key);
      var sub := At(root, pos[..1]).value;
      forall m: nat | m < |pos| ensures HeldAt(root, pos, m + 1, key) <==> HeldAt(sub, pos[1..], m, key) {
        HeldDeeper(root, pos, m, key);
      }
      if n > 0 {
        HeldDeeper(root, pos, n - 1, key);
        assert forall m: nat :: n - 1 < m <= |pos| - 1 ==> !HeldAt(sub, pos[1..], m, key) by {
          forall m: nat | n - 1 < m <= |pos| - 1 ensures !HeldAt(sub, pos[1..], m, key) {
            assert !HeldAt(root, pos, m + 1, key);
          }
        }
        SourceIsHolder(sub, pos[1..], n - 1, key);
      } else if Resolve(At(root, pos).value.fields, EnvelopesOf(sub, pos[1..]), key).Some? {
        var m := ResolvedIsHeld(sub, pos[1..], key);
      }
    }
  }

  lemma {:induction false} KeysByPosition(root: Json, pos: seq<Hop>)
    requires At(root, pos).Some? && At(root, pos).value.Obj?
    ensures KeysFor(At(root, pos).value.fields, EnvelopesOf(root, pos)) == KeyOrder(root, pos)
    decreases |pos|
  {
    if pos != [] {
      FirstAt(root, pos);
      var sub := At(root, pos[..1]).value;
      KeysByPosition(sub, pos[1..]);
      var inner := EnvelopesOf(sub, pos[1..]);
      if pos[0].Key? { assert ([Envelope(root.fields, pos[0].key)] + inner)[1..] == inner; }
    }
  }

  lemma LeafRowAt(row: Json, root: Json, pos: seq<Hop>)
    requires At(root, pos).Some? && RowFor(row, At(root, pos).value, EnvelopesOf(root, pos))
    ensures RowAt(row, root, pos)
  {
    var leaf := At(root, pos).value;
    if leaf.Obj? {
      KeysByPosition(root, pos);
      forall key, n: nat | DeepestAt(root, pos, n, key)
        ensures Get(row.fields, key) == Get(At(root, pos[..n]).value.fields, key)
      {
        SourceIsHolder(root, pos, n, key);
      }
      forall key | Get(row.fields, key).Some? ensures exists n: nat :: HeldAt(root, pos, n, key) {
        var n := ResolvedIsHeld(root, pos, key);
      }
    }
  }

  lemma RowsAtConcat(xs: seq<Json>, ys: seq<Json>, rows: seq<Json>, a: seq<Spot>, b: seq<Spot>)
    requires RowsAt(xs, rows, a) && RowsAt(ys, rows, b)
    ensures RowsAt(xs + ys, rows, a + b)
  {
    hide RowAt;
  }

  lemma RowsAtMore(outRows: seq<Json>, rows: seq<Json>, more: seq<Json>, spots: seq<Spot>)
    requires RowsAt(outRows, rows, spots)
    ensures RowsAt(outRows, rows + more, spots)
  {
    hide RowAt;
  }

  /** The rows of the leaves of one payload row. */
  lemma OneRowAt(rows: seq<Json>, k: nat, path: seq<string>, outRows: seq<Json>)
    requires k < |rows| && RowsFor(outRows, Leaves(rows[k], path, 0, []))
    ensures RowsAt(outRows, rows, SpotsIn(k, Positions(rows[k], path)))
  {
    var leaves, ps := Leaves(rows[k], path, 0, []), Positions(rows[k], path);
    LeavesArePositions(rows[k], path, 0, []);
    assert path[0..] == path;
    hide Leaves, Positions, RowAt;
    forall i | 0 <= i < |ps| ensures RowAt(outRows[i], rows[k], ps[i]) {
      assert LeafAtPosition(leaves[i], rows[k], ps[i], []);
      assert [] + EnvelopesOf(rows[k], ps[i]) == EnvelopesOf(rows[k], ps[i]);
      LeafRowAt(outRows[i], rows[k], ps[i]);
    }
  }

  lemma {:induction false} LeafRowsAt(rows: seq<Json>, path: seq<string>, outRows: seq<Json>)
    requires RowsFor(outRows, AllLeaves(rows, path))
    ensures RowsAt(outRows, rows, AllSpots(rows, path))
  {
    if rows != [] {
      var k := |rows| - 1;
      var front := AllLeaves(rows[..k], path);
      var xs, ys := outRows[..|front|], outRows[|front|..];
      assert RowsFor(xs, front);
      LeafRowsAt(rows[..k], path, xs);
      RowsAtMore(xs, rows[..k], [rows[k]], AllSpots(rows[..k], path));
      assert rows[..k] + [rows[k]] == rows && xs + ys == outRows;
      OneRowAt(rows, k, path, ys);
      RowsAtConcat(xs, ys, rows, AllSpots(rows[..k], path), SpotsIn(k, Positions(rows[k], path)));
    }
    hide RowsAt, RowsFor, Leaves, Positions;
  }
}
