/** What exploding a payload along a path means, by positions: where the walk stops, in which
    order, and which field of which object on the way ends up in the row of a position. */
module Fanout {
  import opened Json

  // ---------------------------------------------------------------------------
  // Where the walk stops
  // ---------------------------------------------------------------------------

  /** The first keys of the path in order, each with at most one index after it. */
  predicate Along(pos: seq<Hop>, path: seq<string>)
    decreases |path|
  {
    pos == []
    || (path != [] && pos[0] == Key(path[0])
        && Along(if |pos| > 1 && pos[1].Index? then pos[2..] else pos[1..], path[1..]))
  }

  function KeysIn(pos: seq<Hop>): (n: nat) {
    if pos == [] then 0 else (if pos[0].Key? then 1 else 0) + KeysIn(pos[1..])
  }

  /** The path is used up, or the next key is not there. A list behind a key is entered. */
  ghost predicate StopsAt(node: Json, path: seq<string>, pos: seq<Hop>) {
    && Along(pos, path) && At(node, pos).Some?
    && var leaf := At(node, pos).value;
       && (pos != [] && pos[|pos| - 1].Key? ==> !leaf.Arr?)
       && (KeysIn(pos) >= |path| || !leaf.Obj? || Get(leaf.fields, path[KeysIn(pos)]).None?)
  }

  /** Document order: up to the first difference, which is between two indices. */
  ghost predicate Before(p: seq<Hop>, q: seq<Hop>) {
    exists n: nat :: IndexBefore(p, q, n)
  }

  predicate IndexBefore(p: seq<Hop>, q: seq<Hop>, n: nat) {
    n < |p| && n < |q| && p[..n] == q[..n] && p[n].Index? && q[n].Index? && p[n].index < q[n].index
  }

  // ---------------------------------------------------------------------------
  // What a row holds
  // ---------------------------------------------------------------------------

  /** The object after `n` hops has the key, and is not left through it. */
  ghost predicate HeldAt(root: Json, pos: seq<Hop>, n: nat, key: string) {
    && n <= |pos| && At(root, pos[..n]).Some?
    && var node := At(root, pos[..n]).value;
       node.Obj? && Get(node.fields, key).Some? && (n < |pos| ==> pos[n] != Key(key))
  }

  ghost predicate DeepestAt(root: Json, pos: seq<Hop>, n: nat, key: string) {
    HeldAt(root, pos, n, key) && forall m: nat :: n < m <= |pos| ==> !HeldAt(root, pos, m, key)
  }

  function KeysOf(fields: seq<Field>): (keys: seq<string>) {
    seq(|fields|, i requires 0 <= i < |fields| => fields[i].key)
  }

  /** Further keys come after those that are there, each once and in order, one key left out. */
  function Joined(keys: seq<string>, more: seq<string>, skip: Option<string>): (r: seq<string>) {
    if more == [] then keys
    else
      var r, last := Joined(keys, more[..|more| - 1], skip), more[|more| - 1];
      if skip == Some(last) || last in r then r else r + [last]
  }

  /** The order of a row's fields: the leaf's own first, then from object to object outwards. */
  function KeyOrder(root: Json, pos: seq<Hop>): (keys: seq<string>)
    requires At(root, pos).Some?
    decreases |pos|
  {
    if pos == [] then if root.Obj? then Joined([], KeysOf(root.fields), None) else []
    else
      match pos[0]
      case Key(k) => Joined(KeyOrder(Get(root.fields, k).value, pos[1..]), KeysOf(root.fields), Some(k))
      case Index(i) => KeyOrder(root.elems[i], pos[1..])
  }

  /** Each field of the row is that of the deepest object on the way that holds it. */
  ghost predicate RowAt(row: Json, root: Json, pos: seq<Hop>) {
    && At(root, pos).Some?
    && if !At(root, pos).value.Obj? then row == At(root, pos).value
       else
         && row.Obj? && UniqueKeys(row.fields) && KeysOf(row.fields) == KeyOrder(root, pos)
         && (forall key, n: nat :: DeepestAt(root, pos, n, key) ==>
               Get(row.fields, key) == Get(At(root, pos[..n]).value.fields, key))
         && (forall key :: Get(row.fields, key).Some? ==> exists n: nat :: HeldAt(root, pos, n, key))
  }

  /** A position in a row of the payload. */
  datatype Spot = Spot(row: nat, pos: seq<Hop>)

  ghost predicate SpotBefore(a: Spot, b: Spot) {
    a.row < b.row || (a.row == b.row && Before(a.pos, b.pos))
  }

  /** The spots are exactly those where the walk stops, in document order, so each once. */
  ghost predicate AllStops(rows: seq<Json>, path: seq<string>, spots: seq<Spot>) {
    && (forall i :: 0 <= i < |spots| ==> spots[i].row < |rows| && StopsAt(rows[spots[i].row], path, spots[i].pos))
    && (forall r: nat, pos :: r < |rows| && StopsAt(rows[r], path, pos) ==> Spot(r, pos) in spots)
    && (forall i, j :: 0 <= i < j < |spots| ==> SpotBefore(spots[i], spots[j]))
  }

  ghost predicate RowsAt(outRows: seq<Json>, rows: seq<Json>, spots: seq<Spot>) {
    && |outRows| == |spots|
    && forall i :: 0 <= i < |spots| ==> spots[i].row < |rows| && RowAt(outRows[i], rows[spots[i].row], spots[i].pos)
  }

  lemma BeforeIsStrict(a: Spot)
    ensures !SpotBefore(a, a)
  {
  }

  // ---------------------------------------------------------------------------
  // The positions, listed
  // ---------------------------------------------------------------------------

  function After(hop: Hop, ps: seq<seq<Hop>>): (r: seq<seq<Hop>>) {
    seq(|ps|, i requires 0 <= i < |ps| => [hop] + ps[i])
  }

  lemma ChildSmaller(node: Json, key: string)
    requires node.Obj? && Get(node.fields, key).Some?
    ensures Get(node.fields, key).value < node
  {
  }

  function Positions(node: Json, path: seq<string>): (ps: seq<seq<Hop>>)
    decreases node, 1, 0
  {
    if path == [] || !node.Obj? || Get(node.fields, path[0]).None? then [[]]
    else
      ChildSmaller(node, path[0]);
      var child := Get(node.fields, path[0]).value;
      After(Key(path[0]), if child.Arr? then ElementPositions(child, |child.elems|, path[1..]) else Positions(child, path[1..]))
  }

  function ElementPositions(list: Json, count: nat, path: seq<string>): (ps: seq<seq<Hop>>)
    requires list.Arr? && count <= |list.elems|
    decreases list, 0, count
  {
    if count == 0 then []
    else ElementPositions(list, count - 1, path) + After(Index(count - 1), Positions(list.elems[count - 1], path))
  }

  ghost predicate Ordered(ps: seq<seq<Hop>>) {
    forall i, j :: 0 <= i < j < |ps| ==> Before(ps[i], ps[j])
  }

  /** A position below one of the first elements of a list. */
  ghost predicate StopsBelow(list: Json, count: nat, path: seq<string>, pos: seq<Hop>)
    requires list.Arr? && count <= |list.elems|
  {
    pos != [] && pos[0].Index? && pos[0].index < count && StopsAt(list.elems[pos[0].index], path, pos[1..])
  }

  /** The first hop of a walk that goes on. */
  lemma FirstHop(node: Json, path: seq<string>, pos: seq<Hop>)
    requires path != [] && node.Obj? && Get(node.fields, path[0]).Some?
    ensures
      var child := Get(node.fields, path[0]).value;
      StopsAt(node, path, pos) <==>
        && pos != [] && pos[0] == Key(path[0])
        && if child.Arr? then StopsBelow(child, |child.elems|, path[1..], pos[1..]) else StopsAt(child, path[1..], pos[1..])
  {
    if pos != [] && pos[0] == Key(path[0]) {
      var child, rest := Get(node.fields, path[0]).value, pos[1..];
      assert At(node, pos) == At(child, rest);
      assert rest != [] ==> rest[|rest| - 1] == pos[|pos| - 1];
      if rest != [] && rest[0].Index? {
        assert pos[2..] == rest[1..];
        assert KeysIn(rest) == KeysIn(rest[1..]);
        assert rest[1..] != [] ==> rest[1..][|rest| - 2] == pos[|pos| - 1];
      }
    }
  }

  lemma BeforeAfter(hop: Hop, p: seq<Hop>, q: seq<Hop>)
    requires Before(p, q)
    ensures Before([hop] + p, [hop] + q)
  {
    var n: nat :| IndexBefore(p, q, n);
    var a, b := [hop] + p, [hop] + q;
    assert a[..n + 1] == [hop] + p[..n] && b[..n + 1] == [hop] + q[..n];
    assert IndexBefore(a, b, n + 1);
  }

  lemma AfterOrdered(hop: Hop, ps: seq<seq<Hop>>)
    requires Ordered(ps)
    ensures Ordered(After(hop, ps))
  {
    forall i, j | 0 <= i < j < |ps| ensures Before([hop] + ps[i], [hop] + ps[j]) {
      BeforeAfter(hop, ps[i], ps[j]);
    }
  }

  lemma InAfter(hop: Hop, ps: seq<seq<Hop>>, pos: seq<Hop>)
    ensures pos in After(hop, ps) <==> pos != [] && pos[0] == hop && pos[1..] in ps
  {
    if pos in After(hop, ps) {
      var i :| 0 <= i < |ps| && After(hop, ps)[i] == pos;
      assert pos[1..] == ps[i];
    }
    if pos != [] && pos[0] == hop && pos[1..] in ps {
      var i :| 0 <= i < |ps| && ps[i] == pos[1..];
      assert pos == [hop] + pos[1..] == After(hop, ps)[i];
    }
  }

  lemma {:induction false} PositionsExact(node: Json, path: seq<string>)
    ensures Ordered(Positions(node, path))
    ensures forall pos :: pos in Positions(node, path) <==> StopsAt(node, path, pos)
    decreases node, 1, 0
  {
    if path == [] || !node.Obj? || Get(node.fields, path[0]).None? {
      forall pos ensures pos in [[]] <==> StopsAt(node, path, pos) {
      }
    } else {
      ChildSmaller(node, path[0]);
      var child := Get(node.fields, path[0]).value;
      var below := if child.Arr? then ElementPositions(child, |child.elems|, path[1..]) else Positions(child, path[1..]);
      if child.Arr? { ElementPositionsExact(child, |child.elems|, path[1..]); } else { PositionsExact(child, path[1..]); }
      AfterOrdered(Key(path[0]), below);
      forall pos ensures pos in Positions(node, path) <==> StopsAt(node, path, pos) {
        InAfter(Key(path[0]), below, pos);
        FirstHop(node, path, pos);
      }
    }
  }

  lemma {:induction false} ElementPositionsExact(list: Json, count: nat, path: seq<string>)
    requires list.Arr? && count <= |list.elems|
    ensures Ordered(ElementPositions(list, count, path))
    ensures forall pos :: pos in ElementPositions(list, count, path) <==> StopsBelow(list, count, path, pos)
    decreases list, 0, count
  {
    if count > 0 {
      var k := count - 1;
      var front, last := ElementPositions(list, k, path), Positions(list.elems[k], path);
      ElementPositionsExact(list, k, path);
      PositionsExact(list.elems[k], path);
      AfterOrdered(Index(k), last);
      hide Positions, ElementPositions, StopsAt;
      forall pos ensures pos in front + After(Index(k), last) <==> StopsBelow(list, count, path, pos) {
        InAfter(Index(k), last, pos);
      }
      forall i, j | 0 <= i < |front| && 0 <= j < |last| ensures Before(front[i], [Index(k)] + last[j]) {
        assert front[i] in front;
        assert IndexBefore(front[i], [Index(k)] + last[j], 0);
      }
      OrderedConcat(front, After(Index(k), last));
    }
  }

  lemma OrderedConcat(ps: seq<seq<Hop>>, qs: seq<seq<Hop>>)
    requires Ordered(ps) && Ordered(qs)
    requires forall i, j :: 0 <= i < |ps| && 0 <= j < |qs| ==> Before(ps[i], qs[j])
    ensures Ordered(ps + qs)
  {
  }

  function SpotsIn(row: nat, ps: seq<seq<Hop>>): (r: seq<Spot>) {
    seq(|ps|, i requires 0 <= i < |ps| => Spot(row, ps[i]))
  }

  function AllSpots(rows: seq<Json>, path: seq<string>): (r: seq<Spot>) {
    if rows == [] then []
    else AllSpots(rows[..|rows| - 1], path) + SpotsIn(|rows| - 1, Positions(rows[|rows| - 1], path))
  }

  /** One more row, all of whose spots come after the others. */
  lemma SpotsOfOneMore(rows: seq<Json>, path: seq<string>, front: seq<Spot>, last: seq<seq<Hop>>)
    requires rows != [] && AllStops(rows[..|rows| - 1], path, front)
    requires Ordered(last) && forall pos :: pos in last <==> StopsAt(rows[|rows| - 1], path, pos)
    ensures AllStops(rows, path, front + SpotsIn(|rows| - 1, last))
  {
    hide StopsAt, Before;
    var k := |rows| - 1;
    var all := front + SpotsIn(k, last);
    forall i | 0 <= i < |all| ensures all[i].row < |rows| && StopsAt(rows[all[i].row], path, all[i].pos) {
      if i < |front| { assert rows[..k][front[i].row] == rows[front[i].row]; }
      else { assert last[i - |front|] in last; }
    }
    forall r: nat, pos | r < |rows| && StopsAt(rows[r], path, pos) ensures Spot(r, pos) in all {
      if r < k {
        assert rows[..k][r] == rows[r];
        assert Spot(r, pos) in front;
      } else {
        assert r == k && pos in last;
        var i :| 0 <= i < |last| && last[i] == pos;
        assert SpotsIn(k, last)[i] == Spot(r, pos);
        assert all[|front| + i] == Spot(r, pos);
      }
    }
  }

  lemma {:induction false} AllSpotsExact(rows: seq<Json>, path: seq<string>)
    ensures AllStops(rows, path, AllSpots(rows, path))
  {
    if rows != [] {
      var k := |rows| - 1;
      AllSpotsExact(rows[..k], path);
      PositionsExact(rows[k], path);
      SpotsOfOneMore(rows, path, AllSpots(rows[..k], path), Positions(rows[k], path));
    }
    hide Positions, StopsAt, Before;
  }
}
