/** JSON documents as the ingest path sees them: members of an object keep their
    order and may repeat a key; integers keep their exact value. */
module Json {

  datatype Option<+T> = None | Some(value: T)

  datatype Json =
    | Null
    | Bool(b: bool)
    | Int(i: int)
    | Real(text: string)
    | Str(s: string)
    | Arr(elems: seq<Json>)
    | Obj(fields: seq<Field>)

  datatype Field = Field(key: string, value: Json)

  predicate IsScalar(v: Json) {
    !v.Arr? && !v.Obj? && !v.Null?
  }

  /** The value of the first member named `key` (what `yyjson_obj_getn` returns). */
  function Get(fields: seq<Field>, key: string): (r: Option<Json>)
    ensures r.Some? ==> exists i :: 0 <= i < |fields| && fields[i] == Field(key, r.value)
    ensures r.None? ==> forall i :: 0 <= i < |fields| ==> fields[i].key != key
  {
    if fields == [] then None
    else if fields[0].key == key then Some(fields[0].value)
    else
      var r := Get(fields[1..], key);
      assert r.Some? ==> forall i :: 0 <= i < |fields| - 1 ==> fields[1..][i] == fields[i + 1];
      assert r.None? ==> forall i :: 0 < i < |fields| ==> fields[i] == fields[1..][i - 1];
      r
  }

  ghost predicate UniqueKeys(fields: seq<Field>) {
    forall i, j :: 0 <= i < j < |fields| ==> fields[i].key != fields[j].key
  }

  /** Every object inside `v`, at any depth, has pairwise distinct keys. */
  ghost predicate DeepUnique(v: Json) {
    match v
    case Arr(es) => forall i :: 0 <= i < |es| ==> DeepUnique(es[i])
    case Obj(fs) => UniqueKeys(fs) && forall i :: 0 <= i < |fs| ==> DeepUnique(fs[i].value)
    case _ => true
  }

  lemma GetUnique(fields: seq<Field>, i: nat)
    requires UniqueKeys(fields) && i < |fields|
    ensures Get(fields, fields[i].key) == Some(fields[i].value)
  {
    var r := Get(fields, fields[i].key);
    var j :| 0 <= j < |fields| && fields[j] == Field(fields[i].key, r.value);
    assert i == j;
  }

  /** Walks a column path: one object key per segment. */
  function PathLookup(v: Json, path: seq<string>): (r: Option<Json>)
    decreases |path|
  {
    if path == [] then Some(v)
    else if !v.Obj? then None
    else
      match Get(v.fields, path[0])
      case None => None
      case Some(w) => PathLookup(w, path[1..])
  }

  /** A position inside a document: object keys and array indices. */
  datatype Hop = Key(key: string) | Index(index: nat)

  function At(v: Json, pos: seq<Hop>): (r: Option<Json>)
    decreases |pos|
  {
    if pos == [] then Some(v)
    else
      match pos[0]
      case Key(k) =>
        if !v.Obj? then None
        else (match Get(v.fields, k) case None => None case Some(w) => At(w, pos[1..]))
      case Index(i) =>
        if !v.Arr? || i >= |v.elems| then None else At(v.elems[i], pos[1..])
  }

  function KeyHops(path: seq<string>): (r: seq<Hop>)
    ensures |r| == |path|
  {
    seq(|path|, i requires 0 <= i < |path| => Key(path[i]))
  }
}
