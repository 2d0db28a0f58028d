/** Answering `count(*) GROUP BY` from a materialised projection: the plan rewrite, and the
    staleness token that guards it over runs of appends and raw_project calls. */
module Projection {
  import opened Json
  import opened Names
  import opened GroupSets

  datatype Val = NullVal | Num(n: int) | Text(s: string)

  type Row = seq<Val>

  function CellAt(row: Row, i: nat): (v: Val) { if i < |row| then row[i] else NullVal }

  function Pick(row: Row, at: seq<nat>): (key: Row)
    ensures |key| == |at|
  {
    seq(|at|, i requires 0 <= i < |at| => CellAt(row, at[i]))
  }

  // ---------------------------------------------------------------------------
  // Counting, and rolling counts up
  // ---------------------------------------------------------------------------

  function CountOf(rows: seq<Row>, at: seq<nat>, key: Row): (n: nat) {
    if rows == [] then 0
    else CountOf(rows[..|rows| - 1], at, key) + if Pick(rows[|rows| - 1], at) == key then 1 else 0
  }

  function AsNum(v: Val): (n: int) { if v.Num? then v.n else 0 }

  function SumOf(rows: seq<Row>, at: seq<nat>, column: nat, key: Row): (n: int) {
    if rows == [] then 0
    else
      var last := rows[|rows| - 1];
      SumOf(rows[..|rows| - 1], at, column, key) + if Pick(last, at) == key then AsNum(CellAt(last, column)) else 0
  }

  /** One row per key of `rows`, holding the key and how often it occurs: what
      `SELECT keys, count(*) ... GROUP BY ALL` leaves, in any order. */
  ghost predicate IsSummary(rows: seq<Row>, at: seq<nat>, keys: seq<Row>, summary: seq<Row>) {
    && (forall j, k :: 0 <= j < k < |keys| ==> keys[j] != keys[k])
    && (forall j :: 0 <= j < |keys| ==> |keys[j]| == |at| && CountOf(rows, at, keys[j]) > 0)
    && (forall r :: 0 <= r < |rows| ==> Pick(rows[r], at) in keys)
    && |summary| == |keys|
    && (forall j :: 0 <= j < |keys| ==> summary[j] == keys[j] + [Num(CountOf(rows, at, keys[j]))])
  }

  /** The counts of `rows` over the keys that `m` sends to `key`. */
  function Rolled(rows: seq<Row>, at: seq<nat>, keys: seq<Row>, m: seq<nat>, key: Row): (n: nat) {
    if keys == [] then 0
    else
      var last := keys[|keys| - 1];
      Rolled(rows, at, keys[..|keys| - 1], m, key) + if Pick(last, m) == key then CountOf(rows, at, last) else 0
  }

  /** A further row adds one to one key. */
  lemma {:induction false} RolledGrows(rows: seq<Row>, row: Row, at: seq<nat>, keys: seq<Row>, m: seq<nat>, key: Row)
    requires forall j, k :: 0 <= j < k < |keys| ==> keys[j] != keys[k]
    ensures Rolled(rows + [row], at, keys, m, key) == Rolled(rows, at, keys, m, key)
      + if Pick(row, at) in keys && Pick(Pick(row, at), m) == key then 1 else 0
    decreases |keys|
  {
    if keys != [] {
      var init, last := keys[..|keys| - 1], keys[|keys| - 1];
      RolledGrows(rows, row, at, init, m, key);
      assert (rows + [row])[..|rows|] == rows;
      assert keys == init + [last];
    }
  }

  lemma {:induction false} NothingRolled(at: seq<nat>, keys: seq<Row>, m: seq<nat>, key: Row)
    ensures Rolled([], at, keys, m, key) == 0
  {
    if keys != [] { NothingRolled(at, keys[..|keys| - 1], m, key); }
  }

  function Compose(at: seq<nat>, m: seq<nat>): (r: seq<nat>)
    requires forall i :: 0 <= i < |m| ==> m[i] < |at|
  {
    seq(|m|, i requires 0 <= i < |m| => at[m[i]])
  }

  lemma PickTwice(row: Row, at: seq<nat>, m: seq<nat>)
    requires forall i :: 0 <= i < |m| ==> m[i] < |at|
    ensures Pick(Pick(row, at), m) == Pick(row, Compose(at, m))
  {
  }

  lemma {:induction false} RolledIsCount(rows: seq<Row>, at: seq<nat>, keys: seq<Row>, m: seq<nat>, key: Row)
    requires forall j, k :: 0 <= j < k < |keys| ==> keys[j] != keys[k]
    requires forall r :: 0 <= r < |rows| ==> Pick(rows[r], at) in keys
    requires forall i :: 0 <= i < |m| ==> m[i] < |at|
    ensures Rolled(rows, at, keys, m, key) == CountOf(rows, Compose(at, m), key)
    decreases |rows|
  {
    if rows == [] {
      NothingRolled(at, keys, m, key);
    } else {
      var init, row := rows[..|rows| - 1], rows[|rows| - 1];
      assert rows == init + [row];
      RolledIsCount(init, at, keys, m, key);
      RolledGrows(init, row, at, keys, m, key);
      PickTwice(row, at, m);
    }
  }

  lemma {:induction false} SumIsRolled(
      rows: seq<Row>, at: seq<nat>, keys: seq<Row>, summary: seq<Row>, m: seq<nat>, key: Row)
    requires |summary| == |keys| && forall i :: 0 <= i < |m| ==> m[i] < |at|
    requires forall j :: 0 <= j < |keys| ==> |keys[j]| == |at|
    requires forall j :: 0 <= j < |keys| ==> summary[j] == keys[j] + [Num(CountOf(rows, at, keys[j]))]
    ensures SumOf(summary, m, |at|, key) == Rolled(rows, at, keys, m, key)
    decreases |keys|
  {
    if keys != [] {
      var n := |keys| - 1;
      SumIsRolled(rows, at, keys[..n], summary[..n], m, key);
      assert Pick(summary[n], m) == Pick(keys[n], m);
    }
  }

  /** Summing the counts of a summary over any of its columns, in any order, counts the
      rows it was made from. */
  lemma RollUp(rows: seq<Row>, at: seq<nat>, keys: seq<Row>, summary: seq<Row>, m: seq<nat>, key: Row)
    requires IsSummary(rows, at, keys, summary) && forall i :: 0 <= i < |m| ==> m[i] < |at|
    ensures SumOf(summary, m, |at|, key) == CountOf(rows, Compose(at, m), key)
  {
    SumIsRolled(rows, at, keys, summary, m, key);
    RolledIsCount(rows, at, keys, m, key);
  }

  lemma {:induction false} CountedMeansPresent(rows: seq<Row>, at: seq<nat>, key: Row)
    ensures CountOf(rows, at, key) > 0 <==> exists r :: 0 <= r < |rows| && Pick(rows[r], at) == key
  {
    if rows != [] { CountedMeansPresent(rows[..|rows| - 1], at, key); }
  }

  /** The groups are the same too. */
  lemma SameGroups(rows: seq<Row>, at: seq<nat>, keys: seq<Row>, summary: seq<Row>, m: seq<nat>, key: Row)
    requires IsSummary(rows, at, keys, summary) && forall i :: 0 <= i < |m| ==> m[i] < |at|
    ensures (exists j :: 0 <= j < |summary| && Pick(summary[j], m) == key)
       <==> (exists r :: 0 <= r < |rows| && Pick(rows[r], Compose(at, m)) == key)
  {
    forall j | 0 <= j < |summary| ensures Pick(summary[j], m) == Pick(keys[j], m) {
    }
    if j :| 0 <= j < |summary| && Pick(summary[j], m) == key {
      CountedMeansPresent(rows, at, keys[j]);
      var r :| 0 <= r < |rows| && Pick(rows[r], at) == keys[j];
      PickTwice(rows[r], at, m);
      assert Pick(rows[r], Compose(at, m)) == key;
    }
    if r :| 0 <= r < |rows| && Pick(rows[r], Compose(at, m)) == key {
      PickTwice(rows[r], at, m);
      var j :| 0 <= j < |keys| && keys[j] == Pick(rows[r], at);
      assert Pick(summary[j], m) == key;
    }
  }

  lemma {:induction false} CountAppended(rows: seq<Row>, more: seq<Row>, at: seq<nat>, key: Row)
    ensures CountOf(rows + more, at, key) == CountOf(rows, at, key) + CountOf(more, at, key)
    decreases |more|
  {
    if more == [] {
      assert rows + more == rows;
    } else {
      assert (rows + more)[..|rows + more| - 1] == rows + more[..|more| - 1];
      CountAppended(rows, more[..|more| - 1], at, key);
    }
  }

  // ---------------------------------------------------------------------------
  // Plans
  // ---------------------------------------------------------------------------

  /** A scan's outputs are the listed physical columns of the base or projection table. */
  datatype Scan = Scan(ofProjection: bool, columnIds: seq<nat>, filtered: bool)

  /** `count(*)` may carry a FILTER clause, a condition on the scan's output row. */
  datatype Aggregate = CountStar(filter: Option<Row -> bool>) | Sum(column: nat) | OtherAggregate

  datatype Group = ColumnRef(column: nat) | Computed

  datatype Output = GroupOut(i: nat) | AggregateOut(i: nat) | CastToBigint(i: nat) | ComputedOut

  datatype Plan = Plan(outputs: seq<Output>, aggregates: seq<Aggregate>, groups: seq<Group>, oneGroupingSet: bool, scan: Scan)

  datatype Table = Table(columns: seq<string>, rows: seq<Row>)

  /** `token` is the base table's physical row count when the projection was registered. */
  datatype Registered = Registered(groupSet: string, token: nat)

  /** Column lookup by folded name; of two alike the later one is found. */
  function FindColumn(columns: seq<string>, name: string): (r: Option<nat>)
    ensures r.Some? ==> r.value < |columns| && Lower(columns[r.value]) == Lower(name)
    ensures r.None? ==> forall i :: 0 <= i < |columns| ==> Lower(columns[i]) != Lower(name)
  {
    if columns == [] then None
    else if Lower(columns[|columns| - 1]) == Lower(name) then Some(|columns| - 1)
    else FindColumn(columns[..|columns| - 1], name)
  }

  /** `ResolveGetColumn`: the base column behind a group. */
  function GroupColumn(base: Table, plan: Plan, g: Group): (r: Option<nat>)
    ensures r.Some? ==> r.value < |base.columns|
  {
    if g.ColumnRef? && g.column < |plan.scan.columnIds| && plan.scan.columnIds[g.column] < |base.columns|
    then Some(plan.scan.columnIds[g.column])
    else None
  }

  function GroupNames(base: Table, plan: Plan, n: nat): (r: Option<seq<string>>)
    requires n <= |plan.groups|
    ensures r.Some? ==> |r.value| == n
    ensures r.Some? ==> forall i :: 0 <= i < n ==>
      GroupColumn(base, plan, plan.groups[i]).Some?
      && r.value[i] == base.columns[GroupColumn(base, plan, plan.groups[i]).value]
  {
    if n == 0 then Some([])
    else match GroupNames(base, plan, n - 1)
      case None => None
      case Some(names) =>
        match GroupColumn(base, plan, plan.groups[n - 1])
        case None => None
        case Some(c) => Some(names + [base.columns[c]])
  }

  function MapColumns(columns: seq<string>, names: seq<string>): (r: Option<seq<nat>>)
    ensures r.Some? ==> |r.value| == |names|
    ensures r.Some? ==> forall i :: 0 <= i < |names| ==> FindColumn(columns, names[i]) == Some(r.value[i])
  {
    if names == [] then Some([])
    else match MapColumns(columns, names[..|names| - 1])
      case None => None
      case Some(m) =>
        match FindColumn(columns, names[|names| - 1])
        case None => None
        case Some(c) => Some(m + [c])
  }

  /** A `count(*)` without arguments over plain columns of an unfiltered scan. Its FILTER
      clause is not looked at. */
  predicate Rewritable(plan: Plan) {
    && !plan.scan.ofProjection && !plan.scan.filtered
    && plan.oneGroupingSet && |plan.aggregates| == 1 && plan.aggregates[0].CountStar? && plan.groups != []
  }

  function FirstColumns(n: nat): (gs: seq<Group>) { seq(n, i requires 0 <= i < n => ColumnRef(i)) }

  function CastCount(o: Output): (r: Output) { if o == AggregateOut(0) then CastToBigint(0) else o }

  /** The first `n` columns of the new scan are the groups, the next one the counts. */
  function Retargeted(plan: Plan, scan: Scan, n: nat): (r: Plan) {
    Plan(seq(|plan.outputs|, k requires 0 <= k < |plan.outputs| => CastCount(plan.outputs[k])),
         [Sum(n)], FirstColumns(n), plan.oneGroupingSet, scan)
  }

  predicate PlainOutputs(outputs: seq<Output>) {
    forall k :: 0 <= k < |outputs| ==> !outputs[k].ComputedOut? && !outputs[k].CastToBigint?
  }

  function Rewritten(base: Table, proj: Option<Table>, phys: nat, reg: Option<Registered>, plan: Plan): (r: Option<Plan>) {
    if !Rewritable(plan) then None
    else match GroupNames(base, plan, |plan.groups|)
      case None => None
      case Some(names) =>
        if reg.None? || reg.value.groupSet != GroupSetOf(names) || phys != reg.value.token || proj.None?
          || !PlainOutputs(plan.outputs)
        then None
        else
          var columns := MapColumns(proj.value.columns, names);
          var count := FindColumn(proj.value.columns, "count");
          if columns.None? || count.None? then None
          else Some(Retargeted(plan, Scan(true, columns.value + [count.value], false), |names|))
  }

  /** The plan as the rewriter sees it: nodes edited in place. */
  class PlanNodes {
    var outputs: seq<Output>
    var aggregates: seq<Aggregate>
    var groups: seq<Group>
    var oneGroupingSet: bool
    var scan: Scan

    function Value(): (p: Plan)
      reads this
    {
      Plan(outputs, aggregates, groups, oneGroupingSet, scan)
    }

    method ResolveGroups(base: Table) returns (r: Option<seq<string>>)
      ensures r == GroupNames(base, Value(), |groups|)
    {
      var names := [];
      for i := 0 to |groups|
        invariant GroupNames(base, Value(), i) == Some(names)
      {
        var g := groups[i];
        if !(g.ColumnRef? && g.column < |scan.columnIds| && scan.columnIds[g.column] < |base.columns|) {
          NoNames(base, Value(), i + 1);
          return None;
        }
        names := names + [base.columns[scan.columnIds[g.column]]];
      }
      r := Some(names);
    }

    method OutputsArePlain() returns (r: bool)
      ensures r == PlainOutputs(outputs)
    {
      for k := 0 to |outputs|
        invariant forall j :: 0 <= j < k ==> !outputs[j].ComputedOut? && !outputs[j].CastToBigint?
      {
        if outputs[k].ComputedOut? || outputs[k].CastToBigint? { return false; }
      }
      r := true;
    }

    method Retarget(newScan: Scan)
      modifies this
      ensures Value() == Retargeted(old(Value()), newScan, |old(groups)|)
    {
      ghost var plan := Value();
      var n := |groups|;
      scan := newScan;
      for i := 0 to n
        invariant |groups| == n && Value() == plan.(groups := groups, scan := newScan)
        invariant forall j :: 0 <= j < i ==> groups[j] == ColumnRef(j)
      {
        groups := groups[i := ColumnRef(i)];
      }
      aggregates := [Sum(n)];
      for k := 0 to |outputs|
        invariant |outputs| == |plan.outputs|
        invariant Value() == Plan(outputs, [Sum(n)], FirstColumns(n), plan.oneGroupingSet, newScan)
        invariant forall j :: 0 <= j < k ==> outputs[j] == CastCount(plan.outputs[j])
        invariant forall j :: k <= j < |outputs| ==> outputs[j] == plan.outputs[j]
      {
        if outputs[k] == AggregateOut(0) { outputs := outputs[k := CastToBigint(0)]; }
      }
    }

    /** Rewrites exactly when all guards hold, and leaves the plan alone otherwise. */
    method TryRewriteToProjection(base: Table, proj: Option<Table>, phys: nat, reg: Option<Registered>)
      returns (done: bool)
      modifies this
      ensures done == Rewritten(base, proj, phys, reg, old(Value())).Some?
      ensures Value() == if done then Rewritten(base, proj, phys, reg, old(Value())).value else old(Value())
    {
      if scan.ofProjection || scan.filtered || !oneGroupingSet || |aggregates| != 1 || groups == [] {
        return false;
      }
      if !aggregates[0].CountStar? {
        return false;
      }
      var names := ResolveGroups(base);
      var plain := OutputsArePlain();
      if names.None? || reg.None? || reg.value.groupSet != GroupSetOf(names.value) || phys != reg.value.token
        || proj.None? || !plain
      {
        return false;
      }
      var ids := LookUpColumns(proj.value.columns, names.value);
      var count := FindColumn(proj.value.columns, "count");
      if ids.None? || count.None? { return false; }
      Retarget(Scan(true, ids.value + [count.value], false));
      done := true;
    }
  }

  method LookUpColumns(columns: seq<string>, names: seq<string>) returns (r: Option<seq<nat>>)
    ensures r == MapColumns(columns, names)
  {
    var ids := [];
    for i := 0 to |names|
      invariant MapColumns(columns, names[..i]) == Some(ids)
    {
      assert names[..i + 1][..i] == names[..i];
      var entry := FindColumn(columns, names[i]);
      if entry.None? { return None; }
      ids := ids + [entry.value];
    }
    assert names[..|names|] == names;
    r := Some(ids);
  }

  lemma {:induction false} NoNames(base: Table, plan: Plan, n: nat)
    requires n <= |plan.groups| && GroupNames(base, plan, n).None?
    ensures GroupNames(base, plan, |plan.groups|).None?
    decreases |plan.groups| - n
  {
    if n < |plan.groups| {
      assert GroupNames(base, plan, n + 1).None?;
      NoNames(base, plan, n + 1);
    }
  }

  // ---------------------------------------------------------------------------
  // What a plan returns
  // ---------------------------------------------------------------------------

  function KeyColumns(plan: Plan): (at: seq<nat>)
    requires forall i :: 0 <= i < |plan.groups| ==> plan.groups[i].ColumnRef? && plan.groups[i].column < |plan.scan.columnIds|
  {
    seq(|plan.groups|, i requires 0 <= i < |plan.groups| => plan.scan.columnIds[plan.groups[i].column])
  }

  /** Plans this model evaluates: grouped scans with one aggregate. */
  predicate Evaluable(plan: Plan) {
    && |plan.aggregates| == 1
    && (forall i :: 0 <= i < |plan.groups| ==> plan.groups[i].ColumnRef? && plan.groups[i].column < |plan.scan.columnIds|)
    && (plan.aggregates[0].Sum? ==> plan.aggregates[0].column < |plan.scan.columnIds|)
  }

  /** Whether the FILTER clause lets a base row count. */
  predicate Accepts(plan: Plan, row: Row)
    requires |plan.aggregates| == 1
  {
    plan.aggregates[0].CountStar? && plan.aggregates[0].filter.Some? ==>
      plan.aggregates[0].filter.value(Pick(row, plan.scan.columnIds))
  }

  function AcceptedOf(rows: seq<Row>, plan: Plan, key: Row): (n: nat)
    requires Evaluable(plan)
  {
    if rows == [] then 0
    else
      var last := rows[|rows| - 1];
      AcceptedOf(rows[..|rows| - 1], plan, key) + if Pick(last, KeyColumns(plan)) == key && Accepts(plan, last) then 1 else 0
  }

  function RejectedOf(rows: seq<Row>, plan: Plan, key: Row): (n: nat)
    requires Evaluable(plan)
  {
    if rows == [] then 0
    else
      var last := rows[|rows| - 1];
      RejectedOf(rows[..|rows| - 1], plan, key) + if Pick(last, KeyColumns(plan)) == key && !Accepts(plan, last) then 1 else 0
  }

  lemma {:induction false} AcceptedOrRejected(rows: seq<Row>, plan: Plan, key: Row)
    requires Evaluable(plan)
    ensures AcceptedOf(rows, plan, key) + RejectedOf(rows, plan, key) == CountOf(rows, KeyColumns(plan), key)
  {
    if rows != [] { AcceptedOrRejected(rows[..|rows| - 1], plan, key); }
  }

  /** The same plan without its FILTER clause. */
  function Unfiltered(plan: Plan): (r: Plan) { plan.(aggregates := [CountStar(None)]) }

  lemma UnfilteredCounts(rows: seq<Row>, plan: Plan, key: Row)
    requires Evaluable(plan) && Evaluable(Unfiltered(plan))
    ensures AggregateOver(rows, Unfiltered(plan), key) == CountOf(rows, KeyColumns(plan), key)
  {
    AcceptedOrRejected(rows, Unfiltered(plan), key);
    assert KeyColumns(Unfiltered(plan)) == KeyColumns(plan);
    NothingRejected(rows, Unfiltered(plan), key);
  }

  lemma {:induction false} NothingRejected(rows: seq<Row>, plan: Plan, key: Row)
    requires Evaluable(plan) && forall r :: 0 <= r < |rows| ==> Accepts(plan, rows[r])
    ensures RejectedOf(rows, plan, key) == 0
  {
    if rows != [] { NothingRejected(rows[..|rows| - 1], plan, key); }
  }

  function AggregateOver(rows: seq<Row>, plan: Plan, key: Row): (n: int)
    requires Evaluable(plan)
  {
    match plan.aggregates[0]
    case CountStar(_) => AcceptedOf(rows, plan, key)
    case Sum(c) => SumOf(rows, KeyColumns(plan), plan.scan.columnIds[c], key)
    case OtherAggregate => 0
  }

  function OutputValue(o: Output, key: Row, n: int): (v: Val) {
    match o
    case GroupOut(i) => CellAt(key, i)
    case AggregateOut(_) => Num(n)
    case CastToBigint(_) => Num(n)
    case ComputedOut => NullVal
  }

  /** The result has a row for group `key`, and it is `out`. */
  ghost predicate Yields(rows: seq<Row>, plan: Plan, key: Row, out: Row)
    requires Evaluable(plan)
  {
    && (exists r :: 0 <= r < |rows| && Pick(rows[r], KeyColumns(plan)) == key)
    && |out| == |plan.outputs|
    && forall k :: 0 <= k < |out| ==> out[k] == OutputValue(plan.outputs[k], key, AggregateOver(rows, plan, key))
  }

  ghost predicate SameResult(rows: seq<Row>, plan: Plan, rows': seq<Row>, plan': Plan)
    requires Evaluable(plan) && Evaluable(plan')
  {
    forall key, out :: Yields(rows, plan, key, out) <==> Yields(rows', plan', key, out)
  }

  datatype SqlType = Bigint | Hugeint | ColumnType(name: string) | Unknown

  /** The type of an output column; `sum` over BIGINT is HUGEINT. */
  function TypeOf(columns: seq<string>, plan: Plan, o: Output): (t: SqlType)
    requires Evaluable(plan)
  {
    match o
    case GroupOut(i) =>
      if i < |plan.groups| && plan.scan.columnIds[plan.groups[i].column] < |columns|
      then ColumnType(Lower(columns[plan.scan.columnIds[plan.groups[i].column]])) else Unknown
    case AggregateOut(i) => if i != 0 then Unknown else if plan.aggregates[0].CountStar? then Bigint else Hugeint
    case CastToBigint(_) => Bigint
    case ComputedOut => Unknown
  }

  // ---------------------------------------------------------------------------
  // One rewrite over a projection in good order
  // ---------------------------------------------------------------------------

  ghost predicate DistinctNames(columns: seq<string>) {
    forall i, j :: 0 <= i < j < |columns| ==> Lower(columns[i]) != Lower(columns[j])
  }

  /** None of the names is taken for the projection's count column. */
  predicate Uncounted(names: seq<string>) {
    forall i :: 0 <= i < |names| ==> Lower(names[i]) != "count"
  }

  lemma {:induction false} NamesByColumns(base: Table, base2: Table, plan: Plan, n: nat)
    requires base.columns == base2.columns && n <= |plan.groups|
    ensures GroupNames(base, plan, n) == GroupNames(base2, plan, n)
  {
    if n > 0 { NamesByColumns(base, base2, plan, n - 1); }
  }

  /** The names of a plan's group columns. */
  function GroupsOf(base: Table, plan: Plan): (names: seq<string>) {
    match GroupNames(base, plan, |plan.groups|) case Some(names) => names case None => []
  }

  /** `proj` was made from `snapshot`, some base columns `names` and their counts. */
  ghost predicate MadeFrom(base: Table, snapshot: seq<Row>, names: seq<string>, at: seq<nat>, keys: seq<Row>, proj: Table) {
    && proj.columns == names + ["count"]
    && |at| == |names|
    && (forall i :: 0 <= i < |names| ==> FindColumn(base.columns, names[i]) == Some(at[i]))
    && IsSummary(snapshot, at, keys, proj.rows)
  }

  lemma RewrittenColumns(base: Table, snapshot: seq<Row>, names: seq<string>, at: seq<nat>, keys: seq<Row>,
                         proj: Table, phys: nat, reg: Option<Registered>, plan: Plan)
    requires DistinctNames(base.columns) && Uncounted(GroupsOf(base, plan))
    requires MadeFrom(base, snapshot, names, at, keys, proj)
    requires Rewritten(base, Some(proj), phys, reg, plan).Some?
    ensures
      var plan' := Rewritten(base, Some(proj), phys, reg, plan).value;
      && Evaluable(plan) && Evaluable(plan')
      && |KeyColumns(plan')| == |KeyColumns(plan)|
      && (forall i :: 0 <= i < |KeyColumns(plan')| ==> KeyColumns(plan')[i] < |at|)
      && Compose(at, KeyColumns(plan')) == KeyColumns(plan)
      && plan'.aggregates == [Sum(|plan.groups|)] && plan'.scan.columnIds[|plan.groups|] == |at|
  {
    var plan' := Rewritten(base, Some(proj), phys, reg, plan).value;
    var q := GroupNames(base, plan, |plan.groups|).value;
    var m := MapColumns(proj.columns, q).value;
    CountIsLast(names);
    assert FindColumn(proj.columns, "count") == Some(|names|);
    assert KeyColumns(plan') == m;
    var b := KeyColumns(plan);
    forall i | 0 <= i < |q| ensures m[i] < |at| && at[m[i]] == b[i] {
      assert GroupColumn(base, plan, plan.groups[i]) == Some(b[i]);
      GroupColumnMapsBack(base, names, at, q[i], m[i], b[i]);
    }
  }

  lemma CountIsLast(names: seq<string>)
    ensures FindColumn(names + ["count"], "count") == Some(|names|)
  {
  }

  lemma GroupColumnMapsBack(base: Table, names: seq<string>, at: seq<nat>, name: string, c: nat, b: nat)
    requires DistinctNames(base.columns) && Lower(name) != "count" && b < |base.columns| && base.columns[b] == name
    requires |at| == |names| && forall i :: 0 <= i < |names| ==> FindColumn(base.columns, names[i]) == Some(at[i])
    requires FindColumn(names + ["count"], name) == Some(c)
    ensures c < |at| && at[c] == b
  {
    var columns := names + ["count"];
    assert Lower(columns[c]) == Lower(name);
    CountIsLower();
    hide Lower, FindColumn;
    assert FindColumn(base.columns, names[c]) == Some(at[c]);
    assert Lower(base.columns[at[c]]) == Lower(base.columns[b]);
  }

  lemma CountIsLower()
    ensures Lower("count") == "count"
  {
  }

  lemma SameTypes(base: Table, snapshot: seq<Row>, names: seq<string>, at: seq<nat>, keys: seq<Row>,
                  proj: Table, phys: nat, reg: Option<Registered>, plan: Plan, k: nat)
    requires DistinctNames(base.columns) && Uncounted(GroupsOf(base, plan))
    requires MadeFrom(base, snapshot, names, at, keys, proj)
    requires Rewritten(base, Some(proj), phys, reg, plan).Some? && k < |plan.outputs|
    ensures
      var plan' := Rewritten(base, Some(proj), phys, reg, plan).value;
      && Evaluable(plan) && Evaluable(plan')
      && TypeOf(proj.columns, plan', plan'.outputs[k]) == TypeOf(base.columns, plan, plan.outputs[k])
  {
    RewrittenColumns(base, snapshot, names, at, keys, proj, phys, reg, plan);
    hide GroupSetOf, GroupNames, MapColumns, DistinctNames, Uncounted, IsSummary;
    var m := KeyColumns(Rewritten(base, Some(proj), phys, reg, plan).value);
    if plan.outputs[k].GroupOut? && plan.outputs[k].i < |plan.groups| {
      var i := plan.outputs[k].i;
      assert m[i] < |at| && Compose(at, m)[i] == KeyColumns(plan)[i];
      assert FindColumn(base.columns, names[m[i]]) == Some(at[m[i]]);
    }
  }

  lemma SameCells(plan: Plan, scan: Scan, n: nat, key: Row, out: Row, total: int)
    requires |out| == |plan.outputs|
    ensures (forall k :: 0 <= k < |out| ==> out[k] == OutputValue(Retargeted(plan, scan, n).outputs[k], key, total))
       <==> (forall k :: 0 <= k < |out| ==> out[k] == OutputValue(plan.outputs[k], key, total))
  {
    forall k | 0 <= k < |out|
      ensures OutputValue(Retargeted(plan, scan, n).outputs[k], key, total) == OutputValue(plan.outputs[k], key, total)
    {
    }
  }

  /** The rewritten plan over the projection returns what the original plan, without its
      FILTER clause, returns over the rows the projection was made from: same groups,
      counts, columns and types, for every order and choice of the group columns. */
  lemma RewritePreservesMeaning(base: Table, snapshot: seq<Row>, names: seq<string>, at: seq<nat>, keys: seq<Row>,
                                proj: Table, phys: nat, reg: Option<Registered>, plan: Plan)
    requires DistinctNames(base.columns) && Uncounted(GroupsOf(base, plan))
    requires MadeFrom(base, snapshot, names, at, keys, proj)
    requires Rewritten(base, Some(proj), phys, reg, plan).Some?
    ensures
      var plan' := Rewritten(base, Some(proj), phys, reg, plan).value;
      && Evaluable(plan) && Evaluable(Unfiltered(plan)) && Evaluable(plan')
      && SameResult(snapshot, Unfiltered(plan), proj.rows, plan')
      && (plan.aggregates[0].filter.None? ==> Unfiltered(plan) == plan)
      && (forall k :: 0 <= k < |plan.outputs| ==>
            TypeOf(proj.columns, plan', plan'.outputs[k]) == TypeOf(base.columns, plan, plan.outputs[k]))
  {
    RewrittenColumns(base, snapshot, names, at, keys, proj, phys, reg, plan);
    var plan' := Rewritten(base, Some(proj), phys, reg, plan).value;
    forall k | 0 <= k < |plan.outputs|
      ensures TypeOf(proj.columns, plan', plan'.outputs[k]) == TypeOf(base.columns, plan, plan.outputs[k])
    {
      SameTypes(base, snapshot, names, at, keys, proj, phys, reg, plan, k);
    }
    var bare := Unfiltered(plan);
    assert KeyColumns(bare) == KeyColumns(plan);
    assert plan' == Retargeted(bare, plan'.scan, |plan.groups|);
    SameAnswers(snapshot, at, keys, proj.rows, bare, plan');
  }

  lemma SameAnswers(snapshot: seq<Row>, at: seq<nat>, keys: seq<Row>, summary: seq<Row>, plan: Plan, plan': Plan)
    requires IsSummary(snapshot, at, keys, summary) && Evaluable(plan) && Evaluable(plan')
    requires plan == Unfiltered(plan) && plan'.aggregates == [Sum(|plan.groups|)]
    requires plan'.scan.columnIds[|plan.groups|] == |at|
    requires plan' == Retargeted(plan, plan'.scan, |plan.groups|)
    requires forall i :: 0 <= i < |KeyColumns(plan')| ==> KeyColumns(plan')[i] < |at|
    requires Compose(at, KeyColumns(plan')) == KeyColumns(plan)
    ensures SameResult(snapshot, plan, summary, plan')
    ensures forall key :: AggregateOver(summary, plan', key) == AggregateOver(snapshot, plan, key)
  {
    var m := KeyColumns(plan');
    forall key ensures AggregateOver(summary, plan', key) == AggregateOver(snapshot, plan, key) {
      RollUp(snapshot, at, keys, summary, m, key);
      UnfilteredCounts(snapshot, plan, key);
    }
    forall key, out ensures Yields(snapshot, plan, key, out) <==> Yields(summary, plan', key, out) {
      SameGroups(snapshot, at, keys, summary, m, key);
      if |out| == |plan.outputs| {
        SameCells(plan, plan'.scan, |plan.groups|, key, out, AggregateOver(snapshot, plan, key));
      }
    }
  }

  // ---------------------------------------------------------------------------
  // When that is the answer asked for
  // ---------------------------------------------------------------------------

  /** Group by group, the filter rejects exactly as many rows as the projection has missed
      (when counts are asked for at all), and no missed row starts a group of its own. */
  ghost predicate Balanced(plan: Plan, snapshot: seq<Row>, missed: seq<Row>)
    requires Evaluable(plan)
  {
    forall key :: BalancedAt(plan, snapshot, missed, key)
  }

  ghost predicate BalancedAt(plan: Plan, snapshot: seq<Row>, missed: seq<Row>, key: Row)
    requires Evaluable(plan)
  {
    var at := KeyColumns(plan);
    && (CountOf(missed, at, key) > 0 ==> CountOf(snapshot, at, key) > 0)
    && (AggregateOut(0) in plan.outputs && CountOf(snapshot, at, key) > 0 ==>
          RejectedOf(snapshot + missed, plan, key) == CountOf(missed, at, key))
  }

  /** A plain plan over one aggregate refers to nothing else. */
  predicate ValidOutputs(plan: Plan) {
    forall k :: 0 <= k < |plan.outputs| ==> plan.outputs[k].GroupOut? || plan.outputs[k] == AggregateOut(0)
  }

  function OutputRow(plan: Plan, key: Row, n: int): (out: Row) {
    seq(|plan.outputs|, k requires 0 <= k < |plan.outputs| => OutputValue(plan.outputs[k], key, n))
  }

  lemma YieldsIff(rows: seq<Row>, plan: Plan, key: Row, out: Row)
    requires Evaluable(plan)
    ensures Yields(rows, plan, key, out) <==>
      CountOf(rows, KeyColumns(plan), key) > 0 && out == OutputRow(plan, key, AggregateOver(rows, plan, key))
  {
    CountedMeansPresent(rows, KeyColumns(plan), key);
  }

  /** Output rows show the count exactly when it is among the outputs. */
  lemma OutputRowsDiffer(plan: Plan, key: Row, a: int, b: int)
    requires ValidOutputs(plan)
    ensures OutputRow(plan, key, a) == OutputRow(plan, key, b) <==> a == b || AggregateOut(0) !in plan.outputs
  {
    if a != b && AggregateOut(0) in plan.outputs {
      var k :| 0 <= k < |plan.outputs| && plan.outputs[k] == AggregateOut(0);
      assert OutputRow(plan, key, a)[k] == Num(a) && OutputRow(plan, key, b)[k] == Num(b);
    }
  }

  ghost predicate AgreeAt(plan: Plan, snapshot: seq<Row>, missed: seq<Row>, key: Row)
    requires Evaluable(plan) && Evaluable(Unfiltered(plan))
  {
    forall out :: Yields(snapshot + missed, plan, key, out) <==> Yields(snapshot, Unfiltered(plan), key, out)
  }

  lemma AgreeIffBalanced(plan: Plan, snapshot: seq<Row>, missed: seq<Row>, key: Row)
    requires Evaluable(plan) && Evaluable(Unfiltered(plan)) && plan.aggregates[0].CountStar?
    requires ValidOutputs(plan)
    ensures AgreeAt(plan, snapshot, missed, key) <==> BalancedAt(plan, snapshot, missed, key)
  {
    var at, bare, rows := KeyColumns(plan), Unfiltered(plan), snapshot + missed;
    var a, b := AggregateOver(rows, plan, key), AggregateOver(snapshot, bare, key);
    assert KeyColumns(bare) == at;
    CountAppended(snapshot, missed, at, key);
    AcceptedOrRejected(rows, plan, key);
    UnfilteredCounts(snapshot, plan, key);
    OutputRowsDiffer(plan, key, a, b);
    assert OutputRow(bare, key, b) == OutputRow(plan, key, b);
    hide CountOf, AcceptedOf, RejectedOf, OutputRow, Yields, AggregateOver;
    forall out
      ensures Yields(rows, plan, key, out) <==> CountOf(rows, at, key) > 0 && out == OutputRow(plan, key, a)
      ensures Yields(snapshot, bare, key, out) <==> CountOf(snapshot, at, key) > 0 && out == OutputRow(plan, key, b)
    {
      YieldsIff(rows, plan, key, out);
      YieldsIff(snapshot, bare, key, out);
    }
    assert Yields(rows, plan, key, OutputRow(plan, key, a)) <==> CountOf(rows, at, key) > 0;
    assert Yields(snapshot, bare, key, OutputRow(plan, key, b)) <==> CountOf(snapshot, at, key) > 0;
  }

  /** A plan over a table of which the projection has seen `snapshot`: the unfiltered answer
      over the snapshot is the one asked for if and only if the two are balanced. */
  lemma SameResultIffBalanced(plan: Plan, snapshot: seq<Row>, missed: seq<Row>)
    requires Evaluable(plan) && Evaluable(Unfiltered(plan)) && plan.aggregates[0].CountStar?
    requires ValidOutputs(plan)
    ensures SameResult(snapshot + missed, plan, snapshot, Unfiltered(plan)) <==> Balanced(plan, snapshot, missed)
  {
    forall key ensures AgreeAt(plan, snapshot, missed, key) <==> BalancedAt(plan, snapshot, missed, key) {
      AgreeIffBalanced(plan, snapshot, missed, key);
    }
    if Balanced(plan, snapshot, missed) {
      forall key, out
        ensures Yields(snapshot + missed, plan, key, out) <==> Yields(snapshot, Unfiltered(plan), key, out)
      {
        assert AgreeAt(plan, snapshot, missed, key);
      }
    }
    if SameResult(snapshot + missed, plan, snapshot, Unfiltered(plan)) {
      forall key ensures BalancedAt(plan, snapshot, missed, key) {
        assert AgreeAt(plan, snapshot, missed, key);
      }
    }
  }

  /** The FILTER clause lets every row of the table count. */
  ghost predicate FiltersNothing(plan: Plan, rows: seq<Row>)
    requires |plan.aggregates| == 1
  {
    forall r :: 0 <= r < |rows| ==> Accepts(plan, rows[r])
  }

  lemma {:induction false} RejectedHere(rows: seq<Row>, plan: Plan, r: nat)
    requires Evaluable(plan) && r < |rows| && !Accepts(plan, rows[r])
    ensures RejectedOf(rows, plan, Pick(rows[r], KeyColumns(plan))) > 0
    decreases |rows|
  {
    if r < |rows| - 1 { RejectedHere(rows[..|rows| - 1], plan, r); }
  }

  /** With nothing missed: right if and only if no count is asked for or nothing is
      filtered away. */
  lemma CompleteIsBalancedIff(plan: Plan, rows: seq<Row>)
    requires Evaluable(plan)
    ensures Balanced(plan, rows, []) <==> AggregateOut(0) !in plan.outputs || FiltersNothing(plan, rows)
  {
    assert rows + [] == rows;
    if FiltersNothing(plan, rows) {
      forall key ensures BalancedAt(plan, rows, [], key) {
        NothingRejected(rows, plan, key);
      }
    } else {
      var r :| 0 <= r < |rows| && !Accepts(plan, rows[r]);
      var key := Pick(rows[r], KeyColumns(plan));
      RejectedHere(rows, plan, r);
      AcceptedOrRejected(rows, plan, key);
      if AggregateOut(0) in plan.outputs { assert !BalancedAt(plan, rows, [], key); }
    }
  }

  /** With no filter, and a count asked for: right if and only if nothing is missed. */
  lemma UnfilteredIsBalancedIff(plan: Plan, snapshot: seq<Row>, missed: seq<Row>)
    requires Evaluable(plan) && (plan.aggregates[0].CountStar? ==> plan.aggregates[0].filter.None?)
    requires AggregateOut(0) in plan.outputs
    ensures Balanced(plan, snapshot, missed) <==> missed == []
  {
    if missed == [] {
      CompleteIsBalancedIff(plan, snapshot);
    } else {
      var at := KeyColumns(plan);
      var key := Pick(missed[|missed| - 1], at);
      assert CountOf(missed, at, key) > 0;
      NothingRejected(snapshot + missed, plan, key);
      assert !BalancedAt(plan, snapshot, missed, key);
    }
  }

  /** All the guards at once. */
  lemma RewrittenIff(base: Table, proj: Option<Table>, phys: nat, reg: Option<Registered>, plan: Plan)
    ensures Rewritten(base, proj, phys, reg, plan).Some? <==>
      && Rewritable(plan) && PlainOutputs(plan.outputs)
      && GroupNames(base, plan, |plan.groups|).Some? && reg.Some? && proj.Some?
      && reg.value == Registered(GroupSetOf(GroupNames(base, plan, |plan.groups|).value), phys)
      && MapColumns(proj.value.columns, GroupNames(base, plan, |plan.groups|).value).Some?
      && FindColumn(proj.value.columns, "count").Some?
  {
  }

  lemma RewrittenOutputs(base: Table, proj: Option<Table>, phys: nat, reg: Option<Registered>, plan: Plan)
    requires Rewritten(base, proj, phys, reg, plan).Some?
    ensures Rewritable(plan) && PlainOutputs(plan.outputs) && plan.aggregates[0].CountStar?
  {
  }

  // ---------------------------------------------------------------------------
  // The order of the group columns
  // ---------------------------------------------------------------------------

  lemma {:induction false} MapsWhenAllFound(columns: seq<string>, names: seq<string>)
    ensures MapColumns(columns, names).Some? <==> forall i :: 0 <= i < |names| ==> FindColumn(columns, names[i]).Some?
  {
    if names != [] {
      var init := names[..|names| - 1];
      MapsWhenAllFound(columns, init);
      assert forall i :: 0 <= i < |init| ==> init[i] == names[i];
    }
  }

  lemma SameFound(columns: seq<string>, xs: seq<string>, ys: seq<string>)
    requires multiset(xs) == multiset(ys) && MapColumns(columns, xs).Some?
    ensures MapColumns(columns, ys).Some?
  {
    MapsWhenAllFound(columns, xs);
    MapsWhenAllFound(columns, ys);
    forall i | 0 <= i < |ys| ensures FindColumn(columns, ys[i]).Some? {
      assert ys[i] in multiset(xs);
      var j :| 0 <= j < |xs| && xs[j] == ys[i];
    }
  }

  /** Of two rewritable plans, when one is rewritten then the other is if and only if its
      group columns are the same ones, in whatever order. */
  lemma RewriteIgnoresGroupOrder(base: Table, proj: Option<Table>, phys: nat, reg: Option<Registered>, plan: Plan, plan2: Plan)
    requires Rewritten(base, proj, phys, reg, plan).Some?
    requires AllPlain(GroupsOf(base, plan)) && AllPlain(GroupsOf(base, plan2))
    requires Rewritable(plan2) && PlainOutputs(plan2.outputs) && GroupNames(base, plan2, |plan2.groups|).Some?
    ensures
      Rewritten(base, proj, phys, reg, plan2).Some? <==>
      multiset(GroupNames(base, plan, |plan.groups|).value) == multiset(GroupNames(base, plan2, |plan2.groups|).value)
  {
    var q, q2 := GroupNames(base, plan, |plan.groups|).value, GroupNames(base, plan2, |plan2.groups|).value;
    GroupSetIff(q, q2);
    RewrittenIff(base, proj, phys, reg, plan);
    RewrittenIff(base, proj, phys, reg, plan2);
    if multiset(q) == multiset(q2) { SameFound(proj.value.columns, q, q2); }
  }

  /** A plain column of the scan. */
  predicate IsBaseColumn(base: Table, plan: Plan, g: Group) {
    g.ColumnRef? && g.column < |plan.scan.columnIds| && plan.scan.columnIds[g.column] < |base.columns|
  }

  function BaseColumn(base: Table, plan: Plan, g: Group): (name: string)
    requires IsBaseColumn(base, plan, g)
  {
    base.columns[plan.scan.columnIds[g.column]]
  }

  lemma {:induction false} NamedGroups(base: Table, plan: Plan, n: nat)
    requires n <= |plan.groups|
    ensures GroupNames(base, plan, n).Some? <==> forall i :: 0 <= i < n ==> IsBaseColumn(base, plan, plan.groups[i])
    ensures GroupNames(base, plan, n).Some? ==>
      forall i :: 0 <= i < n ==> GroupNames(base, plan, n).value[i] == BaseColumn(base, plan, plan.groups[i])
    decreases n
  {
    if n > 0 { NamedGroups(base, plan, n - 1); }
  }

  /** The columns a plan groups by. */
  function GroupedBy(base: Table, plan: Plan): (names: seq<string>) {
    seq(|plan.groups|, i requires 0 <= i < |plan.groups| =>
      if IsBaseColumn(base, plan, plan.groups[i]) then BaseColumn(base, plan, plan.groups[i]) else "")
  }

  /** The group set that a plan asks for is that of the given names. */
  lemma AsksFor(base: Table, plan: Plan, names: seq<string>)
    requires names != [] && AllPlain(names) && plan.groups != []
    requires forall i :: 0 <= i < |plan.groups| ==> IsBaseColumn(base, plan, plan.groups[i])
    requires AllPlain(GroupedBy(base, plan))
    ensures GroupNames(base, plan, |plan.groups|) == Some(GroupedBy(base, plan))
    ensures GroupSetOf(GroupedBy(base, plan)) == GroupSetOf(names) <==> multiset(GroupedBy(base, plan)) == multiset(names)
  {
    NamedGroups(base, plan, |plan.groups|);
    assert GroupNames(base, plan, |plan.groups|).value == GroupedBy(base, plan);
    GroupSetIff(GroupedBy(base, plan), names);
  }

  lemma PlainGroups(base: Table, plan: Plan)
    requires forall i :: 0 <= i < |plan.groups| ==>
               IsBaseColumn(base, plan, plan.groups[i]) && Plain(BaseColumn(base, plan, plan.groups[i]))
    ensures AllPlain(GroupedBy(base, plan))
  {
  }

  lemma GuardsOf(plan: Plan)
    ensures Rewritable(plan) <==>
      && !plan.scan.ofProjection && !plan.scan.filtered && plan.oneGroupingSet
      && |plan.aggregates| == 1 && plan.aggregates[0].CountStar? && plan.groups != []
    ensures PlainOutputs(plan.outputs) <==>
      forall k :: 0 <= k < |plan.outputs| ==> plan.outputs[k].GroupOut? || plan.outputs[k].AggregateOut?
  {
  }

  /** Which plans are rewritten, over a projection made from the columns `names`: a single
      `count(*)`, whatever its FILTER, over an unfiltered scan of the table itself, grouped in
      one set by exactly those columns in any order, with plain outputs, as long as the table
      has as many physical rows as were noted. */
  lemma RewrittenExactly(base: Table, snapshot: seq<Row>, names: seq<string>, at: seq<nat>, keys: seq<Row>, proj: Table,
                         phys: nat, token: nat, plan: Plan)
    requires names != [] && AllPlain(names) && MadeFrom(base, snapshot, names, at, keys, proj)
    requires forall i :: 0 <= i < |plan.groups| && IsBaseColumn(base, plan, plan.groups[i]) ==>
               Plain(BaseColumn(base, plan, plan.groups[i]))
    ensures Rewritten(base, Some(proj), phys, Some(Registered(GroupSetOf(names), token)), plan).Some? <==>
      && phys == token && !plan.scan.ofProjection && !plan.scan.filtered && plan.oneGroupingSet
      && |plan.aggregates| == 1 && plan.aggregates[0].CountStar?
      && plan.groups != [] && (forall i :: 0 <= i < |plan.groups| ==> IsBaseColumn(base, plan, plan.groups[i]))
      && multiset(GroupedBy(base, plan)) == multiset(names)
      && (forall k :: 0 <= k < |plan.outputs| ==> plan.outputs[k].GroupOut? || plan.outputs[k].AggregateOut?)
  {
    var q := GroupedBy(base, plan);
    RewrittenIff(base, Some(proj), phys, Some(Registered(GroupSetOf(names), token)), plan);
    NamedGroups(base, plan, |plan.groups|);
    GuardsOf(plan);
    if plan.groups != [] && GroupNames(base, plan, |plan.groups|).Some? {
      PlainGroups(base, plan);
      AsksFor(base, plan, names);
      AllFound(proj.columns, names);
      CountIsLast(names);
      if multiset(q) == multiset(names) { SameFound(proj.columns, names, q); }
    }
    hide *;
  }

  lemma AllFound(columns: seq<string>, names: seq<string>)
    requires columns == names + ["count"]
    ensures MapColumns(columns, names).Some?
  {
    MapsWhenAllFound(columns, names);
    forall i | 0 <= i < |names| ensures FindColumn(columns, names[i]).Some? {
      assert columns[i] == names[i];
    }
  }

  // ---------------------------------------------------------------------------
  // Choosing what to project
  // ---------------------------------------------------------------------------

  /** Among the first `n`, `groupSet` is the first one observed `observed` times or more. */
  ghost predicate FirstWith(candidates: seq<(string, nat)>, n: nat, groupSet: string, observed: nat)
    requires n <= |candidates|
  {
    exists k :: 0 <= k < n && candidates[k] == (groupSet, observed)
      && (forall j :: 0 <= j < k ==> candidates[j].1 < observed)
  }

  /** The hottest observed group set; the first of several equally hot ones, and none when
      nothing has been observed. */
  method PickHottest(candidates: seq<(string, nat)>) returns (groupSet: string, observed: nat)
    ensures observed == 0 <==> forall k :: 0 <= k < |candidates| ==> candidates[k].1 == 0
    ensures observed == 0 ==> groupSet == ""
    ensures forall k :: 0 <= k < |candidates| ==> candidates[k].1 <= observed
    ensures observed > 0 ==> FirstWith(candidates, |candidates|, groupSet, observed)
  {
    groupSet, observed := "", 0;
    for i := 0 to |candidates|
      invariant observed == 0 <==> forall k :: 0 <= k < i ==> candidates[k].1 == 0
      invariant observed == 0 ==> groupSet == ""
      invariant forall k :: 0 <= k < i ==> candidates[k].1 <= observed
      invariant observed > 0 ==> FirstWith(candidates, i, groupSet, observed)
    {
      if candidates[i].1 > observed { groupSet, observed := candidates[i].0, candidates[i].1; }
    }
  }
}
