/** The staleness token over whole runs: committed appends, reverted appends, and the two
    halves of raw_project (build the projection table, then register it with the token). */
module ProjectionRuns {
  import opened Json
  import opened Names
  import opened GroupSets
  import opened Projection

  /** The projection table, with what it was made from as history. */
  datatype Made = Made(table: Table, names: seq<string>, at: seq<nat>, keys: seq<Row>, snapshot: seq<Row>)

  /** `phys` counts physical rows, which reverted appends may leave behind. `building` holds
      the raw_project calls between their two halves. `gap` is history: the rows the
      projection was already missing when it was last registered. */
  datatype State = State(
    base: Table,
    phys: nat,
    made: Option<Made>,
    reg: Option<Registered>,
    building: multiset<seq<string>>,
    gap: nat)

  function Initial(base: Table, phys: nat): (s: State) { State(base, phys, None, None, multiset{}, 0) }

  datatype Event =
    | Append(rows: seq<Row>)
    | Revert(left: nat)
    | Build(names: seq<string>, keys: seq<Row>, summary: seq<Row>)
    | Register(names: seq<string>)

  ghost predicate Enabled(s: State, e: Event) {
    match e
    case Append(_) => true
    case Revert(_) => true
    case Build(names, keys, summary) =>
      && names != []
      && (forall i :: 0 <= i < |names| ==> names[i] in s.base.columns)
      && var at := MapColumns(s.base.columns, Split(GroupSetOf(names)));
         at.Some? && IsSummary(s.base.rows, at.value, keys, summary)
    case Register(names) => names in s.building
  }

  ghost function Step(s: State, e: Event): (s': State)
    requires Enabled(s, e)
  {
    match e
    case Append(rows) => s.(base := s.base.(rows := s.base.rows + rows), phys := s.phys + |rows|)
    case Revert(left) => s.(phys := s.phys + left)
    case Build(names, keys, summary) =>
      var columns := Split(GroupSetOf(names));
      s.(made := Some(Made(Table(columns + ["count"], summary), columns, MapColumns(s.base.columns, columns).value,
                           keys, s.base.rows)),
         building := s.building + multiset{names}, gap := 0)
    case Register(names) =>
      s.(reg := Some(Registered(GroupSetOf(names), s.phys)), building := s.building - multiset{names},
         gap := if s.made.Some? && |s.made.value.snapshot| <= |s.base.rows|
                then |s.base.rows| - |s.made.value.snapshot| else 0)
  }

  ghost function Run(s: State, es: seq<Event>): (r: Option<State>)
    decreases |es|
  {
    if es == [] then Some(s)
    else
      var before := Run(s, es[..|es| - 1]);
      if before.Some? && Enabled(before.value, es[|es| - 1]) then Some(Step(before.value, es[|es| - 1])) else None
  }

  /** The projection is an honest summary of a prefix of the table; an unmoved token says
      how long that prefix is. */
  ghost predicate Inv(s: State) {
    && DistinctNames(s.base.columns)
    && (s.made.Some? ==>
          var m := s.made.value;
          MadeFrom(s.base, m.snapshot, m.names, m.at, m.keys, m.table) && m.snapshot <= s.base.rows)
    && (s.building != multiset{} ==> s.made.Some?)
    && (s.reg.Some? ==>
          && s.made.Some? && s.reg.value.token <= s.phys
          && (s.reg.value.token == s.phys ==> |s.base.rows| == |s.made.value.snapshot| + s.gap))
  }

  /** Whatever the names, the table built is a summary over columns of the base; they are
      the observed ones exactly when the group set splits back into them. */
  lemma BuildMakes(s: State, names: seq<string>, keys: seq<Row>, summary: seq<Row>)
    requires Enabled(s, Build(names, keys, summary))
    ensures
      var m := Step(s, Build(names, keys, summary)).made.value;
      && MadeFrom(s.base, m.snapshot, m.names, m.at, m.keys, m.table)
      && (m.names == Sort(names) <==> AllPlain(names) || (|names| == 1 && OnlySeparators(names[0])))
  {
    hide Sort, Split, GroupSetOf, OnlySeparators, AllPlain, IsSummary;
    GroupSetSplitsIff(names);
  }

  lemma {:induction false} RunKeepsColumns(s: State, es: seq<Event>)
    requires Run(s, es).Some?
    ensures Run(s, es).value.base.columns == s.base.columns
    decreases |es|
  {
    if es != [] { RunKeepsColumns(s, es[..|es| - 1]); }
  }

  lemma StepKeepsInv(s: State, e: Event)
    requires Inv(s) && Enabled(s, e)
    ensures Inv(Step(s, e))
  {
    match e
    case Append(rows) =>
      assert rows == [] ==> s.base.rows + rows == s.base.rows;
      assert Step(s, e).base.columns == s.base.columns;
    case Revert(_) =>
    case Build(names, keys, summary) => BuildMakes(s, names, keys, summary);
    case Register(names) =>
  }

  lemma {:induction false} RunKeepsInv(s: State, es: seq<Event>)
    requires Inv(s) && Run(s, es).Some?
    ensures Inv(Run(s, es).value)
    decreases |es|
  {
    if es != [] {
      RunKeepsInv(s, es[..|es| - 1]);
      StepKeepsInv(Run(s, es[..|es| - 1]).value, es[|es| - 1]);
    }
  }

  function ProjectionTable(s: State): (t: Option<Table>) {
    match s.made case Some(m) => Some(m.table) case None => None
  }

  function Answer(s: State, plan: Plan): (r: Option<Plan>) {
    Rewritten(s.base, ProjectionTable(s), s.phys, s.reg, plan)
  }

  /** The plan is rewritten, and the answer from the projection is the table's. */
  ghost predicate AnswersRight(s: State, plan: Plan) {
    && Answer(s, plan).Some? && s.made.Some?
    && Evaluable(plan) && Evaluable(Answer(s, plan).value)
    && SameResult(s.base.rows, plan, s.made.value.table.rows, Answer(s, plan).value)
  }

  /** The rows the projection has not seen. */
  function Missed(s: State): (rows: seq<Row>) {
    if s.made.Some? && |s.made.value.snapshot| <= |s.base.rows| then s.base.rows[|s.made.value.snapshot|..] else []
  }

  /** A rewritten answer is the table's if and only if what the filter rejects and what the
      projection has missed cancel out, group by group. */
  lemma AnswersRightIffBalanced(s: State, plan: Plan)
    requires Inv(s) && Uncounted(GroupsOf(s.base, plan)) && Answer(s, plan).Some? && ValidOutputs(plan)
    ensures Evaluable(plan) && AnswersRight(s, plan) <==> Balanced(plan, s.made.value.snapshot, Missed(s))
  {
    var m := s.made.value;
    var rows, bare, plan' := s.base.rows, Unfiltered(plan), Answer(s, plan).value;
    RewritePreservesMeaning(s.base, m.snapshot, m.names, m.at, m.keys, m.table, s.phys, s.reg, plan);
    RewrittenOutputs(s.base, ProjectionTable(s), s.phys, s.reg, plan);
    assert rows == m.snapshot + Missed(s);
    SameResultIffBalanced(plan, m.snapshot, Missed(s));
    Transitive(rows, plan, m.snapshot, bare, m.table.rows, plan');
  }

  lemma Transitive(a: seq<Row>, p: Plan, b: seq<Row>, q: Plan, c: seq<Row>, r: Plan)
    requires Evaluable(p) && Evaluable(q) && Evaluable(r) && SameResult(b, q, c, r)
    ensures SameResult(a, p, c, r) <==> SameResult(a, p, b, q)
  {
  }

  /** Over any run of appends, reverts and interleaved raw_project calls, and for every plan
      that is rewritten, filtered or not: the exact condition for a right answer. */
  lemma RewriteRightIff(base: Table, phys: nat, es: seq<Event>, plan: Plan)
    requires DistinctNames(base.columns) && Uncounted(GroupsOf(base, plan)) && Run(Initial(base, phys), es).Some?
    requires Answer(Run(Initial(base, phys), es).value, plan).Some? && ValidOutputs(plan)
    ensures
      var s := Run(Initial(base, phys), es).value;
      Evaluable(plan) && s.made.Some? && AnswersRight(s, plan) <==> Balanced(plan, s.made.value.snapshot, Missed(s))
  {
    RunKeepsInv(Initial(base, phys), es);
    RunKeepsColumns(Initial(base, phys), es);
    NamesByColumns(base, Run(Initial(base, phys), es).value.base, plan, |plan.groups|);
    AnswersRightIffBalanced(Run(Initial(base, phys), es).value, plan);
  }

  // ---------------------------------------------------------------------------
  // In terms of what happened
  // ---------------------------------------------------------------------------

  ghost predicate LastBuild(es: seq<Event>, i: nat) {
    i < |es| && es[i].Build? && forall k :: i < k < |es| ==> !es[k].Build?
  }

  ghost predicate LastRegister(es: seq<Event>, j: nat) {
    j < |es| && es[j].Register? && forall k :: j < k < |es| ==> !es[k].Register?
  }

  predicate Commits(e: Event) { e.Append? && e.rows != [] }

  /** Rows were committed after the last build. */
  ghost predicate Behind(es: seq<Event>) {
    exists i: nat, k: nat :: LastBuild(es, i) && i < k < |es| && Commits(es[k])
  }

  /** Rows were committed between the last build and the last registration. */
  ghost predicate Overtaken(es: seq<Event>) {
    exists i: nat, k: nat, j: nat :: LastBuild(es, i) && LastRegister(es, j) && i < k < j && Commits(es[k])
  }

  ghost predicate HasBuild(es: seq<Event>) { exists i: nat :: LastBuild(es, i) }

  lemma LastBuildStep(init: seq<Event>, e: Event, i: nat)
    ensures LastBuild(init + [e], i) <==> if e.Build? then i == |init| else LastBuild(init, i)
  {
    var all := init + [e];
    assert all[|init|] == e && forall k :: 0 <= k < |init| ==> all[k] == init[k];
    if LastBuild(all, i) && i < |init| { assert forall k :: i < k < |init| ==> !init[k].Build?; }
  }

  lemma LastRegisterStep(init: seq<Event>, e: Event, j: nat)
    ensures LastRegister(init + [e], j) <==> if e.Register? then j == |init| else LastRegister(init, j)
  {
    var all := init + [e];
    assert all[|init|] == e && forall k :: 0 <= k < |init| ==> all[k] == init[k];
    if LastRegister(all, j) && j < |init| { assert forall k :: j < k < |init| ==> !init[k].Register?; }
  }

  lemma HasBuildStep(init: seq<Event>, e: Event)
    ensures HasBuild(init + [e]) <==> HasBuild(init) || e.Build?
  {
    LastBuildStep(init, e, |init|);
    if i: nat :| LastBuild(init, i) { LastBuildStep(init, e, i); }
    if i: nat :| LastBuild(init + [e], i) { LastBuildStep(init, e, i); }
  }

  lemma BehindStep(init: seq<Event>, e: Event)
    ensures Behind(init + [e]) <==> !e.Build? && (Behind(init) || (HasBuild(init) && Commits(e)))
  {
    var all := init + [e];
    assert all[|init|] == e && forall k :: 0 <= k < |init| ==> all[k] == init[k];
    if i: nat, k: nat :| LastBuild(all, i) && i < k < |all| && Commits(all[k]) { LastBuildStep(init, e, i); }
    if !e.Build? {
      if i: nat, k: nat :| LastBuild(init, i) && i < k < |init| && Commits(init[k]) {
        LastBuildStep(init, e, i);
        assert Commits(all[k]);
      }
      if i: nat :| LastBuild(init, i) {
        LastBuildStep(init, e, i);
        assert Commits(e) ==> Commits(all[|init|]);
      }
    }
  }

  lemma OvertakenStep(init: seq<Event>, e: Event)
    ensures Overtaken(init + [e]) <==> !e.Build? && if e.Register? then Behind(init) else Overtaken(init)
  {
    var all := init + [e];
    assert all[|init|] == e && forall k :: 0 <= k < |init| ==> all[k] == init[k];
    if i: nat, k: nat, j: nat :| LastBuild(all, i) && LastRegister(all, j) && i < k < j && Commits(all[k]) {
      LastBuildStep(init, e, i);
      LastRegisterStep(init, e, j);
      assert Commits(init[k]);
    }
    if e.Register? {
      if i: nat, k: nat :| LastBuild(init, i) && i < k < |init| && Commits(init[k]) {
        LastBuildStep(init, e, i);
        LastRegisterStep(init, e, |init|);
        assert Commits(all[k]);
      }
    } else if !e.Build? {
      if i: nat, k: nat, j: nat :| LastBuild(init, i) && LastRegister(init, j) && i < k < j && Commits(init[k]) {
        LastBuildStep(init, e, i);
        LastRegisterStep(init, e, j);
        assert Commits(all[k]);
      }
    }
  }

  /** The history fields say just that. */
  ghost predicate Tracks(s: State, es: seq<Event>) {
    && (s.made.Some? <==> HasBuild(es))
    && (s.made.Some? ==> |s.made.value.snapshot| <= |s.base.rows|
                         && (|s.made.value.snapshot| < |s.base.rows| <==> Behind(es)))
    && (s.gap > 0 <==> Overtaken(es))
    && (s.building != multiset{} ==> s.made.Some?)
  }

  lemma {:induction false} RunTracks(s: State, es: seq<Event>)
    requires Run(s, es).Some? && s.made.None? && s.gap == 0 && s.building == multiset{}
    ensures Tracks(Run(s, es).value, es)
    decreases |es|
  {
    if es != [] {
      var init, e := es[..|es| - 1], es[|es| - 1];
      RunTracks(s, init);
      assert es == init + [e];
      HasBuildStep(init, e);
      BehindStep(init, e);
      OvertakenStep(init, e);
      StepTracks(Run(s, init).value, init, e);
    }
  }

  lemma StepTracks(s: State, es: seq<Event>, e: Event)
    requires Tracks(s, es) && Enabled(s, e)
    requires HasBuild(es + [e]) <==> HasBuild(es) || e.Build?
    requires Behind(es + [e]) <==> !e.Build? && (Behind(es) || (HasBuild(es) && Commits(e)))
    requires Overtaken(es + [e]) <==> !e.Build? && if e.Register? then Behind(es) else Overtaken(es)
    requires Behind(es) ==> HasBuild(es)
    ensures Tracks(Step(s, e), es + [e])
  {
    hide HasBuild, Behind, Overtaken;
  }

  /** An unfiltered count is right if and only if no row was committed between the last
      build and the last registration: the token, read too late, covers such rows. */
  lemma UnfilteredRightIff(base: Table, phys: nat, es: seq<Event>, plan: Plan)
    requires DistinctNames(base.columns) && Uncounted(GroupsOf(base, plan)) && Run(Initial(base, phys), es).Some?
    requires Answer(Run(Initial(base, phys), es).value, plan).Some? && ValidOutputs(plan)
    requires AggregateOut(0) in plan.outputs && plan.aggregates == [CountStar(None)]
    ensures AnswersRight(Run(Initial(base, phys), es).value, plan) <==> !Overtaken(es)
  {
    var s := Run(Initial(base, phys), es).value;
    RewriteRightIff(base, phys, es, plan);
    UnfilteredIsBalancedIff(plan, s.made.value.snapshot, Missed(s));
    NothingMissedIff(base, phys, es, plan);
  }

  lemma NothingMissedIff(base: Table, phys: nat, es: seq<Event>, plan: Plan)
    requires DistinctNames(base.columns) && Uncounted(GroupsOf(base, plan)) && Run(Initial(base, phys), es).Some?
    requires Answer(Run(Initial(base, phys), es).value, plan).Some?
    ensures Missed(Run(Initial(base, phys), es).value) == [] <==> !Overtaken(es)
  {
    RunKeepsInv(Initial(base, phys), es);
    RunTracks(Initial(base, phys), es);
    var s := Run(Initial(base, phys), es).value;
    assert |s.base.rows| == |s.made.value.snapshot| + s.gap;
  }

  /** The token never lets a stale projection answer: in runs whose raw_project is not
      overtaken by a commit, the answer is right for every order and choice of the group
      columns, if and only if no filter takes a row out of a count. */
  lemma QuietRunsAnswerRight(base: Table, phys: nat, es: seq<Event>, plan: Plan)
    requires DistinctNames(base.columns) && Uncounted(GroupsOf(base, plan)) && Run(Initial(base, phys), es).Some? && !Overtaken(es)
    requires Answer(Run(Initial(base, phys), es).value, plan).Some? && ValidOutputs(plan)
    ensures
      var s := Run(Initial(base, phys), es).value;
      Evaluable(plan) && AnswersRight(s, plan) <==> AggregateOut(0) !in plan.outputs || FiltersNothing(plan, s.base.rows)
  {
    var s := Run(Initial(base, phys), es).value;
    RewriteRightIff(base, phys, es, plan);
    NothingMissedIff(base, phys, es, plan);
    RunKeepsInv(Initial(base, phys), es);
    assert s.made.value.snapshot == s.base.rows;
    CompleteIsBalancedIff(plan, s.base.rows);
  }

  // ---------------------------------------------------------------------------
  // The token is read too late
  // ---------------------------------------------------------------------------

  const CountByX := Plan([GroupOut(0), AggregateOut(0)], [CountStar(None)], [ColumnRef(0)], true, Scan(false, [0], false))

  const LateAppend: seq<Event> := [Build(["x"], [], []), Append([[Num(1)]]), Register(["x"])]

  lemma SetOfX()
    ensures GroupSetOf(["x"]) == "x" && Split("x") == ["x"]
    ensures MapColumns(["x"], ["x"]) == Some([0])
    ensures DistinctNames(["x"]) && Uncounted(["x"])
  {
    assert ["x"][1..] == [] && Sort(["x"][1..]) == [];
    assert Sort(["x"]) == ["x"];
    OneColumn(["x"], 0);
    assert Lower("x")[0] == 'x';
    assert Lower("x") != "count";
  }

  lemma OneColumn(columns: seq<string>, c: nat)
    requires FindColumn(columns, "x") == Some(c)
    ensures MapColumns(columns, ["x"]) == Some([c])
  {
    var names, none: seq<nat> := ["x"], [];
    assert MapColumns(columns, names[..|names| - 1]) == Some(none);
    assert MapColumns(columns, names) == Some(none + [c]);
    assert none + [c] == [c];
  }

  lemma RunThree(s: State, a: Event, b: Event, c: Event)
    requires Enabled(s, a) && Enabled(Step(s, a), b) && Enabled(Step(Step(s, a), b), c)
    ensures Run(s, [a, b, c]) == Some(Step(Step(Step(s, a), b), c))
  {
    var es := [a, b, c];
    assert es[..2][..1] == [a] && [a][..0] == [];
    assert Run(s, [a]) == Some(Step(s, a));
    assert es[..2] == [a, b] && [a, b][..1] == [a];
    assert Run(s, [a, b]) == Some(Step(Step(s, a), b));
    assert es[..|es| - 1] == [a, b];
  }

  const EmptyX := Table(["x"], [])

  lemma OvertakenRun()
    ensures Run(Initial(EmptyX, 0), LateAppend).Some?
    ensures
      var s := Run(Initial(EmptyX, 0), LateAppend).value;
      && s.gap == 1 && s.phys == 1 && s.reg == Some(Registered("x", 1)) && s.base.columns == ["x"]
      && ProjectionTable(s) == Some(Table(["x", "count"], []))
  {
    SetOfX();
    var s0 := Initial(EmptyX, 0);
    var made := Made(Table(["x", "count"], []), ["x"], [0], [], []);
    var s1 := s0.(made := Some(made), building := multiset{["x"]});
    assert Enabled(s0, LateAppend[0]);
    assert ["x"] + ["count"] == ["x", "count"];
    assert Step(s0, LateAppend[0]) == s1;
    var s2 := Step(s1, LateAppend[1]);
    assert [] + [[Num(1)]] == [[Num(1)]];
    assert s2 == s1.(base := Table(["x"], [[Num(1)]]), phys := 1);
    assert Enabled(s2, LateAppend[2]);
    RunThree(s0, LateAppend[0], LateAppend[1], LateAppend[2]);
  }

  /** `SELECT x, count(*) ... GROUP BY x`, with or without a filter. */
  predicate CountsByX(plan: Plan) {
    && plan.outputs == [GroupOut(0), AggregateOut(0)] && plan.groups == [ColumnRef(0)]
    && plan.oneGroupingSet && plan.scan == Scan(false, [0], false)
    && |plan.aggregates| == 1 && plan.aggregates[0].CountStar?
  }

  lemma NamesOfX(base: Table, plan: Plan)
    requires CountsByX(plan) && base.columns == ["x"]
    ensures GroupNames(base, plan, |plan.groups|) == Some(["x"])
  {
    var none: seq<string> := [];
    assert GroupNames(base, plan, 0) == Some(none);
    assert GroupColumn(base, plan, ColumnRef(0)) == Some(0);
    assert GroupNames(base, plan, 1) == Some(none + ["x"]);
    assert none + ["x"] == ["x"];
  }

  lemma GroupsOfX(base: Table, plan: Plan)
    requires CountsByX(plan) && base.columns == ["x"]
    ensures Uncounted(GroupsOf(base, plan))
  {
    NamesOfX(base, plan);
    SetOfX();
  }

  lemma ColumnsOfX()
    ensures MapColumns(["x", "count"], ["x"]) == Some([0]) && FindColumn(["x", "count"], "count").Some?
  {
    var columns := ["x", "count"];
    assert columns[..1] == ["x"] && Lower("count")[0] != Lower("x")[0];
    assert FindColumn(["x"], "x") == Some(0);
    assert FindColumn(columns, "x") == Some(0);
    OneColumn(columns, 0);
  }

  lemma PlansByX(plan: Plan)
    requires CountsByX(plan)
    ensures Rewritable(plan) && PlainOutputs(plan.outputs)
  {
  }

  lemma AnswerFrom(s: State, plan: Plan, q: seq<string>)
    requires Rewritable(plan) && PlainOutputs(plan.outputs) && GroupNames(s.base, plan, |plan.groups|) == Some(q)
    requires s.reg == Some(Registered(GroupSetOf(q), s.phys)) && ProjectionTable(s).Some?
    requires MapColumns(ProjectionTable(s).value.columns, q).Some?
    requires FindColumn(ProjectionTable(s).value.columns, "count").Some?
    ensures Answer(s, plan).Some?
  {
    RewrittenIff(s.base, ProjectionTable(s), s.phys, s.reg, plan);
    hide Rewritten, Rewritable, PlainOutputs, GroupNames, MapColumns, FindColumn, GroupSetOf;
  }

  lemma CountByXRewrites(s: State, plan: Plan)
    requires CountsByX(plan) && s.base.columns == ["x"] && s.phys == 1 && s.reg == Some(Registered("x", 1))
    requires ProjectionTable(s).Some? && ProjectionTable(s).value.columns == ["x", "count"]
    ensures Answer(s, plan).Some?
  {
    hide *;
    SetOfX();
    PlansByX(plan);
    NamesOfX(s.base, plan);
    ColumnsOfX();
    AnswerFrom(s, plan, ["x"]);
  }

  /** raw_project reads the token after building the table: a row committed in between is
      missing from every rewritten count until the next append. */
  lemma OvertakenProjectAnswersWrong()
    ensures Run(Initial(EmptyX, 0), LateAppend).Some?
    ensures
      var s := Run(Initial(EmptyX, 0), LateAppend).value;
      Answer(s, CountByX).Some? && !AnswersRight(s, CountByX)
  {
    hide Run, Step, AnswersRight, Answer;
    OvertakenRun();
    SetOfX();
    GroupsOfX(EmptyX, CountByX);
    CountByXRewrites(Run(Initial(EmptyX, 0), LateAppend).value, CountByX);
    assert AggregateOut(0) == CountByX.outputs[1];
    OvertakenIsOvertaken();
    UnfilteredRightIff(EmptyX, 0, LateAppend, CountByX);
  }

  lemma OvertakenIsOvertaken()
    ensures Overtaken(LateAppend)
  {
    assert LastBuild(LateAppend, 0) && LastRegister(LateAppend, 2) && Commits(LateAppend[1]);
  }

  // ---------------------------------------------------------------------------
  // The FILTER clause is dropped
  // ---------------------------------------------------------------------------

  const OneX := Table(["x"], [[Num(1)]])

  const InPeace: seq<Event> := [Build(["x"], [[Num(1)]], [[Num(1), Num(1)]]), Register(["x"])]

  /** `SELECT x, count(*) FILTER (WHERE x = 5) ... GROUP BY x`. */
  const CountFives: Plan := CountByX.(aggregates := [CountStar(Some(row => row == [Num(5)]))])

  lemma OneXSummary()
    ensures IsSummary([[Num(1)]], [0], [[Num(1)]], [[Num(1), Num(1)]])
  {
    var rows: seq<Row> := [[Num(1)]];
    assert rows[..0] == [] && Pick(rows[0], [0]) == [Num(1)];
    assert CountOf(rows, [0], [Num(1)]) == 1;
    assert [Num(1)] + [Num(1)] == [Num(1), Num(1)];
  }

  lemma PeacefulRun()
    ensures Run(Initial(OneX, 1), InPeace).Some?
    ensures
      var s := Run(Initial(OneX, 1), InPeace).value;
      && s.phys == 1 && s.reg == Some(Registered("x", 1)) && s.base == OneX
      && ProjectionTable(s) == Some(Table(["x", "count"], [[Num(1), Num(1)]]))
  {
    SetOfX();
    OneXSummary();
    var s0 := Initial(OneX, 1);
    assert Enabled(s0, InPeace[0]);
    assert ["x"] + ["count"] == ["x", "count"];
    var s1 := Step(s0, InPeace[0]);
    assert Enabled(s1, InPeace[1]);
    assert InPeace[..1] == [InPeace[0]] && InPeace[..1][..0] == [];
    assert Run(s0, InPeace[..1]) == Some(s1);
    assert InPeace[..|InPeace| - 1] == InPeace[..1];
  }

  /** A filtered count passes every guard and is answered without its filter: one row where
      none was asked for, on a projection that is fresh. */
  lemma FilteredCountAnsweredWrong()
    ensures Run(Initial(OneX, 1), InPeace).Some? && !Overtaken(InPeace)
    ensures
      var s := Run(Initial(OneX, 1), InPeace).value;
      Answer(s, CountFives).Some? && !AnswersRight(s, CountFives)
  {
    PeacefulRun();
    NotOvertaken();
    var s := Run(Initial(OneX, 1), InPeace).value;
    GroupsOfX(OneX, CountFives);
    CountByXRewrites(s, CountFives);
    FilterRejects();
    hide Run, Step, Answer, AnswersRight, Overtaken, Accepts, GroupsOf;
    assert AggregateOut(0) == CountFives.outputs[1];
    QuietRunsAnswerRight(OneX, 1, InPeace, CountFives);
  }

  lemma NotOvertaken()
    ensures !Overtaken(InPeace)
  {
    assert forall k :: 0 <= k < |InPeace| ==> !Commits(InPeace[k]);
  }

  lemma FilterRejects()
    ensures !FiltersNothing(CountFives, [[Num(1)]])
  {
    var rows: seq<Row> := [[Num(1)]];
    assert Pick(rows[0], [0]) == [Num(1)];
    assert !Accepts(CountFives, rows[0]);
  }
}
