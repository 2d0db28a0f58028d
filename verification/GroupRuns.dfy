/** Group commit, runs: how long they can be, where they can stop, and concrete ones in which
    something goes wrong. */
module GroupRuns {
  import opened Json
  import opened Transactions
  import opened GroupCommit
  import opened GroupResults
  import opened GroupOutcomes

  // ---------------------------------------------------------------------------
  // Every run ends
  // ---------------------------------------------------------------------------

  /** Steps a leader can still take with its batch. */
  function StageWork(batch: seq<nat>, st: Stage): (n: nat) {
    var marking := 8 * |batch| + 1;
    match st
    case Marking(_, next, step) => if next >= |batch| then 1 else 8 * (|batch| - next) + 1 - (if step < 8 then step else 8)
    case Caught(_) => marking + 1
    case Staged(a, _) => if a == 1 then marking + 6 else marking + 2
    case Begun(a) => if a == 1 then marking + 7 else marking + 3
    case Ready(a) => if a == 1 then marking + 8 else marking + 4
    case Retrying => marking + 5
  }

  function PcWork(p: Pc): (n: nat) {
    match p
    case Idle => 25
    case Waiting => 6
    case Leader => 6
    case Working(batch, st) => 6 + StageWork(batch, st)
    case Leaving => 5
    case Answering(_, _, fields) => if fields <= 2 then 4 - fields else 2
    case Exiting => 1
    case Gone => 0
  }

  function WorkOf(pcs: seq<Pc>): (n: nat) {
    if pcs == [] then 0 else WorkOf(pcs[..|pcs| - 1]) + PcWork(pcs[|pcs| - 1])
  }

  function Work(t: Table): (n: nat) { WorkOf(t.pcs) + 18 * |t.pending| }

  lemma {:induction false} WorkMoves(pcs: seq<Pc>, r: nat, p: Pc)
    requires r < |pcs|
    ensures WorkOf(pcs[r := p]) + PcWork(pcs[r]) == WorkOf(pcs) + PcWork(p)
    decreases |pcs|
  {
    var n := |pcs| - 1;
    if r < n {
      WorkMoves(pcs[..n], r, p);
      assert pcs[r := p][..n] == pcs[..n][r := p];
    } else {
      assert pcs[r := p][..n] == pcs[..n];
    }
  }

  lemma BeginWorks(t: Table, r: nat)
    requires Enabled(t, BeginTxn(r))
    ensures r < |BeginStep(t, r).pcs| && PcWork(BeginStep(t, r).pcs[r]) < PcWork(t.pcs[r])
  {
  }

  lemma IngestWorks(t: Table, r: nat, error: Option<Thrown>, after: Txn)
    requires Enabled(t, Ingest(r, error, after))
    ensures r < |IngestStep(t, r, error, after).pcs|
    ensures PcWork(IngestStep(t, r, error, after).pcs[r]) < PcWork(t.pcs[r])
  {
    hide Combined, RowsOf;
  }

  lemma CommitWorks(t: Table, r: nat, own: Commitment, shared: nat)
    requires Enabled(t, CommitTxn(r, own, shared))
    ensures r < |CommitStep(t, r, own, shared).pcs|
    ensures PcWork(CommitStep(t, r, own, shared).pcs[r]) < PcWork(t.pcs[r])
  {
    hide BatchStats, Commit;
  }

  lemma RollbackWorks(t: Table, r: nat)
    requires Enabled(t, RollbackTxn(r))
    ensures r < |RollbackStep(t, r).pcs| && PcWork(RollbackStep(t, r).pcs[r]) < PcWork(t.pcs[r])
  {
  }

  lemma StatementWorks(t: Table, e: Event)
    requires Enabled(t, e) && Statement(e)
    ensures Sized(Step(t, e)) && PcWork(Step(t, e).pcs[e.r]) < PcWork(t.pcs[e.r])
  {
    OnlyOnePcMoves(t, e);
    hide PcWork, BeginStep, IngestStep, CommitStep, RollbackStep;
    match e
    case BeginTxn(r) => BeginWorks(t, r);
    case Ingest(r, error, after) => IngestWorks(t, r, error, after);
    case CommitTxn(r, own, shared) => CommitWorks(t, r, own, shared);
    case RollbackTxn(r) => RollbackWorks(t, r);
  }

  lemma MarkWorks(t: Table, r: nat)
    requires Enabled(t, Mark(r)) && RoundsMarked(t)
    ensures Sized(Step(t, Mark(r))) && PcWork(Step(t, Mark(r)).pcs[r]) < PcWork(t.pcs[r])
  {
    assert MarkedUpTo(t, t.pcs[r].stage);
    hide WriteField, MarkedUpTo, RoundsMarked;
  }

  lemma OtherWorks(t: Table, e: Event)
    requires Enabled(t, e) && !Statement(e) && !e.Mark?
    ensures Sized(Step(t, e))
    ensures PcWork(Step(t, e).pcs[e.r]) + 18 * |Step(t, e).pending| < PcWork(t.pcs[e.r]) + 18 * |t.pending|
  {
    OnlyOnePcMoves(t, e);
    hide BeginStep, IngestStep, CommitStep, RollbackStep, MarkStep;
  }

  /** What one step takes off the work of the request that makes it, with the queue. */
  lemma OwnWork(t: Table, e: Event)
    requires Enabled(t, e) && RoundsMarked(t)
    ensures Sized(Step(t, e)) && Step(t, e).pcs == t.pcs[e.r := Step(t, e).pcs[e.r]]
    ensures PcWork(Step(t, e).pcs[e.r]) + 18 * |Step(t, e).pending| < PcWork(t.pcs[e.r]) + 18 * |t.pending|
  {
    OnlyOnePcMoves(t, e);
    if Statement(e) {
      StatementEffect(t, e);
      StatementWorks(t, e);
    } else if e.Mark? {
      MarkWorks(t, e.r);
      MarkEffect(t, e.r);
      assert Step(t, e).pending == t.pending;
    } else {
      OtherWorks(t, e);
    }
    hide Step, Enabled, PcWork, RoundsMarked;
  }

  lemma StepWorks(t: Table, e: Event)
    requires Enabled(t, e) && RoundsMarked(t)
    ensures Work(Step(t, e)) < Work(t)
  {
    OwnWork(t, e);
    hide Step, Enabled, PcWork, RoundsMarked;
    WorkMoves(t.pcs, e.r, Step(t, e).pcs[e.r]);
  }

  lemma {:induction false} AllIdleWork(pcs: seq<Pc>)
    requires forall r :: 0 <= r < |pcs| ==> pcs[r].Idle?
    ensures WorkOf(pcs) == 25 * |pcs|
  {
    if pcs != [] { AllIdleWork(pcs[..|pcs| - 1]); }
  }

  /** No run is longer than the number of requests allows, whatever fails in it. */
  lemma {:induction false} EveryRunEnds(reqs: seq<Request>, conns: seq<Txn>, es: seq<Event>)
    requires |conns| == |reqs| && Run(Start(reqs, conns), es).Some?
    ensures |es| + Work(Run(Start(reqs, conns), es).value) <= 25 * |reqs|
    decreases |es|
  {
    if es == [] {
      AllIdleWork(Start(reqs, conns).pcs);
    } else {
      EveryRunEnds(reqs, conns, es[..|es| - 1]);
      RunKeepsInv(reqs, conns, es[..|es| - 1]);
      StepWorks(Run(Start(reqs, conns), es[..|es| - 1]).value, es[|es| - 1]);
    }
  }

  ghost predicate CanMove(t: Table) { exists e: Event :: Enabled(t, e) }

  lemma SingleCanMove(t: Table, r: nat)
    requires Inv(t) && r < |t.pcs| && !t.pcs[r].Gone? && !(t.pcs[r].Waiting? && !t.items[r].done)
    ensures CanMove(t)
  {
    var p := t.pcs[r];
    if Leads(p) {
      LeaderCanStep(t, r);
    } else {
      assert p.Answering? ==> Late(p);
      AnsweringCanMove(t, r);
    }
  }

  lemma AnsweringCanMove(t: Table, r: nat)
    requires Inv(t) && r < |t.pcs| && !t.pcs[r].Gone? && !Leads(t.pcs[r]) && !(t.pcs[r].Waiting? && !t.items[r].done)
    ensures CanMove(t)
  {
    match t.pcs[r]
    case Idle => assert Enabled(t, Enter(r));
    case Waiting => assert Enabled(t, Wake(r));
    case Leaving => assert Enabled(t, Look(r));
    case Answering(failed, _, fields) =>
      assert RoleOk(t, r);
      var i: nat :| SettledIn(t, r, i);
      assert AnswerOk(t, r, i) && Reading(t, r, t.rounds[i].verdict);
      assert Enabled(t, if failed || fields == 2 then Return(r) else Read(r));
    case Exiting => assert Enabled(t, Exit(r));
  }

  /** A run that cannot go on has answered everybody, unless a leader has unwound: then the
      others are the ones that wait for ever. */
  lemma StoppedMeansAnswered(t: Table, r: nat)
    requires Inv(t) && !CanMove(t) && r < |t.pcs|
    ensures t.pcs[r].Gone? || (Wedged(t) && t.pcs[r].Waiting? && !t.items[r].done)
  {
    if !(t.pcs[r].Waiting? && !t.items[r].done) {
      if !t.pcs[r].Gone? { SingleCanMove(t, r); }
    } else {
      NobodyStrandedIff(t, r);
    }
  }

  // ---------------------------------------------------------------------------
  // Concrete runs of two requests
  // ---------------------------------------------------------------------------

  lemma RunStep(t: Table, es: seq<Event>, e: Event, mid: Table, end: Table)
    requires Run(t, es) == Some(mid) && Enabled(mid, e) && Step(mid, e) == end
    ensures Run(t, es + [e]) == Some(end)
  {
    assert (es + [e])[..|es|] == es;
  }

  /** `es` takes the table through `states`. */
  ghost predicate Chain(states: seq<Table>, es: seq<Event>) {
    |states| == |es| + 1
    && forall k :: 0 <= k < |es| ==> Enabled(states[k], es[k]) && Step(states[k], es[k]) == states[k + 1]
  }

  lemma {:induction false} RunChain(first: Table, before: seq<Event>, states: seq<Table>, es: seq<Event>)
    requires Chain(states, es) && Run(first, before) == Some(states[0])
    ensures Run(first, before + es) == Some(states[|es|])
    decreases |es|
  {
    hide Step, Enabled, Run;
    if es == [] {
      assert before + es == before;
    } else {
      var n := |es| - 1;
      assert Chain(states[..n + 1], es[..n]);
      RunChain(first, before, states[..n + 1], es[..n]);
      RunStep(first, before + es[..n], es[n], states[n], states[n + 1]);
      assert before + es[..n] + [es[n]] == before + es;
    }
  }

  lemma RunTwo(first: Table, before: seq<Event>, a: Event, b: Event, t0: Table, t1: Table, t2: Table)
    requires Run(first, before) == Some(t0)
    requires Enabled(t0, a) && Step(t0, a) == t1 && Enabled(t1, b) && Step(t1, b) == t2
    ensures Run(first, before + [a, b]) == Some(t2)
  {
    hide Run, Step, Enabled;
    RunStep(first, before, a, t0, t1);
    RunStep(first, before + [a], b, t1, t2);
    assert before + [a] + [b] == before + [a, b];
  }

  function Fresh(two: seq<Request>): (t: Table) { Start(two, [Inactive, Inactive]) }

  /** Both have come in, and the first leads with the batch of both, at `st` of it. */
  function Trying2(two: seq<Request>, conn: Txn, st: Stage): (t: Table) {
    Fresh(two).(
      conns := [conn, Inactive], pcs := [Working([0, 1], st), Waiting], committing := true, active := 2,
      entered := [0, 1], current := [0, 1], led := {0})
  }

  const OPENING: seq<Event> := [Enter(0), Enter(1), Take(0), BeginTxn(0)]

  lemma OpeningRuns(two: seq<Request>)
    requires |two| == 2
    ensures Run(Fresh(two), OPENING) == Some(Trying2(two, Active, Begun(1)))
  {
    var t0 := Fresh(two);
    var t1 := t0.(pcs := [Leader, Idle], pending := [0], committing := true, active := 1, entered := [0], led := {0});
    var t2 := t1.(pcs := [Leader, Waiting], pending := [0, 1], active := 2, entered := [0, 1]);
    var t3 := Trying2(two, Inactive, Ready(1));
    assert Run(t0, []) == Some(t0);
    RunStep(t0, [], Enter(0), t0, t1);
    RunStep(t0, [Enter(0)], Enter(1), t1, t2);
    RunStep(t0, [Enter(0), Enter(1)], Take(0), t2, t3);
    BeginRuns(two);
    assert [] + [Enter(0)] == [Enter(0)] && [Enter(0)] + [Enter(1)] == [Enter(0), Enter(1)];
    assert [Enter(0), Enter(1)] + [Take(0)] == [Enter(0), Enter(1), Take(0)];
    RunStep(t0, [Enter(0), Enter(1), Take(0)], BeginTxn(0), t3, Trying2(two, Active, Begun(1)));
    assert [Enter(0), Enter(1), Take(0)] + [BeginTxn(0)] == OPENING;
  }

  lemma BeginRuns(two: seq<Request>)
    requires |two| == 2
    ensures Enabled(Trying2(two, Inactive, Ready(1)), BeginTxn(0))
    ensures Step(Trying2(two, Inactive, Ready(1)), BeginTxn(0)) == Trying2(two, Active, Begun(1))
  {
  }

  /** `n` marks in a row. */
  function Marks(n: nat): (es: seq<Event>) { seq(n, _ => Mark(0)) }

  /** The batch of two has been decided and `n` writes have been made. */
  function MarkedTable(two: seq<Request>, v: Verdict, rows: seq<Row>, stored: bool, n: nat): (t: Table)
    requires |two| == 2 && n <= 2 * Writes(v)
  {
    var w := Writes(v);
    var a, b := if n < w then n else w, if n < w then 0 else n - w;
    Trying2(two, Inactive, if n < w then Marking(v, 0, n) else if n < 2 * w then Marking(v, 1, b) else Marking(v, 2, 0)).(
      items := [Written(two[0], v, a), Written(two[1], v, b)], writes := [a, b],
      current := [], rounds := [Round([0, 1], v, stored)], stored := rows)
  }

  lemma MarkOnce(two: seq<Request>, v: Verdict, rows: seq<Row>, stored: bool, n: nat)
    requires |two| == 2 && n < 2 * Writes(v)
    ensures Enabled(MarkedTable(two, v, rows, stored, n), Mark(0))
    ensures Step(MarkedTable(two, v, rows, stored, n), Mark(0)) == MarkedTable(two, v, rows, stored, n + 1)
  {
    if n < Writes(v) { MarkFirst(two, v, rows, stored, n); } else { MarkSecond(two, v, rows, stored, n); }
  }

  lemma MarkFirst(two: seq<Request>, v: Verdict, rows: seq<Row>, stored: bool, n: nat)
    requires |two| == 2 && n < Writes(v)
    ensures Enabled(MarkedTable(two, v, rows, stored, n), Mark(0))
    ensures Step(MarkedTable(two, v, rows, stored, n), Mark(0)) == MarkedTable(two, v, rows, stored, n + 1)
  {
    WriteNext(two[0], v, n);
    hide Written, WriteField;
  }

  lemma MarkSecond(two: seq<Request>, v: Verdict, rows: seq<Row>, stored: bool, n: nat)
    requires |two| == 2 && Writes(v) <= n < 2 * Writes(v)
    ensures Enabled(MarkedTable(two, v, rows, stored, n), Mark(0))
    ensures Step(MarkedTable(two, v, rows, stored, n), Mark(0)) == MarkedTable(two, v, rows, stored, n + 1)
  {
    WriteNext(two[1], v, n - Writes(v));
    hide Written, WriteField;
  }

  lemma {:induction false} MarkMany(two: seq<Request>, es: seq<Event>, v: Verdict, rows: seq<Row>, stored: bool, n: nat)
    requires |two| == 2 && n <= 2 * Writes(v) && Run(Fresh(two), es) == Some(MarkedTable(two, v, rows, stored, 0))
    ensures Run(Fresh(two), es + Marks(n)) == Some(MarkedTable(two, v, rows, stored, n))
    decreases n
  {
    hide Run, Step, Enabled, MarkedTable, Fresh;
    if n == 0 {
      assert es + Marks(0) == es;
    } else {
      MarkMany(two, es, v, rows, stored, n - 1);
      MarkOnce(two, v, rows, stored, n - 1);
      RunStep(Fresh(two), es + Marks(n - 1), Mark(0), MarkedTable(two, v, rows, stored, n - 1),
              MarkedTable(two, v, rows, stored, n));
      assert es + Marks(n - 1) + [Mark(0)] == es + Marks(n);
    }
  }

  /** The second request wakes, finds no failure, and copies the figures. */
  const DEPARTURE: seq<Event> := [Wake(1), Look(1), Read(1), Read(1), Return(1)]

  ghost predicate Departing(t: Table) {
    Sized(t) && |t.reqs| == 2 && t.pcs[1].Waiting? && t.items[1].done && !t.items[1].failed
  }

  function AtDoor(t: Table, k: nat): (t': Table)
    requires Sized(t) && |t.reqs| == 2 && k <= 5
  {
    var s, w := t.items[1].stats, t.writes[1];
    if k == 0 then t
    else if k == 1 then t.(pcs := t.pcs[1 := Leaving])
    else if k == 2 then t.(pcs := t.pcs[1 := Answering(false, NO_STATS, 0)], looked := t.looked[1 := w])
    else if k == 3 then t.(pcs := t.pcs[1 := Answering(false, NO_STATS.(shared := s.shared), 1)],
                           looked := t.looked[1 := w], seen := t.seen[1 := t.seen[1].(shared := w)])
    else if k == 4 then t.(pcs := t.pcs[1 := Answering(false, Stats(s.rows, 0, s.shared), 2)],
                           looked := t.looked[1 := w], seen := t.seen[1 := t.seen[1].(shared := w, rows := w)])
    else t.(pcs := t.pcs[1 := Exiting], looked := t.looked[1 := w], seen := t.seen[1 := Seen(w, w, w)],
            returned := t.returned[1 := Some(Committed(s))])
  }

  lemma DoorStep(t: Table, k: nat)
    requires Departing(t) && k < 5
    ensures Enabled(AtDoor(t, k), DEPARTURE[k]) && Step(AtDoor(t, k), DEPARTURE[k]) == AtDoor(t, k + 1)
  {
    hide MarkStep, BeginStep, IngestStep, CommitStep, RollbackStep;
  }

  lemma DoorChain(t: Table)
    requires Departing(t)
    ensures Chain(seq(6, k requires 0 <= k < 6 => AtDoor(t, k)), DEPARTURE)
  {
    forall k | 0 <= k < 5
      ensures Enabled(AtDoor(t, k), DEPARTURE[k]) && Step(AtDoor(t, k), DEPARTURE[k]) == AtDoor(t, k + 1)
    {
      DoorStep(t, k);
    }
    hide Enabled, Step, AtDoor;
  }

  lemma Departs(first: Table, es: seq<Event>, t: Table)
    requires Departing(t) && Run(first, es) == Some(t)
    ensures Run(first, es + DEPARTURE).Some?
    ensures
      var end := Run(first, es + DEPARTURE).value;
      Sized(end) && end.reqs == t.reqs && end.rounds == t.rounds && end.stored == t.stored
      && end.returned[1] == Some(Committed(t.items[1].stats))
  {
    DoorChain(t);
    var states := seq(6, k requires 0 <= k < 6 => AtDoor(t, k));
    assert states[0] == t;
    RunChain(first, es, states, DEPARTURE);
  }

  // ---------------------------------------------------------------------------
  // What can go wrong
  // ---------------------------------------------------------------------------

  const DISK_FULL := Thrown(false, "disk full")
  const CONFLICT := Thrown(true, "conflict")

  const FAILING: seq<Event> := [Ingest(0, Some(DISK_FULL), Active), RollbackTxn(0)]

  lemma FailingSteps(two: seq<Request>)
    requires |two| == 2
    ensures
      var t1, t2 := Trying2(two, Active, Begun(1)), Trying2(two, Active, Caught("disk full"));
      && Enabled(t1, FAILING[0]) && Step(t1, FAILING[0]) == t2
      && Enabled(t2, FAILING[1]) && Step(t2, FAILING[1]) == MarkedTable(two, Bad("disk full"), [], false, 0)
  {
  }

  lemma FailingRuns(two: seq<Request>)
    requires |two| == 2
    ensures Run(Fresh(two), OPENING + FAILING) == Some(MarkedTable(two, Bad("disk full"), [], false, 0))
  {
    OpeningRuns(two);
    FailingSteps(two);
    var t1, t2 := Trying2(two, Active, Begun(1)), Trying2(two, Active, Caught("disk full"));
    hide *;
    RunTwo(Fresh(two), OPENING, FAILING[0], FAILING[1], t1, t2, MarkedTable(two, Bad("disk full"), [], false, 0));
    assert FAILING == [FAILING[0], FAILING[1]];
  }

  /** The ingestion returns, having left its transaction as `after`, and is committed. */
  function Committing(after: Txn): (es: seq<Event>) { [Ingest(0, None, after), CommitTxn(0, Succeeds, 0)] }

  function Result(two: seq<Request>): (v: Verdict)
    requires |two| == 2
  {
    Good(BatchStats(two, [0, 1], Combined(two, [0, 1]), 0))
  }

  lemma IngestRuns(two: seq<Request>, after: Txn)
    requires |two| == 2
    ensures Enabled(Trying2(two, Active, Begun(1)), Ingest(0, None, after))
    ensures Step(Trying2(two, Active, Begun(1)), Ingest(0, None, after)) == Trying2(two, after, Staged(1, Combined(two, [0, 1])))
  {
    hide Combined, RowsOf;
  }

  lemma CommitRuns(two: seq<Request>, after: Txn)
    requires |two| == 2 && !after.Inactive?
    ensures
      var t, rows := Trying2(two, after, Staged(1, Combined(two, [0, 1]))), if after.Active? then Combined(two, [0, 1]) else [];
      Enabled(t, CommitTxn(0, Succeeds, 0))
      && Step(t, CommitTxn(0, Succeeds, 0)) == MarkedTable(two, Result(two), rows, after.Active?, 0)
  {
    hide Combined, RowsOf;
  }

  lemma CommittingRuns(two: seq<Request>, after: Txn)
    requires |two| == 2 && !after.Inactive?
    ensures Run(Fresh(two), OPENING + Committing(after))
         == Some(MarkedTable(two, Result(two), if after.Active? then Combined(two, [0, 1]) else [], after.Active?, 0))
  {
    var t1, t2 := Trying2(two, Active, Begun(1)), Trying2(two, after, Staged(1, Combined(two, [0, 1])));
    var t3 := MarkedTable(two, Result(two), if after.Active? then Combined(two, [0, 1]) else [], after.Active?, 0);
    var es := Committing(after);
    assert es == [Ingest(0, None, after), CommitTxn(0, Succeeds, 0)];
    OpeningRuns(two);
    IngestRuns(two, after);
    CommitRuns(two, after);
    hide *;
    RunTwo(Fresh(two), OPENING, Ingest(0, None, after), CommitTxn(0, Succeeds, 0), t1, t2, t3);
  }

  lemma CombinedOfTwo(two: seq<Request>)
    requires |two| == 2
    ensures Combined(two, [0, 1]) == if two[0].hasColumns then two[0].rows + two[1].rows else []
  {
    assert [0, 1][..1] == [0] && [0][..0] == [];
    assert RowsOf(two, [0]) == RowsOf(two, []) + two[0].rows == two[0].rows;
  }

  /** Decided, written to some extent, and answered by the second request. */
  lemma AnswerRuns(two: seq<Request>, es: seq<Event>, v: Verdict, rows: seq<Row>, stored: bool, n: nat)
    requires |two| == 2 && Writes(v) < n <= 2 * Writes(v) && (v.Bad? ==> n == Writes(v) + 1)
    requires Run(Fresh(two), es) == Some(MarkedTable(two, v, rows, stored, 0))
    ensures Run(Fresh(two), es + Marks(n) + DEPARTURE).Some?
    ensures
      var end := Run(Fresh(two), es + Marks(n) + DEPARTURE).value;
      && Sized(end) && end.reqs == two && end.rounds == [Round([0, 1], v, stored)] && end.stored == rows
      && end.returned[1] == Some(Committed(Written(two[1], v, n - Writes(v)).stats))
  {
    MarkMany(two, es, v, rows, stored, n);
    Departs(Fresh(two), es + Marks(n), MarkedTable(two, v, rows, stored, n));
  }

  const PLAIN: seq<Request> := [Request([7], true, 0), Request([], true, 0)]

  /** `done` comes first: a waiter that looks before `failed` is written reports success
      for a batch that failed. */
  lemma WaiterCanMissFailure()
    ensures
      var end := Run(Fresh(PLAIN), OPENING + FAILING + Marks(4) + DEPARTURE);
      && end.Some? && Sized(end.value) && end.value.reqs == PLAIN
      && end.value.rounds == [Round([0, 1], Bad("disk full"), false)]
      && end.value.returned[1] == Some(Committed(NO_STATS))
  {
    FailingRuns(PLAIN);
    AnswerRuns(PLAIN, OPENING + FAILING, Bad("disk full"), [], false, 4);
  }

  /** The batch's figures are copied first and corrected afterwards: a request without
      rows that looks in between reports the whole batch's row. */
  lemma WaiterCanReportBatchTotals()
    ensures
      var end := Run(Fresh(PLAIN), OPENING + Committing(Active) + Marks(14) + DEPARTURE);
      && end.Some? && Sized(end.value) && end.value.reqs == PLAIN
      && end.value.rounds == [Round([0, 1], Good(Stats(1, 0, 0)), true)]
      && OutcomeOf(PLAIN[1], end.value.rounds[0].verdict) == Committed(Stats(0, 0, 0))
      && end.value.returned[1] == Some(Committed(Stats(1, 0, 0)))
  {
    CommittingRuns(PLAIN, Active);
    CombinedOfTwo(PLAIN);
    assert Combined(PLAIN, [0, 1]) == [7] + [] == [7];
    assert Result(PLAIN) == Good(Stats(1, 0, 0));
    AnswerRuns(PLAIN, OPENING + Committing(Active), Result(PLAIN), [7], true, 14);
  }

  const TWO_ROWS: seq<Request> := [Request([7], true, 0), Request([8], true, 0)]

  /** An invalidated transaction is committed: both rows are lost, and the request that has
      seen all its writes is told that its row is in. */
  lemma InvalidatedCommitReportsSuccess()
    ensures
      var end := Run(Fresh(TWO_ROWS), OPENING + Committing(Invalidated) + Marks(16) + DEPARTURE);
      && end.Some? && Sized(end.value) && end.value.reqs == TWO_ROWS
      && end.value.stored == [] && end.value.rounds == [Round([0, 1], Good(Stats(2, 0, 0)), false)]
      && end.value.returned[1] == Some(Committed(Stats(1, 0, 0)))
  {
    CommittingRuns(TWO_ROWS, Invalidated);
    CombinedOfTwo(TWO_ROWS);
    assert Result(TWO_ROWS) == Good(Stats(2, 0, 0));
    AnswerRuns(TWO_ROWS, OPENING + Committing(Invalidated), Result(TWO_ROWS), [], false, 16);
  }

  const EMPTY_FIRST: seq<Request> := [Request([], false, 0), Request([8], true, 0)]

  /** An empty first payload: the commit stores nothing, and the other request is told that
      its row is in. */
  lemma EmptyFirstPayloadDropsRows()
    ensures
      var end := Run(Fresh(EMPTY_FIRST), OPENING + Committing(Active) + Marks(16) + DEPARTURE);
      && end.Some? && Sized(end.value) && end.value.reqs == EMPTY_FIRST
      && end.value.stored == [] && end.value.rounds == [Round([0, 1], Good(Stats(0, 0, 0)), true)]
      && end.value.returned[1] == Some(Committed(Stats(1, 0, 0)))
  {
    CommittingRuns(EMPTY_FIRST, Active);
    CombinedOfTwo(EMPTY_FIRST);
    assert Result(EMPTY_FIRST) == Good(Stats(0, 0, 0));
    AnswerRuns(EMPTY_FIRST, OPENING + Committing(Active), Result(EMPTY_FIRST), [], true, 16);
  }

  /** The ingestion meets a conflict and is rolled back, begun again, ingested and committed. */
  const RETRYING: seq<Event> :=
    [Ingest(0, Some(CONFLICT), Active), RollbackTxn(0), BeginTxn(0), Ingest(0, None, Active), CommitTxn(0, Succeeds, 0)]

  function Retrier(two: seq<Request>, k: nat): (t: Table)
    requires |two| == 2 && k <= 5
  {
    if k == 0 then Trying2(two, Active, Begun(1))
    else if k == 1 then Trying2(two, Active, Retrying)
    else if k == 2 then Trying2(two, Inactive, Ready(2))
    else if k == 3 then Trying2(two, Active, Begun(2))
    else if k == 4 then Trying2(two, Active, Staged(2, Combined(two, [0, 1])))
    else MarkedTable(two, Result(two), Combined(two, [0, 1]), true, 0)
  }

  lemma RetrierStep(two: seq<Request>, k: nat)
    requires |two| == 2 && k < 5
    ensures Enabled(Retrier(two, k), RETRYING[k]) && Step(Retrier(two, k), RETRYING[k]) == Retrier(two, k + 1)
  {
    hide Combined, RowsOf, MarkStep, ReadStep, ReturnStep;
    assert RETRYING[0] == Ingest(0, Some(CONFLICT), Active) && RETRYING[1] == RollbackTxn(0) && RETRYING[2] == BeginTxn(0);
    assert RETRYING[3] == Ingest(0, None, Active) && RETRYING[4] == CommitTxn(0, Succeeds, 0);
  }

  lemma RetryingRuns(two: seq<Request>)
    requires |two| == 2
    ensures Run(Fresh(two), OPENING + RETRYING) == Some(Retrier(two, 5))
  {
    forall k | 0 <= k < 5
      ensures Enabled(Retrier(two, k), RETRYING[k]) && Step(Retrier(two, k), RETRYING[k]) == Retrier(two, k + 1)
    {
      RetrierStep(two, k);
    }
    OpeningRuns(two);
    assert Retrier(two, 0) == Trying2(two, Active, Begun(1));
    hide Enabled, Step, Run, Retrier, Trying2, Fresh;
    var states := seq(6, k requires 0 <= k < 6 => Retrier(two, k));
    RunChain(Fresh(two), OPENING, states, RETRYING);
  }

  /** A conflict in the first attempt does not fail the batch: after the retry both rows are in
      the table, and the other request is told so. */
  lemma ConflictThenStored()
    ensures
      var end := Run(Fresh(TWO_ROWS), OPENING + RETRYING + Marks(16) + DEPARTURE);
      && end.Some? && Sized(end.value) && end.value.reqs == TWO_ROWS
      && end.value.stored == [7, 8] && end.value.rounds == [Round([0, 1], Good(Stats(2, 0, 0)), true)]
      && end.value.returned[1] == Some(Committed(Stats(1, 0, 0)))
  {
    RetryingRuns(TWO_ROWS);
    CombinedOfTwo(TWO_ROWS);
    assert Combined(TWO_ROWS, [0, 1]) == [7] + [8] == [7, 8];
    assert Result(TWO_ROWS) == Good(Stats(2, 0, 0));
    AnswerRuns(TWO_ROWS, OPENING + RETRYING, Result(TWO_ROWS), [7, 8], true, 16);
  }

  /** A commit that fails and has ended its transaction: the rollback of the retry throws, the
      leader's rollback throws, and nobody leads the table any more. */
  const UNWINDING: seq<Event> :=
    [Ingest(0, None, Active), CommitTxn(0, Fails(CONFLICT, Inactive), 0), RollbackTxn(0), RollbackTxn(0)]

  function Unwinder(k: nat): (t: Table)
    requires k <= 4
  {
    if k == 0 then Trying2(PLAIN, Active, Begun(1))
    else if k == 1 then Trying2(PLAIN, Active, Staged(1, Combined(PLAIN, [0, 1])))
    else if k == 2 then Trying2(PLAIN, Inactive, Retrying)
    else if k == 3 then Trying2(PLAIN, Inactive, Caught(NO_ROLLBACK.message))
    else Unwind(Trying2(PLAIN, Inactive, Caught(NO_ROLLBACK.message)), 0)
  }

  lemma UnwinderStep(k: nat)
    requires k < 4
    ensures Enabled(Unwinder(k), UNWINDING[k]) && Step(Unwinder(k), UNWINDING[k]) == Unwinder(k + 1)
  {
    hide Combined, RowsOf;
    if k == 0 { IngestRuns(PLAIN, Active); }
    else if k == 1 { assert UNWINDING[1] == CommitTxn(0, Fails(CONFLICT, Inactive), 0); }
    else { assert UNWINDING[k] == RollbackTxn(0); }
  }

  lemma UnwindingRuns()
    ensures Run(Fresh(PLAIN), OPENING + UNWINDING) == Some(Unwinder(4))
  {
    forall k | 0 <= k < 4
      ensures Enabled(Unwinder(k), UNWINDING[k]) && Step(Unwinder(k), UNWINDING[k]) == Unwinder(k + 1)
    {
      UnwinderStep(k);
    }
    OpeningRuns(PLAIN);
    assert Unwinder(0) == Trying2(PLAIN, Active, Begun(1));
    hide Enabled, Step, Run, Unwinder, Trying2, Fresh;
    var states := seq(5, k requires 0 <= k < 5 => Unwinder(k));
    RunChain(Fresh(PLAIN), OPENING, states, UNWINDING);
  }

  lemma Unwound()
    ensures Sized(Unwinder(4)) && |Unwinder(4).reqs| == 2 && Wedged(Unwinder(4)) && Stuck(Unwinder(4), 1)
  {
    assert 0 in Unwinder(4).unwound;
  }

  lemma UnwoundInv()
    ensures Inv(Unwinder(4))
  {
    UnwindingRuns();
    assert |[Inactive, Inactive]| == |PLAIN|;
    hide Inv, Unwinder, Run;
    RunKeepsInv(PLAIN, [Inactive, Inactive], OPENING + UNWINDING);
  }

  lemma StaysTwo(es: seq<Event>)
    requires Run(Unwinder(4), es).Some?
    ensures
      var end := Run(Unwinder(4), es).value;
      Sized(end) && |end.reqs| == 2 && Stuck(end, 1) && end.returned[1].None?
  {
    Unwound();
    UnwoundInv();
    hide Unwinder, Run, Stuck;
    StrandedForever(Unwinder(4), es, 1);
    RunKeepsRequests(Unwinder(4), es);
  }

  /** The second request then waits for ever, however the run goes on. */
  lemma FailedRollbackStrandsWaiter(es: seq<Event>)
    ensures Run(Fresh(PLAIN), OPENING + UNWINDING).Some?
    ensures
      var t := Run(Fresh(PLAIN), OPENING + UNWINDING).value;
      Run(t, es).Some? ==>
        var end := Run(t, es).value;
        Sized(end) && |end.reqs| == 2 && Stuck(end, 1) && end.returned[1].None?
  {
    UnwindingRuns();
    hide Unwinder, Run, Stuck;
    if Run(Unwinder(4), es).Some? { StaysTwo(es); }
  }

  lemma {:induction false} RunKeepsRequests(t: Table, es: seq<Event>)
    requires Run(t, es).Some?
    ensures Run(t, es).value.reqs == t.reqs
    decreases |es|
  {
    if es != [] {
      RunKeepsRequests(t, es[..|es| - 1]);
      OnlyOnePcMoves(Run(t, es[..|es| - 1]).value, es[|es| - 1]);
    }
  }
}
