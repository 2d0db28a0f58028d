/** Group commit, main results: who is told the truth, what success means, who waits for
    ever, how long a run can be, and that tables do not disturb each other. */
module GroupOutcomes {
  import opened Json
  import opened Transactions
  import opened GroupCommit
  import opened GroupResults

  // ---------------------------------------------------------------------------
  // What callers are told
  // ---------------------------------------------------------------------------

  /** Over every run: a request of a settled batch is told its batch's outcome exactly when
      it had seen enough of the leader's writes; a leader that has unwound tells its caller
      that no transaction was active, whatever became of its own request. */
  lemma ToldTheTruthIff(reqs: seq<Request>, conns: seq<Txn>, es: seq<Event>, t: Table, r: nat, i: nat)
    requires |conns| == |reqs| && Run(Start(reqs, conns), es) == Some(t) && Sized(t) && r < |t.reqs|
    requires SettledIn(t, r, i) && t.returned[r].Some?
    ensures
      var req, v := t.reqs[r], t.rounds[i].verdict;
      t.returned[r].value == OutcomeOf(req, v) <==>
        if r in t.unwound then v == Bad(NO_ROLLBACK.message) else SawEnough(req, v, t.looked[r], t.seen[r])
  {
    RunKeepsInv(reqs, conns, es);
    assert AnswerOk(t, r, i);
    if r !in t.unwound { ToldIff(t.reqs[r], t.rounds[i].verdict, t.looked[r], t.seen[r]); }
  }

  /** The truth about a request: its own row and parse error counts and the figures of the
      whole batch, or the batch's failure. */
  lemma TruthIsOwn(req: Request, v: Verdict, told: Outcome)
    requires told == OutcomeOf(req, v)
    ensures told.Committed? <==> v.Good?
    ensures v.Good? ==>
      told.stats.rows == |req.rows| && told.stats.errors == req.errors && told.stats.shared == v.stats.shared
    ensures v.Bad? ==> told.message == v.message
  {
  }

  /** A request that has led, and has not been thrown out, is always told the truth. */
  lemma LeadersAreToldTheTruth(reqs: seq<Request>, conns: seq<Txn>, es: seq<Event>, t: Table, r: nat)
    requires |conns| == |reqs| && Run(Start(reqs, conns), es) == Some(t) && Sized(t) && r < |t.reqs|
    requires r in t.led && r !in t.unwound && t.returned[r].Some?
    ensures exists i: nat :: SettledIn(t, r, i) && t.returned[r].value == OutcomeOf(t.reqs[r], t.rounds[i].verdict)
  {
    RunKeepsInv(reqs, conns, es);
    assert RoleOk(t, r);
    var i: nat :| SettledIn(t, r, i);
    assert AnswerOk(t, r, i);
    ToldIff(t.reqs[r], t.rounds[i].verdict, t.looked[r], t.seen[r]);
  }

  /** What a request object says to an owner that finds it finished. */
  function Says(item: Item): (o: Outcome) { if item.failed then Failed(item.message) else Committed(item.stats) }

  /** Whenever no leader is in the middle of marking, in particular whenever the leader
      holds the lock again, all requests of a batch carry its outcome. */
  lemma BatchSharesOutcome(t: Table, i: nat, j: nat)
    requires Inv(t) && !MarkingNow(t) && i < |t.rounds| && j < |t.rounds[i].batch|
    ensures
      var r, v := t.rounds[i].batch[j], t.rounds[i].verdict;
      r < |t.reqs| && t.items[r].done && Says(t.items[r]) == OutcomeOf(t.reqs[r], v)
  {
    assert RoundDone(t, i);
    assert SettledIn(t, t.rounds[i].batch[j], i);
  }

  // ---------------------------------------------------------------------------
  // What success means
  // ---------------------------------------------------------------------------

  ghost predicate SuccessesStored(t: Table) {
    forall i :: 0 <= i < |t.rounds| && t.rounds[i].verdict.Good? ==> t.rounds[i].stored
  }

  /** A batch is about to be committed in a transaction that can only be rolled back. */
  ghost predicate AboutToLose(t: Table)
    requires Sized(t)
  {
    exists r :: 0 <= r < |t.pcs| && Losing(t, r)
  }

  predicate Losing(t: Table, r: nat)
    requires Sized(t) && r < |t.pcs|
  {
    t.pcs[r].Working? && t.pcs[r].stage.Staged? && t.conns[r].Invalidated?
  }

  /** An ingestion that returns normally leaves its transaction invalidated. */
  predicate Invalidates(e: Event) { e.Ingest? && e.error.None? && e.after.Invalidated? }

  predicate HasInvalidation(es: seq<Event>) { exists k :: 0 <= k < |es| && Invalidates(es[k]) }

  lemma HasInvalidationStep(init: seq<Event>, e: Event)
    ensures HasInvalidation(init + [e]) <==> HasInvalidation(init) || Invalidates(e)
  {
    var all := init + [e];
    assert all[|init|] == e;
    if k :| 0 <= k < |init| && Invalidates(init[k]) { assert Invalidates(all[k]); }
  }

  /** Only the leader's own statements change its connection. */
  lemma ConnsStay(t: Table, e: Event, r: nat)
    requires Enabled(t, e) && r < |t.conns| && (r != e.r || !Statement(e))
    ensures Sized(Step(t, e)) && Step(t, e).conns[r] == t.conns[r]
  {
    OnlyOnePcMoves(t, e);
    hide Combined, RowsOf, BatchStats, Begin, Commit, Rollback, WriteField;
  }

  lemma OneLoser(t: Table, e: Event)
    requires Enabled(t, e) && OneLeader(t) && Statement(e)
    ensures Sized(Step(t, e)) && (AboutToLose(t) <==> Losing(t, e.r)) && (AboutToLose(Step(t, e)) <==> Losing(Step(t, e), e.r))
  {
    StatementEffect(t, e);
    NobodyElseWorks(t, e.r);
    hide Step;
  }

  lemma StatementLoses(t: Table, e: Event)
    requires Enabled(t, e) && Statement(e)
    ensures Sized(Step(t, e))
    ensures !SuccessesStored(Step(t, e)) || Losing(Step(t, e), e.r)
       <==> !SuccessesStored(t) || Losing(t, e.r) || Invalidates(e)
  {
    hide Combined, RowsOf, BatchStats;
    var t' := Step(t, e);
    if Decides(t, e) {
      var last := t'.rounds[|t.rounds|];
      assert t'.rounds == t.rounds + [last];
      SettledStores(t, t', last);
    } else {
      assert t'.rounds == t.rounds;
    }
  }

  lemma SettledStores(t: Table, t': Table, last: Round)
    requires t'.rounds == t.rounds + [last]
    ensures SuccessesStored(t') <==> SuccessesStored(t) && (last.verdict.Good? ==> last.stored)
  {
    if SuccessesStored(t') {
      forall i | 0 <= i < |t.rounds| && t.rounds[i].verdict.Good? ensures t.rounds[i].stored {
        assert t'.rounds[i] == t.rounds[i];
      }
      assert t'.rounds[|t.rounds|] == last;
    }
  }

  lemma OtherLoses(t: Table, e: Event)
    requires Enabled(t, e) && !Statement(e)
    ensures Sized(Step(t, e)) && Step(t, e).rounds == t.rounds && (AboutToLose(Step(t, e)) <==> AboutToLose(t))
  {
    OnlyOnePcMoves(t, e);
    var t' := Step(t, e);
    hide WriteField, Writes, BeginStep, IngestStep, CommitStep, RollbackStep;
    assert !Losing(t, e.r) && !Losing(t', e.r);
    assert t'.conns == t.conns;
    if r :| 0 <= r < |t.pcs| && Losing(t, r) { assert Losing(t', r); }
    if r :| 0 <= r < |t.pcs| && Losing(t', r) { assert Losing(t, r); }
  }

  lemma NothingLost(reqs: seq<Request>, conns: seq<Txn>)
    requires |conns| == |reqs|
    ensures Sized(Start(reqs, conns)) && SuccessesStored(Start(reqs, conns)) && !AboutToLose(Start(reqs, conns))
    ensures Run(Start(reqs, conns), []) == Some(Start(reqs, conns)) && !HasInvalidation([])
  {
  }

  lemma StepLoses(t: Table, e: Event)
    requires Enabled(t, e) && Inv(t)
    ensures Sized(Step(t, e))
    ensures !SuccessesStored(Step(t, e)) || AboutToLose(Step(t, e)) <==>
      !SuccessesStored(t) || AboutToLose(t) || Invalidates(e)
  {
    if Statement(e) { OneLoser(t, e); StatementLoses(t, e); } else { OtherLoses(t, e); }
    hide Step, Losing, AboutToLose, SuccessesStored;
  }

  /** Over every run: a batch is reported a success without being in the table, or is on its
      way to that, if and only if an ingestion returned normally in a transaction that had
      been invalidated. */
  lemma {:induction false} SuccessesStoredIff(reqs: seq<Request>, conns: seq<Txn>, es: seq<Event>)
    requires |conns| == |reqs| && Run(Start(reqs, conns), es).Some?
    ensures Sized(Run(Start(reqs, conns), es).value)
    ensures
      var t := Run(Start(reqs, conns), es).value;
      !SuccessesStored(t) || AboutToLose(t) <==> HasInvalidation(es)
    decreases |es|
  {
    hide *;
    if es == [] {
      NothingLost(reqs, conns);
    } else {
      var init, e := es[..|es| - 1], es[|es| - 1];
      var t := LastStep(Start(reqs, conns), es);
      RunKeepsInv(reqs, conns, init);
      SuccessesStoredIff(reqs, conns, init);
      assert es == init + [e];
      HasInvalidationStep(init, e);
      StepLoses(t, e);
    }
  }

  lemma LastStep(first: Table, es: seq<Event>) returns (t: Table)
    requires es != [] && Run(first, es).Some?
    ensures Run(first, es[..|es| - 1]) == Some(t) && Enabled(t, es[|es| - 1])
    ensures Run(first, es) == Some(Step(t, es[|es| - 1]))
  {
    t := Run(first, es[..|es| - 1]).value;
  }

  function Reported(reqs: seq<Request>, batch: seq<nat>): (n: nat)
    requires forall i :: 0 <= i < |batch| ==> batch[i] < |reqs|
  {
    if batch == [] then 0 else Reported(reqs, batch[..|batch| - 1]) + |reqs[batch[|batch| - 1]].rows|
  }

  lemma {:induction false} ReportedIsRowCount(reqs: seq<Request>, batch: seq<nat>)
    requires forall i :: 0 <= i < |batch| ==> batch[i] < |reqs|
    ensures Reported(reqs, batch) == |RowsOf(reqs, batch)|
    decreases |batch|
  {
    if batch != [] { ReportedIsRowCount(reqs, batch[..|batch| - 1]); }
  }

  /** The rows the requests of a batch have been told are in. */
  function ToldRows(t: Table, batch: seq<nat>): (n: nat)
    requires Sized(t) && InRange(t, batch)
  {
    if batch == [] then 0
    else
      var answer := t.returned[batch[|batch| - 1]];
      ToldRows(t, batch[..|batch| - 1])
        + if answer.Some? && answer.value.Committed? then answer.value.stats.rows else 0
  }

  /** All requests of the batch have been told the outcome. */
  ghost predicate AllTold(t: Table, batch: seq<nat>, v: Verdict)
    requires Sized(t) && InRange(t, batch)
  {
    forall j :: 0 <= j < |batch| ==> t.returned[batch[j]] == Some(OutcomeOf(t.reqs[batch[j]], v))
  }

  lemma {:induction false} ToldSums(t: Table, batch: seq<nat>, v: Verdict)
    requires Sized(t) && InRange(t, batch) && AllTold(t, batch, v)
    ensures ToldRows(t, batch) == if v.Good? then Reported(t.reqs, batch) else 0
    decreases |batch|
  {
    if batch != [] { ToldSums(t, batch[..|batch| - 1], v); }
  }

  /** The rows a round has put into the table. */
  function AddedBy(t: Table, i: nat): (rows: seq<Row>)
    requires i < |t.rounds| && InRange(t, t.rounds[i].batch)
  {
    if t.rounds[i].stored then Combined(t.reqs, t.rounds[i].batch) else []
  }

  ghost function AddedUpTo(t: Table, n: nat): (rows: seq<Row>)
    requires n <= |t.rounds| && RoundsInRange(t)
  {
    if n == 0 then [] else AddedUpTo(t, n - 1) + AddedBy(t, n - 1)
  }

  /** The table is what its rounds have added, in order. */
  lemma {:induction false} StoredIsAdded(t: Table, n: nat)
    requires n <= |t.rounds| && RoundsInRange(t)
    ensures StoredBy(t.reqs, t.rounds[..n]) == AddedUpTo(t, n)
    decreases n
  {
    if n > 0 {
      StoredIsAdded(t, n - 1);
      assert t.rounds[..n][..n - 1] == t.rounds[..n - 1];
    }
  }

  /** Over every run, for each settled round whose requests have all been told its outcome:
      the counts they were told add up to the rows the round put into the table exactly when
      the batch failed, or had nothing to store, or was stored under a first payload that has
      columns. */
  lemma ToldMatchesStoredIff(reqs: seq<Request>, conns: seq<Txn>, es: seq<Event>, t: Table, i: nat)
    requires |conns| == |reqs| && Run(Start(reqs, conns), es) == Some(t)
    requires Sized(t) && RoundsInRange(t) && i < |t.rounds|
    requires AllTold(t, t.rounds[i].batch, t.rounds[i].verdict)
    ensures t.stored == AddedUpTo(t, |t.rounds|)
    ensures t.rounds[i].batch != []
    ensures
      var round := t.rounds[i];
      ToldRows(t, round.batch) == |AddedBy(t, i)| <==>
        || round.verdict.Bad?
        || Reported(t.reqs, round.batch) == 0
        || (round.stored && t.reqs[round.batch[0]].hasColumns)
  {
    RunKeepsInv(reqs, conns, es);
    RunKeepsRounds(reqs, conns, es);
    StoredIsAdded(t, |t.rounds|);
    assert t.rounds[..|t.rounds|] == t.rounds;
    var round := t.rounds[i];
    ToldSums(t, round.batch, round.verdict);
    ReportedIsRowCount(t.reqs, round.batch);
    if round.stored { assert round.verdict.Good?; }
  }

  ghost predicate RoundsNonEmpty(t: Table) { forall i :: 0 <= i < |t.rounds| ==> t.rounds[i].batch != [] }

  lemma {:induction false} RunKeepsRounds(reqs: seq<Request>, conns: seq<Txn>, es: seq<Event>)
    requires |conns| == |reqs| && Run(Start(reqs, conns), es).Some?
    ensures RoundsNonEmpty(Run(Start(reqs, conns), es).value)
    decreases |es|
  {
    if es != [] {
      var t := Run(Start(reqs, conns), es[..|es| - 1]).value;
      RunKeepsRounds(reqs, conns, es[..|es| - 1]);
      RunKeepsInv(reqs, conns, es[..|es| - 1]);
      StepKeepsRounds(t, es[|es| - 1]);
    }
  }

  lemma StepKeepsRounds(t: Table, e: Event)
    requires Enabled(t, e) && Batched(t) && RoundsNonEmpty(t)
    ensures RoundsNonEmpty(Step(t, e))
  {
    if Statement(e) { StatementEffect(t, e); }
    hide BeginStep, IngestStep, CommitStep, RollbackStep;
  }

  // ---------------------------------------------------------------------------
  // Who waits for ever
  // ---------------------------------------------------------------------------

  lemma LeaderCanStep(t: Table, l: nat)
    requires Inv(t) && l < |t.pcs| && Leads(t.pcs[l])
    ensures exists e: Event :: Enabled(t, e) && e.r == l
  {
    var p := t.pcs[l];
    if p.Leader? {
      assert Enabled(t, if t.pending != [] then Take(l) else Finish(l));
    } else if Trying(p) {
      assert Staging(t, p);
      assert Enabled(t, match p.stage
                        case Ready(_) => BeginTxn(l)
                        case Begun(_) => Ingest(l, None, Active)
                        case Staged(_, _) => CommitTxn(l, Succeeds, 0)
                        case _ => RollbackTxn(l));
    } else {
      assert MarkedUpTo(t, p.stage) && Staging(t, p);
      assert Enabled(t, if p.stage.next < |p.batch| then Mark(l) else Relock(l));
    }
  }

  ghost predicate LeaderMoves(t: Table) { exists e: Event :: Enabled(t, e) && Leads(t.pcs[e.r]) }

  /** While a request waits for its result, a leader holds the table and can take its next
      step, if and only if no leader has unwound. */
  lemma NobodyStrandedIff(t: Table, w: nat)
    requires Inv(t) && w < |t.pcs| && t.pcs[w].Waiting? && !t.items[w].done
    ensures LeaderMoves(t) <==> !Wedged(t)
  {
    if Wedged(t) {
      assert !SomebodyLeads(t);
    } else {
      if !SomebodyLeads(t) { DoneWithoutLeader(t, w); }
      var l :| 0 <= l < |t.pcs| && Leads(t.pcs[l]);
      LeaderCanStep(t, l);
    }
  }

  lemma DoneWithoutLeader(t: Table, w: nat)
    requires Inv(t) && w < |t.pcs| && !t.pcs[w].Idle? && !SomebodyLeads(t) && !Wedged(t)
    ensures t.items[w].done
  {
    assert t.current == [] && t.pending == [] && !MarkingNow(t);
    assert w in t.entered && t.entered == Flat(t.rounds);
    var i := RoundOf(t.rounds, w);
    assert RoundDone(t, i) && SettledIn(t, w, i);
    var j :| 0 <= j < |t.rounds[i].batch| && t.rounds[i].batch[j] == w;
    BatchSharesOutcome(t, i, j);
  }

  /** A call into the database leaves the leader's connection without a transaction, other
      than by committing it: an ingestion, or a commit of its own that fails. */
  ghost predicate EndsEarly(t: Table, e: Event)
    requires Enabled(t, e)
  {
    || (e.Ingest? && e.after.Inactive?)
    || (e.CommitTxn? && t.conns[e.r].Active? && e.own.Fails? && e.own.after.Inactive?)
  }

  ghost predicate EndedEarly(t: Table, es: seq<Event>)
    requires Run(t, es).Some?
    decreases |es|
  {
    es != [] && (EndedEarly(t, es[..|es| - 1]) || EndsEarly(Run(t, es[..|es| - 1]).value, es[|es| - 1]))
  }

  /** A leader whose transaction has ended under it, on its way to the rollback. */
  ghost predicate Doomed(t: Table)
    requires Sized(t)
  {
    exists r :: 0 <= r < |t.pcs| && DoomedAt(t, r)
  }

  predicate DoomedAt(t: Table, r: nat)
    requires Sized(t) && r < |t.pcs|
  {
    var p := t.pcs[r];
    p.Working? && t.conns[r].Inactive? && (p.stage.Staged? || p.stage.Retrying? || p.stage.Caught?)
  }

  lemma StatementDooms(t: Table, e: Event)
    requires Enabled(t, e) && Statement(e)
    ensures Sized(Step(t, e))
    ensures Wedged(Step(t, e)) || DoomedAt(Step(t, e), e.r) <==> Wedged(t) || DoomedAt(t, e.r) || EndsEarly(t, e)
  {
    hide Combined, RowsOf, BatchStats;
    var t' := Step(t, e);
    if Unwinds(t, e) { assert e.r in t'.unwound; }
  }

  lemma OneDoomed(t: Table, e: Event)
    requires Enabled(t, e) && OneLeader(t) && Statement(e)
    ensures Sized(Step(t, e)) && (Doomed(t) <==> DoomedAt(t, e.r)) && (Doomed(Step(t, e)) <==> DoomedAt(Step(t, e), e.r))
  {
    StatementEffect(t, e);
    NobodyElseWorks(t, e.r);
    hide Step;
  }

  lemma OtherDooms(t: Table, e: Event)
    requires Enabled(t, e) && !Statement(e)
    ensures Sized(Step(t, e)) && (Wedged(Step(t, e)) <==> Wedged(t)) && (Doomed(Step(t, e)) <==> Doomed(t))
  {
    OnlyOnePcMoves(t, e);
    var t' := Step(t, e);
    hide WriteField, Writes, BeginStep, IngestStep, CommitStep, RollbackStep;
    assert !DoomedAt(t, e.r) && !DoomedAt(t', e.r);
    assert t'.conns == t.conns;
    if r :| 0 <= r < |t.pcs| && DoomedAt(t, r) { assert DoomedAt(t', r); }
    if r :| 0 <= r < |t.pcs| && DoomedAt(t', r) { assert DoomedAt(t, r); }
  }

  /** Over every run: a leader has unwound, or is bound to, if and only if some call into the
      database ended its transaction under it. */
  lemma {:induction false} WedgedIff(reqs: seq<Request>, conns: seq<Txn>, es: seq<Event>)
    requires |conns| == |reqs| && Run(Start(reqs, conns), es).Some?
    ensures Sized(Run(Start(reqs, conns), es).value)
    ensures
      var t := Run(Start(reqs, conns), es).value;
      Wedged(t) || Doomed(t) <==> EndedEarly(Start(reqs, conns), es)
    decreases |es|
  {
    RunKeepsInv(reqs, conns, es);
    if es != [] {
      var init, e := es[..|es| - 1], es[|es| - 1];
      var t := Run(Start(reqs, conns), init).value;
      RunKeepsInv(reqs, conns, init);
      WedgedIff(reqs, conns, init);
      if Statement(e) { OneDoomed(t, e); StatementDooms(t, e); } else { OtherDooms(t, e); }
      hide Inv, Step, DoomedAt;
    }
  }

  /** A request that will never be answered: not on its way out, and nothing written. */
  predicate Stuck(t: Table, r: nat)
    requires Sized(t) && r < |t.pcs|
  {
    !Late(t.pcs[r]) && !t.items[r].done
  }

  /** After that nobody who has not been written to is ever answered, newcomers included. */
  lemma {:induction false} StrandedForever(t: Table, es: seq<Event>, r: nat)
    requires Inv(t) && Wedged(t) && r < |t.pcs| && Stuck(t, r) && Run(t, es).Some?
    ensures
      var t' := Run(t, es).value;
      Inv(t') && Wedged(t') && r < |t'.pcs| && Stuck(t', r) && t'.returned[r].None?
    decreases |es|
  {
    if es == [] {
      assert RoleOk(t, r);
    } else {
      var init, e := es[..|es| - 1], es[|es| - 1];
      StrandedForever(t, init, r);
      var before := Run(t, init).value;
      StepKeepsInv(before, e);
      StuckStays(before, e, r);
      assert RoleOk(Step(before, e), r);
    }
  }

  lemma StuckStays(t: Table, e: Event, r: nat)
    requires Enabled(t, e) && OneLeader(t) && Wedged(t) && r < |t.pcs| && Stuck(t, r)
    ensures Sized(Step(t, e)) && r < |Step(t, e).pcs| && Wedged(Step(t, e)) && Stuck(Step(t, e), r)
  {
    OnlyOnePcMoves(t, e);
    assert !Leads(t.pcs[e.r]);
    hide BeginStep, IngestStep, CommitStep, RollbackStep;
  }

  // ---------------------------------------------------------------------------
  // Any number of tables
  // ---------------------------------------------------------------------------

  /** Tables share the lock and the condition variable, but no step of one table reads or
      writes another table's entries. */
  type Coordinator = map<string, Table>

  datatype Action = Action(target: string, event: Event)

  ghost function RunAll(c: Coordinator, acts: seq<Action>): (r: Option<Coordinator>)
    decreases |acts|
  {
    if acts == [] then Some(c)
    else
      var before := RunAll(c, acts[..|acts| - 1]);
      var a := acts[|acts| - 1];
      if before.Some? && a.target in before.value && Enabled(before.value[a.target], a.event)
      then Some(before.value[a.target := Step(before.value[a.target], a.event)])
      else None
  }

  /** All of the above holds for every table, however the tables' steps interleave. */
  lemma {:induction false} AllTablesKeepInv(c: Coordinator, acts: seq<Action>)
    requires forall target :: target in c ==> Inv(c[target])
    requires RunAll(c, acts).Some?
    ensures forall target :: target in RunAll(c, acts).value ==> Inv(RunAll(c, acts).value[target])
    decreases |acts|
  {
    if acts != [] {
      var a := acts[|acts| - 1];
      AllTablesKeepInv(c, acts[..|acts| - 1]);
      StepKeepsInv(RunAll(c, acts[..|acts| - 1]).value[a.target], a.event);
    }
  }
}
