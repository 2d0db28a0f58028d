/** Group commit, verdicts: which exceptions a batch fails with, and which are retried. */
module GroupVerdicts {
  import opened Json
  import opened Transactions
  import opened GroupCommit
  import opened GroupResults

  /** What a step throws, from the state of the leader's connection. */
  ghost function ThrownBy(t: Table, e: Event): (x: Option<Thrown>)
    requires Enabled(t, e)
  {
    match e
    case BeginTxn(r) => Begin(t.conns[r]).error
    case Ingest(_, error, _) => error
    case CommitTxn(r, own, _) => Commit(t.conns[r], own).error
    case RollbackTxn(r) => Rollback(t.conns[r]).error
    case _ => None
  }

  /** A conflict in the body of the first attempt: the one kind of exception that is not final. */
  predicate Forgiven(begins: nat, e: Event, x: Thrown) {
    begins == 1 && (e.Ingest? || e.CommitTxn?) && x.transactional
  }

  function BeginsAfter(begins: nat, e: Event): (n: nat) {
    if e.Take? then 0 else begins + if e.BeginTxn? then 1 else 0
  }

  /** How often the batch taken last has begun a transaction. */
  function Begins(es: seq<Event>): (n: nat) {
    if es == [] then 0 else BeginsAfter(Begins(es[..|es| - 1]), es[|es| - 1])
  }

  ghost function FatalAfter(t: Table, begins: nat, fatal: Option<Thrown>, e: Event): (x: Option<Thrown>)
    requires Enabled(t, e)
  {
    if e.Take? then None
    else if fatal.Some? then fatal
    else
      var x := ThrownBy(t, e);
      if x.Some? && !Forgiven(begins, e, x.value) then x else None
  }

  /** The first exception since the last batch was taken that is not forgiven: of a begin, of
      the rollback before a retry, of the second attempt, or not a transaction exception. */
  ghost function Fatal(first: Table, es: seq<Event>): (x: Option<Thrown>)
    requires Run(first, es).Some?
    decreases |es|
  {
    if es == [] then None
    else
      var init := es[..|es| - 1];
      FatalAfter(Run(first, init).value, Begins(init), Fatal(first, init), es[|es| - 1])
  }

  /** What the leader's stage says about the batch's history. */
  predicate StageTells(st: Stage, begins: nat, fatal: Option<Thrown>) {
    match st
    case Ready(a) => fatal.None? && (a == 1 || a == 2) && begins == a - 1
    case Begun(a) => fatal.None? && (a == 1 || a == 2) && begins == a
    case Staged(a, _) => fatal.None? && (a == 1 || a == 2) && begins == a
    case Retrying => fatal.None? && begins == 1
    case Caught(m) => fatal.Some? && fatal.value.message == m
    case Marking(_, _, _) => true
  }

  ghost predicate StagesTell(t: Table, begins: nat, fatal: Option<Thrown>) {
    forall r :: 0 <= r < |t.pcs| && t.pcs[r].Working? ==> StageTells(t.pcs[r].stage, begins, fatal)
  }

  ghost predicate TellsAfter(t: Table, e: Event, begins: nat, fatal: Option<Thrown>)
    requires Enabled(t, e)
  {
    var t' := Step(t, e);
    e.r < |t'.pcs| && (t'.pcs[e.r].Working? ==>
      StageTells(t'.pcs[e.r].stage, BeginsAfter(begins, e), FatalAfter(t, begins, fatal, e)))
  }

  lemma AttemptTells(t: Table, e: Event, begins: nat, fatal: Option<Thrown>)
    requires Enabled(t, e) && (e.BeginTxn? || e.Ingest?) && StageTells(t.pcs[e.r].stage, begins, fatal)
    ensures TellsAfter(t, e, begins, fatal)
  {
    hide Combined, RowsOf, BatchStats, CommitStep, RollbackStep, MarkStep, ReadStep, ReturnStep;
  }

  lemma EndTells(t: Table, e: Event, begins: nat, fatal: Option<Thrown>)
    requires Enabled(t, e) && (e.CommitTxn? || e.RollbackTxn?) && StageTells(t.pcs[e.r].stage, begins, fatal)
    ensures TellsAfter(t, e, begins, fatal)
  {
    hide Combined, RowsOf, BatchStats, BeginStep, IngestStep, MarkStep, ReadStep, ReturnStep;
  }

  lemma StatementTells(t: Table, e: Event, begins: nat, fatal: Option<Thrown>)
    requires Enabled(t, e) && Statement(e) && StageTells(t.pcs[e.r].stage, begins, fatal)
    ensures TellsAfter(t, e, begins, fatal)
  {
    if e.BeginTxn? || e.Ingest? { AttemptTells(t, e, begins, fatal); } else { EndTells(t, e, begins, fatal); }
  }

  lemma StepTells(t: Table, e: Event, begins: nat, fatal: Option<Thrown>)
    requires Enabled(t, e) && OneLeader(t) && StagesTell(t, begins, fatal)
    ensures StagesTell(Step(t, e), BeginsAfter(begins, e), FatalAfter(t, begins, fatal, e))
  {
    OnlyOnePcMoves(t, e);
    var t' := Step(t, e);
    if Statement(e) {
      StatementTells(t, e, begins, fatal);
      NobodyElseWorks(t, e.r);
    } else if e.Take? {
      NobodyElseWorks(t, e.r);
    }
    hide BeginStep, IngestStep, CommitStep, RollbackStep, StageTells;
  }

  lemma {:induction false} RunTells(reqs: seq<Request>, conns: seq<Txn>, es: seq<Event>, t: Table)
    requires |conns| == |reqs| && Run(Start(reqs, conns), es) == Some(t)
    ensures StagesTell(t, Begins(es), Fatal(Start(reqs, conns), es))
    decreases |es|
  {
    if es != [] {
      var init, e := es[..|es| - 1], es[|es| - 1];
      var before := Run(Start(reqs, conns), init).value;
      RunTells(reqs, conns, init, before);
      RunKeepsInv(reqs, conns, init);
      StepTells(before, e, Begins(init), Fatal(Start(reqs, conns), init));
      hide Inv, Step, StagesTell;
    }
  }

  lemma DecisionTells(t: Table, e: Event, begins: nat, fatal: Option<Thrown>)
    requires Enabled(t, e) && Statement(e) && StageTells(t.pcs[e.r].stage, begins, fatal)
    ensures |Step(t, e).rounds| > |t.rounds| ==>
      var v := Step(t, e).rounds[|t.rounds|].verdict;
      if fatal.Some? then v == Bad(fatal.value.message) else v.Good?
  {
    hide Combined, RowsOf, BatchStats;
  }

  /** Over every run: a batch fails exactly when an exception that is not forgiven was thrown
      for it, and with the message of the first one. */
  lemma BadIffFatal(reqs: seq<Request>, conns: seq<Txn>, es: seq<Event>, t: Table, e: Event)
    requires |conns| == |reqs| && Run(Start(reqs, conns), es) == Some(t)
    requires Enabled(t, e) && |Step(t, e).rounds| > |t.rounds|
    ensures
      var fatal, v := Fatal(Start(reqs, conns), es), Step(t, e).rounds[|t.rounds|].verdict;
      && (v.Bad? <==> fatal.Some?)
      && (fatal.Some? ==> v == Bad(fatal.value.message))
  {
    RunTells(reqs, conns, es, t);
    if Statement(e) { DecisionTells(t, e, Begins(es), Fatal(Start(reqs, conns), es)); } else { OthersDecideNothing(t, e); }
    hide Fatal, Step, Run;
  }

  lemma OthersDecideNothing(t: Table, e: Event)
    requires Enabled(t, e) && !Statement(e)
    ensures Step(t, e).rounds == t.rounds
  {
  }

  /** The figures of a batch: the rows ingested, and the parse errors of its first payload only,
      since a merge forgets those of the others. */
  ghost predicate FiguresOk(t: Table) {
    && RoundsInRange(t)
    && forall i :: 0 <= i < |t.rounds| && t.rounds[i].verdict.Good? && t.rounds[i].batch != [] ==>
         && t.rounds[i].verdict.stats.rows == |Combined(t.reqs, t.rounds[i].batch)|
         && t.rounds[i].verdict.stats.errors == t.reqs[t.rounds[i].batch[0]].errors
  }

  lemma DecisionFigures(t: Table, e: Event)
    requires Enabled(t, e) && Statement(e) && Staging(t, t.pcs[e.r]) && FiguresOk(t)
    ensures FiguresOk(Step(t, e))
  {
    StatementEffect(t, e);
    hide Combined, RowsOf;
  }

  lemma {:induction false} RunKeepsFigures(reqs: seq<Request>, conns: seq<Txn>, es: seq<Event>)
    requires |conns| == |reqs| && Run(Start(reqs, conns), es).Some?
    ensures FiguresOk(Run(Start(reqs, conns), es).value)
    decreases |es|
  {
    if es != [] {
      var init, e := es[..|es| - 1], es[|es| - 1];
      var t := Run(Start(reqs, conns), init).value;
      RunKeepsFigures(reqs, conns, init);
      RunKeepsInv(reqs, conns, init);
      if Statement(e) {
        assert t.pcs[e.r].Working? && Staging(t, t.pcs[e.r]);
        DecisionFigures(t, e);
      } else {
        OthersDecideNothing(t, e);
        OnlyOnePcMoves(t, e);
      }
      hide Inv, Step, FiguresOk;
    }
  }

  /** A leader that will begin again, as long as nothing begins. */
  predicate BeforeRetry(t: Table, r: nat) {
    && r < |t.pcs| == |t.conns| && t.pcs[r].Working?
    && (t.pcs[r].stage == Ready(2) || (t.pcs[r].stage.Retrying? && !t.conns[r].Inactive?))
  }

  lemma WaitsForRetry(t: Table, e: Event, r: nat)
    requires Enabled(t, e) && OneLeader(t) && BeforeRetry(t, r) && !e.BeginTxn?
    ensures BeforeRetry(Step(t, e), r) && Step(t, e).rounds == t.rounds && !Decides(t, e)
  {
    OnlyOnePcMoves(t, e);
    NobodyElseWorks(t, r);
    if Statement(e) { StatementEffect(t, e); }
    hide MarkStep, ReadStep, ReturnStep;
  }

  lemma {:induction false} StaysBeforeRetry(t: Table, r: nat, es: seq<Event>)
    requires Inv(t) && BeforeRetry(t, r) && Run(t, es).Some?
    requires forall k :: 0 <= k < |es| ==> !es[k].BeginTxn?
    ensures
      var t' := Run(t, es).value;
      Inv(t') && BeforeRetry(t', r) && t'.rounds == t.rounds
    decreases |es|
  {
    if es != [] {
      var init, e := es[..|es| - 1], es[|es| - 1];
      StaysBeforeRetry(t, r, init);
      var before := Run(t, init).value;
      StepKeepsInv(before, e);
      WaitsForRetry(before, e, r);
      hide BeforeRetry, Step, Decides;
    }
  }

  predicate FirstAttempt(p: Pc) {
    p.Working? && (p.stage == Begun(1) || (p.stage.Staged? && p.stage.attempt == 1))
  }

  /** A conflict of the first attempt is retried: when it has left a transaction, open or
      invalidated, no batch is settled before the next begin, whatever the run. */
  lemma ConflictIsRetried(t: Table, e: Event, es: seq<Event>)
    requires Inv(t) && Enabled(t, e) && (e.Ingest? || e.CommitTxn?) && FirstAttempt(t.pcs[e.r])
    requires ThrownBy(t, e).Some? && ThrownBy(t, e).value.transactional
    requires e.r < |Step(t, e).conns| && !Step(t, e).conns[e.r].Inactive?
    requires Run(Step(t, e), es).Some? && forall k :: 0 <= k < |es| ==> !es[k].BeginTxn?
    ensures Run(Step(t, e), es).value.rounds == t.rounds
  {
    StepKeepsInv(t, e);
    ConflictRolledBack(t, e);
    StaysBeforeRetry(Step(t, e), e.r, es);
  }

  lemma ConflictRolledBack(t: Table, e: Event)
    requires Inv(t) && Enabled(t, e) && (e.Ingest? || e.CommitTxn?) && FirstAttempt(t.pcs[e.r])
    requires ThrownBy(t, e).Some? && ThrownBy(t, e).value.transactional
    requires e.r < |Step(t, e).conns| && !Step(t, e).conns[e.r].Inactive?
    ensures BeforeRetry(Step(t, e), e.r) && Step(t, e).rounds == t.rounds
  {
    hide Combined, RowsOf, BatchStats;
  }
}
