/** Leader-based group commit: concurrent requests to one table are coalesced into shared
    transactions. Every lock-protected section of the coordinator, every statement of the
    leader that touches the database, every single write it makes into a request while the
    lock is released, and every read of such a field, is one atomic step. */
module GroupCommit {
  import opened Json
  import opened Transactions

  type Row = int

  /** A parsed request. `hasColumns` is false for payloads such as an empty array. */
  datatype Request = Request(rows: seq<Row>, hasColumns: bool, errors: nat)

  /** `shared` stands for the figures that are batch-wide: tables created, columns added
      and widened. */
  datatype Stats = Stats(rows: nat, errors: nat, shared: nat)

  const NO_STATS: Stats := Stats(0, 0, 0)

  /** How a batch ended, as its leader sees it. */
  datatype Verdict = Good(stats: Stats) | Bad(message: string)

  /** What a caller is told. */
  datatype Outcome = Committed(stats: Stats) | Failed(message: string)

  datatype Item = Item(done: bool, failed: bool, message: string, stats: Stats)

  /** A request object before anyone wrote into it. */
  const FRESH: Item := Item(false, false, "", NO_STATS)

  /** Where the leader is with its batch. `Retrying` is the handler of a transaction exception
      in the first attempt, `Caught` the leader's own handler. `Marking`: the first `next`
      requests are written, and the first `step` fields of the one after them. */
  datatype Stage =
    | Ready(attempt: nat)
    | Begun(attempt: nat)
    | Staged(attempt: nat, rows: seq<Row>)
    | Retrying
    | Caught(message: string)
    | Marking(verdict: Verdict, next: nat, step: nat)

  datatype Pc =
    | Idle
    | Waiting
    | Leader                                   // leads the table, no batch taken
    | Working(batch: seq<nat>, stage: Stage)   // leads the table, lock released
    | Leaving                                  // about to read `failed`
    | Answering(failed: bool, got: Stats, fields: nat)  // has read it, and so many figures
    | Exiting
    | Gone

  /** `stored` says whether the batch's rows reached the table. */
  datatype Round = Round(batch: seq<nat>, verdict: Verdict, stored: bool)

  /** How many writes a request object had received when its owner read the batch-wide
      figures, the row count, and the error count (or the message). */
  datatype Seen = Seen(shared: nat, rows: nat, last: nat)

  /** One table's share of the coordinator, and each request's connection. The fields from
      `entered` on are history: the order of arrival, the batch being committed, the batches
      settled so far, who has led, which leader has unwound, how many writes each request
      object has received, how many its owner had seen when it read `failed` and when it read
      the rest, and what it told its caller. */
  datatype Table = Table(
    reqs: seq<Request>,
    conns: seq<Txn>,
    pcs: seq<Pc>,
    items: seq<Item>,
    pending: seq<nat>,
    committing: bool,
    active: nat,
    stored: seq<Row>,
    entered: seq<nat>,
    current: seq<nat>,
    rounds: seq<Round>,
    led: set<nat>,
    unwound: set<nat>,
    writes: seq<nat>,
    looked: seq<nat>,
    seen: seq<Seen>,
    returned: seq<Option<Outcome>>)

  function Start(reqs: seq<Request>, conns: seq<Txn>): (t: Table) {
    var n := |reqs|;
    Table(reqs, conns, seq(n, _ => Idle), seq(n, _ => FRESH), [], false, 0, [], [], [], [], {}, {},
          seq(n, _ => 0), seq(n, _ => 0), seq(n, _ => Seen(0, 0, 0)), seq(n, _ => None))
  }

  ghost predicate Sized(t: Table) {
    |t.conns| == |t.pcs| == |t.items| == |t.writes| == |t.looked| == |t.seen| == |t.returned| == |t.reqs|
  }

  /** `Ingest` says what the ingestion throws and the state it leaves the transaction in,
      `Commit` what the database's own commit does. */
  datatype Event =
    | Enter(r: nat) | Take(r: nat) | Finish(r: nat)
    | BeginTxn(r: nat)
    | Ingest(r: nat, error: Option<Thrown>, after: Txn)
    | CommitTxn(r: nat, own: Commitment, shared: nat)
    | RollbackTxn(r: nat)
    | Mark(r: nat) | Relock(r: nat)
    | Wake(r: nat) | Look(r: nat) | Read(r: nat) | Return(r: nat) | Exit(r: nat)

  function RowsOf(reqs: seq<Request>, batch: seq<nat>): (r: seq<Row>)
    requires forall i :: 0 <= i < |batch| ==> batch[i] < |reqs|
  {
    if batch == [] then [] else RowsOf(reqs, batch[..|batch| - 1]) + reqs[batch[|batch| - 1]].rows
  }

  /** The rows the merged payload appends: it keeps only the first request's columns, and
      without columns nothing is ingested at all. */
  function Combined(reqs: seq<Request>, batch: seq<nat>): (r: seq<Row>)
    requires forall i :: 0 <= i < |batch| ==> batch[i] < |reqs|
  {
    if batch != [] && reqs[batch[0]].hasColumns then RowsOf(reqs, batch) else []
  }

  /** The batch's own figures: all rows, but only the first payload's parse errors. */
  function BatchStats(reqs: seq<Request>, batch: seq<nat>, rows: seq<Row>, shared: nat): (s: Stats)
    requires forall i :: 0 <= i < |batch| ==> batch[i] < |reqs|
  {
    Stats(|rows|, if batch == [] then 0 else reqs[batch[0]].errors, shared)
  }

  function OutcomeOf(req: Request, v: Verdict): (o: Outcome) {
    match v
    case Good(s) => Committed(Stats(|req.rows|, req.errors, s.shared))
    case Bad(m) => Failed(m)
  }

  /** How many writes a request object receives. */
  function Writes(v: Verdict): (n: nat) { if v.Good? then 8 else 3 }

  /** Write number `k` of the leader's loop, one field each: the flags and the message, the
      batch's figures in the order they are declared, then the request's own. */
  function WriteField(item: Item, req: Request, v: Verdict, k: nat): (r: Item) {
    if k == 0 then item.(done := true)
    else if k == 1 then item.(failed := v.Bad?)
    else if k == 2 then item.(message := if v.Bad? then v.message else "")
    else if v.Bad? then item
    else if k == 3 then item.(stats := item.stats.(shared := v.stats.shared))
    else if k == 4 then item.(stats := item.stats.(rows := v.stats.rows))
    else if k == 5 then item.(stats := item.stats.(errors := v.stats.errors))
    else if k == 6 then item.(stats := item.stats.(rows := |req.rows|))
    else item.(stats := item.stats.(errors := req.errors))
  }

  /** A leader has unwound. */
  predicate Wedged(t: Table) { t.unwound != {} }

  predicate Trying(p: Pc) { p.Working? && !p.stage.Marking? }

  predicate MarkingPc(p: Pc) { p.Working? && p.stage.Marking? }

  /** Past waiting: the request is on its way out, or gone. */
  predicate Late(p: Pc) { p.Leaving? || p.Answering? || p.Exiting? || p.Gone? }

  ghost predicate InRange(t: Table, batch: seq<nat>) {
    forall i :: 0 <= i < |batch| ==> batch[i] < |t.reqs|
  }

  ghost predicate Enabled(t: Table, e: Event) {
    && Sized(t) && e.r < |t.reqs|
    && var p := t.pcs[e.r];
       match e
       case Enter(_) => p.Idle?
       case Take(_) => p.Leader? && t.pending != []
       case Finish(_) => p.Leader? && t.pending == []
       case BeginTxn(_) => p.Working? && p.stage.Ready?
       case Ingest(_, _, _) => p.Working? && p.stage.Begun? && InRange(t, p.batch)
       case CommitTxn(_, _, _) => p.Working? && p.stage.Staged? && InRange(t, p.batch)
       case RollbackTxn(_) => p.Working? && (p.stage.Retrying? || p.stage.Caught?)
       case Mark(_) => MarkingPc(p) && InRange(t, p.batch) && p.stage.next < |p.batch|
       case Relock(_) => MarkingPc(p) && p.stage.next == |p.batch|
       case Wake(_) => p.Waiting? && t.items[e.r].done
       case Look(_) => p.Leaving?
       case Read(_) => p.Answering? && !p.failed && p.fields < 2
       case Return(_) => p.Answering? && (p.failed || p.fields == 2)
       case Exit(_) => p.Exiting?
  }

  function At(t: Table, r: nat, p: Pc): (t': Table)
    requires r < |t.pcs|
  {
    t.(pcs := t.pcs[r := p])
  }

  /** The batch has been decided; marking begins. */
  function Settle(t: Table, r: nat, batch: seq<nat>, v: Verdict, rows: seq<Row>, stored: bool): (t': Table)
    requires r < |t.pcs|
  {
    At(t, r, Working(batch, Marking(v, 0, 0)))
      .(stored := t.stored + rows, rounds := t.rounds + [Round(batch, v, stored)], current := [])
  }

  /** The rollback after a failure finds no transaction and throws out of the leader: its
      guard runs, but the table keeps its leader flag and the batch stays undecided. */
  function Unwind(t: Table, r: nat): (t': Table)
    requires r < |t.pcs| == |t.returned|
  {
    At(t, r, Exiting)
      .(unwound := t.unwound + {r}, returned := t.returned[r := Some(Failed(NO_ROLLBACK.message))])
  }

  function MarkStep(t: Table, r: nat): (t': Table)
    requires Sized(t) && r < |t.pcs| && MarkingPc(t.pcs[r])
    requires t.pcs[r].stage.next < |t.pcs[r].batch| && InRange(t, t.pcs[r].batch)
  {
    var batch, st := t.pcs[r].batch, t.pcs[r].stage;
    var b := batch[st.next];
    At(t, r, Working(batch, if st.step + 1 >= Writes(st.verdict) then Marking(st.verdict, st.next + 1, 0)
                            else Marking(st.verdict, st.next, st.step + 1)))
      .(items := t.items[b := WriteField(t.items[b], t.reqs[b], st.verdict, st.step)],
        writes := t.writes[b := t.writes[b] + 1])
  }

  /** A statement of the attempt throws: a transaction exception of the first attempt is
      retried, anything else reaches the leader. */
  function Throw(t: Table, r: nat, batch: seq<nat>, attempt: nat, error: Thrown): (t': Table)
    requires r < |t.pcs|
  {
    At(t, r, Working(batch, if attempt == 1 && error.transactional then Retrying else Caught(error.message)))
  }

  function BeginStep(t: Table, r: nat): (t': Table)
    requires Sized(t) && r < |t.pcs| && t.pcs[r].Working? && t.pcs[r].stage.Ready?
  {
    var p, c := t.pcs[r], Begin(t.conns[r]);
    var t1 := t.(conns := t.conns[r := c.after]);
    match c.error
    case None => At(t1, r, Working(p.batch, Begun(p.stage.attempt)))
    case Some(e) => At(t1, r, Working(p.batch, Caught(e.message)))
  }

  function IngestStep(t: Table, r: nat, error: Option<Thrown>, after: Txn): (t': Table)
    requires Sized(t) && r < |t.pcs| && t.pcs[r].Working? && t.pcs[r].stage.Begun? && InRange(t, t.pcs[r].batch)
  {
    var p := t.pcs[r];
    var t1 := t.(conns := t.conns[r := after]);
    match error
    case None => At(t1, r, Working(p.batch, Staged(p.stage.attempt, Combined(t.reqs, p.batch))))
    case Some(e) => Throw(t1, r, p.batch, p.stage.attempt, e)
  }

  function CommitStep(t: Table, r: nat, own: Commitment, shared: nat): (t': Table)
    requires Sized(t) && r < |t.pcs| && t.pcs[r].Working? && t.pcs[r].stage.Staged? && InRange(t, t.pcs[r].batch)
  {
    var p, c := t.pcs[r], Commit(t.conns[r], own);
    var t1 := t.(conns := t.conns[r := c.after]);
    match c.error
    case None =>
      Settle(t1, r, p.batch, Good(BatchStats(t.reqs, p.batch, p.stage.rows, shared)),
             if c.stored then p.stage.rows else [], c.stored)
    case Some(e) => Throw(t1, r, p.batch, p.stage.attempt, e)
  }

  function RollbackStep(t: Table, r: nat): (t': Table)
    requires Sized(t) && r < |t.pcs| && t.pcs[r].Working? && (t.pcs[r].stage.Retrying? || t.pcs[r].stage.Caught?)
  {
    var p, c := t.pcs[r], Rollback(t.conns[r]);
    var t1 := t.(conns := t.conns[r := c.after]);
    if p.stage.Retrying? then
      match c.error
      case None => At(t1, r, Working(p.batch, Ready(2)))
      case Some(e) => At(t1, r, Working(p.batch, Caught(e.message)))
    else if c.error.None? then Settle(t1, r, p.batch, Bad(p.stage.message), [], false)
    else Unwind(t1, r)
  }

  /** The figures are copied field by field. */
  function ReadStep(t: Table, r: nat): (t': Table)
    requires Sized(t) && r < |t.pcs| && t.pcs[r].Answering?
  {
    var p, s := t.pcs[r], t.items[r].stats;
    if p.fields == 0
    then At(t, r, p.(got := p.got.(shared := s.shared), fields := 1)).(seen := t.seen[r := t.seen[r].(shared := t.writes[r])])
    else At(t, r, p.(got := p.got.(rows := s.rows), fields := 2)).(seen := t.seen[r := t.seen[r].(rows := t.writes[r])])
  }

  function ReturnStep(t: Table, r: nat): (t': Table)
    requires Sized(t) && r < |t.pcs| && t.pcs[r].Answering?
  {
    var p, w := t.pcs[r], t.writes[r];
    At(t, r, Exiting)
      .(seen := t.seen[r := if p.failed then Seen(w, w, w) else t.seen[r].(last := w)],
        returned := t.returned[r := Some(if p.failed then Failed(t.items[r].message)
                                         else Committed(p.got.(errors := t.items[r].stats.errors)))])
  }

  ghost function Step(t: Table, e: Event): (t': Table)
    requires Enabled(t, e)
  {
    var r, p := e.r, t.pcs[e.r];
    match e
    case Enter(_) =>
      At(t, r, if t.committing then Waiting else Leader)
        .(pending := t.pending + [r], committing := true, active := t.active + 1, entered := t.entered + [r],
          led := if t.committing then t.led else t.led + {r})
    case Take(_) => At(t, r, Working(t.pending, Ready(1))).(pending := [], current := t.pending)
    case Finish(_) => At(t, r, Leaving).(committing := false)
    case BeginTxn(_) => BeginStep(t, r)
    case Ingest(_, error, after) => IngestStep(t, r, error, after)
    case CommitTxn(_, own, shared) => CommitStep(t, r, own, shared)
    case RollbackTxn(_) => RollbackStep(t, r)
    case Mark(_) => MarkStep(t, r)
    case Relock(_) => At(t, r, Leader)
    case Wake(_) => At(t, r, Leaving)
    case Look(_) => At(t, r, Answering(t.items[r].failed, NO_STATS, 0)).(looked := t.looked[r := t.writes[r]])
    case Read(_) => ReadStep(t, r)
    case Return(_) => ReturnStep(t, r)
    case Exit(_) => At(t, r, Gone).(active := if t.active > 0 then t.active - 1 else 0)
  }

  ghost function Run(t: Table, es: seq<Event>): (r: Option<Table>)
    decreases |es|
  {
    if es == [] then Some(t)
    else
      var before := Run(t, es[..|es| - 1]);
      if before.Some? && Enabled(before.value, es[|es| - 1]) then Some(Step(before.value, es[|es| - 1])) else None
  }

  // ---------------------------------------------------------------------------
  // Leadership and the in-flight counter
  // ---------------------------------------------------------------------------

  predicate Leads(p: Pc) { p.Leader? || p.Working? }

  predicate InFlight(p: Pc) { !p.Idle? && !p.Gone? }

  function InFlightSet(pcs: seq<Pc>): (r: set<nat>) {
    set i: nat | i < |pcs| && InFlight(pcs[i])
  }

  ghost predicate SomebodyLeads(t: Table) { exists r :: 0 <= r < |t.pcs| && Leads(t.pcs[r]) }

  /** At most one leader; the flag says that there is one, or that one has unwound. */
  ghost predicate OneLeader(t: Table) {
    && (forall r, r' :: 0 <= r < |t.pcs| && 0 <= r' < |t.pcs| && Leads(t.pcs[r]) && Leads(t.pcs[r']) ==> r == r')
    && (t.committing <==> SomebodyLeads(t) || Wedged(t))
    && (Wedged(t) ==> !SomebodyLeads(t))
    && (!t.committing ==> t.pending == [])
  }

  ghost predicate Counted(t: Table) {
    t.active == |InFlightSet(t.pcs)|
  }

  /** A statement of the leader that touches its connection. */
  predicate Statement(e: Event) { e.BeginTxn? || e.Ingest? || e.CommitTxn? || e.RollbackTxn? }

  /** What a statement leaves alone in any case. */
  ghost predicate Untouched(t: Table, t': Table, r: nat) {
    && Sized(t) && Sized(t') && t'.reqs == t.reqs && r < |t.pcs| && t'.pcs == t.pcs[r := t'.pcs[r]]
    && t'.items == t.items && t'.pending == t.pending && t'.committing == t.committing
    && t'.active == t.active && t'.entered == t.entered && t'.led == t.led
    && t'.writes == t.writes && t'.looked == t.looked && t'.seen == t.seen
  }

  /** The batch is settled. */
  ghost predicate DecidedBy(t: Table, t': Table, r: nat)
    requires Untouched(t, t', r) && t.pcs[r].Working?
  {
    var p, n := t.pcs[r], |t.rounds|;
    && |t'.rounds| == n + 1 && t'.rounds == t.rounds + [t'.rounds[n]] && t'.rounds[n].batch == p.batch
    && t'.pcs[r] == Working(p.batch, Marking(t'.rounds[n].verdict, 0, 0))
    && t'.current == [] && t'.unwound == t.unwound && t'.returned == t.returned
    && if t'.rounds[n].stored
       then t'.rounds[n].verdict.Good? && p.stage.Staged? && t'.stored == t.stored + p.stage.rows
       else t'.stored == t.stored
  }

  /** Or it goes on being tried, or is abandoned by an unwinding leader. */
  ghost predicate LeftOpenBy(t: Table, t': Table, r: nat, unwinds: bool)
    requires Untouched(t, t', r) && t.pcs[r].Working?
  {
    var p := t.pcs[r];
    && t'.rounds == t.rounds && t'.current == t.current && t'.stored == t.stored
    && if unwinds then
         && t'.pcs[r] == Exiting && t'.unwound == t.unwound + {r}
         && t'.returned == t.returned[r := Some(Failed(NO_ROLLBACK.message))]
       else
         && t'.pcs[r].Working? && t'.pcs[r].batch == p.batch && Trying(t'.pcs[r])
         && t'.unwound == t.unwound && t'.returned == t.returned
         && (t'.pcs[r].stage.Staged? ==> InRange(t, p.batch) && t'.pcs[r].stage.rows == Combined(t.reqs, p.batch))
  }

  ghost predicate StatementOk(t: Table, e: Event, t': Table)
    requires Enabled(t, e) && Statement(e)
  {
    && Untouched(t, t', e.r) && t.pcs[e.r].Working? && Trying(t.pcs[e.r])
    && if Decides(t, e) then DecidedBy(t, t', e.r) else LeftOpenBy(t, t', e.r, Unwinds(t, e))
  }

  lemma BeginEffect(t: Table, r: nat)
    requires Enabled(t, BeginTxn(r))
    ensures StatementOk(t, BeginTxn(r), BeginStep(t, r))
  {
    hide Combined, RowsOf;
  }

  lemma IngestEffect(t: Table, r: nat, error: Option<Thrown>, after: Txn)
    requires Enabled(t, Ingest(r, error, after))
    ensures StatementOk(t, Ingest(r, error, after), IngestStep(t, r, error, after))
  {
    hide Combined, RowsOf;
  }

  lemma CommitEffect(t: Table, r: nat, own: Commitment, shared: nat)
    requires Enabled(t, CommitTxn(r, own, shared))
    ensures StatementOk(t, CommitTxn(r, own, shared), CommitStep(t, r, own, shared))
  {
    CommitStoresIff(t.conns[r], own);
    hide Combined, RowsOf, BatchStats, Commit;
  }

  lemma RollbackEffect(t: Table, r: nat)
    requires Enabled(t, RollbackTxn(r))
    ensures StatementOk(t, RollbackTxn(r), RollbackStep(t, r))
  {
    hide Combined, RowsOf;
  }

  lemma StatementEffect(t: Table, e: Event)
    requires Enabled(t, e) && Statement(e)
    ensures StatementOk(t, e, Step(t, e))
  {
    hide StatementOk, BeginStep, IngestStep, CommitStep, RollbackStep;
    match e
    case BeginTxn(r) => BeginEffect(t, r);
    case Ingest(r, error, after) => IngestEffect(t, r, error, after);
    case CommitTxn(r, own, shared) => CommitEffect(t, r, own, shared);
    case RollbackTxn(r) => RollbackEffect(t, r);
  }

  lemma OnlyOnePcMoves(t: Table, e: Event)
    requires Enabled(t, e)
    ensures |Step(t, e).pcs| == |t.pcs| && Sized(Step(t, e)) && Step(t, e).reqs == t.reqs
    ensures forall r :: 0 <= r < |t.pcs| && r != e.r ==> Step(t, e).pcs[r] == t.pcs[r]
  {
    if Statement(e) {
      StatementEffect(t, e);
      hide Step, Enabled;
    } else {
      hide WriteField, Writes, BeginStep, IngestStep, CommitStep, RollbackStep;
    }
  }

  /** What one step does to the leadership of a table. */
  lemma LeadershipMoves(t: Table, e: Event)
    requires Enabled(t, e)
    ensures
      var t' := Step(t, e);
      && e.r < |t.pcs| == |t'.pcs| && t.unwound <= t'.unwound
      && (Leads(t'.pcs[e.r]) && !Leads(t.pcs[e.r]) ==> e.Enter? && !t.committing && t'.committing)
      && (Leads(t.pcs[e.r]) && !Leads(t'.pcs[e.r]) ==>
            if e.Finish? then !t'.committing && t'.pending == [] && t'.unwound == t.unwound
            else e.r in t'.unwound && t'.committing == t.committing && t'.pending == t.pending)
      && (Leads(t.pcs[e.r]) == Leads(t'.pcs[e.r]) ==> t'.committing == t.committing && t'.unwound == t.unwound)
      && (!t'.committing && t.committing ==> e.Finish? && Leads(t.pcs[e.r]) && !Leads(t'.pcs[e.r]))
      && (!t'.committing && !t.committing ==> t.pending == [] ==> t'.pending == [])
  {
    if Statement(e) { StatementEffect(t, e); }
    hide BeginStep, IngestStep, CommitStep, RollbackStep, MarkStep, ReadStep, ReturnStep;
  }

  lemma StepKeepsOneLeader(t: Table, e: Event)
    requires Enabled(t, e) && OneLeader(t)
    ensures Sized(Step(t, e)) && OneLeader(Step(t, e))
  {
    LeadershipMoves(t, e);
    OnlyOnePcMoves(t, e);
    var t' := Step(t, e);
    hide Step, Enabled;
    if Leads(t.pcs[e.r]) {
      assert SomebodyLeads(t);
      if Leads(t'.pcs[e.r]) { assert SomebodyLeads(t'); }
    } else {
      if l :| 0 <= l < |t.pcs| && Leads(t.pcs[l]) { assert Leads(t'.pcs[l]); }
      if Leads(t'.pcs[e.r]) { assert SomebodyLeads(t'); }
    }
  }

  lemma StepKeepsCounted(t: Table, e: Event)
    requires Enabled(t, e) && Counted(t)
    ensures Counted(Step(t, e))
  {
    if Statement(e) { StatementEffect(t, e); }
    hide BeginStep, IngestStep, CommitStep, RollbackStep, MarkStep, ReadStep, ReturnStep;
    assert Step(t, e).pcs == t.pcs[e.r := Step(t, e).pcs[e.r]];
    InFlightUpdate(t.pcs, e.r, Step(t, e).pcs[e.r]);
  }

  lemma InFlightUpdate(pcs: seq<Pc>, r: nat, p: Pc)
    requires r < |pcs|
    ensures |InFlightSet(pcs[r := p])| + (if InFlight(pcs[r]) then 1 else 0)
         == |InFlightSet(pcs)| + if InFlight(p) then 1 else 0
  {
    var others := InFlightSet(pcs) - {r};
    assert InFlightSet(pcs) == if InFlight(pcs[r]) then others + {r} else others;
    assert InFlightSet(pcs[r := p]) == if InFlight(p) then others + {r} else others;
  }

  // ---------------------------------------------------------------------------
  // FIFO batches
  // ---------------------------------------------------------------------------

  function Flat(rounds: seq<Round>): (r: seq<nat>) {
    if rounds == [] then [] else Flat(rounds[..|rounds| - 1]) + rounds[|rounds| - 1].batch
  }

  ghost predicate Distinct(s: seq<nat>) {
    forall i, j :: 0 <= i < j < |s| ==> s[i] != s[j]
  }

  /** Arrival order is the settled batches, then the one being committed, then the queue;
      each request that entered appears in exactly one of them, once. */
  ghost predicate Fifo(t: Table) {
    && Sized(t)
    && t.entered == Flat(t.rounds) + t.current + t.pending
    && Distinct(t.entered)
    && InRange(t, t.entered)
    && (forall r: nat :: r < |t.pcs| ==> (r in t.entered <==> !t.pcs[r].Idle?))
  }

  /** The batch being committed is the one its leader holds. */
  ghost predicate Batched(t: Table) {
    && Sized(t)
    && (forall r :: 0 <= r < |t.pcs| && Trying(t.pcs[r]) ==> t.pcs[r].batch == t.current)
    && (forall r :: 0 <= r < |t.pcs| && t.pcs[r].Working? ==> t.pcs[r].batch != [])
    && (t.current != [] && !Wedged(t) ==> exists r :: 0 <= r < |t.pcs| && Trying(t.pcs[r]))
    && (forall r :: 0 <= r < |t.pcs| && MarkingPc(t.pcs[r]) ==>
          && t.rounds != []
          && t.rounds[|t.rounds| - 1].batch == t.pcs[r].batch
          && t.rounds[|t.rounds| - 1].verdict == t.pcs[r].stage.verdict)
  }

  lemma FlatAppend(rounds: seq<Round>, round: Round)
    ensures Flat(rounds + [round]) == Flat(rounds) + round.batch
  {
    assert (rounds + [round])[..|rounds|] == rounds;
  }

  /** The batch is settled: the commit returns, or the leader's rollback does. */
  ghost predicate Decides(t: Table, e: Event)
    requires Enabled(t, e)
  {
    || (e.CommitTxn? && Commit(t.conns[e.r], e.own).error.None?)
    || (e.RollbackTxn? && t.pcs[e.r].stage.Caught? && !t.conns[e.r].Inactive?)
  }

  /** The leader's rollback finds no transaction. */
  ghost predicate Unwinds(t: Table, e: Event)
    requires Enabled(t, e)
  {
    e.RollbackTxn? && t.pcs[e.r].stage.Caught? && t.conns[e.r].Inactive?
  }

  lemma StepKeepsFifo(t: Table, e: Event)
    requires Enabled(t, e) && Fifo(t) && OneLeader(t) && Batched(t)
    ensures Fifo(Step(t, e))
  {
    OnlyOnePcMoves(t, e);
    if e.Enter? {
      EnterKeepsFifo(t, e.r);
    } else if e.Take? {
      TakeKeepsFifo(t, e.r);
    } else if Decides(t, e) {
      DecideKeepsFifo(t, e);
    } else {
      OtherKeepsFifo(t, e);
    }
  }

  lemma OtherKeepsFifo(t: Table, e: Event)
    requires Enabled(t, e) && Fifo(t) && !e.Enter? && !e.Take? && !Decides(t, e)
    ensures Fifo(Step(t, e))
  {
    if Statement(e) { StatementEffect(t, e); }
    hide BeginStep, IngestStep, CommitStep, RollbackStep;
    OnlyOnePcMoves(t, e);
    var t' := Step(t, e);
    assert t'.entered == t.entered && t'.rounds == t.rounds && t'.current == t.current && t'.pending == t.pending;
    assert !t.pcs[e.r].Idle? && !t'.pcs[e.r].Idle?;
  }

  lemma TakeKeepsFifo(t: Table, r: nat)
    requires Enabled(t, Take(r)) && Fifo(t) && OneLeader(t) && Batched(t)
    ensures Fifo(Step(t, Take(r)))
  {
    OnlyOnePcMoves(t, Take(r));
    NobodyTries(t, r);
    TakeKeepsOrder(t.entered, Flat(t.rounds), t.pending);
  }

  lemma DecideKeepsFifo(t: Table, e: Event)
    requires Enabled(t, e) && Decides(t, e) && Fifo(t) && OneLeader(t) && Batched(t)
    ensures Fifo(Step(t, e))
  {
    DecideEffect(t, e);
    var t' := Step(t, e);
    hide Step, Enabled, Decides, OneLeader, Batched;
    FlatAppend(t.rounds, t'.rounds[|t.rounds|]);
    TakeKeepsOrder(t.entered, Flat(t.rounds) + t.current, t.pending);
    assert !t.pcs[e.r].Idle? && !t'.pcs[e.r].Idle?;
  }

  /** A settled batch is the current one; nothing but its leader moves. */
  ghost predicate CurrentSettled(t: Table, t': Table, r: nat) {
    var n := |t.rounds|;
    && Sized(t) && Sized(t') && t'.reqs == t.reqs && r < |t.pcs| && t'.pcs == t.pcs[r := t'.pcs[r]]
    && t'.entered == t.entered && t'.pending == t.pending && t'.current == []
    && t'.items == t.items && t'.writes == t.writes
    && |t'.rounds| == n + 1 && t'.rounds == t.rounds + [t'.rounds[n]] && t'.rounds[..n] == t.rounds
    && t'.rounds[n].batch == t.current
    && t.pcs[r].Working? && t'.pcs[r] == Working(t.current, Marking(t'.rounds[n].verdict, 0, 0))
  }

  lemma DecideEffect(t: Table, e: Event)
    requires Enabled(t, e) && Decides(t, e) && Batched(t)
    ensures CurrentSettled(t, Step(t, e), e.r)
  {
    StatementEffect(t, e);
    hide Step;
  }

  lemma TakeKeepsOrder(entered: seq<nat>, settled: seq<nat>, queue: seq<nat>)
    requires entered == settled + [] + queue || entered == settled + queue
    ensures entered == settled + queue + [] && entered == settled + [] + queue
  {
  }

  lemma EnterKeepsFifo(t: Table, r: nat)
    requires Enabled(t, Enter(r)) && Fifo(t)
    ensures Fifo(Step(t, Enter(r)))
  {
    OnlyOnePcMoves(t, Enter(r));
    var t' := Step(t, Enter(r));
    assert t'.entered == t.entered + [r] == Flat(t.rounds) + t.current + t'.pending;
    assert r !in t.entered;
  }

  lemma NobodyTries(t: Table, r: nat)
    requires OneLeader(t) && Batched(t) && r < |t.pcs| && Leads(t.pcs[r]) && !Trying(t.pcs[r])
    ensures t.current == [] && !Wedged(t)
  {
    assert SomebodyLeads(t);
    forall l | 0 <= l < |t.pcs| ensures !Trying(t.pcs[l]) {
      assert l != r ==> !Leads(t.pcs[l]);
    }
  }

  lemma StepKeepsBatched(t: Table, e: Event)
    requires Enabled(t, e) && OneLeader(t) && Batched(t)
    ensures Batched(Step(t, e))
  {
    OnlyOnePcMoves(t, e);
    if Leads(t.pcs[e.r]) {
      LeaderKeepsBatched(t, e);
    } else {
      OutsiderKeepsBatched(t, e);
    }
  }

  lemma OutsiderKeepsBatched(t: Table, e: Event)
    requires Enabled(t, e) && OneLeader(t) && Batched(t) && !Leads(t.pcs[e.r])
    ensures Batched(Step(t, e))
  {
    if Statement(e) { StatementEffect(t, e); }
    hide BeginStep, IngestStep, CommitStep, RollbackStep, MarkStep, ReadStep, ReturnStep;
    OnlyOnePcMoves(t, e);
    var t' := Step(t, e);
    assert !t'.pcs[e.r].Working?;
    assert t'.current == t.current && t'.rounds == t.rounds && t'.unwound == t.unwound;
    if t.current != [] && !Wedged(t) {
      var l :| 0 <= l < |t.pcs| && Trying(t.pcs[l]);
      assert Trying(t'.pcs[l]);
    }
  }

  lemma LeaderKeepsBatched(t: Table, e: Event)
    requires Enabled(t, e) && OneLeader(t) && Batched(t) && Leads(t.pcs[e.r])
    ensures Batched(Step(t, e))
  {
    if Statement(e) { StatementEffect(t, e); }
    hide BeginStep, IngestStep, CommitStep, RollbackStep, MarkStep, ReadStep, ReturnStep;
    OnlyOnePcMoves(t, e);
    var t' := Step(t, e);
    NobodyElseWorks(t, e.r);
    assert forall k :: 0 <= k < |t'.pcs| && t'.pcs[k].Working? ==> k == e.r;
    if !Trying(t.pcs[e.r]) { NobodyTries(t, e.r); }
    if Trying(t'.pcs[e.r]) { assert exists k :: 0 <= k < |t'.pcs| && Trying(t'.pcs[k]); }
  }

  lemma NobodyElseWorks(t: Table, r: nat)
    requires OneLeader(t) && r < |t.pcs| && Leads(t.pcs[r])
    ensures forall l :: 0 <= l < |t.pcs| && l != r ==> !Leads(t.pcs[l])
  {
  }

  // ---------------------------------------------------------------------------
  // Stored rows
  // ---------------------------------------------------------------------------

  function StoredBy(reqs: seq<Request>, rounds: seq<Round>): (r: seq<Row>)
    requires forall i :: 0 <= i < |rounds| ==> forall j :: 0 <= j < |rounds[i].batch| ==> rounds[i].batch[j] < |reqs|
  {
    if rounds == [] then []
    else
      var last := rounds[|rounds| - 1];
      StoredBy(reqs, rounds[..|rounds| - 1]) + if last.stored then Combined(reqs, last.batch) else []
  }

  ghost predicate RoundsInRange(t: Table) {
    forall i :: 0 <= i < |t.rounds| ==> forall j :: 0 <= j < |t.rounds[i].batch| ==> t.rounds[i].batch[j] < |t.reqs|
  }

  /** The table holds exactly the combined rows of the batches that were stored; a first
      attempt that conflicted leaves nothing behind, and no failed batch is stored. */
  ghost predicate StoredOnce(t: Table) {
    && RoundsInRange(t)
    && t.stored == StoredBy(t.reqs, t.rounds)
    && (forall i :: 0 <= i < |t.rounds| && t.rounds[i].stored ==> t.rounds[i].verdict.Good?)
    && forall r :: 0 <= r < |t.pcs| && t.pcs[r].Working? ==> Staging(t, t.pcs[r])
  }

  ghost predicate Staging(t: Table, p: Pc)
    requires p.Working?
  {
    InRange(t, p.batch) && (p.stage.Staged? ==> p.stage.rows == Combined(t.reqs, p.batch))
  }

  lemma StepKeepsStoredOnce(t: Table, e: Event)
    requires Enabled(t, e) && Fifo(t) && StoredOnce(t)
    ensures StoredOnce(Step(t, e))
  {
    OnlyOnePcMoves(t, e);
    if Decides(t, e) {
      DecideKeepsStored(t, e);
    } else if e.Take? {
      TakeKeepsStored(t, e.r);
    } else {
      OtherKeepsStored(t, e);
    }
  }

  lemma DecideKeepsStored(t: Table, e: Event)
    requires Enabled(t, e) && Decides(t, e) && StoredOnce(t)
    ensures StoredOnce(Step(t, e))
  {
    StatementEffect(t, e);
    hide Step, Enabled, Combined, RowsOf;
    var t' := Step(t, e);
    assert Staging(t, t.pcs[e.r]);
    assert t'.rounds[..|t'.rounds| - 1] == t.rounds;
  }

  lemma TakeKeepsStored(t: Table, r: nat)
    requires Enabled(t, Take(r)) && Fifo(t) && StoredOnce(t)
    ensures StoredOnce(Step(t, Take(r)))
  {
    OnlyOnePcMoves(t, Take(r));
    forall i | 0 <= i < |t.pending| ensures t.pending[i] < |t.reqs| {
      assert t.entered[|Flat(t.rounds) + t.current| + i] == t.pending[i];
    }
  }

  lemma OtherKeepsStored(t: Table, e: Event)
    requires Enabled(t, e) && StoredOnce(t) && !Decides(t, e) && !e.Take?
    ensures StoredOnce(Step(t, e))
  {
    if Statement(e) { StatementEffect(t, e); }
    hide BeginStep, IngestStep, CommitStep, RollbackStep, MarkStep, ReadStep, ReturnStep;
    OnlyOnePcMoves(t, e);
    var t' := Step(t, e);
    assert t'.stored == t.stored && t'.rounds == t.rounds;
    if t'.pcs[e.r].Working? { assert Staging(t, t.pcs[e.r]); }
  }
}
