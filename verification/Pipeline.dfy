/** The file pipeline: one reader splits a file into raw batches, parsers turn them into
    payloads, one consumer coalesces and ingests them. Two bounded queues join the stages.
    Each step is one lock-protected section, or the outcome of one stretch of local work. */
module Pipeline {
  import opened Json

  /** Raw batches are numbered in file order; `shape` and `rows` are what parsing finds. */
  datatype Config = Config(batches: nat, capacity: nat, shape: nat -> nat, rows: nat -> nat, poolMinRows: nat)

  datatype ParserPc = Idle | Parsing(id: nat) | Pushing(id: nat) | Left

  /** `Handing`: the pending group is being ingested to make room for item `next`. */
  datatype ConsumerPc = Waiting | Handing(next: nat) | Finishing | Done | Failed(why: string)

  datatype Outcome = Returned(batches: nat) | Threw(why: string)

  /** `readerDone` is the flag the others wait on, `readerLeft` that the thread has ended.
      `dropped` is history: batches given up after an abort or by a parse error. */
  datatype State = State(
    read: nat,
    readerLeft: bool,
    readerDone: bool,
    raw: seq<nat>,
    parsers: seq<ParserPc>,
    active: nat,
    queue: seq<nat>,
    aborted: bool,
    error: Option<string>,
    consumer: ConsumerPc,
    pending: seq<nat>,
    popped: nat,
    ingested: seq<seq<nat>>,
    result: Option<Outcome>,
    dropped: seq<nat>)

  function Start(parserCount: nat): (s: State) {
    State(0, false, false, [], seq(parserCount, _ => Idle), parserCount, [], false, None, Waiting, [], 0, [], None, [])
  }

  datatype Event =
    | Push                                // reader: PushRaw of the next batch
    | EndRead(err: Option<string>)        // reader: ReaderDone
    | Fetch(p: nat)                       // parser: PopRaw gives a batch
    | Leave(p: nat)                       // parser: PopRaw gives up, ParserDone
    | Parse(p: nat, err: Option<string>)  // parser: Process returns, or throws into ParserDone
    | Deliver(p: nat)                     // parser: Push
    | Take                                // consumer: Pop gives an item
    | Handed(err: Option<string>)         // consumer: the pending group has been ingested
    | StopTaking                          // consumer: Pop gives up
    | Finish(err: Option<string>)         // consumer: last group and Finish
    | Join                                // every thread joined

  function RowsOf(cfg: Config, group: seq<nat>): (n: nat) {
    if group == [] then 0 else RowsOf(cfg, group[..|group| - 1]) + cfg.rows(group[|group| - 1])
  }

  /** Whether an item is merged into the pending group, which keeps its first item's shape. */
  predicate Coalesces(cfg: Config, group: seq<nat>, id: nat)
    requires group != []
  {
    cfg.shape(group[0]) == cfg.shape(id) && RowsOf(cfg, group) + cfg.rows(id) < cfg.poolMinRows
  }

  // ---------------------------------------------------------------------------
  // Wait predicates and steps
  // ---------------------------------------------------------------------------

  predicate ConsumerOut(s: State) { s.consumer.Done? || s.consumer.Failed? }

  ghost predicate AllLeft(s: State) { forall p :: 0 <= p < |s.parsers| ==> s.parsers[p].Left? }

  ghost predicate Enabled(cfg: Config, s: State, e: Event) {
    match e
    case Push => !s.readerLeft && s.read < cfg.batches && (|s.raw| < cfg.capacity || s.aborted)
    case EndRead(err) => !s.readerLeft && (err.None? ==> s.read == cfg.batches)
    case Fetch(p) => p < |s.parsers| && s.parsers[p].Idle? && s.raw != [] && !s.aborted
    case Leave(p) => p < |s.parsers| && s.parsers[p].Idle? && (s.aborted || (s.raw == [] && s.readerDone))
    case Parse(p, _) => p < |s.parsers| && s.parsers[p].Parsing?
    case Deliver(p) => p < |s.parsers| && s.parsers[p].Pushing? && (|s.queue| < cfg.capacity || s.aborted)
    case Take => s.consumer.Waiting? && s.queue != [] && !s.aborted
    case Handed(_) => s.consumer.Handing?
    case StopTaking => s.consumer.Waiting? && (s.aborted || (s.queue == [] && s.readerDone && s.active == 0))
    case Finish(_) => s.consumer.Finishing?
    case Join => ConsumerOut(s) && s.result.None? && s.readerLeft && AllLeft(s)
  }

  /** `Abort`, called by a consumer that is about to rethrow. */
  function Abort(s: State, why: string): (r: State) {
    s.(aborted := true, readerDone := true, consumer := Failed(why))
  }

  /** Only the first error is kept, and only it aborts. */
  function ParserDone(s: State, p: nat, err: Option<string>): (r: State)
    requires p < |s.parsers|
  {
    var gone := s.(parsers := s.parsers[p := Left], active := if s.active > 0 then s.active - 1 else 0);
    if err.None? || s.error.Some? then gone else gone.(error := err, aborted := true)
  }

  function TakeItem(cfg: Config, s: State): (r: State)
    requires s.queue != []
  {
    var id := s.queue[0];
    var t := s.(queue := s.queue[1..], popped := s.popped + 1);
    if s.pending == [] then t.(pending := [id])
    else if Coalesces(cfg, s.pending, id) then t.(pending := s.pending + [id])
    else t.(consumer := Handing(id))
  }

  /** The consumer's own error is rethrown first, then the one the pipeline has kept. */
  function Verdict(s: State): (o: Outcome) {
    if s.consumer.Failed? then Threw(s.consumer.why)
    else if s.error.Some? then Threw(s.error.value)
    else Returned(s.popped)
  }

  ghost function Step(cfg: Config, s: State, e: Event): (s': State)
    requires Enabled(cfg, s, e)
  {
    match e
    case Push =>
      if s.aborted then s.(read := s.read + 1, dropped := s.dropped + [s.read])
      else s.(read := s.read + 1, raw := s.raw + [s.read])
    case EndRead(err) =>
      var t := s.(readerLeft := true, readerDone := true);
      if err.None? || s.error.Some? then t else t.(error := err)
    case Fetch(p) => s.(raw := s.raw[1..], parsers := s.parsers[p := Parsing(s.raw[0])])
    case Leave(p) => ParserDone(s, p, None)
    case Parse(p, err) =>
      if err.None? then s.(parsers := s.parsers[p := Pushing(s.parsers[p].id)])
      else ParserDone(s, p, err).(dropped := s.dropped + [s.parsers[p].id])
    case Deliver(p) =>
      var t := s.(parsers := s.parsers[p := Idle]);
      if s.aborted then t.(dropped := s.dropped + [s.parsers[p].id]) else t.(queue := s.queue + [s.parsers[p].id])
    case Take => TakeItem(cfg, s)
    case Handed(err) =>
      if err.None? then s.(ingested := s.ingested + [s.pending], pending := [s.consumer.next], consumer := Waiting)
      else Abort(s, err.value).(dropped := s.dropped + [s.consumer.next])
    case StopTaking => s.(consumer := Finishing)
    case Finish(err) =>
      if err.Some? then Abort(s, err.value)
      else if s.pending == [] then s.(consumer := Done)
      else s.(ingested := s.ingested + [s.pending], pending := [], consumer := Done)
    case Join => s.(result := Some(Verdict(s)))
  }

  ghost function Run(cfg: Config, s: State, es: seq<Event>): (r: Option<State>)
    decreases |es|
  {
    if es == [] then Some(s)
    else
      var before := Run(cfg, s, es[..|es| - 1]);
      if before.Some? && Enabled(cfg, before.value, es[|es| - 1]) then Some(Step(cfg, before.value, es[|es| - 1])) else None
  }

  // ---------------------------------------------------------------------------
  // Sums over the parsers
  // ---------------------------------------------------------------------------

  predicate Holds(pc: ParserPc, id: nat) { (pc.Parsing? || pc.Pushing?) && pc.id == id }

  function Held(ps: seq<ParserPc>, id: nat): (n: nat) {
    if ps == [] then 0 else Held(ps[..|ps| - 1], id) + if Holds(ps[|ps| - 1], id) then 1 else 0
  }

  /** Steps a parser still owes on the batch in its hands, plus one for leaving. */
  function Owes(pc: ParserPc): (n: nat) {
    match pc
    case Left => 0
    case Idle => 1
    case Pushing(_) => 4
    case Parsing(_) => 5
  }

  function OwedBy(ps: seq<ParserPc>): (n: nat) {
    if ps == [] then 0 else OwedBy(ps[..|ps| - 1]) + Owes(ps[|ps| - 1])
  }

  function ActiveIn(ps: seq<ParserPc>): (n: nat)
    ensures n == 0 <==> forall p :: 0 <= p < |ps| ==> ps[p].Left?
  {
    if ps == [] then 0 else ActiveIn(ps[..|ps| - 1]) + if ps[|ps| - 1].Left? then 0 else 1
  }

  lemma {:induction false} HeldMoves(ps: seq<ParserPc>, p: nat, pc: ParserPc, id: nat)
    requires p < |ps|
    ensures Held(ps[p := pc], id) + (if Holds(ps[p], id) then 1 else 0) == Held(ps, id) + if Holds(pc, id) then 1 else 0
    decreases |ps|
  {
    var n := |ps| - 1;
    var u := ps[p := pc];
    if p < n {
      HeldMoves(ps[..n], p, pc, id);
      assert u[..n] == ps[..n][p := pc];
    } else {
      assert u[..n] == ps[..n];
    }
  }

  lemma {:induction false} ParserMoves(ps: seq<ParserPc>, p: nat, pc: ParserPc)
    requires p < |ps|
    ensures OwedBy(ps[p := pc]) + Owes(ps[p]) == OwedBy(ps) + Owes(pc)
    ensures ActiveIn(ps[p := pc]) + (if ps[p].Left? then 0 else 1) == ActiveIn(ps) + if pc.Left? then 0 else 1
    decreases |ps|
  {
    var n := |ps| - 1;
    var u := ps[p := pc];
    if p < n {
      ParserMoves(ps[..n], p, pc);
      assert u[..n] == ps[..n][p := pc];
    } else {
      assert u[..n] == ps[..n];
    }
  }

  lemma {:induction false} AllIdle(ps: seq<ParserPc>)
    requires forall p :: 0 <= p < |ps| ==> ps[p].Idle?
    ensures ActiveIn(ps) == |ps| && OwedBy(ps) == |ps|
  {
    if ps != [] { AllIdle(ps[..|ps| - 1]); }
  }

  lemma {:induction false} NoneHeld(ps: seq<ParserPc>, id: nat)
    requires forall p :: 0 <= p < |ps| ==> ps[p].Left? || ps[p].Idle?
    ensures Held(ps, id) == 0
  {
    if ps != [] { NoneHeld(ps[..|ps| - 1], id); }
  }

  // ---------------------------------------------------------------------------
  // Every batch is in exactly one place
  // ---------------------------------------------------------------------------

  function Flat(groups: seq<seq<nat>>): (r: seq<nat>) {
    if groups == [] then [] else Flat(groups[..|groups| - 1]) + groups[|groups| - 1]
  }

  function Hand(pc: ConsumerPc): (r: seq<nat>) { if pc.Handing? then [pc.next] else [] }

  function Count(xs: seq<nat>, id: nat): (n: nat) {
    if xs == [] then 0 else Count(xs[..|xs| - 1], id) + if xs[|xs| - 1] == id then 1 else 0
  }

  /** How many copies of batch `id` there are, over all the places it can be. */
  function Copies(s: State, id: nat): (n: nat) {
    Count(s.raw, id) + Held(s.parsers, id) + Count(s.queue, id) + Count(Hand(s.consumer), id)
      + Count(s.pending, id) + Count(Flat(s.ingested), id) + Count(s.dropped, id)
  }

  ghost predicate OnePlace(s: State) {
    forall id: nat :: Copies(s, id) == if id < s.read then 1 else 0
  }

  lemma {:induction false} CountConcat(xs: seq<nat>, ys: seq<nat>, id: nat)
    ensures Count(xs + ys, id) == Count(xs, id) + Count(ys, id)
    decreases |ys|
  {
    if ys == [] {
      assert xs + ys == xs;
    } else {
      assert (xs + ys)[..|xs + ys| - 1] == xs + ys[..|ys| - 1];
      CountConcat(xs, ys[..|ys| - 1], id);
    }
  }

  lemma CountNone(id: nat)
    ensures Count([], id) == 0
  {
  }

  lemma CountOne(x: nat, id: nat)
    ensures Count([x], id) == if x == id then 1 else 0
  {
    assert [x][..0] == [];
  }

  lemma CountAppend(xs: seq<nat>, x: nat, id: nat)
    ensures Count(xs + [x], id) == Count(xs, id) + if x == id then 1 else 0
  {
    CountConcat(xs, [x], id);
    CountOne(x, id);
  }

  lemma CountHead(xs: seq<nat>, id: nat)
    requires xs != []
    ensures Count(xs, id) == Count(xs[1..], id) + if xs[0] == id then 1 else 0
  {
    assert xs == [xs[0]] + xs[1..];
    CountConcat([xs[0]], xs[1..], id);
    CountOne(xs[0], id);
  }

  lemma CountFlat(groups: seq<seq<nat>>, g: seq<nat>, id: nat)
    ensures Count(Flat(groups + [g]), id) == Count(Flat(groups), id) + Count(g, id)
  {
    assert (groups + [g])[..|groups|] == groups;
    CountConcat(Flat(groups), g, id);
  }

  lemma ReaderMovesCopies(cfg: Config, s: State, id: nat)
    requires Enabled(cfg, s, Push)
    ensures Copies(Step(cfg, s, Push), id) == Copies(s, id) + if id == s.read then 1 else 0
  {
    hide Count, Held, Flat, Coalesces, RowsOf;
    CountNone(id);
    if s.aborted { CountAppend(s.dropped, s.read, id); } else { CountAppend(s.raw, s.read, id); }
  }

  lemma FetchMovesCopies(cfg: Config, s: State, p: nat, id: nat)
    requires Enabled(cfg, s, Fetch(p))
    ensures Copies(Step(cfg, s, Fetch(p)), id) == Copies(s, id)
  {
    hide Count, Held, Flat, Coalesces, RowsOf;
    CountNone(id);
    CountHead(s.raw, id);
    HeldMoves(s.parsers, p, Parsing(s.raw[0]), id);
  }

  lemma ParseMovesCopies(cfg: Config, s: State, p: nat, err: Option<string>, id: nat)
    requires Enabled(cfg, s, Parse(p, err))
    ensures Copies(Step(cfg, s, Parse(p, err)), id) == Copies(s, id)
  {
    hide Count, Held, Flat, Coalesces, RowsOf;
    CountNone(id);
    if err.None? {
      HeldMoves(s.parsers, p, Pushing(s.parsers[p].id), id);
    } else {
      HeldMoves(s.parsers, p, Left, id);
      CountAppend(s.dropped, s.parsers[p].id, id);
    }
  }

  lemma DeliverMovesCopies(cfg: Config, s: State, p: nat, id: nat)
    requires Enabled(cfg, s, Deliver(p))
    ensures Copies(Step(cfg, s, Deliver(p)), id) == Copies(s, id)
  {
    hide Count, Held, Flat, Coalesces, RowsOf;
    CountNone(id);
    HeldMoves(s.parsers, p, Idle, id);
    if s.aborted { CountAppend(s.dropped, s.parsers[p].id, id); }
    else { CountAppend(s.queue, s.parsers[p].id, id); }
  }

  lemma TakeMovesCopies(cfg: Config, s: State, id: nat)
    requires Enabled(cfg, s, Take)
    ensures Copies(TakeItem(cfg, s), id) == Copies(s, id)
  {
    hide Count, Held, Flat, Coalesces, RowsOf;
    CountNone(id);
    CountHead(s.queue, id);
    CountOne(s.queue[0], id);
    if s.pending != [] && Coalesces(cfg, s.pending, s.queue[0]) { CountAppend(s.pending, s.queue[0], id); }
  }

  lemma HandedMovesCopies(cfg: Config, s: State, err: Option<string>, id: nat)
    requires Enabled(cfg, s, Handed(err))
    ensures Copies(Step(cfg, s, Handed(err)), id) == Copies(s, id)
  {
    hide Count, Held, Flat, Coalesces, RowsOf;
    CountNone(id);
    CountOne(s.consumer.next, id);
    if err.None? { CountFlat(s.ingested, s.pending, id); } else { CountAppend(s.dropped, s.consumer.next, id); }
  }

  lemma LeaveMovesCopies(cfg: Config, s: State, p: nat, id: nat)
    requires Enabled(cfg, s, Leave(p))
    ensures Copies(Step(cfg, s, Leave(p)), id) == Copies(s, id)
  {
    hide Count, Held, Flat, Coalesces, RowsOf;
    CountNone(id);
    HeldMoves(s.parsers, p, Left, id);
  }

  lemma FinishMovesCopies(cfg: Config, s: State, err: Option<string>, id: nat)
    requires Enabled(cfg, s, Finish(err))
    ensures Copies(Step(cfg, s, Finish(err)), id) == Copies(s, id)
  {
    hide Count, Held, Flat, Coalesces, RowsOf;
    CountNone(id);
    var s' := Step(cfg, s, Finish(err));
    assert Hand(s.consumer) == Hand(s'.consumer) == [];
    if err.None? && s.pending != [] {
      CountFlat(s.ingested, s.pending, id);
      assert Count(s'.pending, id) == 0;
    }
  }

  lemma FlagsMoveNothing(cfg: Config, s: State, e: Event, id: nat)
    requires Enabled(cfg, s, e) && (e.EndRead? || e.StopTaking? || e.Join?)
    ensures Copies(Step(cfg, s, e), id) == Copies(s, id)
  {
    hide Count, Held, Flat;
    assert Hand(s.consumer) == Hand(Step(cfg, s, e).consumer);
  }

  /** One step moves batch `id` from one place to another, or reads it. */
  lemma StepMovesCopies(cfg: Config, s: State, e: Event, id: nat)
    requires Enabled(cfg, s, e)
    ensures Copies(Step(cfg, s, e), id) == Copies(s, id) + if e.Push? && id == s.read then 1 else 0
  {
    match e
    case Push => ReaderMovesCopies(cfg, s, id);
    case Fetch(p) => FetchMovesCopies(cfg, s, p, id);
    case Leave(p) => LeaveMovesCopies(cfg, s, p, id);
    case Parse(p, err) => ParseMovesCopies(cfg, s, p, err, id);
    case Deliver(p) => DeliverMovesCopies(cfg, s, p, id);
    case Take => TakeMovesCopies(cfg, s, id);
    case Handed(err) => HandedMovesCopies(cfg, s, err, id);
    case Finish(err) => FinishMovesCopies(cfg, s, err, id);
    case _ => FlagsMoveNothing(cfg, s, e, id);
  }

  lemma StepKeepsOnePlace(cfg: Config, s: State, e: Event)
    requires Enabled(cfg, s, e) && OnePlace(s)
    ensures OnePlace(Step(cfg, s, e))
  {
    var s' := Step(cfg, s, e);
    assert s'.read == s.read + if e.Push? then 1 else 0;
    forall id: nat ensures Copies(s', id) == if id < s'.read then 1 else 0 {
      StepMovesCopies(cfg, s, e, id);
    }
  }

  // ---------------------------------------------------------------------------
  // Flags, bounds and groups
  // ---------------------------------------------------------------------------

  ghost predicate Bounded(cfg: Config, s: State) {
    |s.raw| <= cfg.capacity && |s.queue| <= cfg.capacity && s.read <= cfg.batches
  }

  ghost predicate Flags(cfg: Config, s: State) {
    && s.active == ActiveIn(s.parsers)
    && (s.readerLeft ==> s.readerDone)
    && (s.readerDone && !s.aborted ==> s.readerLeft)
    && (s.readerLeft && s.error.None? ==> s.read == cfg.batches)
    && (s.error.Some? && !s.aborted ==> s.readerLeft)
    && (s.aborted ==> s.error.Some? || s.consumer.Failed?)
    && (s.consumer.Failed? ==> s.aborted)
    && (s.dropped != [] ==> s.error.Some? || s.consumer.Failed?)
    && Leavers(s)
  }

  ghost predicate Leavers(s: State) {
    forall p :: 0 <= p < |s.parsers| && s.parsers[p].Left? ==> s.aborted || s.readerDone
  }

  ghost predicate RawDrained(s: State) {
    (exists p :: 0 <= p < |s.parsers| && s.parsers[p].Left?) && s.error.None? && !s.aborted ==> s.raw == []
  }

  /** A parser only leaves, and the consumer only finishes, behind an empty queue. */
  ghost predicate Drained(s: State) {
    && RawDrained(s)
    && ((s.consumer.Finishing? || s.consumer.Done?) && !s.aborted ==> s.queue == [] && s.active == 0 && s.readerDone)
    && (s.consumer.Done? ==> s.pending == [])
  }

  /** Merged groups share a shape and stay under the pool threshold. */
  ghost predicate GroupOk(cfg: Config, g: seq<nat>) {
    && g != []
    && (forall k :: 0 <= k < |g| ==> cfg.shape(g[k]) == cfg.shape(g[0]))
    && (|g| > 1 ==> RowsOf(cfg, g) < cfg.poolMinRows)
  }

  ghost predicate Groups(cfg: Config, s: State) {
    && (forall k :: 0 <= k < |s.ingested| ==> GroupOk(cfg, s.ingested[k]))
    && (s.pending != [] ==> GroupOk(cfg, s.pending))
    && (s.consumer.Handing? ==> s.pending != [])
  }

  ghost predicate Counted(s: State) {
    s.consumer.Failed? || s.popped == |Flat(s.ingested)| + |s.pending| + |Hand(s.consumer)|
  }

  ghost predicate Ended(cfg: Config, s: State) {
    s.result.Some? ==>
      && ConsumerOut(s) && s.readerLeft && AllLeft(s)
      && s.result.value == Verdict(s)
  }

  ghost predicate Inv(cfg: Config, s: State) {
    OnePlace(s) && Bounded(cfg, s) && Flags(cfg, s) && Drained(s) && Groups(cfg, s) && Counted(s) && Ended(cfg, s)
  }

  lemma StepKeepsActive(cfg: Config, s: State, e: Event)
    requires Enabled(cfg, s, e) && s.active == ActiveIn(s.parsers)
    ensures Step(cfg, s, e).active == ActiveIn(Step(cfg, s, e).parsers)
  {
    hide ActiveIn, Coalesces, RowsOf;
    match e
    case Fetch(p) => ParserMoves(s.parsers, p, Parsing(s.raw[0]));
    case Leave(p) => ParserMoves(s.parsers, p, Left);
    case Parse(p, err) => ParserMoves(s.parsers, p, if err.None? then Pushing(s.parsers[p].id) else Left);
    case Deliver(p) => ParserMoves(s.parsers, p, Idle);
    case _ =>
  }

  lemma StepKeepsFlags(cfg: Config, s: State, e: Event)
    requires Enabled(cfg, s, e) && Flags(cfg, s) && Bounded(cfg, s)
    ensures Flags(cfg, Step(cfg, s, e))
  {
    hide ActiveIn, Leavers, Coalesces, RowsOf;
    StepKeepsLeavers(cfg, s, e);
    StepKeepsActive(cfg, s, e);
  }

  lemma StepKeepsLeavers(cfg: Config, s: State, e: Event)
    requires Enabled(cfg, s, e) && Flags(cfg, s)
    ensures Leavers(Step(cfg, s, e))
  {
    hide ActiveIn, Coalesces, RowsOf;
    var s' := Step(cfg, s, e);
    forall p | 0 <= p < |s'.parsers| && s'.parsers[p].Left? ensures s'.aborted || s'.readerDone {
      if s.parsers[p].Left? {}
    }
  }

  lemma StepKeepsDrained(cfg: Config, s: State, e: Event)
    requires Enabled(cfg, s, e) && Flags(cfg, s) && Drained(s)
    ensures Drained(Step(cfg, s, e))
  {
    StepKeepsRawDrained(cfg, s, e);
    hide RawDrained, ActiveIn, Coalesces, RowsOf;
  }

  lemma StepKeepsRawDrained(cfg: Config, s: State, e: Event)
    requires Enabled(cfg, s, e) && Flags(cfg, s) && RawDrained(s)
    ensures RawDrained(Step(cfg, s, e))
  {
    hide ActiveIn, Coalesces, RowsOf;
    var s' := Step(cfg, s, e);
    if !e.Leave? && s'.error.None? {
      forall q | 0 <= q < |s'.parsers| && s'.parsers[q].Left? ensures s.parsers[q].Left? {
      }
    }
  }

  lemma StepKeepsGroups(cfg: Config, s: State, e: Event)
    requires Enabled(cfg, s, e) && Groups(cfg, s)
    ensures Groups(cfg, Step(cfg, s, e))
  {
    hide Coalesces, RowsOf, GroupOk;
    if e.Take? { TakeKeepsGroups(cfg, s); }
    if e.Handed? { SingleIsOk(cfg, s.consumer.next); }
  }

  lemma SingleIsOk(cfg: Config, id: nat)
    ensures GroupOk(cfg, [id])
  {
  }

  lemma TakeKeepsGroups(cfg: Config, s: State)
    requires Enabled(cfg, s, Take) && Groups(cfg, s)
    ensures Groups(cfg, TakeItem(cfg, s))
  {
    if s.pending != [] {
      assert (s.pending + [s.queue[0]])[..|s.pending|] == s.pending;
    }
  }

  lemma StepKeepsCounted(cfg: Config, s: State, e: Event)
    requires Enabled(cfg, s, e) && Counted(s)
    ensures Counted(Step(cfg, s, e))
  {
    hide Flat;
    FlatNone();
    if e.Handed? || e.Finish? {
      FlatGrows(s.ingested, s.pending);
    } else if e.Take? {
      TakeIsCounted(cfg, s);
    }
  }

  lemma FlatNone()
    ensures Flat([]) == []
  {
  }

  lemma FlatGrows(groups: seq<seq<nat>>, g: seq<nat>)
    ensures |Flat(groups + [g])| == |Flat(groups)| + |g|
  {
    assert (groups + [g])[..|groups|] == groups;
  }

  lemma TakeIsCounted(cfg: Config, s: State)
    requires Enabled(cfg, s, Take) && Counted(s)
    ensures Counted(Step(cfg, s, Take))
  {
  }

  lemma StepKeepsInv(cfg: Config, s: State, e: Event)
    requires Enabled(cfg, s, e) && Inv(cfg, s)
    ensures Inv(cfg, Step(cfg, s, e))
  {
    StepKeepsOnePlace(cfg, s, e);
    StepKeepsFlags(cfg, s, e);
    StepKeepsDrained(cfg, s, e);
    StepKeepsGroups(cfg, s, e);
    StepKeepsCounted(cfg, s, e);
    BoundsAndEnd(cfg, s, e);
  }

  lemma BoundsAndEnd(cfg: Config, s: State, e: Event)
    requires Enabled(cfg, s, e) && Bounded(cfg, s) && Flags(cfg, s) && Ended(cfg, s)
    ensures Bounded(cfg, Step(cfg, s, e)) && Ended(cfg, Step(cfg, s, e))
  {
    hide ActiveIn, Coalesces, RowsOf;
  }

  lemma StartInv(cfg: Config, parserCount: nat)
    ensures Inv(cfg, Start(parserCount))
  {
    var s := Start(parserCount);
    AllIdle(s.parsers);
    forall id: nat ensures Copies(s, id) == 0 {
      NoneHeld(s.parsers, id);
    }
  }

  lemma {:induction false} RunKeepsInv(cfg: Config, parserCount: nat, es: seq<Event>)
    requires Run(cfg, Start(parserCount), es).Some?
    ensures Inv(cfg, Run(cfg, Start(parserCount), es).value)
    decreases |es|
  {
    if es == [] {
      StartInv(cfg, parserCount);
    } else {
      RunKeepsInv(cfg, parserCount, es[..|es| - 1]);
      StepKeepsInv(cfg, Run(cfg, Start(parserCount), es[..|es| - 1]).value, es[|es| - 1]);
    }
  }

  lemma StepKeepsThreads(cfg: Config, s: State, e: Event)
    requires Enabled(cfg, s, e)
    ensures |Step(cfg, s, e).parsers| == |s.parsers|
  {
  }

  lemma {:induction false} RunKeepsThreads(cfg: Config, s: State, es: seq<Event>)
    requires Run(cfg, s, es).Some?
    ensures |Run(cfg, s, es).value.parsers| == |s.parsers|
    decreases |es|
  {
    if es != [] {
      RunKeepsThreads(cfg, s, es[..|es| - 1]);
      StepKeepsThreads(cfg, Run(cfg, s, es[..|es| - 1]).value, es[|es| - 1]);
    }
  }

  // ---------------------------------------------------------------------------
  // Main results
  // ---------------------------------------------------------------------------

  lemma {:induction false} CountPositive(xs: seq<nat>, k: nat)
    requires k < |xs|
    ensures Count(xs, xs[k]) > 0
    decreases |xs|
  {
    if k < |xs| - 1 { CountPositive(xs[..|xs| - 1], k); }
  }

  lemma NothingCounted(xs: seq<nat>)
    requires forall id: nat :: Count(xs, id) == 0
    ensures xs == []
  {
    if xs != [] { CountPositive(xs, 0); }
  }

  /** On a normal return everything that was read has been ingested. */
  lemma FlatCount(cfg: Config, s: State, id: nat)
    requires Inv(cfg, s) && s.result.Some? && s.result.value.Returned? && |s.parsers| > 0
    ensures Count(Flat(s.ingested), id) == if id < cfg.batches then 1 else 0
  {
    assert s.parsers[0].Left?;
    NoneHeld(s.parsers, id);
    assert Copies(s, id) == if id < s.read then 1 else 0;
  }

  // ---------------------------------------------------------------------------
  // Groups are as large as they may be
  // ---------------------------------------------------------------------------

  /** The next item does not go with the group: another shape, or too many rows together. */
  predicate Apart(cfg: Config, group: seq<nat>, id: nat)
    requires group != []
  {
    cfg.shape(group[0]) != cfg.shape(id) || RowsOf(cfg, group) + cfg.rows(id) >= cfg.poolMinRows
  }

  ghost predicate Largest(cfg: Config, groups: seq<seq<nat>>) {
    && (forall k :: 0 <= k < |groups| ==> groups[k] != [])
    && (forall k, m :: 0 <= k < m < |groups| && m == k + 1 ==>
          groups[k] != [] && groups[m] != [] && Apart(cfg, groups[k], groups[m][0]))
  }

  ghost predicate LargestSoFar(cfg: Config, s: State) {
    && Largest(cfg, s.ingested + if s.pending == [] then [] else [s.pending])
    && (s.consumer.Handing? ==> s.pending != [] && Apart(cfg, s.pending, s.consumer.next))
    && (s.consumer.Waiting? && s.pending == [] ==> s.ingested == [])
  }

  lemma PrefixLargest(cfg: Config, groups: seq<seq<nat>>, more: seq<seq<nat>>)
    requires Largest(cfg, groups + more)
    ensures Largest(cfg, groups)
  {
    forall k | 0 <= k < |groups| ensures groups[k] == (groups + more)[k] {
    }
  }

  lemma LargestGrows(cfg: Config, groups: seq<seq<nat>>, last: seq<nat>, next: seq<nat>)
    requires Largest(cfg, groups + [last]) && next != []
    requires last != [] ==> Apart(cfg, last, next[0])
    ensures Largest(cfg, (groups + [last]) + [next])
  {
    assert (groups + [last])[|groups|] == last;
  }

  lemma LastGrows(cfg: Config, groups: seq<seq<nat>>, last: seq<nat>, id: nat)
    requires Largest(cfg, groups + [last]) && last != []
    ensures Largest(cfg, groups + [last + [id]])
  {
    var before, after := groups + [last], groups + [last + [id]];
    forall k | 0 <= k < |after| ensures after[k] != [] { assert before[k] != []; }
    forall k, m | 0 <= k < m < |after| && m == k + 1
      ensures after[k] != [] && after[m] != [] && Apart(cfg, after[k], after[m][0])
    {
      assert before[k] == after[k] && before[m][0] == after[m][0];
    }
  }

  lemma TakeKeepsLargest(cfg: Config, s: State)
    requires Enabled(cfg, s, Take) && LargestSoFar(cfg, s)
    ensures LargestSoFar(cfg, Step(cfg, s, Take))
  {
    hide RowsOf;
    var id := s.queue[0];
    if s.pending == [] {
      assert s.ingested + [] == s.ingested;
      assert [] + [[id]] == [[id]];
    } else if Coalesces(cfg, s.pending, id) {
      LastGrows(cfg, s.ingested, s.pending, id);
    }
  }

  lemma HandedKeepsLargest(cfg: Config, s: State, err: Option<string>)
    requires Enabled(cfg, s, Handed(err)) && LargestSoFar(cfg, s)
    ensures LargestSoFar(cfg, Step(cfg, s, Handed(err)))
  {
    hide RowsOf, Apart;
    LargestGrows(cfg, s.ingested, s.pending, [s.consumer.next]);
  }

  lemma FinishKeepsLargest(cfg: Config, s: State, err: Option<string>)
    requires Enabled(cfg, s, Finish(err)) && LargestSoFar(cfg, s)
    ensures LargestSoFar(cfg, Step(cfg, s, Finish(err)))
  {
    hide RowsOf, Apart;
    assert (s.ingested + [s.pending]) + [] == s.ingested + [s.pending];
  }

  lemma StepKeepsLargest(cfg: Config, s: State, e: Event)
    requires Enabled(cfg, s, e) && LargestSoFar(cfg, s)
    ensures LargestSoFar(cfg, Step(cfg, s, e))
  {
    hide LargestSoFar, Step;
    match e
    case Take => TakeKeepsLargest(cfg, s);
    case Handed(err) => HandedKeepsLargest(cfg, s, err);
    case Finish(err) => FinishKeepsLargest(cfg, s, err);
    case _ => OtherKeepsLargest(cfg, s, e);
  }

  lemma OtherKeepsLargest(cfg: Config, s: State, e: Event)
    requires Enabled(cfg, s, e) && LargestSoFar(cfg, s) && !e.Take? && !e.Handed? && !e.Finish?
    ensures LargestSoFar(cfg, Step(cfg, s, e))
  {
    hide Largest, Apart, Coalesces;
  }

  lemma {:induction false} RunKeepsLargest(cfg: Config, parserCount: nat, es: seq<Event>)
    requires Run(cfg, Start(parserCount), es).Some?
    ensures LargestSoFar(cfg, Run(cfg, Start(parserCount), es).value)
    decreases |es|
  {
    if es != [] {
      var s, e := Run(cfg, Start(parserCount), es[..|es| - 1]).value, es[|es| - 1];
      RunKeepsLargest(cfg, parserCount, es[..|es| - 1]);
      StepKeepsLargest(cfg, s, e);
      hide LargestSoFar, Step, Enabled;
    }
  }

  /** A normal return: every raw batch of the file reached the ingestor exactly once, alone
      or in a group of batches of one shape, and the reported count is theirs. */
  lemma ExactlyOnce(cfg: Config, parserCount: nat, es: seq<Event>, n: nat)
    requires parserCount > 0 && Run(cfg, Start(parserCount), es).Some?
    requires Run(cfg, Start(parserCount), es).value.result == Some(Returned(n))
    ensures
      var s := Run(cfg, Start(parserCount), es).value;
      && (forall id: nat :: Count(Flat(s.ingested), id) == if id < cfg.batches then 1 else 0)
      && (forall k :: 0 <= k < |s.ingested| ==> GroupOk(cfg, s.ingested[k]))
      && Largest(cfg, s.ingested)
      && n == |Flat(s.ingested)| == cfg.batches
  {
    RunKeepsInv(cfg, parserCount, es);
    RunKeepsThreads(cfg, Start(parserCount), es);
    RunKeepsLargest(cfg, parserCount, es);
    var s := Run(cfg, Start(parserCount), es).value;
    PrefixLargest(cfg, s.ingested, if s.pending == [] then [] else [s.pending]);
    forall id: nat ensures Count(Flat(s.ingested), id) == if id < cfg.batches then 1 else 0 {
      FlatCount(cfg, s, id);
    }
    OnceEach(Flat(s.ingested), cfg.batches);
  }

  lemma {:induction false} CountSplits(xs: seq<nat>, x: nat) returns (front: seq<nat>, back: seq<nat>)
    requires Count(xs, x) > 0
    ensures xs == front + ([x] + back)
    decreases |xs|
  {
    var last := xs[|xs| - 1];
    if last == x {
      front, back := xs[..|xs| - 1], [];
    } else {
      front, back := CountSplits(xs[..|xs| - 1], x);
      back := back + [last];
    }
  }

  /** A sequence holding each number below `n` once has `n` elements. */
  lemma {:induction false} OnceEach(xs: seq<nat>, n: nat)
    requires forall id: nat :: Count(xs, id) == if id < n then 1 else 0
    ensures |xs| == n
    decreases n
  {
    if n == 0 {
      NothingCounted(xs);
    } else {
      var last: nat := n - 1;
      var front, back := CountSplits(xs, last);
      forall id: nat ensures Count(front + back, id) == if id < last then 1 else 0 {
        CountConcat(front, [last] + back, id);
        CountConcat([last], back, id);
        CountOne(last, id);
        CountConcat(front, back, id);
      }
      OnceEach(front + back, last);
    }
  }

  /** What a stage of the pipeline, or the consumer, throws in a step. */
  function PipelineError(e: Event): (err: Option<string>) {
    match e
    case EndRead(err) => err
    case Parse(_, err) => err
    case _ => None
  }

  function ConsumerError(e: Event): (err: Option<string>) {
    match e
    case Handed(err) => err
    case Finish(err) => err
    case _ => None
  }

  /** The first error of a run. */
  function FirstOf(es: seq<Event>, errorOf: Event -> Option<string>): (err: Option<string>) {
    if es == [] then None
    else
      var earlier := FirstOf(es[..|es| - 1], errorOf);
      if earlier.Some? then earlier else errorOf(es[|es| - 1])
  }

  function Why(s: State): (err: Option<string>) { if s.consumer.Failed? then Some(s.consumer.why) else None }

  lemma StepKeepsFirstError(cfg: Config, s: State, e: Event)
    requires Enabled(cfg, s, e)
    ensures Step(cfg, s, e).error == if s.error.Some? then s.error else PipelineError(e)
  {
  }

  lemma StepKeepsWhy(cfg: Config, s: State, e: Event)
    requires Enabled(cfg, s, e)
    ensures Why(Step(cfg, s, e)) == if Why(s).Some? then Why(s) else ConsumerError(e)
  {
  }

  lemma {:induction false} RunKeepsFirstErrors(cfg: Config, s: State, es: seq<Event>)
    requires s.error.None? && Why(s).None? && Run(cfg, s, es).Some?
    ensures Run(cfg, s, es).value.error == FirstOf(es, PipelineError)
    ensures Why(Run(cfg, s, es).value) == FirstOf(es, ConsumerError)
    decreases |es|
  {
    if es != [] {
      var init, e := es[..|es| - 1], es[|es| - 1];
      RunKeepsFirstErrors(cfg, s, init);
      StepKeepsFirstError(cfg, Run(cfg, s, init).value, e);
      StepKeepsWhy(cfg, Run(cfg, s, init).value, e);
      RunLast(cfg, s, es);
      hide Step, Enabled, Run;
    }
  }

  lemma RunLast(cfg: Config, s: State, es: seq<Event>)
    requires es != [] && Run(cfg, s, es).Some?
    ensures Run(cfg, s, es[..|es| - 1]).Some?
    ensures Enabled(cfg, Run(cfg, s, es[..|es| - 1]).value, es[|es| - 1])
    ensures Run(cfg, s, es).value == Step(cfg, Run(cfg, s, es[..|es| - 1]).value, es[|es| - 1])
  {
  }

  /** A call that has ended throws the consumer's error if it had one, else the first error
      of the reader and the parsers if there was one, and else returns normally. */
  lemma ErrorsSurface(cfg: Config, parserCount: nat, es: seq<Event>)
    requires Run(cfg, Start(parserCount), es).Some?
    requires Run(cfg, Start(parserCount), es).value.result.Some?
    ensures
      var o := Run(cfg, Start(parserCount), es).value.result.value;
      var consumer, pipeline := FirstOf(es, ConsumerError), FirstOf(es, PipelineError);
      if consumer.Some? then o == Threw(consumer.value)
      else if pipeline.Some? then o == Threw(pipeline.value)
      else o.Returned?
  {
    RunKeepsInv(cfg, parserCount, es);
    RunKeepsFirstErrors(cfg, Start(parserCount), es);
  }

  function ParserError(e: Event): (err: Option<string>) { if e.Parse? then e.err else None }

  ghost predicate Undisturbed(s: State) {
    && !s.aborted && s.dropped == [] && !s.consumer.Failed?
    && forall p :: 0 <= p < |s.parsers| && s.parsers[p].Left? ==> s.raw == []
  }

  lemma StepUndisturbed(cfg: Config, s: State, e: Event)
    requires Enabled(cfg, s, e) && Flags(cfg, s) && Undisturbed(s) && ParserError(e).None? && ConsumerError(e).None?
    ensures Undisturbed(Step(cfg, s, e))
  {
    hide RowsOf, Coalesces, ActiveIn;
  }

  lemma {:induction false} RunUndisturbed(cfg: Config, parserCount: nat, es: seq<Event>)
    requires Run(cfg, Start(parserCount), es).Some?
    requires FirstOf(es, ParserError).None? && FirstOf(es, ConsumerError).None?
    ensures Undisturbed(Run(cfg, Start(parserCount), es).value)
    decreases |es|
  {
    if es != [] {
      RunUndisturbed(cfg, parserCount, es[..|es| - 1]);
      RunKeepsInv(cfg, parserCount, es[..|es| - 1]);
      StepUndisturbed(cfg, Run(cfg, Start(parserCount), es[..|es| - 1]).value, es[|es| - 1]);
    }
  }

  /** An error of the reader alone loses nothing: what had been read before it is ingested,
      exactly once, before the error is thrown. */
  lemma ReadBatchesAreIngested(cfg: Config, parserCount: nat, es: seq<Event>, id: nat)
    requires parserCount > 0 && Run(cfg, Start(parserCount), es).Some?
    requires FirstOf(es, ParserError).None? && FirstOf(es, ConsumerError).None?
    requires Run(cfg, Start(parserCount), es).value.result.Some?
    ensures
      var s := Run(cfg, Start(parserCount), es).value;
      Count(Flat(s.ingested), id) == if id < s.read then 1 else 0
  {
    RunKeepsInv(cfg, parserCount, es);
    RunKeepsThreads(cfg, Start(parserCount), es);
    RunUndisturbed(cfg, parserCount, es);
    var s := Run(cfg, Start(parserCount), es).value;
    assert s.parsers[0].Left?;
    NoneHeld(s.parsers, id);
    assert Copies(s, id) == if id < s.read then 1 else 0;
  }

  lemma QueuesStayBounded(cfg: Config, parserCount: nat, es: seq<Event>)
    requires Run(cfg, Start(parserCount), es).Some?
    ensures
      var s := Run(cfg, Start(parserCount), es).value;
      |s.raw| <= cfg.capacity && |s.queue| <= cfg.capacity
  {
    RunKeepsInv(cfg, parserCount, es);
  }

  // ---------------------------------------------------------------------------
  // Progress
  // ---------------------------------------------------------------------------

  ghost predicate CanMove(cfg: Config, s: State) { exists e :: Enabled(cfg, s, e) }

  lemma ConsumerCanMove(cfg: Config, s: State)
    requires !ConsumerOut(s) && (s.queue != [] || s.aborted || (s.readerDone && s.active == 0))
    ensures CanMove(cfg, s)
  {
    match s.consumer
    case Waiting => assert if s.queue != [] && !s.aborted then Enabled(cfg, s, Take) else Enabled(cfg, s, StopTaking);
    case Handing(_) => assert Enabled(cfg, s, Handed(None));
    case Finishing => assert Enabled(cfg, s, Finish(None));
  }

  /** A parser waits only for a full queue, or for the reader. */
  lemma ParserCanMove(cfg: Config, s: State, p: nat)
    requires Inv(cfg, s) && cfg.capacity > 0 && p < |s.parsers| && !s.parsers[p].Left?
    requires s.raw != [] || s.readerDone || s.aborted
    ensures CanMove(cfg, s)
  {
    match s.parsers[p]
    case Idle => assert if s.raw != [] && !s.aborted then Enabled(cfg, s, Fetch(p)) else Enabled(cfg, s, Leave(p));
    case Parsing(_) => assert Enabled(cfg, s, Parse(p, None));
    case Pushing(_) =>
      if |s.queue| < cfg.capacity || s.aborted {
        assert Enabled(cfg, s, Deliver(p));
      } else {
        ConsumerCanMove(cfg, s);
      }
  }

  lemma SomebodyCanMove(cfg: Config, s: State)
    requires Inv(cfg, s) && cfg.capacity > 0 && |s.parsers| > 0 && s.result.None?
    ensures CanMove(cfg, s)
  {
    if !s.readerLeft {
      if s.read == cfg.batches {
        assert Enabled(cfg, s, EndRead(None));
      } else if |s.raw| < cfg.capacity || s.aborted {
        assert Enabled(cfg, s, Push);
      } else {
        ParserCanMove(cfg, s, 0);
      }
    } else if p :| 0 <= p < |s.parsers| && !s.parsers[p].Left? {
      ParserCanMove(cfg, s, p);
    } else if !ConsumerOut(s) {
      ConsumerCanMove(cfg, s);
    } else {
      assert Enabled(cfg, s, Join);
    }
  }

  /** Steps that can still happen: each batch moves through six places, each thread ends. */
  function Work(cfg: Config, s: State): (n: nat)
    requires s.read <= cfg.batches
  {
    6 * (cfg.batches - s.read) + 5 * |s.raw| + OwedBy(s.parsers) + 2 * |s.queue|
      + (match s.consumer case Waiting => 2 case Handing(_) => 3 case Finishing => 1 case _ => 0)
      + (if s.readerLeft then 0 else 1) + (if s.result.None? then 1 else 0)
  }

  /** What a step takes off the parsers' debts. */
  lemma StepOwes(cfg: Config, s: State, e: Event)
    requires Enabled(cfg, s, e)
    ensures
      var before, after := OwedBy(s.parsers), OwedBy(Step(cfg, s, e).parsers);
      match e
      case Fetch(_) => after == before + 4
      case Deliver(_) => after + 3 == before
      case Leave(_) => after + 1 == before
      case Parse(_, _) => after < before
      case _ => after == before
  {
    hide OwedBy, ActiveIn, Coalesces, RowsOf;
    match e
    case Fetch(p) => ParserMoves(s.parsers, p, Parsing(s.raw[0]));
    case Leave(p) => ParserMoves(s.parsers, p, Left);
    case Parse(p, err) => ParserMoves(s.parsers, p, if err.None? then Pushing(s.parsers[p].id) else Left);
    case Deliver(p) => ParserMoves(s.parsers, p, Idle);
    case _ =>
  }

  lemma ParserDoesWork(cfg: Config, s: State, e: Event)
    requires s.read <= cfg.batches && Enabled(cfg, s, e) && (e.Fetch? || e.Leave? || e.Parse? || e.Deliver?)
    ensures Step(cfg, s, e).read == s.read && Work(cfg, Step(cfg, s, e)) < Work(cfg, s)
  {
    hide OwedBy, ActiveIn, Coalesces, RowsOf;
    StepOwes(cfg, s, e);
  }

  lemma StepDoesWork(cfg: Config, s: State, e: Event)
    requires s.read <= cfg.batches && Enabled(cfg, s, e)
    ensures Step(cfg, s, e).read <= cfg.batches && Work(cfg, Step(cfg, s, e)) < Work(cfg, s)
  {
    hide OwedBy, ActiveIn, Coalesces, RowsOf;
    if e.Fetch? || e.Leave? || e.Parse? || e.Deliver? { ParserDoesWork(cfg, s, e); }
  }

  lemma {:induction false} RunIsBounded(cfg: Config, parserCount: nat, es: seq<Event>)
    requires Run(cfg, Start(parserCount), es).Some?
    ensures Run(cfg, Start(parserCount), es).value.read <= cfg.batches
    ensures |es| + Work(cfg, Run(cfg, Start(parserCount), es).value) <= 6 * cfg.batches + parserCount + 4
    decreases |es|
  {
    if es == [] {
      AllIdle(Start(parserCount).parsers);
    } else {
      RunIsBounded(cfg, parserCount, es[..|es| - 1]);
      RunKeepsInv(cfg, parserCount, es[..|es| - 1]);
      StepDoesWork(cfg, Run(cfg, Start(parserCount), es[..|es| - 1]).value, es[|es| - 1]);
    }
  }

  /** In terms of the wait predicates (wake-ups are taken to reach whoever can go on): a run
      that has not ended can go on, and no run is longer than the file and the thread count
      allow. */
  lemma EveryRunEnds(cfg: Config, parserCount: nat, es: seq<Event>)
    requires cfg.capacity > 0 && parserCount > 0 && Run(cfg, Start(parserCount), es).Some?
    ensures |es| <= 6 * cfg.batches + parserCount + 4
    ensures
      var s := Run(cfg, Start(parserCount), es).value;
      s.result.Some? || CanMove(cfg, s)
  {
    RunIsBounded(cfg, parserCount, es);
    RunKeepsInv(cfg, parserCount, es);
    RunKeepsThreads(cfg, Start(parserCount), es);
    var s := Run(cfg, Start(parserCount), es).value;
    if s.result.None? { SomebodyCanMove(cfg, s); }
  }
}
