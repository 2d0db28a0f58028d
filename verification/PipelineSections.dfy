/** The pipeline object: its queues and flags, changed in place under one lock. Each method
    is one critical section, entered once its wait predicate holds. */
module PipelineSections {
  import opened Json
  import opened Pipeline

  datatype Shared = Shared(raw: seq<nat>, queue: seq<nat>, active: nat, readerDone: bool, aborted: bool, error: Option<string>)

  function SharedOf(s: State): (q: Shared) {
    Shared(s.raw, s.queue, s.active, s.readerDone, s.aborted, s.error)
  }

  predicate CanPushRaw(q: Shared, capacity: nat) { |q.raw| < capacity || q.aborted }

  predicate CanPopRaw(q: Shared) { q.raw != [] || q.readerDone || q.aborted }

  predicate CanPush(q: Shared, capacity: nat) { |q.queue| < capacity || q.aborted }

  predicate CanPop(q: Shared) { q.queue != [] || q.aborted || (q.readerDone && q.active == 0) }

  function PushedRaw(q: Shared, batch: nat): (r: Shared) { if q.aborted then q else q.(raw := q.raw + [batch]) }

  function PoppedRaw(q: Shared): (r: Shared) { if q.raw == [] || q.aborted then q else q.(raw := q.raw[1..]) }

  function Pushed(q: Shared, item: nat): (r: Shared) { if q.aborted then q else q.(queue := q.queue + [item]) }

  function Popped(q: Shared): (r: Shared) { if q.queue == [] || q.aborted then q else q.(queue := q.queue[1..]) }

  function ReaderGone(q: Shared, err: Option<string>): (r: Shared) {
    q.(readerDone := true, error := if q.error.Some? then q.error else err)
  }

  /** Only the first error is kept, and only it aborts. */
  function ParserGone(q: Shared, err: Option<string>): (r: Shared) {
    q.(active := if q.active > 0 then q.active - 1 else 0,
       error := if q.error.Some? then q.error else err,
       aborted := q.aborted || (err.Some? && q.error.None?))
  }

  function Aborted(q: Shared): (r: Shared) { q.(aborted := true, readerDone := true) }

  class RawIngestPipeline {
    const capacity: nat
    var rawQueue: seq<nat>
    var queue: seq<nat>
    var activeParsers: nat
    var readerDone: bool
    var aborted: bool
    var error: Option<string>

    function Value(): (q: Shared)
      reads this
    {
      Shared(rawQueue, queue, activeParsers, readerDone, aborted, error)
    }

    constructor (capacity: nat, parserCount: nat)
      ensures this.capacity == capacity && Value() == SharedOf(Start(parserCount))
    {
      this.capacity := capacity;
      rawQueue, queue, activeParsers, readerDone, aborted, error := [], [], parserCount, false, false, None;
    }

    method PushRaw(batch: nat)
      requires CanPushRaw(Value(), capacity)
      modifies this
      ensures Value() == PushedRaw(old(Value()), batch)
      ensures |old(rawQueue)| <= capacity ==> |rawQueue| <= capacity
    {
      if aborted { return; }
      rawQueue := rawQueue + [batch];
    }

    method PopRaw() returns (batch: Option<nat>)
      requires CanPopRaw(Value())
      modifies this
      ensures Value() == PoppedRaw(old(Value()))
      ensures batch.None? <==> old(aborted) || old(rawQueue) == []
      ensures batch.Some? ==> old(rawQueue) == [batch.value] + rawQueue
    {
      if rawQueue == [] || aborted { return None; }
      batch := Some(rawQueue[0]);
      rawQueue := rawQueue[1..];
    }

    method Push(item: nat)
      requires CanPush(Value(), capacity)
      modifies this
      ensures Value() == Pushed(old(Value()), item)
      ensures |old(queue)| <= capacity ==> |queue| <= capacity
    {
      if aborted { return; }
      queue := queue + [item];
    }

    method Pop() returns (item: Option<nat>)
      requires CanPop(Value())
      modifies this
      ensures Value() == Popped(old(Value()))
      ensures item.None? <==> old(aborted) || old(queue) == []
      ensures item.Some? ==> old(queue) == [item.value] + queue
    {
      if aborted || queue == [] { return None; }
      item := Some(queue[0]);
      queue := queue[1..];
    }

    method ReaderDone(err: Option<string>)
      modifies this
      ensures Value() == ReaderGone(old(Value()), err)
    {
      if err.Some? && error.None? { error := err; }
      readerDone := true;
    }

    method ParserDone(err: Option<string>)
      requires activeParsers > 0
      modifies this
      ensures Value() == ParserGone(old(Value()), err)
    {
      if err.Some? && error.None? { error, aborted := err, true; }
      activeParsers := activeParsers - 1;
    }

    method Abort()
      modifies this
      ensures Value() == Aborted(old(Value()))
    {
      aborted, readerDone := true, true;
    }
  }

  /** What a step of the protocol does to the shared state. */
  function Section(s: State, e: Event): (q: Shared)
    requires e.Deliver? ==> e.p < |s.parsers| && s.parsers[e.p].Pushing?
  {
    var q := SharedOf(s);
    match e
    case Push => PushedRaw(q, s.read)
    case EndRead(err) => ReaderGone(q, err)
    case Fetch(_) => PoppedRaw(q)
    case Leave(_) => ParserGone(PoppedRaw(q), None)
    case Parse(_, err) => if err.None? then q else ParserGone(q, err)
    case Deliver(p) => Pushed(q, s.parsers[p].id)
    case Take => Popped(q)
    case StopTaking => Popped(q)
    case Handed(err) => if err.None? then q else Aborted(q)
    case Finish(err) => if err.None? then q else Aborted(q)
    case Join => q
  }

  /** The protocol's steps are exactly these critical sections: an enabled step meets the
      wait predicate of its section, and leaves the shared state the section leaves. */
  lemma StepIsItsSection(cfg: Config, s: State, e: Event)
    requires Enabled(cfg, s, e)
    ensures SharedOf(Step(cfg, s, e)) == Section(s, e)
    ensures e.Push? ==> CanPushRaw(SharedOf(s), cfg.capacity)
    ensures e.Fetch? || e.Leave? ==> CanPopRaw(SharedOf(s))
    ensures e.Deliver? ==> CanPush(SharedOf(s), cfg.capacity)
    ensures e.Take? || e.StopTaking? ==> CanPop(SharedOf(s))
  {
  }

  /** And conversely no wait is left out: a thread whose wait predicate holds has a step. */
  lemma WaitsAreComplete(cfg: Config, s: State, p: nat)
    ensures !s.readerLeft && s.read < cfg.batches && CanPushRaw(SharedOf(s), cfg.capacity) ==> Enabled(cfg, s, Push)
    ensures p < |s.parsers| && s.parsers[p].Idle? && CanPopRaw(SharedOf(s)) ==>
      Enabled(cfg, s, Fetch(p)) || Enabled(cfg, s, Leave(p))
    ensures p < |s.parsers| && s.parsers[p].Pushing? && CanPush(SharedOf(s), cfg.capacity) ==> Enabled(cfg, s, Deliver(p))
    ensures s.consumer.Waiting? && CanPop(SharedOf(s)) ==> Enabled(cfg, s, Take) || Enabled(cfg, s, StopTaking)
  {
    assert p < |s.parsers| && s.parsers[p].Idle? && s.raw != [] && !s.aborted ==> Enabled(cfg, s, Fetch(p));
    assert s.consumer.Waiting? && s.queue != [] && !s.aborted ==> Enabled(cfg, s, Take);
  }
}
