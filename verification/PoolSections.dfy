/** The append pool object: the published layout, the queue and the stop flags, changed in
    place under one lock. Each method is one critical section. */
module PoolSections {
  import opened Json
  import opened ColumnTypes
  import opened AppendPool
  import opened PoolProtocol

  datatype Shared = Shared(layout: Layout, queue: seq<Batch>, stopped: bool, error: bool)

  function SharedOf(p: Pool): (s: Shared) { Shared(p.layout, p.queue, p.stopped, p.error) }

  function Submitted(s: Shared, b: Batch): (r: Shared) { if s.stopped then s else s.(queue := s.queue + [b]) }

  function Published(s: Shared, cols: seq<Col>): (r: Shared) { s.(layout := AddCols(s.layout, cols)) }

  function Dequeued(s: Shared): (r: Shared) { if s.queue == [] then s else s.(queue := s.queue[1..]) }

  function Failed(s: Shared): (r: Shared) { s.(stopped := true, error := true) }

  /** No two names share a slot, and every slot exists. */
  ghost predicate SlotsOk(l: Layout) {
    && (forall k :: k in l.slots ==> l.slots[k] < |l.types|)
    && (forall k, m :: k in l.slots && m in l.slots && l.slots[k] == l.slots[m] ==> k == m)
  }

  lemma PublishedSlotsOk(table: seq<Col>)
    requires DistinctKeys(table)
    ensures SlotsOk(LayoutOf(table))
  {
    LayoutLookup(table);
    forall k, m | Has(table, k) && Has(table, m) && IndexOf(table, k) == IndexOf(table, m) ensures k == m {
    }
  }

  class RawAppendPool {
    const maxQueueDepth: nat
    var types: seq<LType>
    var slots: map<string, nat>
    var queue: seq<Batch>
    var stopped: bool
    var error: bool

    function Value(): (s: Shared)
      reads this
    {
      Shared(Layout(types, slots), queue, stopped, error)
    }

    constructor (table: seq<Col>, maxQueueDepth: nat)
      ensures this.maxQueueDepth == maxQueueDepth && Value() == Shared(LayoutOf(table), [], false, false)
    {
      this.maxQueueDepth := maxQueueDepth;
      var l := LayoutOf(table);
      types, slots, queue, stopped, error := l.types, l.slots, [], false, false;
    }

    method Submit(b: Batch)
      requires |queue| < maxQueueDepth || stopped
      modifies this
      ensures Value() == Submitted(old(Value()), b)
      ensures |old(queue)| <= maxQueueDepth ==> |queue| <= maxQueueDepth
    {
      if stopped { return; }
      queue := queue + [b];
    }

    method PublishColumns(cols: seq<Col>)
      modifies this
      ensures Value() == Published(old(Value()), cols)
    {
      ghost var was := Layout(types, slots);
      for i := 0 to |cols|
        invariant Layout(types, slots) == AddCols(was, cols[..i])
        invariant queue == old(queue) && stopped == old(stopped) && error == old(error)
      {
        assert cols[..i + 1][..i] == cols[..i];
        slots := slots[cols[i].key := |types|];
        types := types + [cols[i].ty];
      }
      assert cols[..|cols|] == cols;
    }

    /** A worker of width `width` takes a batch with a snapshot of the columns it has not
        added yet: types in order first, then each name dropped into its place. */
    method TakeBatch(width: nat) returns (batch: Option<Batch>, missing: seq<Col>)
      requires queue != [] || stopped
      requires SlotsOk(Layout(types, slots))
      modifies this
      ensures Value() == Dequeued(old(Value()))
      ensures batch.None? <==> old(queue) == []
      ensures batch.Some? ==> old(queue) == [batch.value] + queue && missing == Missing(Layout(types, slots), width)
    {
      if queue == [] { return None, []; }
      batch := Some(queue[0]);
      queue := queue[1..];
      missing := Snapshot(width);
    }

    method Snapshot(width: nat) returns (missing: seq<Col>)
      requires SlotsOk(Layout(types, slots))
      ensures missing == Missing(Layout(types, slots), width)
    {
      hide Named, SlotsOk;
      missing := UnnamedColumns(width);
      ghost var l, done := Layout(types, slots), {};
      var todo := slots.Keys;
      while todo != {}
        invariant todo <= slots.Keys == done + todo && Named(l, width, missing, done)
        decreases |todo|
      {
        var name :| name in todo;
        NameDropped(l, width, missing, done, name);
        if slots[name] >= width {
          missing := missing[slots[name] - width := missing[slots[name] - width].(key := name)];
        }
        todo, done := todo - {name}, done + {name};
      }
      NamedIsMissing(l, width, missing);
    }

    method UnnamedColumns(width: nat) returns (missing: seq<Col>)
      ensures Named(Layout(types, slots), width, missing, {})
    {
      missing := [];
      var i := width;
      while i < |types|
        invariant i == width + |missing| && (i <= |types| || missing == [])
        invariant forall j :: 0 <= j < |missing| ==> missing[j] == Col("", types[width + j])
      {
        missing := missing + [Col("", types[i])];
        i := i + 1;
      }
    }

    method Stop()
      modifies this
      ensures Value() == old(Value()).(stopped := true)
    {
      stopped := true;
    }

    method WorkerFailed()
      modifies this
      ensures Value() == Failed(old(Value()))
    {
      error, stopped := true, true;
    }
  }

  /** The snapshot after the names in `done` have been dropped into place. */
  ghost predicate Named(l: Layout, width: nat, missing: seq<Col>, done: set<string>) {
    && |missing| == (if width <= |l.types| then |l.types| - width else 0)
    && (forall j :: 0 <= j < |missing| ==> missing[j].ty == l.types[width + j])
    && (forall k :: k in done && k in l.slots && width <= l.slots[k] < |l.types| ==> missing[l.slots[k] - width].key == k)
    && (forall j :: 0 <= j < |missing| ==>
          missing[j].key == "" || (missing[j].key in l.slots && l.slots[missing[j].key] == width + j))
  }

  lemma NameDropped(l: Layout, width: nat, missing: seq<Col>, done: set<string>, name: string)
    requires SlotsOk(l) && Named(l, width, missing, done) && name in l.slots
    ensures l.slots[name] >= width ==> l.slots[name] - width < |missing|
    ensures
      var at := l.slots[name] - width;
      Named(l, width, if at >= 0 then missing[at := missing[at].(key := name)] else missing, done + {name})
  {
  }

  lemma NamedKey(l: Layout, width: nat, missing: seq<Col>, j: nat)
    requires SlotsOk(l) && Named(l, width, missing, l.slots.Keys) && j < |missing|
    ensures missing[j].key == NameOf(l.slots, width + j)
  {
    if k :| k in l.slots && l.slots[k] == width + j {
      assert missing[l.slots[k] - width].key == k;
    }
  }

  lemma NamedIsMissing(l: Layout, width: nat, missing: seq<Col>)
    requires SlotsOk(l) && Named(l, width, missing, l.slots.Keys)
    ensures missing == Missing(l, width)
  {
    forall j: nat | j < |missing| ensures missing[j] == Col(NameOf(l.slots, width + j), l.types[width + j]) {
      NamedKey(l, width, missing, j);
    }
  }

  /** What a step of the protocol does to the shared state. */
  function Section(p: Pool, e: Event): (s: Shared)
    requires e.Submit? ==> p.consumer.Evolved?
  {
    var s := SharedOf(p);
    match e
    case Ingest(b) => Published(s, Adds(p.table, b.cols))
    case Submit => Submitted(s, p.consumer.batch)
    case Pop(_) => Dequeued(s)
    case Fail(_) => Failed(s)
    case Stop => s.(stopped := true)
    case _ => s
  }

  /** The protocol's steps are these sections; a worker that pops gets the batch at the
      head of the queue and the snapshot the section takes. */
  lemma StepIsItsSection(env: Env, p: Pool, e: Event)
    requires Padded(env, p) && Enabled(p, e)
    ensures SharedOf(Step(env, p, e)) == Section(p, e)
    ensures e.Pop? ==>
      Step(env, p, e).workers[e.w].pc == Holding(p.queue[0], Missing(p.layout, |p.workers[e.w].layout.types|))
    ensures SlotsOk(p.layout)
  {
    PublishedSlotsOk(p.table);
    if e.Append? { AppendKeepsWorker(env, p.table, p.workers[e.w]); }
  }
}
