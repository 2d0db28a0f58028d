/** The append pool as a protocol: one consumer evolves the schema, publishes columns,
    submits batches and drains; workers pop, pad themselves and append. Each step is one
    lock-protected section or one worker-local stretch. */
module PoolProtocol {
  import opened Json
  import opened ColumnTypes
  import opened Filling
  import opened AppendPool

  datatype WorkerPc =
    | Ready
    | Holding(batch: Batch, pending: seq<Col>)  // popped, with the snapshot of unseen columns
    | Extended(batch: Batch)                    // padded to that snapshot
    | Exited(failed: bool)

  /** `log` is history: the batches this worker has appended. */
  datatype Worker = Worker(layout: Layout, cache: Option<BatchLayout>, rows: seq<Row>, pc: WorkerPc, log: seq<Batch>)

  datatype ConsumerPc = Idle | Evolved(batch: Batch) | Draining | Finished

  datatype DrainResult = Returned(total: nat, merged: seq<Row>) | Threw

  /** `submitted` and `refused` are history: batches queued, and batches turned away by a
      stopped pool. */
  datatype Pool = Pool(
    table: seq<Col>,
    layout: Layout,
    workers: seq<Worker>,
    queue: seq<Batch>,
    maxDepth: nat,
    stopped: bool,
    error: bool,
    consumer: ConsumerPc,
    result: Option<DrainResult>,
    submitted: seq<Batch>,
    refused: seq<Batch>)

  function Create(table: seq<Col>, workerCount: nat, maxDepth: nat): (p: Pool) {
    var l := LayoutOf(table);
    Pool(table, l, seq(workerCount, _ => Worker(l, None, [], Ready, [])), [], maxDepth, false, false, Idle, None, [], [])
  }

  datatype Event =
    | Ingest(batch: Batch)  // evolve the table by the batch's new columns and publish them
    | Submit
    | Pop(w: nat) | Extend(w: nat) | Append(w: nat) | Fail(w: nat) | Exit(w: nat)
    | Stop
    | Merge

  /** `ComputeDelta`: the batch columns the table does not have. */
  function Adds(table: seq<Col>, cols: seq<Col>): (r: seq<Col>) {
    if cols == [] then []
    else Adds(table, cols[..|cols| - 1]) + if Has(table, cols[|cols| - 1].key) then [] else [cols[|cols| - 1]]
  }

  /** The layout the worker uses: the cached one when the shape matches. */
  function Chosen(wk: Worker, b: Batch): (r: Option<BatchLayout>) {
    if wk.cache.Some? && wk.cache.value.signature == SignatureOf(b.cols) && |wk.cache.value.slotOf| == |b.cols|
    then wk.cache
    else Resolve(b, wk.layout)
  }

  ghost predicate Enabled(p: Pool, e: Event) {
    match e
    case Ingest(b) => p.consumer.Idle? && ValidBatch(b)
    case Submit => p.consumer.Evolved? && (|p.queue| < p.maxDepth || p.stopped)
    case Pop(w) => w < |p.workers| && p.workers[w].pc.Ready? && p.queue != []
    case Extend(w) => w < |p.workers| && p.workers[w].pc.Holding?
    case Append(w) => w < |p.workers| && p.workers[w].pc.Extended?
    case Fail(w) => w < |p.workers| && (p.workers[w].pc.Holding? || p.workers[w].pc.Extended?)
    case Exit(w) => w < |p.workers| && p.workers[w].pc.Ready? && p.queue == [] && p.stopped
    case Stop => p.consumer.Idle?
    case Merge => p.consumer.Draining? && forall w :: 0 <= w < |p.workers| ==> p.workers[w].pc.Exited?
  }

  function Invalidate(ws: seq<Worker>): (r: seq<Worker>)
    ensures |r| == |ws|
  {
    seq(|ws|, i requires 0 <= i < |ws| => ws[i].(cache := None))
  }

  /** `AddColumn` on the collection: every row gets one NULL more. */
  function PadRows(rows: seq<Row>, n: nat): (r: seq<Row>)
    ensures |r| == |rows|
  {
    seq(|rows|, i requires 0 <= i < |rows| => rows[i] + seq(n, _ => NullCell))
  }

  function ExtendWorker(wk: Worker, cols: seq<Col>): (r: Worker) {
    if cols == [] then wk
    else wk.(layout := AddCols(wk.layout, cols), rows := PadRows(wk.rows, |cols|), cache := None)
  }

  /** Rows as the slot-wise writer produces them under a batch layout. */
  function WrittenCell(env: Env, b: Batch, r: nat, l: Layout, bl: BatchLayout, s: nat): (c: Cell)
    requires r < |b.rows| && s < |l.types|
  {
    if s < |bl.covered| && bl.covered[s] then
      match SlotColumn(bl.slotOf, s)
      case Some(c) => if c < |b.cols| && c < |b.rows[r]| then CellFor(env, b.rows[r][c], b.cols[c].ty, l.types[s]) else NullCell
      case None => NullCell
    else NullCell
  }

  function SlotColumn(slotOf: seq<nat>, s: nat): (r: Option<nat>)
    ensures r.Some? ==> r.value < |slotOf| && slotOf[r.value] == s
    ensures r.None? ==> s !in slotOf
  {
    if slotOf == [] then None
    else if slotOf[|slotOf| - 1] == s then Some(|slotOf| - 1)
    else SlotColumn(slotOf[..|slotOf| - 1], s)
  }

  function Written(env: Env, b: Batch, l: Layout, bl: BatchLayout): (rows: seq<Row>) {
    seq(|b.rows|, r requires 0 <= r < |b.rows| =>
      seq(|l.types|, s requires 0 <= s < |l.types| => WrittenCell(env, b, r, l, bl, s)))
  }

  ghost function Merged(p: Pool, n: nat): (rows: seq<Row>)
    requires n <= |p.workers|
  {
    if n == 0 then []
    else
      var wk := p.workers[n - 1];
      Merged(p, n - 1) + ExtendWorker(wk, Missing(p.layout, |wk.layout.types|)).rows
  }

  ghost function Step(env: Env, p: Pool, e: Event): (p': Pool)
    requires Enabled(p, e)
  {
    match e
    case Ingest(b) =>
      var adds := Adds(p.table, b.cols);
      p.(table := p.table + adds, layout := AddCols(p.layout, adds), consumer := Evolved(b),
         workers := if adds == [] then p.workers else Invalidate(p.workers))
    case Submit =>
      var b := p.consumer.batch;
      if p.stopped then p.(consumer := Idle, refused := p.refused + [b])
      else p.(consumer := Idle, queue := p.queue + [b], submitted := p.submitted + [b])
    case Pop(w) =>
      var wk := p.workers[w];
      p.(queue := p.queue[1..],
         workers := p.workers[w := wk.(pc := Holding(p.queue[0], Missing(p.layout, |wk.layout.types|)))])
    case Extend(w) =>
      var wk := p.workers[w];
      p.(workers := p.workers[w := ExtendWorker(wk, wk.pc.pending).(pc := Extended(wk.pc.batch))])
    case Append(w) =>
      var wk := p.workers[w];
      var b := wk.pc.batch;
      (match Chosen(wk, b)
       case None => p.(workers := p.workers[w := wk.(pc := Exited(true))], error := true, stopped := true)
       case Some(bl) =>
         p.(workers := p.workers[w := wk.(cache := Some(bl), rows := wk.rows + Written(env, b, wk.layout, bl),
                                          pc := Ready, log := wk.log + [b])]))
    case Fail(w) =>
      p.(workers := p.workers[w := p.workers[w].(pc := Exited(true))], error := true, stopped := true)
    case Exit(w) => p.(workers := p.workers[w := p.workers[w].(pc := Exited(false))])
    case Stop => p.(stopped := true, consumer := Draining)
    case Merge =>
      var merged := Merged(p, |p.workers|);
      p.(consumer := Finished, result := Some(if p.error then Threw else Returned(|merged|, merged)))
  }

  ghost function Run(env: Env, p: Pool, es: seq<Event>): (r: Option<Pool>)
    decreases |es|
  {
    if es == [] then Some(p)
    else
      var before := Run(env, p, es[..|es| - 1]);
      if before.Some? && Enabled(before.value, es[|es| - 1]) then Some(Step(env, before.value, es[|es| - 1])) else None
  }

  // ---------------------------------------------------------------------------
  // The lazy-padding invariant
  // ---------------------------------------------------------------------------

  /** What the batch layout cache may hold: what recomputing it would give. */
  ghost predicate CacheFresh(wk: Worker) {
    wk.cache.Some? ==>
      forall b: Batch :: SignatureOf(b.cols) == wk.cache.value.signature ==> Resolve(b, wk.layout) == wk.cache
  }

  /** A worker of width `n` works under the first `n` columns of the table, holds rows of
      exactly that width, and what it has popped is covered by what it is about to add. */
  ghost predicate WorkerOk(env: Env, table: seq<Col>, wk: Worker) {
    var n := |wk.layout.types|;
    && n <= |table|
    && wk.layout == LayoutOf(table[..n])
    && CacheFresh(wk)
    && AllValid(wk.log)
    && (forall i :: 0 <= i < |wk.log| ==> AppendPool.Covers(table[..n], wk.log[i]))
    && wk.rows == Appended(env, wk.log, table[..n])
    && match wk.pc
       case Holding(b, pend) =>
         n + |pend| <= |table| && pend == table[n..n + |pend|]
         && ValidBatch(b) && AppendPool.Covers(table[..n + |pend|], b)
       case Extended(b) => ValidBatch(b) && AppendPool.Covers(table[..n], b)
       case _ => true
  }

  ghost predicate Padded(env: Env, p: Pool) {
    && DistinctKeys(p.table)
    && p.layout == LayoutOf(p.table)
    && AllValid(p.queue) && (forall i :: 0 <= i < |p.queue| ==> AppendPool.Covers(p.table, p.queue[i]))
    && (p.consumer.Evolved? ==> ValidBatch(p.consumer.batch) && AppendPool.Covers(p.table, p.consumer.batch))
    && forall w :: 0 <= w < |p.workers| ==> WorkerOk(env, p.table, p.workers[w])
  }

  lemma CoversMore(table: seq<Col>, more: seq<Col>, b: Batch)
    requires AppendPool.Covers(table, b) && table <= more
    ensures AppendPool.Covers(more, b)
  {
    forall c | 0 <= c < |b.cols| ensures Has(more, b.cols[c].key) {
      var i := IndexOf(table, b.cols[c].key).value;
      assert more[i] == table[i];
    }
  }

  lemma {:induction false} AddsExtend(table: seq<Col>, cols: seq<Col>)
    requires DistinctKeys(table) && DistinctKeys(cols)
    ensures DistinctKeys(table + Adds(table, cols))
    ensures forall c :: 0 <= c < |cols| ==> Has(table + Adds(table, cols), cols[c].key)
    ensures forall a :: a in Adds(table, cols) ==> a in cols && !Has(table, a.key)
    decreases |cols|
  {
    if cols != [] {
      var init, last := cols[..|cols| - 1], cols[|cols| - 1];
      assert cols == init + [last];
      AddsExtend(table, init);
      var before, after := table + Adds(table, init), table + Adds(table, cols);
      if !Has(table, last.key) {
        assert after == before + [last];
        LastIsNew(table, Adds(table, init), init, last);
      } else {
        assert after == before;
      }
      forall c | 0 <= c < |cols| ensures Has(after, cols[c].key) {
        if c < |init| { HasMore(before, after, cols[c].key); }
        else if Has(table, last.key) { HasMore(table, after, last.key); }
        else { assert after[|before|] == last; }
      }
    }
  }

  lemma LastIsNew(table: seq<Col>, adds: seq<Col>, init: seq<Col>, last: Col)
    requires DistinctKeys(init + [last]) && !Has(table, last.key) && DistinctKeys(table + adds)
    requires forall a :: a in adds ==> a in init
    ensures DistinctKeys(table + adds + [last])
  {
    var before := table + adds;
    forall i | 0 <= i < |before| ensures before[i].key != last.key {
      if i >= |table| {
        assert before[i] in init;
        var k :| 0 <= k < |init| && init[k] == before[i];
        assert (init + [last])[k] == init[k] && (init + [last])[|init|] == last;
      }
    }
  }

  lemma HasMore(table: seq<Col>, more: seq<Col>, key: string)
    requires Has(table, key) && table <= more
    ensures Has(more, key)
  {
    var i := IndexOf(table, key).value;
    assert more[i] == table[i];
  }

  lemma WorkerUnderGrownTable(env: Env, table: seq<Col>, adds: seq<Col>, wk: Worker)
    requires WorkerOk(env, table, wk)
    ensures WorkerOk(env, table + adds, wk) && WorkerOk(env, table + adds, wk.(cache := None))
  {
    var n := |wk.layout.types|;
    assert (table + adds)[..n] == table[..n];
    if wk.pc.Holding? {
      var m := n + |wk.pc.pending|;
      assert (table + adds)[..m] == table[..m] && (table + adds)[n..m] == table[n..m];
    }
  }

  /** Padding a worker gives the rows sequential appending leaves on the wider table. */
  lemma {:induction false} PaddedRows(env: Env, bs: seq<Batch>, table: seq<Col>, cols: seq<Col>)
    requires AllValid(bs) && DistinctKeys(table + cols)
    requires forall i :: 0 <= i < |bs| ==> AppendPool.Covers(table, bs[i])
    ensures Appended(env, bs, table + cols) == PadRows(Appended(env, bs, table), |cols|)
    decreases |bs|
  {
    if bs != [] {
      var init, b := bs[..|bs| - 1], bs[|bs| - 1];
      PaddedRows(env, init, table, cols);
      forall r | 0 <= r < |b.rows|
        ensures TableRow(env, b, r, table + cols) == TableRow(env, b, r, table) + seq(|cols|, _ => NullCell)
      {
        LaterColumnsAreNull(env, b, r, table, cols);
      }
      assert BatchRows(env, b, table + cols) == PadRows(BatchRows(env, b, table), |cols|);
      var x, y := Appended(env, init, table), BatchRows(env, b, table);
      assert PadRows(x + y, |cols|) == PadRows(x, |cols|) + PadRows(y, |cols|);
    }
  }

  lemma ExtendKeepsWorker(env: Env, table: seq<Col>, wk: Worker, cols: seq<Col>)
    requires DistinctKeys(table) && WorkerOk(env, table, wk)
    requires |wk.layout.types| + |cols| <= |table|
    requires cols == table[|wk.layout.types|..|wk.layout.types| + |cols|]
    ensures
      var wk' := ExtendWorker(wk, cols);
      var m := |wk.layout.types| + |cols|;
      && |wk'.layout.types| == m && wk'.layout == LayoutOf(table[..m]) && CacheFresh(wk') && wk'.log == wk.log
      && (forall i :: 0 <= i < |wk.log| ==> AppendPool.Covers(table[..m], wk.log[i]))
      && wk'.rows == Appended(env, wk.log, table[..m])
  {
    var n := |wk.layout.types|;
    var m := n + |cols|;
    assert table[..n] + cols == table[..m];
    LayoutGrows(table[..n], cols);
    LayoutLookup(table[..m]);
    assert DistinctKeys(table[..n] + cols);
    PaddedRows(env, wk.log, table[..n], cols);
    forall i | 0 <= i < |wk.log| ensures AppendPool.Covers(table[..m], wk.log[i]) {
      CoversMore(table[..n], table[..m], wk.log[i]);
    }
    hide Resolve, Appended, LayoutOf, AddCols, AppendPool.Covers;
    if cols == [] { assert PadRows(wk.rows, 0) == wk.rows; }
  }

  /** A covered batch always resolves: the schema error of the append loop is dead code,
      and writing by slots gives the rows appending by name gives. */
  lemma CoveredBatchResolves(env: Env, b: Batch, table: seq<Col>)
    requires ValidBatch(b) && DistinctKeys(table) && AppendPool.Covers(table, b)
    ensures Resolve(b, LayoutOf(table)).Some?
    ensures Written(env, b, LayoutOf(table), Resolve(b, LayoutOf(table)).value) == BatchRows(env, b, table)
  {
    LayoutLookup(table);
    var l := LayoutOf(table);
    var bl := Resolve(b, l).value;
    forall r, s | 0 <= r < |b.rows| && 0 <= s < |table|
      ensures WrittenCell(env, b, r, l, bl, s) == TableCell(env, b, r, table[s])
    {
      if bl.covered[s] {
        var c := SlotColumn(bl.slotOf, s).value;
        SlotsOfBatch(b, table, bl, c);
      } else {
        UncoveredSlot(b, table, bl, s);
      }
    }
    forall r | 0 <= r < |b.rows| ensures Written(env, b, l, bl)[r] == TableRow(env, b, r, table) {
    }
  }

  /** Slots depend on names only, so the coarse signature is a sound key here. */
  lemma ResolveBySignature(b: Batch, b': Batch, l: Layout)
    requires SignatureOf(b.cols) == SignatureOf(b'.cols)
    ensures Resolve(b, l) == Resolve(b', l)
  {
    forall c | 0 <= c < |b.cols| ensures b.cols[c].key == b'.cols[c].key {
      assert SignatureOf(b.cols)[c] == SignatureOf(b'.cols)[c];
    }
    if Resolve(b, l).Some? && Resolve(b', l).Some? {
      assert Resolve(b, l).value.slotOf == Resolve(b', l).value.slotOf;
      assert Resolve(b, l).value.covered == Resolve(b', l).value.covered;
    }
  }

  lemma AppendKeepsWorker(env: Env, table: seq<Col>, wk: Worker)
    requires DistinctKeys(table) && WorkerOk(env, table, wk) && wk.pc.Extended?
    ensures Chosen(wk, wk.pc.batch).Some?
    ensures
      var b := wk.pc.batch;
      var bl := Chosen(wk, b).value;
      WorkerOk(env, table, wk.(cache := Some(bl), rows := wk.rows + Written(env, b, wk.layout, bl),
                               pc := Ready, log := wk.log + [b]))
  {
    var b := wk.pc.batch;
    var prefix := table[..|wk.layout.types|];
    CoveredBatchResolves(env, b, prefix);
    assert Chosen(wk, b) == Resolve(b, wk.layout);
    var bl := Chosen(wk, b).value;
    forall b': Batch | SignatureOf(b'.cols) == bl.signature ensures Resolve(b', wk.layout) == Some(bl) {
      ResolveBySignature(b, b', wk.layout);
    }
    assert (wk.log + [b])[..|wk.log|] == wk.log;
  }

  lemma StepKeepsPadded(env: Env, p: Pool, e: Event)
    requires Enabled(p, e) && Padded(env, p)
    ensures Padded(env, Step(env, p, e))
  {
    match e
    case Ingest(b) => IngestKeepsPadded(env, p, b);
    case Submit => SubmitKeepsPadded(env, p);
    case Pop(w) => PopKeepsPadded(env, p, w);
    case Extend(w) => ExtendKeepsPadded(env, p, w);
    case Append(w) => AppendKeepsPadded(env, p, w);
    case Fail(w) => LeavingKeepsPadded(env, p, w, true);
    case Exit(w) => LeavingKeepsPadded(env, p, w, false);
    case Stop =>
    case Merge =>
  }

  lemma ExtendKeepsPadded(env: Env, p: Pool, w: nat)
    requires Enabled(p, Extend(w)) && Padded(env, p)
    ensures Padded(env, Step(env, p, Extend(w)))
  {
    var wk := p.workers[w];
    ExtendKeepsWorker(env, p.table, wk, wk.pc.pending);
    OtherWorkersKeep(env, p, w, Step(env, p, Extend(w)));
  }

  lemma AppendKeepsPadded(env: Env, p: Pool, w: nat)
    requires Enabled(p, Append(w)) && Padded(env, p)
    ensures Padded(env, Step(env, p, Append(w)))
  {
    AppendKeepsWorker(env, p.table, p.workers[w]);
    OtherWorkersKeep(env, p, w, Step(env, p, Append(w)));
  }

  lemma LeavingKeepsPadded(env: Env, p: Pool, w: nat, failed: bool)
    requires Enabled(p, if failed then Fail(w) else Exit(w)) && Padded(env, p)
    ensures Padded(env, Step(env, p, if failed then Fail(w) else Exit(w)))
  {
    var p' := Step(env, p, if failed then Fail(w) else Exit(w));
    assert WorkerOk(env, p.table, p.workers[w]);
    OtherWorkersKeep(env, p, w, p');
  }

  /** A step of worker `w` leaves everybody else as they were. */
  lemma OtherWorkersKeep(env: Env, p: Pool, w: nat, p': Pool)
    requires Padded(env, p) && |p'.workers| == |p.workers| && w < |p.workers|
    requires WorkerOk(env, p.table, p'.workers[w]) && p'.workers == p.workers[w := p'.workers[w]]
    requires p'.table == p.table && p'.layout == p.layout && p'.queue == p.queue && p'.consumer == p.consumer
    ensures Padded(env, p')
  {
    forall v | 0 <= v < |p'.workers| ensures WorkerOk(env, p'.table, p'.workers[v]) {
      if v != w { assert p'.workers[v] == p.workers[v]; }
    }
  }

  lemma IngestKeepsPadded(env: Env, p: Pool, b: Batch)
    requires Enabled(p, Ingest(b)) && Padded(env, p)
    ensures Padded(env, Step(env, p, Ingest(b)))
  {
    var adds := Adds(p.table, b.cols);
    AddsExtend(p.table, b.cols);
    LayoutGrows(p.table, adds);
    var p' := Step(env, p, Ingest(b));
    forall w | 0 <= w < |p'.workers| ensures WorkerOk(env, p'.table, p'.workers[w]) {
      WorkerUnderGrownTable(env, p.table, adds, p.workers[w]);
    }
    forall i | 0 <= i < |p.queue| ensures AppendPool.Covers(p'.table, p.queue[i]) {
      CoversMore(p.table, p'.table, p.queue[i]);
    }
  }

  lemma SubmitKeepsPadded(env: Env, p: Pool)
    requires Enabled(p, Submit) && Padded(env, p)
    ensures Padded(env, Step(env, p, Submit))
  {
    var p' := Step(env, p, Submit);
    assert forall w :: 0 <= w < |p'.workers| ==> p'.workers[w] == p.workers[w];
  }

  lemma PopKeepsPadded(env: Env, p: Pool, w: nat)
    requires Enabled(p, Pop(w)) && Padded(env, p)
    ensures Padded(env, Step(env, p, Pop(w)))
  {
    var p' := Step(env, p, Pop(w));
    MissingIsSuffix(p.table, |p.workers[w].layout.types|);
    assert p.table[..|p.table|] == p.table;
    assert AppendPool.Covers(p.table, p.queue[0]) && ValidBatch(p.queue[0]);
    forall v | 0 <= v < |p'.workers| ensures WorkerOk(env, p'.table, p'.workers[v]) {
      if v != w { assert p'.workers[v] == p.workers[v]; }
    }
  }

  // ---------------------------------------------------------------------------
  // Every batch is somewhere
  // ---------------------------------------------------------------------------

  function HeldBy(wk: Worker): (r: multiset<Batch>) {
    multiset(wk.log) + (if wk.pc.Holding? || wk.pc.Extended? then multiset{wk.pc.batch} else multiset{})
  }

  function Held(ws: seq<Worker>): (r: multiset<Batch>) {
    if ws == [] then multiset{} else Held(ws[..|ws| - 1]) + HeldBy(ws[|ws| - 1])
  }

  lemma Regroup<T>(a: multiset<T>, a': multiset<T>, h: multiset<T>, h': multiset<T>, x: multiset<T>)
    requires a' + h == a + h'
    ensures (a' + x) + h == (a + x) + h'
  {
    assert (a' + x) + h == (a' + h) + x;
    assert (a + x) + h' == (a + h') + x;
  }

  lemma Cancel<T>(a: multiset<T>, a': multiset<T>, h: multiset<T>, x: multiset<T>)
    requires a' + h == a + (h + x)
    ensures a' == a + x
  {
    assert a' == (a' + h) - h && a + x == (a + (h + x)) - h;
  }

  lemma SwapLast<T>(a: multiset<T>, b: multiset<T>, c: multiset<T>)
    ensures (a + b) + c == (a + c) + b
  {
  }

  lemma HeldLast(ws: seq<Worker>, front: seq<Worker>, last: Worker)
    requires ws == front + [last]
    ensures Held(ws) == Held(front) + HeldBy(last)
  {
    assert ws[..|ws| - 1] == front;
  }

  lemma HeldUpdateLast(front: seq<Worker>, front': seq<Worker>, last: Worker, h: multiset<Batch>, h': multiset<Batch>)
    requires Held(front') + h == Held(front) + h'
    ensures Held(front' + [last]) + h == Held(front + [last]) + h'
  {
    HeldLast(front + [last], front, last);
    HeldLast(front' + [last], front', last);
    Regroup(Held(front), Held(front'), h, h', HeldBy(last));
  }

  lemma {:induction false} HeldUpdate(ws: seq<Worker>, w: nat, wk: Worker)
    requires w < |ws|
    ensures Held(ws[w := wk]) + HeldBy(ws[w]) == Held(ws) + HeldBy(wk)
    decreases |ws|
  {
    hide Held, HeldBy;
    var n := |ws| - 1;
    var front, last := ws[..n], ws[n];
    assert ws == front + [last];
    if w < n {
      HeldUpdate(front, w, wk);
      assert ws[w := wk] == front[w := wk] + [last];
      HeldUpdateLast(front, front[w := wk], last, HeldBy(ws[w]), HeldBy(wk));
    } else {
      assert ws[w := wk] == front + [wk];
      HeldLast(ws[w := wk], front, wk);
      HeldLast(ws, front, last);
      SwapLast(Held(front), HeldBy(wk), HeldBy(last));
    }
  }

  lemma {:induction false} HeldAlike(ws: seq<Worker>, ws': seq<Worker>)
    requires |ws| == |ws'|
    requires forall w :: 0 <= w < |ws| ==> HeldBy(ws'[w]) == HeldBy(ws[w])
    ensures Held(ws') == Held(ws)
  {
    if ws != [] { HeldAlike(ws[..|ws| - 1], ws'[..|ws'| - 1]); }
  }

  /** Without an error each submitted batch is queued, in a worker's hands, or appended,
      exactly once. */
  ghost predicate Conserved(p: Pool) {
    !p.error ==> multiset(p.submitted) == multiset(p.queue) + Held(p.workers)
  }

  /** A pool that stopped by itself, or refused a batch, has an error. */
  ghost predicate Flags(p: Pool) {
    && (p.error ==> p.stopped)
    && (p.stopped && !p.consumer.Draining? && !p.consumer.Finished? ==> p.error)
    && (p.consumer.Draining? ==> p.stopped)
    && (p.refused != [] ==> p.error)
  }

  /** A worker leaves after a failure, or with nothing left to do. */
  ghost predicate ExitsOk(p: Pool) {
    && (forall w :: 0 <= w < |p.workers| && p.workers[w].pc == Exited(false) ==> p.stopped && (p.queue == [] || p.error))
    && (forall w :: 0 <= w < |p.workers| && p.workers[w].pc == Exited(true) ==> p.error)
  }

  lemma HeldGrows(ws: seq<Worker>, w: nat, ws': seq<Worker>, x: multiset<Batch>)
    requires w < |ws| == |ws'| && ws' == ws[w := ws'[w]] && HeldBy(ws'[w]) == HeldBy(ws[w]) + x
    ensures Held(ws') == Held(ws) + x
  {
    HeldUpdate(ws, w, ws'[w]);
    Cancel(Held(ws), Held(ws'), HeldBy(ws[w]), x);
  }

  lemma OneWorkerConserves(p: Pool, w: nat, p': Pool)
    requires Conserved(p) && w < |p.workers| == |p'.workers| && p'.workers == p.workers[w := p'.workers[w]]
    requires HeldBy(p'.workers[w]) == HeldBy(p.workers[w])
    requires p'.queue == p.queue && p'.submitted == p.submitted && (p.error ==> p'.error)
    ensures Conserved(p')
  {
    HeldGrows(p.workers, w, p'.workers, multiset{});
  }

  lemma SubmitConserves(env: Env, p: Pool)
    requires Enabled(p, Submit) && Conserved(p)
    ensures Conserved(Step(env, p, Submit))
  {
    assert multiset(p.queue + [p.consumer.batch]) == multiset(p.queue) + multiset{p.consumer.batch};
  }

  lemma PopConserves(env: Env, p: Pool, w: nat)
    requires Enabled(p, Pop(w)) && Conserved(p)
    ensures Conserved(Step(env, p, Pop(w)))
  {
    var p' := Step(env, p, Pop(w));
    assert p.queue == [p.queue[0]] + p.queue[1..];
    assert HeldBy(p'.workers[w]) == HeldBy(p.workers[w]) + multiset{p.queue[0]};
    HeldGrows(p.workers, w, p'.workers, multiset{p.queue[0]});
  }

  lemma AppendConserves(env: Env, p: Pool, w: nat)
    requires Enabled(p, Append(w)) && Conserved(p) && Padded(env, p)
    ensures Conserved(Step(env, p, Append(w)))
  {
    var p' := Step(env, p, Append(w));
    var b := p.workers[w].pc.batch;
    AppendKeepsWorker(env, p.table, p.workers[w]);
    assert multiset(p.workers[w].log + [b]) == multiset(p.workers[w].log) + multiset{b};
    OneWorkerConserves(p, w, p');
  }

  lemma ExtendConserves(env: Env, p: Pool, w: nat)
    requires Enabled(p, Extend(w)) && Conserved(p)
    ensures Conserved(Step(env, p, Extend(w)))
  {
    OneWorkerConserves(p, w, Step(env, p, Extend(w)));
  }

  lemma ExitConserves(env: Env, p: Pool, w: nat)
    requires Enabled(p, Exit(w)) && Conserved(p)
    ensures Conserved(Step(env, p, Exit(w)))
  {
    OneWorkerConserves(p, w, Step(env, p, Exit(w)));
  }

  lemma IngestConserves(env: Env, p: Pool, b: Batch)
    requires Enabled(p, Ingest(b)) && Conserved(p)
    ensures Conserved(Step(env, p, Ingest(b)))
  {
    HeldAlike(p.workers, Step(env, p, Ingest(b)).workers);
  }

  lemma StepKeepsConserved(env: Env, p: Pool, e: Event)
    requires Enabled(p, e) && Conserved(p) && Padded(env, p)
    ensures Conserved(Step(env, p, e))
  {
    match e
    case Ingest(b) => IngestConserves(env, p, b);
    case Submit => SubmitConserves(env, p);
    case Pop(w) => PopConserves(env, p, w);
    case Append(w) => AppendConserves(env, p, w);
    case Extend(w) => ExtendConserves(env, p, w);
    case Exit(w) => ExitConserves(env, p, w);
    case _ =>
  }

  lemma StepKeepsFlags(env: Env, p: Pool, e: Event)
    requires Enabled(p, e) && Flags(p)
    ensures Flags(Step(env, p, e))
  {
  }

  lemma StepKeepsExits(env: Env, p: Pool, e: Event)
    requires Enabled(p, e) && Flags(p) && ExitsOk(p)
    ensures ExitsOk(Step(env, p, e))
  {
    var p' := Step(env, p, e);
    assert |p'.workers| == |p.workers|;
    forall w | 0 <= w < |p.workers|
      ensures p'.workers[w].pc == p.workers[w].pc
        || !p'.workers[w].pc.Exited? || (p'.workers[w].pc == Exited(true) && p'.error) || e == Exit(w)
    {
    }
  }

  // ---------------------------------------------------------------------------
  // Draining
  // ---------------------------------------------------------------------------

  ghost function AllLogs(ws: seq<Worker>): (r: seq<Batch>) {
    if ws == [] then [] else AllLogs(ws[..|ws| - 1]) + ws[|ws| - 1].log
  }

  lemma {:induction false} AppendedConcat(env: Env, xs: seq<Batch>, ys: seq<Batch>, table: seq<Col>)
    requires AllValid(xs) && AllValid(ys)
    ensures AllValid(xs + ys)
    ensures Appended(env, xs + ys, table) == Appended(env, xs, table) + Appended(env, ys, table)
    decreases |ys|
  {
    if ys == [] {
      assert xs + ys == xs;
    } else {
      assert (xs + ys)[..|xs + ys| - 1] == xs + ys[..|ys| - 1];
      AppendedConcat(env, xs, ys[..|ys| - 1], table);
    }
  }

  /** Phase one of the drain pads every worker to the full published schema. */
  lemma {:induction false} MergedIsAppended(env: Env, p: Pool, n: nat)
    requires Padded(env, p) && n <= |p.workers|
    ensures AllValid(AllLogs(p.workers[..n]))
    ensures Merged(p, n) == Appended(env, AllLogs(p.workers[..n]), p.table)
    decreases n
  {
    if n > 0 {
      hide *;
      MergedIsAppended(env, p, n - 1);
      MergedStep(env, p, n);
      AppendedConcat(env, AllLogs(p.workers[..n - 1]), p.workers[n - 1].log, p.table);
    }
  }

  lemma MergedStep(env: Env, p: Pool, n: nat)
    requires Padded(env, p) && 0 < n <= |p.workers|
    ensures AllValid(p.workers[n - 1].log)
    ensures AllLogs(p.workers[..n]) == AllLogs(p.workers[..n - 1]) + p.workers[n - 1].log
    ensures Merged(p, n) == Merged(p, n - 1) + Appended(env, p.workers[n - 1].log, p.table)
  {
    assert p.workers[..n][..n - 1] == p.workers[..n - 1];
    assert WorkerOk(env, p.table, p.workers[n - 1]);
    DrainPadsWorker(env, p, p.workers[n - 1]);
    hide Appended, ExtendWorker, Padded, Missing;
  }

  lemma DrainPadsWorker(env: Env, p: Pool, wk: Worker)
    requires Padded(env, p) && WorkerOk(env, p.table, wk)
    ensures ExtendWorker(wk, Missing(p.layout, |wk.layout.types|)).rows == Appended(env, wk.log, p.table)
  {
    var w := |wk.layout.types|;
    MissingIsSuffix(p.table, w);
    assert p.table[w..] == p.table[w..|p.table|] && p.table[..|p.table|] == p.table;
    ExtendKeepsWorker(env, p.table, wk, p.table[w..]);
  }

  lemma {:induction false} LogsHeld(ws: seq<Worker>)
    requires forall w :: 0 <= w < |ws| ==> ws[w].pc.Exited?
    ensures multiset(AllLogs(ws)) == Held(ws)
  {
    if ws != [] { LogsHeld(ws[..|ws| - 1]); }
  }

  lemma AppendedWithout(env: Env, front: seq<Batch>, b: Batch, back: seq<Batch>, table: seq<Col>)
    requires AllValid(front + ([b] + back))
    ensures AllValid(front + back) && ValidBatch(b)
    ensures multiset(Appended(env, front + ([b] + back), table))
         == multiset(Appended(env, front + back, table)) + multiset(BatchRows(env, b, table))
  {
    var all := front + ([b] + back);
    assert all[|front|] == b;
    assert forall i :: 0 <= i < |front| ==> all[i] == front[i];
    assert forall i :: 0 <= i < |back| ==> all[|front| + 1 + i] == back[i];
    AppendedConcat(env, front, back, table);
    AppendedConcat(env, [b], back, table);
    AppendedConcat(env, front, [b] + back, table);
    OneBatch(env, b, table);
    hide Appended, BatchRows, ValidBatch;
  }

  lemma OneBatch(env: Env, b: Batch, table: seq<Col>)
    requires ValidBatch(b)
    ensures AllValid([b]) && Appended(env, [b], table) == BatchRows(env, b, table)
  {
    assert [b][..0] == [];
  }

  lemma SameWithout<T>(xs: seq<T>, b: T, ys: seq<T>) returns (front: seq<T>, back: seq<T>)
    requires multiset(xs + [b]) == multiset(ys)
    ensures ys == front + ([b] + back) && multiset(xs) == multiset(front + back)
  {
    assert b in multiset(xs + [b]);
    var i :| 0 <= i < |ys| && ys[i] == b;
    front, back := ys[..i], ys[i + 1..];
    assert ys == front + ([b] + back);
    assert multiset(ys) == multiset(front) + (multiset{b} + multiset(back));
    assert multiset(xs + [b]) == multiset(xs) + multiset{b};
    assert multiset(xs) == multiset(ys) - multiset{b};
  }

  lemma {:induction false} AppendedIgnoresOrder(env: Env, xs: seq<Batch>, ys: seq<Batch>, table: seq<Col>)
    requires AllValid(xs) && AllValid(ys) && multiset(xs) == multiset(ys)
    ensures multiset(Appended(env, xs, table)) == multiset(Appended(env, ys, table))
    decreases |xs|
  {
    if xs == [] {
      assert |multiset(ys)| == 0;
    } else {
      var init, b := xs[..|xs| - 1], xs[|xs| - 1];
      assert xs == init + [b];
      var front, back := SameWithout(init, b, ys);
      AppendedWithout(env, front, b, back, table);
      AppendedIgnoresOrder(env, init, front + back, table);
    }
  }

  function RowCount(bs: seq<Batch>): (n: nat) {
    if bs == [] then 0 else RowCount(bs[..|bs| - 1]) + |bs[|bs| - 1].rows|
  }

  lemma {:induction false} AppendedCount(env: Env, bs: seq<Batch>, table: seq<Col>)
    requires AllValid(bs)
    ensures |Appended(env, bs, table)| == RowCount(bs)
  {
    if bs != [] { AppendedCount(env, bs[..|bs| - 1], table); }
  }

  /** Once a drain has ended: it threw if anything failed or was refused; otherwise the
      merged rows are those of appending every submitted batch sequentially. */
  ghost predicate Drained(env: Env, p: Pool) {
    p.result.Some? ==>
      && p.consumer.Finished?
      && (p.result == Some(Threw) <==> p.error)
      && (p.result.value.Returned? ==>
            && p.refused == [] && AllValid(p.submitted)
            && p.result.value.total == RowCount(p.submitted)
            && multiset(p.result.value.merged) == multiset(Appended(env, p.submitted, p.table)))
  }

  lemma {:induction false} SubmittedValid(env: Env, p: Pool)
    requires Padded(env, p) && Conserved(p) && !p.error
    ensures AllValid(p.submitted)
  {
    forall i | 0 <= i < |p.submitted| ensures ValidBatch(p.submitted[i]) {
      var b := p.submitted[i];
      assert b in multiset(p.submitted);
      if b in multiset(p.queue) {
        assert b in p.queue;
      } else {
        HeldValid(env, p.table, p.workers, b);
      }
    }
  }

  lemma {:induction false} HeldValid(env: Env, table: seq<Col>, ws: seq<Worker>, b: Batch)
    requires b in Held(ws) && forall w :: 0 <= w < |ws| ==> WorkerOk(env, table, ws[w])
    ensures ValidBatch(b)
    decreases |ws|
  {
    var wk := ws[|ws| - 1];
    if b in HeldBy(wk) {
      if b in multiset(wk.log) { assert b in wk.log; }
    } else {
      HeldValid(env, table, ws[..|ws| - 1], b);
    }
  }

  lemma MergeDrains(env: Env, p: Pool)
    requires Enabled(p, Merge) && Padded(env, p) && Conserved(p) && Flags(p) && ExitsOk(p) && |p.workers| > 0
    ensures Drained(env, Step(env, p, Merge))
  {
    if !p.error {
      assert p.workers[0].pc == Exited(false);
      assert p.workers[..|p.workers|] == p.workers;
      MergedIsAppended(env, p, |p.workers|);
      LogsHeld(p.workers);
      SubmittedValid(env, p);
      AppendedIgnoresOrder(env, AllLogs(p.workers), p.submitted, p.table);
      AppendedCount(env, p.submitted, p.table);
      SameSize(Merged(p, |p.workers|), Appended(env, p.submitted, p.table));
    }
  }

  lemma SameSize<T>(xs: seq<T>, ys: seq<T>)
    requires multiset(xs) == multiset(ys)
    ensures |xs| == |ys|
  {
    assert |multiset(xs)| == |xs| && |multiset(ys)| == |ys|;
  }

  ghost predicate Inv(env: Env, p: Pool) {
    && Padded(env, p) && Conserved(p) && Flags(p) && ExitsOk(p) && Drained(env, p) && |p.workers| > 0
    && (p.consumer.Finished? <==> p.result.Some?)
    && (p.consumer.Finished? ==> forall w :: 0 <= w < |p.workers| ==> p.workers[w].pc.Exited?)
  }

  lemma StepKeepsInv(env: Env, p: Pool, e: Event)
    requires Enabled(p, e) && Inv(env, p)
    ensures Inv(env, Step(env, p, e))
  {
    StepKeepsPadded(env, p, e);
    StepKeepsConserved(env, p, e);
    StepKeepsFlags(env, p, e);
    StepKeepsExits(env, p, e);
    StepKeepsEnd(env, p, e);
    hide Padded, Conserved, Flags, ExitsOk, Drained, Step, Enabled;
  }

  lemma StepKeepsEnd(env: Env, p: Pool, e: Event)
    requires Enabled(p, e) && Inv(env, p)
    ensures Drained(env, Step(env, p, e)) && |Step(env, p, e).workers| > 0
    ensures
      var p' := Step(env, p, e);
      && (p'.consumer.Finished? <==> p'.result.Some?)
      && (p'.consumer.Finished? ==> forall w :: 0 <= w < |p'.workers| ==> p'.workers[w].pc.Exited?)
  {
    hide Padded, Conserved, Flags, ExitsOk;
    if e.Merge? { MergeDrains(env, p); }
  }

  lemma CreateInv(env: Env, table: seq<Col>, workerCount: nat, maxDepth: nat)
    requires DistinctKeys(table) && workerCount > 0
    ensures Inv(env, Create(table, workerCount, maxDepth))
  {
    var p := Create(table, workerCount, maxDepth);
    LayoutLookup(table);
    assert table[..|table|] == table;
    NothingHeld(p.workers);
  }

  lemma {:induction false} NothingHeld(ws: seq<Worker>)
    requires forall w :: 0 <= w < |ws| ==> ws[w].log == [] && ws[w].pc.Ready?
    ensures Held(ws) == multiset{}
  {
    if ws != [] { NothingHeld(ws[..|ws| - 1]); }
  }

  lemma {:induction false} RunKeepsInv(env: Env, table: seq<Col>, workerCount: nat, maxDepth: nat, es: seq<Event>)
    requires DistinctKeys(table) && workerCount > 0
    requires Run(env, Create(table, workerCount, maxDepth), es).Some?
    ensures Inv(env, Run(env, Create(table, workerCount, maxDepth), es).value)
    decreases |es|
  {
    if es == [] {
      CreateInv(env, table, workerCount, maxDepth);
    } else {
      RunKeepsInv(env, table, workerCount, maxDepth, es[..|es| - 1]);
      StepKeepsInv(env, Run(env, Create(table, workerCount, maxDepth), es[..|es| - 1]).value, es[|es| - 1]);
    }
  }

  /** The batches the consumer has been given, in order. */
  function GivenBatches(es: seq<Event>): (bs: seq<Batch>) {
    if es == [] then []
    else
      var e := es[|es| - 1];
      GivenBatches(es[..|es| - 1]) + if e.Ingest? then [e.batch] else []
  }

  /** As long as the pool has refused nothing it has queued everything it was given. */
  lemma {:induction false} RunKeepsGiven(env: Env, table: seq<Col>, workerCount: nat, maxDepth: nat, es: seq<Event>)
    requires Run(env, Create(table, workerCount, maxDepth), es).Some?
    ensures
      var p := Run(env, Create(table, workerCount, maxDepth), es).value;
      p.refused == [] ==> p.submitted + (if p.consumer.Evolved? then [p.consumer.batch] else []) == GivenBatches(es)
    decreases |es|
  {
    if es != [] {
      var p := Run(env, Create(table, workerCount, maxDepth), es[..|es| - 1]).value;
      RunKeepsGiven(env, table, workerCount, maxDepth, es[..|es| - 1]);
      StepKeepsGiven(env, p, es[|es| - 1], GivenBatches(es[..|es| - 1]));
    }
  }

  lemma StepKeepsGiven(env: Env, p: Pool, e: Event, given: seq<Batch>)
    requires Enabled(p, e)
    requires p.refused == [] ==> p.submitted + (if p.consumer.Evolved? then [p.consumer.batch] else []) == given
    ensures
      var p' := Step(env, p, e);
      && (p'.refused == [] ==> p.refused == [])
      && (p'.refused == [] ==> p'.submitted + (if p'.consumer.Evolved? then [p'.consumer.batch] else [])
                               == given + if e.Ingest? then [e.batch] else [])
  {
    hide Written, Merged, Adds, ExtendWorker, Invalidate, Chosen;
    assert given + [] == given;
  }

  /** The pool refines sequential appending: over every interleaving, a drain that returns
      hands over, as a multiset, exactly the rows `AppendNative` would have left on the
      final schema, and their number; a failed or refused batch makes it throw. */
  lemma PoolRefinesSequentialAppend(
      env: Env, table: seq<Col>, workerCount: nat, maxDepth: nat, es: seq<Event>, total: nat, merged: seq<Row>)
    requires DistinctKeys(table) && workerCount > 0
    requires Run(env, Create(table, workerCount, maxDepth), es).Some?
    requires Run(env, Create(table, workerCount, maxDepth), es).value.result == Some(Returned(total, merged))
    ensures
      var p := Run(env, Create(table, workerCount, maxDepth), es).value;
      && p.refused == [] && !p.error && AllValid(p.submitted) && p.submitted == GivenBatches(es)
      && total == RowCount(p.submitted) == |merged|
      && multiset(merged) == multiset(Appended(env, p.submitted, p.table))
      && RowsSay(env, p.submitted, p.table, Appended(env, p.submitted, p.table))
  {
    RunKeepsInv(env, table, workerCount, maxDepth, es);
    var p := Run(env, Create(table, workerCount, maxDepth), es).value;
    AppendedCount(env, p.submitted, p.table);
    SameSize(merged, Appended(env, p.submitted, p.table));
    AppendedSays(env, p.submitted, p.table);
    RunKeepsGiven(env, table, workerCount, maxDepth, es);
  }

  /** The "missing from append pool schema" error cannot happen in any reachable state. */
  lemma SchemaErrorUnreachable(env: Env, table: seq<Col>, workerCount: nat, maxDepth: nat, es: seq<Event>, w: nat)
    requires DistinctKeys(table) && workerCount > 0
    requires Run(env, Create(table, workerCount, maxDepth), es).Some?
    requires
      var p := Run(env, Create(table, workerCount, maxDepth), es).value;
      w < |p.workers| && p.workers[w].pc.Extended?
    ensures
      var wk := Run(env, Create(table, workerCount, maxDepth), es).value.workers[w];
      Chosen(wk, wk.pc.batch).Some? && Chosen(wk, wk.pc.batch) == Resolve(wk.pc.batch, wk.layout)
  {
    RunKeepsInv(env, table, workerCount, maxDepth, es);
    var p := Run(env, Create(table, workerCount, maxDepth), es).value;
    AppendKeepsWorker(env, p.table, p.workers[w]);
  }

  // ---------------------------------------------------------------------------
  // Progress
  // ---------------------------------------------------------------------------

  ghost predicate CanMove(p: Pool) { exists e :: Enabled(p, e) }

  lemma WorkerCanMove(p: Pool, w: nat)
    requires w < |p.workers| && !p.workers[w].pc.Exited? && (p.queue != [] || p.stopped)
    ensures CanMove(p)
  {
    match p.workers[w].pc
    case Ready => assert if p.queue != [] then Enabled(p, Pop(w)) else Enabled(p, Exit(w));
    case Holding(_, _) => assert Enabled(p, Extend(w));
    case Extended(_) => assert Enabled(p, Append(w));
  }

  /** The pool never deadlocks: until the drain has ended, some wait predicate is true. */
  lemma SomebodyCanMove(env: Env, p: Pool)
    requires Inv(env, p) && p.maxDepth > 0 && !p.consumer.Finished?
    ensures CanMove(p)
  {
    match p.consumer
    case Idle => assert Enabled(p, Stop);
    case Evolved(_) =>
      if |p.queue| < p.maxDepth || p.stopped {
        assert Enabled(p, Submit);
      } else {
        WorkerCanMove(p, 0);
      }
    case Draining =>
      if w :| 0 <= w < |p.workers| && !p.workers[w].pc.Exited? {
        WorkerCanMove(p, w);
      } else {
        assert Enabled(p, Merge);
      }
  }

  lemma {:induction false} RunKeepsDepth(env: Env, p: Pool, es: seq<Event>)
    requires Run(env, p, es).Some?
    ensures Run(env, p, es).value.maxDepth == p.maxDepth
    decreases |es|
  {
    if es != [] { RunKeepsDepth(env, p, es[..|es| - 1]); }
  }

  lemma PoolNeverDeadlocks(env: Env, table: seq<Col>, workerCount: nat, maxDepth: nat, es: seq<Event>)
    requires DistinctKeys(table) && workerCount > 0 && maxDepth > 0
    requires Run(env, Create(table, workerCount, maxDepth), es).Some?
    ensures
      var p := Run(env, Create(table, workerCount, maxDepth), es).value;
      p.consumer.Finished? || CanMove(p)
  {
    RunKeepsInv(env, table, workerCount, maxDepth, es);
    RunKeepsDepth(env, Create(table, workerCount, maxDepth), es);
    var p := Run(env, Create(table, workerCount, maxDepth), es).value;
    if !p.consumer.Finished? { SomebodyCanMove(env, p); }
  }

  // ---------------------------------------------------------------------------
  // Every run ends
  // ---------------------------------------------------------------------------

  /** Steps a worker can still take with nothing more popped. */
  function PcWork(pc: WorkerPc): (n: nat) {
    match pc { case Holding(_, _) => 3 case Extended(_) => 2 case Ready => 1 case Exited(_) => 0 }
  }

  function WorkersWork(ws: seq<Worker>): (n: nat) {
    if ws == [] then 0 else WorkersWork(ws[..|ws| - 1]) + PcWork(ws[|ws| - 1].pc)
  }

  function ConsumerWork(c: ConsumerPc): (n: nat) {
    match c { case Evolved(_) => 6 case Idle => 2 case Draining => 1 case Finished => 0 }
  }

  function Work(p: Pool): (n: nat) { 3 * |p.queue| + WorkersWork(p.workers) + ConsumerWork(p.consumer) }

  /** The batches the consumer has been given. */
  function Given(es: seq<Event>): (n: nat) {
    if es == [] then 0 else Given(es[..|es| - 1]) + if es[|es| - 1].Ingest? then 1 else 0
  }

  lemma {:induction false} WorkMoves(ws: seq<Worker>, w: nat, wk: Worker)
    requires w < |ws|
    ensures WorkersWork(ws[w := wk]) + PcWork(ws[w].pc) == WorkersWork(ws) + PcWork(wk.pc)
    decreases |ws|
  {
    var n := |ws| - 1;
    if w < n {
      WorkMoves(ws[..n], w, wk);
      assert ws[w := wk][..n] == ws[..n][w := wk];
    } else {
      assert ws[w := wk][..n] == ws[..n];
    }
  }

  lemma {:induction false} WorkAlike(ws: seq<Worker>, ws': seq<Worker>)
    requires |ws'| == |ws| && forall w :: 0 <= w < |ws| ==> ws'[w].pc == ws[w].pc
    ensures WorkersWork(ws') == WorkersWork(ws)
  {
    if ws != [] { WorkAlike(ws[..|ws| - 1], ws'[..|ws'| - 1]); }
  }

  lemma {:induction false} ReadyWork(ws: seq<Worker>)
    requires forall w :: 0 <= w < |ws| ==> ws[w].pc.Ready?
    ensures WorkersWork(ws) == |ws|
  {
    if ws != [] { ReadyWork(ws[..|ws| - 1]); }
  }

  predicate OfWorker(e: Event) { e.Pop? || e.Extend? || e.Append? || e.Fail? || e.Exit? }

  lemma WorkerStepWorks(env: Env, p: Pool, e: Event)
    requires Enabled(p, e) && OfWorker(e)
    ensures Work(Step(env, p, e)) < Work(p)
  {
    var p' := Step(env, p, e);
    assert p'.workers == p.workers[e.w := p'.workers[e.w]];
    WorkMoves(p.workers, e.w, p'.workers[e.w]);
  }

  lemma StepWorks(env: Env, p: Pool, e: Event)
    requires Enabled(p, e)
    ensures Work(Step(env, p, e)) < Work(p) + if e.Ingest? then 5 else 0
  {
    if OfWorker(e) {
      WorkerStepWorks(env, p, e);
    } else {
      WorkAlike(p.workers, Step(env, p, e).workers);
    }
  }

  /** A pool given so many batches takes at most five steps for each, one for each worker's
      exit, and two for the drain: with `PoolNeverDeadlocks`, every call gets to its end. */
  lemma {:induction false} EveryPoolRunEnds(env: Env, table: seq<Col>, workerCount: nat, maxDepth: nat, es: seq<Event>)
    requires Run(env, Create(table, workerCount, maxDepth), es).Some?
    ensures |es| + Work(Run(env, Create(table, workerCount, maxDepth), es).value) <= 5 * Given(es) + workerCount + 2
    decreases |es|
  {
    var start := Create(table, workerCount, maxDepth);
    if es == [] {
      ReadyWork(start.workers);
    } else {
      EveryPoolRunEnds(env, table, workerCount, maxDepth, es[..|es| - 1]);
      StepWorks(env, Run(env, start, es[..|es| - 1]).value, es[|es| - 1]);
    }
  }
}
