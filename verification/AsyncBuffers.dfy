/** Asynchronous inserts: payloads wait in one buffer per table until a flush takes them;
    a small pool of workers claims the taken tables by a fetch-and-add counter. */
module AsyncBuffers {
  import opened Json
  import opened Transactions

  /** `id` and `at` are history: the order and the time of enqueueing. */
  datatype Payload = Payload(id: nat, text: string, at: int)

  datatype Buffer = Buffer(payloads: seq<Payload>, bytes: nat, oldest: int)

  type Buffers = map<string, Buffer>

  // ---------------------------------------------------------------------------
  // Buffers
  // ---------------------------------------------------------------------------

  function SizeOf(ps: seq<Payload>): (n: nat) {
    if ps == [] then 0 else SizeOf(ps[..|ps| - 1]) + |ps[|ps| - 1].text|
  }

  function Enqueued(buffers: Buffers, target: string, p: Payload): (r: Buffers) {
    var b := if target in buffers then buffers[target] else Buffer([], 0, 0);
    buffers[target := Buffer(b.payloads + [p], b.bytes + |p.text|, if b.payloads == [] then p.at else b.oldest)]
  }

  predicate Due(b: Buffer, now: int, timeout: nat, dueBytes: nat) {
    now - b.oldest >= timeout || b.bytes >= dueBytes
  }

  function DueOf(buffers: Buffers, now: int, timeout: nat, dueBytes: nat): (r: Buffers) {
    map t | t in buffers && Due(buffers[t], now, timeout, dueBytes) :: buffers[t]
  }

  /** A buffer that exists holds something, its byte count is the payloads' total size, its
      age is its first payload's, and payloads stay in the order they came. */
  ghost predicate BufferOk(b: Buffer) {
    && b.payloads != []
    && b.bytes == SizeOf(b.payloads)
    && b.oldest == b.payloads[0].at
    && forall j, k :: 0 <= j < k < |b.payloads| ==> b.payloads[j].id < b.payloads[k].id
  }

  ghost predicate BuffersOk(buffers: Buffers) {
    forall t :: t in buffers ==> BufferOk(buffers[t])
  }

  ghost predicate Older(buffers: Buffers, id: nat) {
    forall t, k {:trigger buffers[t].payloads[k]} :: t in buffers && 0 <= k < |buffers[t].payloads| ==> buffers[t].payloads[k].id < id
  }

  lemma BufferAppend(b: Buffer, p: Payload)
    requires BufferOk(b) && forall k :: 0 <= k < |b.payloads| ==> b.payloads[k].id < p.id
    ensures BufferOk(Buffer(b.payloads + [p], b.bytes + |p.text|, b.oldest))
  {
    assert (b.payloads + [p])[..|b.payloads|] == b.payloads;
  }

  lemma EnqueueKeepsBuffers(buffers: Buffers, target: string, p: Payload)
    requires BuffersOk(buffers) && Older(buffers, p.id)
    ensures BuffersOk(Enqueued(buffers, target, p))
  {
    if target in buffers {
      BufferAppend(buffers[target], p);
    } else {
      var one := [p];
      assert [] + [p] == one && one[..0] == [] && SizeOf(one[..0]) == 0;
      assert SizeOf(one) == |p.text|;
      assert BufferOk(Buffer(one, |p.text|, p.at));
    }
  }

  /** The shared map, changed under its lock. */
  class RawAsyncBuffers {
    var buffers: Buffers

    constructor ()
      ensures buffers == map[]
    {
      buffers := map[];
    }

    method Enqueue(target: string, p: Payload, maxBytes: nat) returns (wake: bool)
      modifies this
      ensures buffers == Enqueued(old(buffers), target, p)
      ensures wake <==> buffers[target].bytes >= maxBytes
    {
      var buffer := if target in buffers then buffers[target] else Buffer([], 0, 0);
      if buffer.payloads == [] { buffer := buffer.(oldest := p.at); }
      buffer := buffer.(bytes := buffer.bytes + |p.text|);
      buffer := buffer.(payloads := buffer.payloads + [p]);
      buffers := buffers[target := buffer];
      wake := buffer.bytes >= maxBytes;
    }

    method TakeAll() returns (taken: Buffers)
      modifies this
      ensures taken == old(buffers) && buffers == map[]
    {
      taken, buffers := buffers, map[];
    }

    /** The scan of the flush loop: due buffers move out, the others stay untouched, and
        nothing due stays behind. */
    method TakeDue(now: int, timeout: nat, dueBytes: nat) returns (due: Buffers)
      modifies this
      ensures due == DueOf(old(buffers), now, timeout, dueBytes)
      ensures buffers == old(buffers) - due.Keys
    {
      due := map[];
      var todo := buffers.Keys;
      while todo != {}
        invariant todo <= buffers.Keys
        invariant forall t :: t in due <==>
          t in old(buffers) && t !in todo && Due(old(buffers)[t], now, timeout, dueBytes)
        invariant forall t :: t in due ==> due[t] == old(buffers)[t]
        invariant forall t :: t in buffers <==> t in old(buffers) && t !in due
        invariant forall t :: t in buffers ==> buffers[t] == old(buffers)[t]
        decreases |todo|
      {
        var t :| t in todo;
        todo := todo - {t};
        if Due(buffers[t], now, timeout, dueBytes) {
          due := due[t := buffers[t]];
          buffers := buffers - {t};
        }
      }
    }
  }

  // ---------------------------------------------------------------------------
  // Flushing one table
  // ---------------------------------------------------------------------------

  function RowsIn(rows: Payload -> nat, ps: seq<Payload>): (n: nat) {
    if ps == [] then 0 else RowsIn(rows, ps[..|ps| - 1]) + rows(ps[|ps| - 1])
  }

  function IdsOf(ps: seq<Payload>): (r: set<nat>) {
    set k | 0 <= k < |ps| :: ps[k].id
  }

  lemma NothingIn(rows: Payload -> nat)
    ensures IdsOf([]) == {} && RowsIn(rows, []) == 0
  {
  }

  lemma RowsAppend(rows: Payload -> nat, ps: seq<Payload>, p: Payload)
    ensures RowsIn(rows, ps + [p]) == RowsIn(rows, ps) + rows(p)
  {
    assert (ps + [p])[..|ps|] == ps;
  }

  /** What the database makes of one flush: for each payload what its ingestion throws and the
      state it leaves the transaction in, and what the database's own commit does. */
  datatype World = World(alive: bool, error: nat -> Option<Thrown>, after: nat -> Txn, own: Commitment)

  /** How an entry can end. `Lost`: the commit returned, but had rolled back. `Unwound`: the
      rollback threw, out of the flush. `Pending` is an entry that has not been flushed. */
  datatype End = Pending | Kept | Dropped | Lost | Unwound

  /** The transaction when payload `k` is about to be ingested, or all are in. */
  function TxnBefore(world: World, k: nat): (t: Txn) { if k == 0 then Begin(Inactive).after else world.after(k - 1) }

  /** The first payload whose ingestion throws. */
  function FirstError(world: World, n: nat): (k: Option<nat>)
    ensures k.Some? ==> k.value < n && world.error(k.value).Some? && forall j :: 0 <= j < k.value ==> world.error(j).None?
    ensures k.None? ==> forall j :: 0 <= j < n ==> world.error(j).None?
  {
    if n == 0 then None
    else
      var earlier := FirstError(world, n - 1);
      if earlier.Some? then earlier else if world.error(n - 1).Some? then Some(n - 1) else None
  }

  /** The transaction that the handler of an exception finds; `None` without an exception. */
  function FailureLeaves(world: World, n: nat): (t: Option<Txn>) {
    match FirstError(world, n)
    case Some(k) => Some(world.after(k))
    case None =>
      var c := Commit(TxnBefore(world, n), world.own);
      if c.error.Some? then Some(c.after) else None
  }

  function EndOf(world: World, n: nat): (end: End) {
    if !world.alive then Dropped
    else
      match FailureLeaves(world, n)
      case Some(t) => if Rollback(t).error.Some? then Unwound else Dropped
      case None => if Commit(TxnBefore(world, n), world.own).stored then Kept else Lost
  }

  /** In terms of what happened to the transaction: an entry is lost when everything returned
      but the last ingestion left an invalidated transaction; it unwinds when something threw
      and had ended the transaction, by itself or by an ingestion that returned. */
  lemma EndIff(world: World, n: nat)
    ensures EndOf(world, n) != Pending
    ensures EndOf(world, n) == Lost <==>
      world.alive && FirstError(world, n).None? && TxnBefore(world, n).Invalidated?
    ensures EndOf(world, n) == Kept <==>
      world.alive && FirstError(world, n).None? && TxnBefore(world, n).Active? && world.own.Succeeds?
    ensures EndOf(world, n) == Unwound <==>
      && world.alive
      && match FirstError(world, n)
         case Some(k) => world.after(k).Inactive?
         case None =>
           || TxnBefore(world, n).Inactive?
           || (TxnBefore(world, n).Active? && world.own.Fails? && world.own.after.Inactive?)
  {
  }

  /** Rows of a returned commit are counted, stored or not. */
  predicate Counts(end: End) { end.Kept? || end.Lost? }

  /** One connection, one transaction: payloads go into it one by one; then it is committed,
      or an exception anywhere has it rolled back. `threw` is an exception of the rollback. */
  method FlushBuffer(world: World, ps: seq<Payload>, rows: Payload -> nat)
    returns (flushed: nat, stored: seq<Payload>, threw: Option<Thrown>)
    ensures flushed == if Counts(EndOf(world, |ps|)) then RowsIn(rows, ps) else 0
    ensures stored == if EndOf(world, |ps|) == Kept then ps else []
    ensures threw.Some? <==> EndOf(world, |ps|) == Unwound
  {
    hide RowsIn;
    NothingIn(rows);
    flushed, stored, threw := 0, [], None;
    if !world.alive { return; }
    var conn := new Connection();
    var thrown := conn.RawBeginTransaction();
    for k := 0 to |ps|
      invariant flushed == RowsIn(rows, ps[..k]) && conn.txn == TxnBefore(world, k)
      invariant stored == [] && threw == None && fresh(conn)
      invariant forall j :: 0 <= j < k ==> world.error(j).None?
    {
      conn.txn := world.after(k);
      if world.error(k).Some? {
        flushed := 0;
        threw := conn.RawRollbackTransaction();
        return;
      }
      assert ps[..k + 1] == ps[..k] + [ps[k]];
      RowsAppend(rows, ps[..k], ps[k]);
      flushed := flushed + rows(ps[k]);
    }
    assert ps[..|ps|] == ps;
    var reached;
    thrown, reached := conn.RawCommitTransaction(world.own);
    if thrown.Some? {
      flushed := 0;
      threw := conn.RawRollbackTransaction();
    } else if reached {
      stored := ps;
    }
  }

  // ---------------------------------------------------------------------------
  // One parallel flush: workers claim entries with fetch_add
  // ---------------------------------------------------------------------------

  datatype Entry = Entry(target: string, buffer: Buffer)

  /** `Crashed`: an exception has left the worker. */
  datatype WorkerPc = Claiming | Flushing(i: nat) | Done | Crashed

  /** `background`: called by the flusher thread. `calls` and `ends` are history: how often
      each entry was flushed, and how that ended. */
  datatype Flush = Flush(
    entries: seq<Entry>,
    next: nat,
    workers: seq<WorkerPc>,
    total: nat,
    returned: bool,
    calls: seq<nat>,
    ends: seq<End>,
    background: bool)

  function Min(a: nat, b: nat): (m: nat) { if a <= b then a else b }

  /** At most 16 threads, by setting or half the hardware threads. */
  function WorkerCount(entries: nat, flushThreads: nat, hardware: nat): (n: nat)
    ensures n <= entries && n <= 16 && (entries > 0 ==> n > 0)
    ensures entries > 1 && flushThreads > 0 ==> n <= flushThreads && n in {entries, 16, flushThreads}
    ensures entries > 1 && flushThreads == 0 ==> (n == 1 || 2 * n <= hardware) && n in {1, entries, 16, hardware / 2}
  {
    if entries <= 1 then entries
    else
      var configured := if flushThreads > 0 then flushThreads else if hardware / 2 > 1 then hardware / 2 else 1;
      Min(entries, Min(configured, 16))
  }

  function NewFlush(entries: seq<Entry>, workers: nat, background: bool): (f: Flush) {
    Flush(entries, 0, seq(workers, _ => Claiming), 0, false, seq(|entries|, _ => 0), seq(|entries|, _ => Pending), background)
  }

  predicate Busy(f: Flush, w: nat, i: nat) { w < |f.workers| && f.workers[w] == Flushing(i) }

  /** The rows of the entries that ended in one of the ways `pick` accepts. */
  function SumRows(rows: Payload -> nat, entries: seq<Entry>, ends: seq<End>, pick: End -> bool): (n: nat)
    requires |entries| == |ends|
  {
    if entries == [] then 0
    else
      var k := |entries| - 1;
      SumRows(rows, entries[..k], ends[..k], pick) + if pick(ends[k]) then RowsIn(rows, entries[k].buffer.payloads) else 0
  }

  /** Some entry's rollback has thrown. */
  ghost predicate Unwinding(f: Flush) { exists i :: 0 <= i < |f.ends| && f.ends[i].Unwound? }

  /** Claimed entries are in one worker's hands or flushed once, the others untouched. */
  ghost predicate FlushOk(rows: Payload -> nat, f: Flush) {
    var n := |f.entries|;
    && |f.calls| == n && |f.ends| == n && (n > 0 ==> f.workers != [])
    && (forall i :: 0 <= i < n ==> f.calls[i] <= 1 && (f.ends[i].Pending? <==> f.calls[i] == 0))
    && (forall i :: 0 <= i < n && f.next <= i ==> f.calls[i] == 0)
    && (forall w: nat, i: nat :: Busy(f, w, i) ==> i < n && i < f.next && f.calls[i] == 0)
    && (forall w: nat, v: nat, i: nat :: Busy(f, w, i) && Busy(f, v, i) ==> w == v)
    && (forall i: nat :: i < n && i < f.next && f.calls[i] == 0 ==> exists w: nat :: Busy(f, w, i))
    && (forall w :: 0 <= w < |f.workers| && f.workers[w].Done? ==> f.next >= n)
    && f.total == SumRows(rows, f.entries, f.ends, Counts)
    && ((exists w :: 0 <= w < |f.workers| && f.workers[w].Crashed?) <==> Unwinding(f))
    && (f.returned ==> forall w :: 0 <= w < |f.workers| ==> f.workers[w].Done?)
  }

  function Claim(f: Flush, w: nat): (r: Flush)
    requires w < |f.workers|
  {
    f.(next := f.next + 1, workers := f.workers[w := if f.next >= |f.entries| then Done else Flushing(f.next)])
  }

  function Settle(rows: Payload -> nat, f: Flush, w: nat, i: nat, end: End): (r: Flush)
    requires w < |f.workers| && i < |f.entries| == |f.calls| == |f.ends|
  {
    f.(workers := f.workers[w := if end.Unwound? then Crashed else Claiming],
       calls := f.calls[i := f.calls[i] + 1], ends := f.ends[i := end],
       total := f.total + if Counts(end) then RowsIn(rows, f.entries[i].buffer.payloads) else 0)
  }

  /** A claim puts nobody else to work, and claims an entry nobody has. */
  lemma ClaimBusy(f: Flush, w: nat, v: nat, i: nat)
    requires w < |f.workers| && f.workers[w].Claiming?
    ensures Busy(Claim(f, w), v, i) <==> if v == w then i == f.next < |f.entries| else Busy(f, v, i)
  {
  }

  lemma ClaimKeepsFlush(rows: Payload -> nat, f: Flush, w: nat)
    requires FlushOk(rows, f) && w < |f.workers| && f.workers[w].Claiming? && !f.returned
    ensures FlushOk(rows, Claim(f, w))
  {
    var f' := Claim(f, w);
    forall v: nat, i: nat
      ensures Busy(f', v, i) <==> if v == w then i == f.next < |f.entries| else Busy(f, v, i)
    {
      ClaimBusy(f, w, v, i);
    }
    forall i: nat | i < |f'.entries| && i < f'.next && f'.calls[i] == 0 ensures exists v: nat :: Busy(f', v, i) {
      if i == f.next {
        assert Busy(f', w, i);
      } else {
        var v: nat :| Busy(f, v, i);
        assert Busy(f', v, i);
      }
    }
    ClaimCrashes(f, w);
  }

  lemma ClaimCrashes(f: Flush, w: nat)
    requires w < |f.workers| && f.workers[w].Claiming?
    ensures (exists v :: 0 <= v < |f.workers| && f.workers[v].Crashed?)
       <==> (exists v :: 0 <= v < |f.workers| && Claim(f, w).workers[v].Crashed?)
  {
    if v :| 0 <= v < |f.workers| && f.workers[v].Crashed? { assert Claim(f, w).workers[v].Crashed?; }
    if v :| 0 <= v < |f.workers| && Claim(f, w).workers[v].Crashed? { assert f.workers[v].Crashed?; }
  }

  lemma {:induction false} SumUpdate(
      rows: Payload -> nat, entries: seq<Entry>, ends: seq<End>, pick: End -> bool, i: nat, end: End)
    requires i < |entries| == |ends| && !pick(ends[i])
    ensures SumRows(rows, entries, ends[i := end], pick)
         == SumRows(rows, entries, ends, pick) + if pick(end) then RowsIn(rows, entries[i].buffer.payloads) else 0
    decreases |entries|
  {
    var k := |entries| - 1;
    if i < k {
      SumUpdate(rows, entries[..k], ends[..k], pick, i, end);
      assert ends[i := end][..k] == ends[..k][i := end];
    } else {
      assert ends[i := end][..k] == ends[..k];
    }
  }

  /** Whoever is busy after an entry has ended was busy before, with another entry. */
  lemma SettleBusy(rows: Payload -> nat, f: Flush, w: nat, i: nat, end: End, v: nat, j: nat)
    requires FlushOk(rows, f) && Busy(f, w, i)
    ensures Busy(Settle(rows, f, w, i, end), v, j) <==> v != w && Busy(f, v, j)
    ensures Busy(f, v, j) && v != w ==> j != i
  {
  }

  lemma SettleKeepsFlush(rows: Payload -> nat, f: Flush, w: nat, i: nat, end: End)
    requires FlushOk(rows, f) && Busy(f, w, i) && !f.returned && end != Pending
    ensures FlushOk(rows, Settle(rows, f, w, i, end))
  {
    var f' := Settle(rows, f, w, i, end);
    SumUpdate(rows, f.entries, f.ends, Counts, i, end);
    forall v: nat, j: nat
      ensures Busy(f', v, j) <==> v != w && Busy(f, v, j)
      ensures Busy(f, v, j) && v != w ==> j != i
    {
      SettleBusy(rows, f, w, i, end, v, j);
    }
    forall j: nat | j < |f'.entries| && j < f'.next && f'.calls[j] == 0 ensures exists v: nat :: Busy(f', v, j) {
      var v: nat :| Busy(f, v, j);
      assert Busy(f', v, j);
    }
    SettleCrashes(rows, f, w, i, end);
  }

  lemma SettleCrashes(rows: Payload -> nat, f: Flush, w: nat, i: nat, end: End)
    requires FlushOk(rows, f) && Busy(f, w, i)
    ensures
      var f' := Settle(rows, f, w, i, end);
      (exists v :: 0 <= v < |f'.workers| && f'.workers[v].Crashed?) <==> Unwinding(f')
  {
    var f' := Settle(rows, f, w, i, end);
    if end.Unwound? {
      assert f'.workers[w].Crashed? && f'.ends[i].Unwound?;
    } else {
      if v :| 0 <= v < |f.workers| && f.workers[v].Crashed? { assert f'.workers[v].Crashed?; }
      if j :| 0 <= j < |f.ends| && f.ends[j].Unwound? { assert f'.ends[j].Unwound?; }
      if v :| 0 <= v < |f'.workers| && f'.workers[v].Crashed? { assert f.workers[v].Crashed?; }
      if j :| 0 <= j < |f'.ends| && f'.ends[j].Unwound? { assert f.ends[j].Unwound?; }
    }
  }

  lemma {:induction false} NothingSummed(rows: Payload -> nat, entries: seq<Entry>, ends: seq<End>, pick: End -> bool)
    requires |entries| == |ends| && forall i :: 0 <= i < |ends| ==> !pick(ends[i])
    ensures SumRows(rows, entries, ends, pick) == 0
  {
    if entries != [] { NothingSummed(rows, entries[..|entries| - 1], ends[..|ends| - 1], pick); }
  }

  // ---------------------------------------------------------------------------
  // The whole protocol: any number of flushes in flight
  // ---------------------------------------------------------------------------

  datatype Place = InBuffer(target: string) | InFlush(f: nat, i: nat) | Ended(end: End)

  /** `ended` has the payloads of the entries that have ended, by how they did. `dead`: an
      exception has left a thread, and the process with it. `home` is history: where each
      payload is, by its number. */
  datatype State = State(
    buffers: Buffers,
    flushes: seq<Flush>,
    enqueued: nat,
    ended: map<End, set<nat>>,
    dead: bool,
    home: map<nat, Place>)

  const Start := State(map[], [], 0, map[], false, map[])

  function EndedAs(s: State, end: End): (ids: set<nat>) { if end in s.ended then s.ended[end] else {} }

  datatype Event =
    | Enqueue(target: string, text: string, at: int)
    | TakeAll(order: seq<string>, flushThreads: nat, hardware: nat, background: bool)
    | TakeDue(order: seq<string>, flushThreads: nat, hardware: nat, now: int, timeout: nat, dueBytes: nat)
    | ClaimNext(f: nat, w: nat)
    | FlushEnds(f: nat, w: nat, world: World)
    | Return(f: nat)

  /** `order` lists the keys of a map once each. */
  ghost predicate Lists(order: seq<string>, buffers: Buffers) {
    && (forall i :: 0 <= i < |order| ==> order[i] in buffers)
    && (forall t :: t in buffers ==> t in order)
    && (forall i, j :: 0 <= i < j < |order| ==> order[i] != order[j])
  }

  ghost predicate Enabled(s: State, e: Event) {
    && !s.dead
    && match e
    case Enqueue(_, _, _) => true
    case TakeAll(order, _, _, _) => Lists(order, s.buffers)
    case TakeDue(order, _, _, now, timeout, dueBytes) => Lists(order, DueOf(s.buffers, now, timeout, dueBytes))
    case ClaimNext(f, w) => f < |s.flushes| && w < |s.flushes[f].workers| && s.flushes[f].workers[w].Claiming?
                            && !s.flushes[f].returned
    case FlushEnds(f, w, _) => f < |s.flushes| && w < |s.flushes[f].workers| && s.flushes[f].workers[w].Flushing?
                               && !s.flushes[f].returned
    case Return(f) => f < |s.flushes| && !s.flushes[f].returned
                      && forall w :: 0 <= w < |s.flushes[f].workers| ==> s.flushes[f].workers[w].Done?
  }

  function IndexIn(order: seq<string>, t: string): (i: nat)
    requires t in order
    ensures i < |order| && order[i] == t
  {
    if order[|order| - 1] == t then |order| - 1 else IndexIn(order[..|order| - 1], t)
  }

  function Rehome(p: Place, order: seq<string>, f: nat): (r: Place) {
    if p.InBuffer? && p.target in order then InFlush(f, IndexIn(order, p.target)) else p
  }

  function Take(s: State, order: seq<string>, workers: nat, background: bool): (r: State)
    requires forall i :: 0 <= i < |order| ==> order[i] in s.buffers
  {
    var entries := seq(|order|, i requires 0 <= i < |order| => Entry(order[i], s.buffers[order[i]]));
    s.(buffers := map t | t in s.buffers && t !in order :: s.buffers[t],
       flushes := s.flushes + [NewFlush(entries, workers, background)],
       home := map id | id in s.home :: Rehome(s.home[id], order, |s.flushes|))
  }

  /** A rollback that throws in the calling thread reaches the caller; in a pool thread, or in
      the flusher, it takes the process down. */
  predicate Kills(f: Flush) { f.background || |f.entries| > 1 }

  ghost function EndFlush(rows: Payload -> nat, s: State, f: nat, w: nat, world: World): (r: State)
    requires f < |s.flushes| && w < |s.flushes[f].workers| && s.flushes[f].workers[w].Flushing?
  {
    var fl := s.flushes[f];
    var i := fl.workers[w].i;
    if i < |fl.entries| && |fl.calls| == |fl.entries| == |fl.ends| then
      var ps := fl.entries[i].buffer.payloads;
      var end := EndOf(world, |ps|);
      s.(flushes := s.flushes[f := Settle(rows, fl, w, i, end)],
         ended := s.ended[end := EndedAs(s, end) + IdsOf(ps)],
         dead := end.Unwound? && Kills(fl),
         home := map id | id in s.home :: if s.home[id] == InFlush(f, i) then Ended(end) else s.home[id])
    else s
  }

  /** The payloads whose flush ends in a step. */
  function PayloadsOf(s: State, e: Event): (ps: seq<Payload>) {
    if e.FlushEnds? && e.f < |s.flushes| && e.w < |s.flushes[e.f].workers| && s.flushes[e.f].workers[e.w].Flushing?
      && s.flushes[e.f].workers[e.w].i < |s.flushes[e.f].entries|
    then s.flushes[e.f].entries[s.flushes[e.f].workers[e.w].i].buffer.payloads
    else []
  }

  ghost function Step(rows: Payload -> nat, s: State, e: Event): (s': State)
    requires Enabled(s, e)
  {
    match e
    case Enqueue(target, text, at) =>
      s.(buffers := Enqueued(s.buffers, target, Payload(s.enqueued, text, at)), enqueued := s.enqueued + 1,
         home := s.home[s.enqueued := InBuffer(target)])
    case TakeAll(order, n, hw, background) => Take(s, order, WorkerCount(|order|, n, hw), background)
    case TakeDue(order, n, hw, _, _, _) => Take(s, order, WorkerCount(|order|, n, hw), true)
    case ClaimNext(f, w) => s.(flushes := s.flushes[f := Claim(s.flushes[f], w)])
    case FlushEnds(f, w, world) => EndFlush(rows, s, f, w, world)
    case Return(f) => s.(flushes := s.flushes[f := s.flushes[f].(returned := true)])
  }

  ghost function Run(rows: Payload -> nat, s: State, es: seq<Event>): (r: Option<State>)
    decreases |es|
  {
    if es == [] then Some(s)
    else
      var before := Run(rows, s, es[..|es| - 1]);
      if before.Some? && Enabled(before.value, es[|es| - 1]) then Some(Step(rows, before.value, es[|es| - 1])) else None
  }

  /** What is really at a place. */
  function Content(s: State, p: Place): (ids: set<nat>) {
    match p
    case InBuffer(t) => if t in s.buffers then IdsOf(s.buffers[t].payloads) else {}
    case InFlush(f, i) =>
      if f < |s.flushes| && i < |s.flushes[f].entries| && i < |s.flushes[f].calls| && s.flushes[f].calls[i] == 0
      then IdsOf(s.flushes[f].entries[i].buffer.payloads) else {}
    case Ended(end) => EndedAs(s, end)
  }

  /** Every payload ever enqueued is at its home and nowhere else. */
  ghost predicate HomeOk(s: State) {
    && (forall id: nat :: id in s.home <==> id < s.enqueued)
    && (forall p, id: nat :: id in Content(s, p) <==> id in s.home && s.home[id] == p)
  }

  ghost predicate FlushesOk(rows: Payload -> nat, s: State) {
    forall f :: 0 <= f < |s.flushes| ==> FlushOk(rows, s.flushes[f])
  }

  /** Taken buffers are still whole: non-empty, in order, with a true byte count. */
  ghost predicate TakenOk(s: State) {
    forall f, i :: 0 <= f < |s.flushes| && 0 <= i < |s.flushes[f].entries| ==> BufferOk(s.flushes[f].entries[i].buffer)
  }

  /** The process is gone exactly when a rollback has thrown in a thread of its own. */
  ghost predicate DeathOk(s: State) {
    s.dead <==> exists f :: 0 <= f < |s.flushes| && Unwinding(s.flushes[f]) && Kills(s.flushes[f])
  }

  ghost predicate Inv(rows: Payload -> nat, s: State) {
    BuffersOk(s.buffers) && TakenOk(s) && FlushesOk(rows, s) && HomeOk(s) && DeathOk(s)
  }

  lemma EnqueueKeepsHome(rows: Payload -> nat, s: State, e: Event)
    requires e.Enqueue? && Enabled(s, e) && HomeOk(s)
    ensures HomeOk(Step(rows, s, e))
  {
    var s' := Step(rows, s, e);
    var ps' := s'.buffers[e.target].payloads;
    var ps := if e.target in s.buffers then s.buffers[e.target].payloads else [];
    IdsAppend(ps, Payload(s.enqueued, e.text, e.at));
    forall p, id: nat ensures id in Content(s', p) <==> id in s'.home && s'.home[id] == p {
      assert id in Content(s, p) <==> id in s.home && s.home[id] == p;
    }
  }

  lemma IdsAppend(ps: seq<Payload>, p: Payload)
    ensures IdsOf(ps + [p]) == IdsOf(ps) + {p.id}
  {
    var all := ps + [p];
    assert all[|ps|] == p;
    forall id | id in IdsOf(ps) ensures id in IdsOf(all) {
      var k :| 0 <= k < |ps| && ps[k].id == id;
      assert all[k].id == id;
    }
  }

  lemma TakeKeepsHome(s: State, order: seq<string>, workers: nat, background: bool)
    requires HomeOk(s) && forall i :: 0 <= i < |order| ==> order[i] in s.buffers
    requires forall i, j :: 0 <= i < j < |order| ==> order[i] != order[j]
    ensures HomeOk(Take(s, order, workers, background))
  {
    var s' := Take(s, order, workers, background);
    forall p, id: nat ensures id in Content(s', p) <==> id in s'.home && s'.home[id] == p {
      assert id in Content(s, p) <==> id in s.home && s.home[id] == p;
      if p.InFlush? && p.f == |s.flushes| && p.i < |order| {
        var q := InBuffer(order[p.i]);
        assert id in Content(s, q) <==> id in s.home && s.home[id] == q;
        assert IndexIn(order, order[p.i]) == p.i;
      }
    }
  }

  lemma ClaimKeepsHome(rows: Payload -> nat, s: State, e: Event)
    requires (e.ClaimNext? || e.Return?) && Enabled(s, e) && HomeOk(s)
    ensures HomeOk(Step(rows, s, e))
  {
    var s' := Step(rows, s, e);
    forall p ensures Content(s', p) == Content(s, p) {
    }
  }

  /** The end of an entry moves its payloads and nothing else. */
  lemma EndMoves(rows: Payload -> nat, s: State, f: nat, w: nat, i: nat, world: World, p: Place)
    requires f < |s.flushes| && Busy(s.flushes[f], w, i) && FlushOk(rows, s.flushes[f])
    ensures
      var end := EndOf(world, |s.flushes[f].entries[i].buffer.payloads|);
      Content(EndFlush(rows, s, f, w, world), p)
        == (if p == InFlush(f, i) then {} else Content(s, p)) + (if p == Ended(end) then Content(s, InFlush(f, i)) else {})
  {
    hide EndOf, SumRows, RowsIn, Unwinding;
  }

  lemma EndRehomes(rows: Payload -> nat, s: State, f: nat, w: nat, i: nat, world: World)
    requires f < |s.flushes| && Busy(s.flushes[f], w, i) && FlushOk(rows, s.flushes[f])
    ensures
      var s' := EndFlush(rows, s, f, w, world);
      var end := EndOf(world, |s.flushes[f].entries[i].buffer.payloads|);
      && s'.enqueued == s.enqueued
      && s'.home == map id | id in s.home :: if s.home[id] == InFlush(f, i) then Ended(end) else s.home[id]
  {
    hide EndOf, SumRows, RowsIn, Unwinding;
  }

  lemma EndKeepsHome(rows: Payload -> nat, s: State, f: nat, w: nat, world: World)
    requires Enabled(s, FlushEnds(f, w, world)) && HomeOk(s) && FlushesOk(rows, s)
    ensures HomeOk(EndFlush(rows, s, f, w, world))
  {
    var s' := EndFlush(rows, s, f, w, world);
    var i := s.flushes[f].workers[w].i;
    var gone := InFlush(f, i);
    assert FlushOk(rows, s.flushes[f]) && Busy(s.flushes[f], w, i);
    EndRehomes(rows, s, f, w, i, world);
    forall p
      ensures forall id: nat :: id in Content(s', p) <==> id in s'.home && s'.home[id] == p
    {
      EndMoves(rows, s, f, w, i, world, p);
      hide Content, EndFlush, EndOf, FlushesOk;
      forall id: nat ensures id in Content(s', p) <==> id in s'.home && s'.home[id] == p {
        assert id in Content(s, p) <==> id in s.home && s.home[id] == p;
        assert id in Content(s, gone) <==> id in s.home && s.home[id] == gone;
      }
    }
  }

  lemma StepKeepsHome(rows: Payload -> nat, s: State, e: Event)
    requires Inv(rows, s) && Enabled(s, e)
    ensures HomeOk(Step(rows, s, e))
  {
    match e
    case Enqueue(_, _, _) => EnqueueKeepsHome(rows, s, e);
    case TakeAll(order, n, hw, background) => TakeKeepsHome(s, order, WorkerCount(|order|, n, hw), background);
    case TakeDue(order, n, hw, _, _, _) => TakeKeepsHome(s, order, WorkerCount(|order|, n, hw), true);
    case FlushEnds(f, w, world) => EndKeepsHome(rows, s, f, w, world);
    case _ => ClaimKeepsHome(rows, s, e);
  }

  lemma NewFlushOk(rows: Payload -> nat, entries: seq<Entry>, workers: nat, background: bool)
    requires entries != [] ==> workers > 0
    ensures FlushOk(rows, NewFlush(entries, workers, background))
  {
    var f := NewFlush(entries, workers, background);
    NothingSummed(rows, entries, f.ends, Counts);
  }

  lemma EndKeepsFlushes(rows: Payload -> nat, s: State, f: nat, w: nat, world: World)
    requires FlushesOk(rows, s) && Enabled(s, FlushEnds(f, w, world))
    ensures FlushesOk(rows, EndFlush(rows, s, f, w, world))
  {
    var i := s.flushes[f].workers[w].i;
    assert FlushOk(rows, s.flushes[f]) && Busy(s.flushes[f], w, i);
    var n := |s.flushes[f].entries[i].buffer.payloads|;
    EndIff(world, n);
    SettleKeepsFlush(rows, s.flushes[f], w, i, EndOf(world, n));
    hide FlushOk, EndOf, Settle;
  }

  lemma StepKeepsFlushes(rows: Payload -> nat, s: State, e: Event)
    requires FlushesOk(rows, s) && Enabled(s, e)
    ensures FlushesOk(rows, Step(rows, s, e))
  {
    var s' := Step(rows, s, e);
    match e
    case Enqueue(_, _, _) =>
    case TakeAll(order, n, hw, background) =>
      NewFlushOk(rows, s'.flushes[|s.flushes|].entries, WorkerCount(|order|, n, hw), background);
      hide FlushOk;
    case TakeDue(order, n, hw, _, _, _) =>
      NewFlushOk(rows, s'.flushes[|s.flushes|].entries, WorkerCount(|order|, n, hw), true);
      hide FlushOk;
    case ClaimNext(f, w) =>
      assert FlushOk(rows, s.flushes[f]);
      ClaimKeepsFlush(rows, s.flushes[f], w);
      hide FlushOk, Claim;
    case FlushEnds(f, w, world) => EndKeepsFlushes(rows, s, f, w, world);
    case Return(f) =>
      assert FlushOk(rows, s.flushes[f]);
      ReturnKeepsFlush(rows, s.flushes[f]);
      hide FlushOk;
  }

  lemma ReturnKeepsFlush(rows: Payload -> nat, f: Flush)
    requires FlushOk(rows, f) && forall w :: 0 <= w < |f.workers| ==> f.workers[w].Done?
    ensures FlushOk(rows, f.(returned := true))
  {
    var f' := f.(returned := true);
    assert forall w: nat, i: nat :: Busy(f', w, i) <==> Busy(f, w, i);
  }

  lemma BufferedAreOlder(s: State)
    requires HomeOk(s)
    ensures Older(s.buffers, s.enqueued)
  {
    forall t, k {:trigger s.buffers[t].payloads[k]} | t in s.buffers && 0 <= k < |s.buffers[t].payloads|
      ensures s.buffers[t].payloads[k].id < s.enqueued
    {
      var ps := s.buffers[t].payloads;
      var id := ps[k].id;
      assert id in IdsOf(ps);
      assert id in Content(s, InBuffer(t));
      assert id in s.home;
    }
  }

  lemma TakeKeepsBuffers(s: State, order: seq<string>, workers: nat, background: bool)
    requires BuffersOk(s.buffers) && TakenOk(s) && forall i :: 0 <= i < |order| ==> order[i] in s.buffers
    ensures BuffersOk(Take(s, order, workers, background).buffers) && TakenOk(Take(s, order, workers, background))
  {
  }

  lemma StepKeepsBuffers(rows: Payload -> nat, s: State, e: Event)
    requires Inv(rows, s) && Enabled(s, e)
    ensures BuffersOk(Step(rows, s, e).buffers) && TakenOk(Step(rows, s, e))
  {
    match e
    case Enqueue(target, text, at) =>
      BufferedAreOlder(s);
      EnqueueKeepsBuffers(s.buffers, target, Payload(s.enqueued, text, at));
    case TakeAll(order, n, hw, background) => TakeKeepsBuffers(s, order, WorkerCount(|order|, n, hw), background);
    case TakeDue(order, n, hw, _, _, _) => TakeKeepsBuffers(s, order, WorkerCount(|order|, n, hw), true);
    case _ => FlushStepKeepsBuffers(rows, s, e);
  }

  lemma FlushStepKeepsBuffers(rows: Payload -> nat, s: State, e: Event)
    requires TakenOk(s) && Enabled(s, e) && (e.ClaimNext? || e.FlushEnds? || e.Return?)
    ensures TakenOk(Step(rows, s, e)) && Step(rows, s, e).buffers == s.buffers
  {
    var s' := Step(rows, s, e);
    assert |s'.flushes| == |s.flushes|;
    assert forall f :: 0 <= f < |s.flushes| ==> s'.flushes[f].entries == s.flushes[f].entries;
  }

  /** Only the end of an entry can start unwinding a flush, its own. */
  lemma StepUnwinds(rows: Payload -> nat, s: State, e: Event, f: nat)
    requires FlushesOk(rows, s) && Enabled(s, e) && f < |Step(rows, s, e).flushes|
    ensures
      var fl := Step(rows, s, e).flushes[f];
      && (f < |s.flushes| ==> Kills(fl) == Kills(s.flushes[f]) && fl.entries == s.flushes[f].entries)
      && var before := f < |s.flushes| && Unwinding(s.flushes[f]);
         Unwinding(fl) <==> before || (e.FlushEnds? && e.f == f && EndOf(e.world, |PayloadsOf(s, e)|) == Unwound)
  {
    if e.FlushEnds? && e.f == f {
      var fl := s.flushes[f];
      var i := fl.workers[e.w].i;
      assert FlushOk(rows, fl) && Busy(fl, e.w, i);
      SettleUnwinds(rows, fl, e.w, i, EndOf(e.world, |fl.entries[i].buffer.payloads|));
    } else if f < |s.flushes| {
      assert Step(rows, s, e).flushes[f].ends == s.flushes[f].ends;
    }
  }

  lemma SettleUnwinds(rows: Payload -> nat, f: Flush, w: nat, i: nat, end: End)
    requires FlushOk(rows, f) && Busy(f, w, i)
    ensures Unwinding(Settle(rows, f, w, i, end)) <==> Unwinding(f) || end == Unwound
  {
    var f' := Settle(rows, f, w, i, end);
    assert f'.ends[i] == end;
    if j :| 0 <= j < |f.ends| && f.ends[j].Unwound? { assert f'.ends[j].Unwound?; }
    if j :| 0 <= j < |f'.ends| && f'.ends[j].Unwound? { assert j == i || f.ends[j].Unwound?; }
  }

  lemma StepKeepsDeath(rows: Payload -> nat, s: State, e: Event)
    requires FlushesOk(rows, s) && DeathOk(s) && Enabled(s, e)
    ensures DeathOk(Step(rows, s, e))
  {
    var s' := Step(rows, s, e);
    forall f: nat | f < |s'.flushes|
      ensures Unwinding(s'.flushes[f]) && Kills(s'.flushes[f]) ==> s'.dead
    {
      StepUnwinds(rows, s, e, f);
    }
    if s'.dead {
      StepUnwinds(rows, s, e, e.f);
    }
  }

  lemma StepKeepsInv(rows: Payload -> nat, s: State, e: Event)
    requires Inv(rows, s) && Enabled(s, e)
    ensures Inv(rows, Step(rows, s, e))
  {
    StepKeepsBuffers(rows, s, e);
    StepKeepsFlushes(rows, s, e);
    StepKeepsHome(rows, s, e);
    StepKeepsDeath(rows, s, e);
  }

  lemma {:induction false} RunKeepsInv(rows: Payload -> nat, s: State, es: seq<Event>)
    requires Inv(rows, s) && Run(rows, s, es).Some?
    ensures Inv(rows, Run(rows, s, es).value)
    decreases |es|
  {
    if es != [] {
      RunKeepsInv(rows, s, es[..|es| - 1]);
      StepKeepsInv(rows, Run(rows, s, es[..|es| - 1]).value, es[|es| - 1]);
    }
  }

  lemma StartInv(rows: Payload -> nat)
    ensures Inv(rows, Start)
  {
  }
}
