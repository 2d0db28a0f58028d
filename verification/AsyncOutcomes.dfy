/** Asynchronous inserts, over runs: where each payload is, what a flush returns and whether it
    can return at all, and concrete runs in which something goes wrong. */
module AsyncOutcomes {
  import opened Json
  import opened Transactions
  import opened AsyncBuffers

  // ---------------------------------------------------------------------------
  // Runs from the start
  // ---------------------------------------------------------------------------

  ghost predicate Reached(rows: Payload -> nat, es: seq<Event>, s: State) { Run(rows, Start, es) == Some(s) }

  lemma ReachedInv(rows: Payload -> nat, es: seq<Event>, s: State)
    requires Reached(rows, es, s)
    ensures Inv(rows, s)
  {
    StartInv(rows);
    RunKeepsInv(rows, Start, es);
  }

  /** Conservation: at every moment a payload is in exactly one of its table's buffer, one
      taken entry, and the stored, dropped, lost and unwound ones. */
  lemma ExactlyOnePlace(rows: Payload -> nat, es: seq<Event>, s: State, id: nat)
    requires Reached(rows, es, s) && id < s.enqueued
    ensures exists p :: id in Content(s, p) && forall q :: id in Content(s, q) ==> q == p
  {
    ReachedInv(rows, es, s);
    assert id in Content(s, s.home[id]);
  }

  /** After a due scan nothing that was due is left in a buffer, however it was enqueued:
      no payload waits past the timeout scan that follows it. */
  lemma NothingDueStays(rows: Payload -> nat, es: seq<Event>, s: State, e: Event, t: string)
    requires Reached(rows, es, s) && Enabled(s, e) && e.TakeDue? && t in Step(rows, s, e).buffers
    ensures
      var b := Step(rows, s, e).buffers[t];
      && b.payloads != []
      && SizeOf(b.payloads) < e.dueBytes
      && e.now - b.payloads[0].at < e.timeout
  {
    ReachedInv(rows, es, s);
    assert t in s.buffers && t !in DueOf(s.buffers, e.now, e.timeout, e.dueBytes);
  }

  /** And nothing that was not due is taken: a scan takes whole buffers that have reached the
      timeout or the size limit, and leaves the others as they were. */
  lemma OnlyDueTaken(rows: Payload -> nat, es: seq<Event>, s: State, e: Event, t: string)
    requires Reached(rows, es, s) && Enabled(s, e) && e.TakeDue?
    requires t in s.buffers
    ensures
      var b, s' := s.buffers[t], Step(rows, s, e);
      && b.payloads != [] && |s'.flushes| == |s.flushes| + 1
      && if SizeOf(b.payloads) >= e.dueBytes || e.now - b.payloads[0].at >= e.timeout
         then t !in s'.buffers && Entry(t, b) in s'.flushes[|s.flushes|].entries
         else t in s'.buffers && s'.buffers[t] == b
  {
    ReachedInv(rows, es, s);
    var s' := Step(rows, s, e);
    if t in e.order {
      var i :| 0 <= i < |e.order| && e.order[i] == t;
      assert s'.flushes[|s.flushes|].entries[i] == Entry(t, s.buffers[t]);
    }
  }

  // ---------------------------------------------------------------------------
  // What a flush returns
  // ---------------------------------------------------------------------------

  /** The step ends an entry of flush `f` with every ingestion returned, at least a row
      ingested, and the transaction invalidated when the commit is asked for. */
  predicate CommitsInvalidated(rows: Payload -> nat, s: State, e: Event, f: nat) {
    && e.FlushEnds? && e.f == f && e.world.alive
    && var ps := PayloadsOf(s, e);
       FirstError(e.world, |ps|).None? && TxnBefore(e.world, |ps|).Invalidated? && RowsIn(rows, ps) > 0
  }

  /** The step ends an entry of flush `f` with a failure that had ended the transaction. */
  predicate FailsEnded(s: State, e: Event, f: nat) {
    e.FlushEnds? && e.f == f && e.world.alive && FailureLeaves(e.world, |PayloadsOf(s, e)|) == Some(Inactive)
  }

  ghost function StateAt(rows: Payload -> nat, es: seq<Event>, k: nat): (s: State)
    requires k <= |es|
  {
    var r := Run(rows, Start, es[..k]);
    if r.Some? then r.value else Start
  }

  ghost predicate HasInvalidated(rows: Payload -> nat, es: seq<Event>, f: nat) {
    exists k :: 0 <= k < |es| && CommitsInvalidated(rows, StateAt(rows, es, k), es[k], f)
  }

  ghost predicate HasFailedEnded(rows: Payload -> nat, es: seq<Event>, f: nat) {
    exists k :: 0 <= k < |es| && FailsEnded(StateAt(rows, es, k), es[k], f)
  }

  /** The last step of a run. */
  lemma LastStep(rows: Payload -> nat, es: seq<Event>, s: State) returns (before: State)
    requires Reached(rows, es, s) && es != []
    ensures before == StateAt(rows, es, |es| - 1) && Reached(rows, es[..|es| - 1], before) && Inv(rows, before)
    ensures Enabled(before, es[|es| - 1]) && s == Step(rows, before, es[|es| - 1])
  {
    before := StateAt(rows, es, |es| - 1);
    ReachedInv(rows, es[..|es| - 1], before);
  }

  lemma EarlierState(rows: Payload -> nat, es: seq<Event>, k: nat)
    requires k < |es|
    ensures StateAt(rows, es[..|es| - 1], k) == StateAt(rows, es, k)
  {
    assert es[..|es| - 1][..k] == es[..k];
  }

  lemma InvalidatedGrows(rows: Payload -> nat, es: seq<Event>, f: nat)
    requires es != []
    ensures
      var n := |es| - 1;
      HasInvalidated(rows, es, f) <==>
        HasInvalidated(rows, es[..n], f) || CommitsInvalidated(rows, StateAt(rows, es, n), es[n], f)
  {
    var n := |es| - 1;
    var before := es[..n];
    hide StateAt, CommitsInvalidated;
    if HasInvalidated(rows, es, f) {
      var k :| 0 <= k < |es| && CommitsInvalidated(rows, StateAt(rows, es, k), es[k], f);
      if k < n {
        EarlierState(rows, es, k);
        assert CommitsInvalidated(rows, StateAt(rows, before, k), before[k], f);
      }
    }
    if HasInvalidated(rows, before, f) {
      var k :| 0 <= k < n && CommitsInvalidated(rows, StateAt(rows, before, k), before[k], f);
      EarlierState(rows, es, k);
      assert CommitsInvalidated(rows, StateAt(rows, es, k), es[k], f);
    }
  }

  lemma FailedEndedGrows(rows: Payload -> nat, es: seq<Event>, f: nat)
    requires es != []
    ensures
      var n := |es| - 1;
      HasFailedEnded(rows, es, f) <==> HasFailedEnded(rows, es[..n], f) || FailsEnded(StateAt(rows, es, n), es[n], f)
  {
    var n := |es| - 1;
    var before := es[..n];
    hide StateAt, FailsEnded;
    if HasFailedEnded(rows, es, f) {
      var k :| 0 <= k < |es| && FailsEnded(StateAt(rows, es, k), es[k], f);
      if k < n {
        EarlierState(rows, es, k);
        assert FailsEnded(StateAt(rows, before, k), before[k], f);
      }
    }
    if HasFailedEnded(rows, before, f) {
      var k :| 0 <= k < n && FailsEnded(StateAt(rows, before, k), before[k], f);
      EarlierState(rows, es, k);
      assert FailsEnded(StateAt(rows, es, k), es[k], f);
    }
  }

  predicate IsKept(end: End) { end.Kept? }
  predicate IsLost(end: End) { end.Lost? }

  /** The rows of the entries of a flush that its commit has really stored. */
  function StoredRows(rows: Payload -> nat, f: Flush): (n: nat)
    requires |f.entries| == |f.ends|
  {
    SumRows(rows, f.entries, f.ends, IsKept)
  }

  lemma {:induction false} CountedIsKeptOrLost(rows: Payload -> nat, entries: seq<Entry>, ends: seq<End>)
    requires |entries| == |ends|
    ensures SumRows(rows, entries, ends, Counts) == SumRows(rows, entries, ends, IsKept) + SumRows(rows, entries, ends, IsLost)
  {
    if entries != [] { CountedIsKeptOrLost(rows, entries[..|entries| - 1], ends[..|ends| - 1]); }
  }

  /** Rows are lost by a step exactly when it commits an invalidated transaction. */
  lemma StepLoses(rows: Payload -> nat, s: State, e: Event, f: nat)
    requires FlushesOk(rows, s) && Enabled(s, e) && f < |Step(rows, s, e).flushes|
    ensures
      var fl := Step(rows, s, e).flushes[f];
      && |fl.entries| == |fl.ends|
      && var before := if f < |s.flushes| then SumRows(rows, s.flushes[f].entries, s.flushes[f].ends, IsLost) else 0;
         SumRows(rows, fl.entries, fl.ends, IsLost) > 0 <==> before > 0 || CommitsInvalidated(rows, s, e, f)
  {
    var fl := Step(rows, s, e).flushes[f];
    if e.FlushEnds? && e.f == f {
      var fl := s.flushes[f];
      var i := fl.workers[e.w].i;
      assert FlushOk(rows, fl) && Busy(fl, e.w, i);
      var n := |fl.entries[i].buffer.payloads|;
      EndIff(e.world, n);
      SumUpdate(rows, fl.entries, fl.ends, IsLost, i, EndOf(e.world, n));
      hide SumRows, RowsIn, EndOf, FirstError;
    } else if f < |s.flushes| {
      assert FlushOk(rows, s.flushes[f]);
      assert fl.ends == s.flushes[f].ends && fl.entries == s.flushes[f].entries;
    } else {
      NothingSummed(rows, fl.entries, fl.ends, IsLost);
    }
  }

  lemma {:induction false} LostIff(rows: Payload -> nat, es: seq<Event>, s: State, f: nat)
    requires Reached(rows, es, s)
    ensures f < |s.flushes| ==> |s.flushes[f].entries| == |s.flushes[f].ends|
    ensures HasInvalidated(rows, es, f) <==>
      f < |s.flushes| && SumRows(rows, s.flushes[f].entries, s.flushes[f].ends, IsLost) > 0
    decreases |es|
  {
    if es != [] {
      var before := LastStep(rows, es, s);
      LostIff(rows, es[..|es| - 1], before, f);
      InvalidatedGrows(rows, es, f);
      FlushesGrow(rows, before, es[|es| - 1], f);
      if f < |s.flushes| { StepLoses(rows, before, es[|es| - 1], f); }
      hide *;
    }
  }

  lemma {:induction false} UnwindingIff(rows: Payload -> nat, es: seq<Event>, s: State, f: nat)
    requires Reached(rows, es, s)
    ensures HasFailedEnded(rows, es, f) <==> f < |s.flushes| && Unwinding(s.flushes[f])
    decreases |es|
  {
    if es != [] {
      var before := LastStep(rows, es, s);
      UnwindingIff(rows, es[..|es| - 1], before, f);
      FailedEndedGrows(rows, es, f);
      FlushesGrow(rows, before, es[|es| - 1], f);
      if f < |s.flushes| { StepUnwinds(rows, before, es[|es| - 1], f); }
      FailsEndedIff(before, es[|es| - 1], f);
      hide *;
    }
  }

  lemma FailsEndedIff(s: State, e: Event, f: nat)
    ensures FailsEnded(s, e, f) <==> e.FlushEnds? && e.f == f && EndOf(e.world, |PayloadsOf(s, e)|) == Unwound
  {
    if e.FlushEnds? { EndIff(e.world, |PayloadsOf(s, e)|); }
  }

  /** Flushes do not go away, and steps of one that is not there do not happen. */
  lemma FlushesGrow(rows: Payload -> nat, s: State, e: Event, f: nat)
    requires FlushesOk(rows, s) && Enabled(s, e)
    ensures |s.flushes| <= |Step(rows, s, e).flushes|
    ensures f >= |s.flushes| ==> !CommitsInvalidated(rows, s, e, f) && !FailsEnded(s, e, f)
  {
  }

  lemma FlushesOnce(rows: Payload -> nat, f: Flush)
    requires FlushOk(rows, f) && f.returned
    ensures forall i :: 0 <= i < |f.entries| ==> f.calls[i] == 1
  {
    assert forall w: nat, i: nat :: !Busy(f, w, i);
    forall i: nat | i < |f.entries| ensures f.calls[i] == 1 {
      assert f.workers[0].Done?;
    }
  }

  /** When a flush returns, whatever the interleaving with other flushes and enqueues: each
      taken table was flushed exactly once, and all its payloads are settled. The total is the
      rows stored exactly when none of its commits met an invalidated transaction with rows in
      it; otherwise it is too high. */
  lemma FlushSettlesAll(rows: Payload -> nat, es: seq<Event>, s: State, f: nat)
    requires Reached(rows, es, s) && f < |s.flushes| && s.flushes[f].returned
    ensures
      var fl := s.flushes[f];
      && |fl.calls| == |fl.ends| == |fl.entries|
      && (forall i :: 0 <= i < |fl.entries| ==> fl.calls[i] == 1)
      && (forall i :: Content(s, InFlush(f, i)) == {})
      && (fl.total == StoredRows(rows, fl) <==> !HasInvalidated(rows, es, f))
      && fl.total >= StoredRows(rows, fl)
  {
    ReachedInv(rows, es, s);
    var fl := s.flushes[f];
    assert FlushOk(rows, fl);
    FlushesOnce(rows, fl);
    LostIff(rows, es, s, f);
    CountedIsKeptOrLost(rows, fl.entries, fl.ends);
  }

  // ---------------------------------------------------------------------------
  // Whether a flush can return
  // ---------------------------------------------------------------------------

  lemma {:induction false} RunFrom(rows: Payload -> nat, s: State, e: Event, es: seq<Event>)
    requires Enabled(s, e)
    ensures Run(rows, s, [e] + es) == Run(rows, Step(rows, s, e), es)
    decreases |es|
  {
    var all := [e] + es;
    if es == [] {
      assert all[..0] == [] && Run(rows, s, all[..0]) == Some(s);
      assert all[0] == e;
    } else {
      RunFrom(rows, s, e, es[..|es| - 1]);
      assert all[..|all| - 1] == [e] + es[..|es| - 1];
    }
  }

  function Left(workers: seq<WorkerPc>): (n: nat) {
    if workers == [] then 0
    else
      Left(workers[..|workers| - 1])
        + match workers[|workers| - 1] { case Claiming => 1 case Flushing(_) => 2 case Done => 0 case Crashed => 0 }
  }

  function WorkLeft(f: Flush): (n: nat) {
    Left(f.workers) + 2 * (if f.next < |f.entries| then |f.entries| - f.next else 0)
  }

  lemma {:induction false} LeftMoves(workers: seq<WorkerPc>, w: nat, pc: WorkerPc)
    requires w < |workers|
    ensures Left(workers[w := pc]) + Left([workers[w]]) == Left(workers) + Left([pc])
    decreases |workers|
  {
    var k := |workers| - 1;
    assert [workers[w]][..0] == [] && [pc][..0] == [];
    if w < k {
      LeftMoves(workers[..k], w, pc);
      assert workers[w := pc][..k] == workers[..k][w := pc];
    } else {
      assert workers[w := pc][..k] == workers[..k];
    }
  }

  /** No failure in it ends a transaction. */
  ghost predicate Gentle(world: World) { forall n: nat :: EndOf(world, n) != Unwound }

  /** The database has gone away: entries are dropped. */
  const GONE := World(false, _ => None, _ => Inactive, Succeeds)

  /** A flush that is neither back nor unwinding has a step that brings it nearer. */
  ghost predicate Nears(rows: Payload -> nat, s: State, e: Event, f: nat) {
    && f < |s.flushes| && Enabled(s, e)
    && var s' := Step(rows, s, e);
       && !s'.dead && |s'.flushes| == |s.flushes|
       && (s'.flushes[f].returned || WorkLeft(s'.flushes[f]) < WorkLeft(s.flushes[f]))
  }

  lemma ClaimNears(rows: Payload -> nat, s: State, f: nat, w: nat)
    requires Enabled(s, ClaimNext(f, w))
    ensures Nears(rows, s, ClaimNext(f, w), f)
  {
    LeftMoves(s.flushes[f].workers, w, Claim(s.flushes[f], w).workers[w]);
  }

  lemma EndNears(rows: Payload -> nat, s: State, f: nat, w: nat, world: World)
    requires Gentle(world) && FlushesOk(rows, s) && Enabled(s, FlushEnds(f, w, world))
    ensures Nears(rows, s, FlushEnds(f, w, world), f)
  {
    var fl := s.flushes[f];
    assert FlushOk(rows, fl) && Busy(fl, w, fl.workers[w].i);
    LeftMoves(fl.workers, w, Claiming);
    hide EndOf, RowsIn, SumRows, FlushOk;
  }

  lemma NextStep(rows: Payload -> nat, s: State, f: nat, world: World) returns (e: Event)
    requires Gentle(world)
    requires Inv(rows, s) && !s.dead && f < |s.flushes| && !s.flushes[f].returned && !Unwinding(s.flushes[f])
    ensures Nears(rows, s, e, f) && !Unwinding(Step(rows, s, e).flushes[f])
    ensures e.FlushEnds? ==> e.world == world
  {
    var fl := s.flushes[f];
    assert FlushOk(rows, fl);
    assert forall w :: 0 <= w < |fl.workers| ==> !fl.workers[w].Crashed?;
    if w: nat :| w < |fl.workers| && fl.workers[w].Claiming? {
      e := ClaimNext(f, w);
      ClaimNears(rows, s, f, w);
    } else if w: nat :| w < |fl.workers| && fl.workers[w].Flushing? {
      e := FlushEnds(f, w, world);
      EndNears(rows, s, f, w, world);
    } else {
      e := Return(f);
    }
    StepUnwinds(rows, s, e, f);
    hide Unwinding, FlushOk, Step, Nears, WorkLeft;
  }

  /** As long as the database ends no transaction by itself, a flush that is not unwinding can
      run to its end, whatever else the database does. */
  lemma {:induction false} Finish(rows: Payload -> nat, s: State, f: nat, world: World) returns (es: seq<Event>)
    requires Gentle(world)
    requires Inv(rows, s) && !s.dead && f < |s.flushes| && !Unwinding(s.flushes[f])
    ensures forall k :: 0 <= k < |es| && es[k].FlushEnds? ==> es[k].world == world
    ensures
      var r := Run(rows, s, es);
      r.Some? && f < |r.value.flushes| && r.value.flushes[f].returned
    decreases if s.flushes[f].returned then 0 else 1, WorkLeft(s.flushes[f])
  {
    if s.flushes[f].returned {
      es := [];
    } else {
      var e := NextStep(rows, s, f, world);
      StepKeepsInv(rows, s, e);
      es := Finish(rows, Step(rows, s, e), f, world);
      RunFrom(rows, s, e, es);
      es := [e] + es;
    }
  }

  lemma {:induction false} StaysUnwinding(rows: Payload -> nat, s: State, es: seq<Event>, f: nat)
    requires Inv(rows, s) && f < |s.flushes| && Unwinding(s.flushes[f]) && Run(rows, s, es).Some?
    ensures
      var s' := Run(rows, s, es).value;
      f < |s'.flushes| && Unwinding(s'.flushes[f]) && !s'.flushes[f].returned
    decreases |es|
  {
    var s' := Run(rows, s, es).value;
    RunKeepsInv(rows, s, es);
    if es != [] {
      var before := es[..|es| - 1];
      StaysUnwinding(rows, s, before, f);
      RunKeepsInv(rows, s, before);
      FlushesGrow(rows, Run(rows, s, before).value, es[|es| - 1], f);
      StepUnwinds(rows, Run(rows, s, before).value, es[|es| - 1], f);
    }
    NoReturn(rows, s', f);
    hide Unwinding, Inv, Step, Enabled;
  }

  lemma NoReturn(rows: Payload -> nat, s: State, f: nat)
    requires Inv(rows, s) && f < |s.flushes| && Unwinding(s.flushes[f])
    ensures !s.flushes[f].returned
  {
    assert FlushOk(rows, s.flushes[f]);
  }

  lemma {:induction false} DeadStays(rows: Payload -> nat, s: State, es: seq<Event>)
    requires s.dead && Run(rows, s, es).Some?
    ensures es == []
    decreases |es|
  {
    if es != [] {
      DeadStays(rows, s, es[..|es| - 1]);
    }
  }

  ghost predicate CanReturn(rows: Payload -> nat, s: State, f: nat) {
    exists es ::
      var r := Run(rows, s, es);
      r.Some? && f < |r.value.flushes| && r.value.flushes[f].returned
  }

  /** What becomes of the process when a rollback throws: one table asked for by a caller is
      flushed in the caller's own thread, which gets the exception; several have threads of
      their own, and so has the flusher, and there nobody catches it. */
  lemma DeathIff(rows: Payload -> nat, es: seq<Event>, s: State, e: Event)
    requires Reached(rows, es, s) && Enabled(s, e) && e.FlushEnds? && FailsEnded(s, e, e.f)
    ensures Step(rows, s, e).dead <==> s.flushes[e.f].background || |s.flushes[e.f].entries| >= 2
  {
    ReachedInv(rows, es, s);
    FailsEndedIff(s, e, e.f);
    assert FlushOk(rows, s.flushes[e.f]) && Busy(s.flushes[e.f], e.w, s.flushes[e.f].workers[e.w].i);
  }

  /** A flush under way can still return exactly when none of its own failures had already
      ended its transaction, and no failure in a thread of another flush had. */
  lemma CanReturnIff(rows: Payload -> nat, es: seq<Event>, s: State, f: nat)
    requires Reached(rows, es, s) && f < |s.flushes| && !s.flushes[f].returned
    ensures CanReturn(rows, s, f) <==>
      !HasFailedEnded(rows, es, f)
      && forall g :: 0 <= g < |s.flushes| && Kills(s.flushes[g]) ==> !HasFailedEnded(rows, es, g)
  {
    ReachedInv(rows, es, s);
    forall g: nat ensures HasFailedEnded(rows, es, g) <==> g < |s.flushes| && Unwinding(s.flushes[g]) {
      UnwindingIff(rows, es, s, g);
    }
    hide HasFailedEnded, Unwinding;
    if !s.dead && !Unwinding(s.flushes[f]) {
      var rest := Finish(rows, s, f, GONE);
    } else if CanReturn(rows, s, f) {
      var rest :|
        var r := Run(rows, s, rest);
        r.Some? && f < |r.value.flushes| && r.value.flushes[f].returned;
      if s.dead { DeadStays(rows, s, rest); } else { StaysUnwinding(rows, s, rest, f); }
      assert false;
    }
  }

  // ---------------------------------------------------------------------------
  // What can go wrong
  // ---------------------------------------------------------------------------

  /** Every payload has one row. */
  const ONE: Payload -> nat := _ => 1

  const CONFLICT := Thrown(true, "conflict")

  /** The ingestion returns with its transaction invalidated. */
  const INVALIDATES := World(true, _ => None, _ => Invalidated, Succeeds)

  /** The database's commit fails and ends the transaction. */
  const FAILS := World(true, _ => None, _ => Active, Fails(CONFLICT, Inactive))

  const LONE := Payload(0, "x", 0)
  const BUFFERED := Buffer([LONE], 1, 0)

  /** One payload is enqueued and taken. */
  function Taking(background: bool): (es: seq<Event>) {
    [Enqueue("t", "x", 0), if background then TakeDue(["t"], 0, 2, 5, 1, 100) else TakeAll(["t"], 0, 2, false)]
  }

  function LoneFlush(background: bool, pc: WorkerPc, next: nat, end: End, returned: bool): (f: Flush) {
    Flush([Entry("t", BUFFERED)], next, [pc], if Counts(end) then 1 else 0, returned,
          [if end.Pending? then 0 else 1], [end], background)
  }

  /** Then its flush, by one worker, is so far. */
  function OneFlush(background: bool, pc: WorkerPc, next: nat, end: End, returned: bool): (s: State) {
    State(map[], [LoneFlush(background, pc, next, end, returned)], 1,
          if end.Pending? then map[] else map[end := {0}], end.Unwound? && background,
          map[0 := if end.Pending? then InFlush(0, 0) else Ended(end)])
  }

  lemma RunMore(es: seq<Event>, s: State, e: Event, s': State)
    requires Reached(ONE, es, s) && Enabled(s, e) && s' == Step(ONE, s, e)
    ensures Reached(ONE, es + [e], s')
  {
    assert (es + [e])[..|es|] == es;
  }

  lemma LoneTaken(s: State, background: bool)
    requires s == State(map["t" := BUFFERED], [], 1, map[], false, map[0 := InBuffer("t")])
    ensures Enabled(s, Taking(background)[1])
    ensures Step(ONE, s, Taking(background)[1]) == OneFlush(background, Claiming, 0, Pending, false)
  {
    var order := ["t"];
    assert "t" in order && order[0] == "t";
    var s' := Take(s, order, 1, background);
    assert s'.buffers == map[];
    assert s'.flushes[0].entries == [Entry("t", BUFFERED)];
    assert s'.flushes[0] == LoneFlush(background, Claiming, 0, Pending, false);
    assert s'.home == map[0 := InFlush(0, 0)];
  }

  lemma TakingReaches(background: bool)
    ensures Reached(ONE, Taking(background), OneFlush(background, Claiming, 0, Pending, false))
  {
    var es := Taking(background);
    var s1 := State(map["t" := BUFFERED], [], 1, map[], false, map[0 := InBuffer("t")]);
    assert Reached(ONE, [], Start);
    assert [] + [LONE] == [LONE];
    RunMore([], Start, es[0], s1);
    LoneTaken(s1, background);
    RunMore([] + [es[0]], s1, es[1], OneFlush(background, Claiming, 0, Pending, false));
    assert [] + [es[0]] + [es[1]] == es;
  }

  lemma LoneClaims(background: bool, next: nat, end: End)
    requires !end.Unwound?
    ensures
      var s := OneFlush(background, Claiming, next, end, false);
      var e := ClaimNext(0, 0);
      Enabled(s, e)
      && Step(ONE, s, e) == OneFlush(background, if next >= 1 then Done else Flushing(next), next + 1, end, false)
  {
    var f := LoneFlush(background, Claiming, next, end, false);
    assert Claim(f, 0) == LoneFlush(background, if next >= 1 then Done else Flushing(next), next + 1, end, false);
  }

  lemma LoneReturns(background: bool, next: nat, end: End)
    requires !end.Unwound?
    ensures
      var s := OneFlush(background, Done, next, end, false);
      Enabled(s, Return(0)) && Step(ONE, s, Return(0)) == OneFlush(background, Done, next, end, true)
  {
  }

  lemma LoneEnds(background: bool, world: World, end: End)
    requires end == EndOf(world, 1)
    ensures Enabled(OneFlush(background, Flushing(0), 1, Pending, false), FlushEnds(0, 0, world))
    ensures Step(ONE, OneFlush(background, Flushing(0), 1, Pending, false), FlushEnds(0, 0, world))
         == OneFlush(background, if end.Unwound? then Crashed else Claiming, 1, end, false)
  {
    EndIff(world, 1);
    var s := OneFlush(background, Flushing(0), 1, Pending, false);
    var ps := [LONE];
    assert ps[..0] == [] && RowsIn(ONE, ps[..0]) == 0 && RowsIn(ONE, ps) == 1;
    assert IdsOf(ps) == {0} by { assert ps[0] == LONE; }
    var s' := EndFlush(ONE, s, 0, 0, world);
    assert s'.flushes[0] == LoneFlush(background, if end.Unwound? then Crashed else Claiming, 1, end, false);
    assert s.flushes[0].entries[0].buffer.payloads == ps && EndedAs(s, end) + IdsOf(ps) == {0};
    assert s'.ended == map[end := {0}];
    assert s'.home == map[0 := Ended(end)];
  }

  function Ending(background: bool, world: World): (es: seq<Event>) {
    Taking(background) + [ClaimNext(0, 0)] + [FlushEnds(0, 0, world)]
  }

  lemma EndingReaches(background: bool, world: World, end: End)
    requires end == EndOf(world, 1)
    ensures Reached(ONE, Ending(background, world),
                    OneFlush(background, if end.Unwound? then Crashed else Claiming, 1, end, false))
  {
    var s2, s3 := OneFlush(background, Claiming, 0, Pending, false), OneFlush(background, Flushing(0), 1, Pending, false);
    TakingReaches(background);
    LoneClaims(background, 0, Pending);
    LoneEnds(background, world, end);
    hide Reached, Step, OneFlush, Enabled;
    RunMore(Taking(background), s2, ClaimNext(0, 0), s3);
    RunMore(Taking(background) + [ClaimNext(0, 0)], s3, FlushEnds(0, 0, world),
            OneFlush(background, if end.Unwound? then Crashed else Claiming, 1, end, false));
  }

  /** A flush reports a row of which nothing was stored. */
  lemma InvalidatedCommitCountsRows()
    ensures
      var s := OneFlush(false, Done, 2, Lost, true);
      && Reached(ONE, Ending(false, INVALIDATES) + [ClaimNext(0, 0)] + [Return(0)], s)
      && s.flushes[0].returned && s.flushes[0].total == 1 && EndedAs(s, Kept) == {}
  {
    EndIff(INVALIDATES, 1);
    assert FirstError(INVALIDATES, 1).None?;
    EndingReaches(false, INVALIDATES, Lost);
    var es := Ending(false, INVALIDATES);
    var s5 := OneFlush(false, Done, 2, Lost, false);
    LoneClaims(false, 1, Lost);
    LoneReturns(false, 2, Lost);
    RunMore(es, OneFlush(false, Claiming, 1, Lost, false), ClaimNext(0, 0), s5);
    RunMore(es + [ClaimNext(0, 0)], s5, Return(0), OneFlush(false, Done, 2, Lost, true));
  }

  /** A failed commit: the flush that was asked for never returns; in the flusher's thread it
      takes the process down. */
  lemma FailedCommitUnwinds(background: bool, more: seq<Event>)
    ensures
      var s := OneFlush(background, Crashed, 1, Unwound, false);
      && Reached(ONE, Ending(background, FAILS), s)
      && (background ==> s.dead)
      && (Run(ONE, s, more).Some? ==>
            var s' := Run(ONE, s, more).value; |s'.flushes| > 0 && !s'.flushes[0].returned)
  {
    var s := OneFlush(background, Crashed, 1, Unwound, false);
    EndIff(FAILS, 1);
    assert FirstError(FAILS, 1).None?;
    EndingReaches(background, FAILS, Unwound);
    if Run(ONE, s, more).Some? {
      ReachedInv(ONE, Ending(background, FAILS), s);
      assert s.flushes[0].ends[0].Unwound?;
      StaysUnwinding(ONE, s, more, 0);
    }
  }
}
