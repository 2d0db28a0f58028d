/** Group commit, what requests are told: results reach a request in single writes, made
    without the lock, and its owner may look in between. */
module GroupResults {
  import opened Json
  import opened Transactions
  import opened GroupCommit

  /** A request object after the first `k` writes. */
  function Written(req: Request, v: Verdict, k: nat): (item: Item) {
    Item(k >= 1, k >= 2 && v.Bad?, if k >= 3 && v.Bad? then v.message else "",
         if v.Bad? then NO_STATS
         else Stats(if k >= 7 then |req.rows| else if k >= 5 then v.stats.rows else 0,
                    if k >= 8 then req.errors else if k >= 6 then v.stats.errors else 0,
                    if k >= 4 then v.stats.shared else 0))
  }

  lemma WriteNext(req: Request, v: Verdict, k: nat)
    requires k < Writes(v)
    ensures WriteField(Written(req, v, k), req, v, k) == Written(req, v, k + 1)
  {
  }

  /** The figures an owner ends up with that read them after so many writes each. */
  function Figures(req: Request, v: Verdict, seen: Seen): (s: Stats) {
    Stats(Written(req, v, seen.rows).stats.rows, Written(req, v, seen.last).stats.errors,
          Written(req, v, seen.shared).stats.shared)
  }

  /** What an owner says that read `failed` after `looked` writes and the rest as in `seen`. */
  function Told(req: Request, v: Verdict, looked: nat, seen: Seen): (o: Outcome) {
    if Written(req, v, looked).failed then Failed(Written(req, v, seen.last).message) else Committed(Figures(req, v, seen))
  }

  /** The owner had seen all writes that matter for it: for a failure the flag and the
      message, unless that is empty; for a success those of each figure, or the value that
      was there instead happens to be the right one. */
  predicate SawEnough(req: Request, v: Verdict, looked: nat, seen: Seen) {
    match v
    case Bad(m) => looked >= 2 && (seen.last >= 3 || m == "")
    case Good(s) =>
      && (seen.shared >= 4 || s.shared == 0)
      && (seen.rows >= 7 || (if seen.rows >= 5 then s.rows else 0) == |req.rows|)
      && (seen.last >= 8 || (if seen.last >= 6 then s.errors else 0) == req.errors)
  }

  lemma ToldIff(req: Request, v: Verdict, looked: nat, seen: Seen)
    ensures Told(req, v, looked, seen) == OutcomeOf(req, v) <==> SawEnough(req, v, looked, seen)
  {
  }

  // ---------------------------------------------------------------------------
  // Writes so far
  // ---------------------------------------------------------------------------

  ghost predicate SettledIn(t: Table, r: nat, i: nat) {
    i < |t.rounds| && r in t.rounds[i].batch
  }

  ghost predicate Settled(t: Table, r: nat) { exists i: nat :: SettledIn(t, r, i) }

  ghost predicate MarkingNow(t: Table) {
    exists r :: 0 <= r < |t.pcs| && MarkingPc(t.pcs[r])
  }

  /** All requests of round `i` are completely written. */
  ghost predicate RoundDone(t: Table, i: nat)
    requires Sized(t) && RoundsInRange(t) && i < |t.rounds|
  {
    forall j :: 0 <= j < |t.rounds[i].batch| ==> t.writes[t.rounds[i].batch[j]] == Writes(t.rounds[i].verdict)
  }

  function WritesAt(st: Stage, j: nat): (n: nat)
    requires st.Marking?
  {
    if j < st.next then Writes(st.verdict) else if j == st.next then st.step else 0
  }

  ghost predicate MarkedUpTo(t: Table, st: Stage)
    requires Sized(t) && RoundsInRange(t) && st.Marking?
  {
    && t.rounds != []
    && var last := t.rounds[|t.rounds| - 1];
       && st.next <= |last.batch| && st.step < Writes(st.verdict) && (st.next == |last.batch| ==> st.step == 0)
       && forall j: nat :: j < |last.batch| ==> t.writes[last.batch[j]] == WritesAt(st, j)
  }

  ghost predicate RoundsMarked(t: Table) {
    && Sized(t) && RoundsInRange(t)
    && (forall i: nat :: i + 1 < |t.rounds| ==> RoundDone(t, i))
    && (t.rounds != [] && !MarkingNow(t) ==> RoundDone(t, |t.rounds| - 1))
    && (forall r :: 0 <= r < |t.pcs| && MarkingPc(t.pcs[r]) ==> MarkedUpTo(t, t.pcs[r].stage))
  }

  /** A settled request object holds the first so many writes of its own round's result,
      and nobody touches one that is not settled. */
  ghost predicate ItemsMatch(t: Table) {
    && Sized(t)
    && (forall r: nat, i: nat :: r < |t.reqs| && SettledIn(t, r, i) ==>
          t.writes[r] <= Writes(t.rounds[i].verdict) && t.items[r] == Written(t.reqs[r], t.rounds[i].verdict, t.writes[r]))
    && (forall r: nat :: r < |t.reqs| && !Settled(t, r) ==> t.items[r] == FRESH && t.writes[r] == 0)
  }

  ghost predicate Results(t: Table) { RoundsMarked(t) && ItemsMatch(t) }

  /** No request belongs to two rounds, or twice to one. */
  lemma {:induction false} FlatDistinct(rounds: seq<Round>, i: nat, j: nat, x: nat, y: nat)
    requires Distinct(Flat(rounds)) && i < |rounds| && j < |rounds|
    requires x < |rounds[i].batch| && y < |rounds[j].batch| && rounds[i].batch[x] == rounds[j].batch[y]
    ensures i == j && x == y
    decreases |rounds|
  {
    var init, last := rounds[..|rounds| - 1], rounds[|rounds| - 1];
    var n := |Flat(init)|;
    assert forall k :: 0 <= k < |last.batch| ==> Flat(rounds)[n + k] == last.batch[k];
    assert forall k :: 0 <= k < n ==> Flat(rounds)[k] == Flat(init)[k];
    if i < |init| && j < |init| {
      FlatDistinct(init, i, j, x, y);
    } else if i < |init| {
      InFlat(init, i, x);
    } else if j < |init| {
      InFlat(init, j, y);
    }
  }

  lemma {:induction false} InFlat(rounds: seq<Round>, i: nat, x: nat)
    requires i < |rounds| && x < |rounds[i].batch|
    ensures rounds[i].batch[x] in Flat(rounds)
    decreases |rounds|
  {
    if i < |rounds| - 1 { InFlat(rounds[..|rounds| - 1], i, x); }
  }

  lemma {:induction false} RoundOf(rounds: seq<Round>, r: nat) returns (i: nat)
    requires r in Flat(rounds)
    ensures i < |rounds| && r in rounds[i].batch
    decreases |rounds|
  {
    if r in rounds[|rounds| - 1].batch {
      i := |rounds| - 1;
    } else {
      i := RoundOf(rounds[..|rounds| - 1], r);
    }
  }

  lemma FlatOfFifo(t: Table)
    requires Fifo(t)
    ensures Distinct(Flat(t.rounds))
  {
    forall i, j | 0 <= i < j < |Flat(t.rounds)| ensures Flat(t.rounds)[i] != Flat(t.rounds)[j] {
      assert t.entered[i] == Flat(t.rounds)[i] && t.entered[j] == Flat(t.rounds)[j];
    }
  }

  lemma SameRound(t: Table, r: nat, i: nat, j: nat)
    requires Distinct(Flat(t.rounds)) && SettledIn(t, r, i) && SettledIn(t, r, j)
    ensures i == j
  {
    var x :| 0 <= x < |t.rounds[i].batch| && t.rounds[i].batch[x] == r;
    var y :| 0 <= y < |t.rounds[j].batch| && t.rounds[j].batch[y] == r;
    FlatDistinct(t.rounds, i, j, x, y);
  }

  /** A request of the batch being committed is in no round yet. */
  lemma CurrentIsUnsettled(t: Table, r: nat)
    requires Fifo(t) && r in t.current
    ensures !Settled(t, r)
  {
    if i: nat :| SettledIn(t, r, i) {
      var x :| 0 <= x < |t.rounds[i].batch| && t.rounds[i].batch[x] == r;
      InFlat(t.rounds, i, x);
      var a :| 0 <= a < |Flat(t.rounds)| && Flat(t.rounds)[a] == r;
      var b :| 0 <= b < |t.current| && t.current[b] == r;
      OneSpot(t, a, b);
    }
  }

  lemma OneSpot(t: Table, a: nat, b: nat)
    requires Fifo(t) && a < |Flat(t.rounds)| && b < |t.current|
    ensures Flat(t.rounds)[a] != t.current[b]
  {
    assert t.entered[a] == Flat(t.rounds)[a];
    assert t.entered[|Flat(t.rounds)| + b] == t.current[b];
  }

  /** Steps that write nothing and settle nothing. */
  ghost predicate Quiet(t: Table, e: Event)
    requires Enabled(t, e)
  {
    !Decides(t, e) && !e.Mark? && !e.Relock?
  }

  lemma QuietEffect(t: Table, e: Event)
    requires Enabled(t, e) && Quiet(t, e)
    ensures
      var t' := Step(t, e);
      && Sized(t') && t'.reqs == t.reqs && t'.rounds == t.rounds && t'.items == t.items && t'.writes == t.writes
      && t'.pcs == t.pcs[e.r := t'.pcs[e.r]] && !MarkingPc(t.pcs[e.r]) && !MarkingPc(t'.pcs[e.r])
  {
    if Statement(e) { StatementEffect(t, e); }
    hide BeginStep, IngestStep, CommitStep, RollbackStep;
  }

  lemma QuietKeepsResults(t: Table, e: Event)
    requires Enabled(t, e) && Results(t) && Quiet(t, e)
    ensures Results(Step(t, e))
  {
    QuietEffect(t, e);
    hide Step, Enabled, Quiet;
    var t' := Step(t, e);
    if r :| 0 <= r < |t.pcs| && MarkingPc(t.pcs[r]) { assert MarkingPc(t'.pcs[r]); }
    SameDone(t, t');
    SameSettled(t, t');
  }

  lemma SameSettled(t: Table, t': Table)
    requires t'.rounds == t.rounds
    ensures forall r: nat, i: nat :: SettledIn(t', r, i) <==> SettledIn(t, r, i)
    ensures forall r: nat :: Settled(t', r) <==> Settled(t, r)
  {
    forall r: nat ensures Settled(t', r) <==> Settled(t, r) {
      if i: nat :| SettledIn(t, r, i) { assert SettledIn(t', r, i); }
      if i: nat :| SettledIn(t', r, i) { assert SettledIn(t, r, i); }
    }
  }

  lemma SameDone(t: Table, t': Table)
    requires Sized(t) && Sized(t') && RoundsInRange(t)
    requires t'.rounds == t.rounds && t'.writes == t.writes && t'.reqs == t.reqs
    ensures RoundsInRange(t')
    ensures forall i: nat :: i < |t.rounds| ==> (RoundDone(t', i) <==> RoundDone(t, i))
    ensures forall st: Stage :: st.Marking? ==> (MarkedUpTo(t', st) <==> MarkedUpTo(t, st))
  {
  }

  lemma RelockKeepsResults(t: Table, r: nat)
    requires Enabled(t, Relock(r)) && OneLeader(t) && Batched(t) && Results(t)
    ensures Results(Step(t, Relock(r)))
  {
    OnlyOnePcMoves(t, Relock(r));
    var t' := Step(t, Relock(r));
    assert t'.rounds == t.rounds && t'.items == t.items && t'.writes == t.writes;
    NobodyElseWorks(t, r);
    assert MarkedUpTo(t, t.pcs[r].stage);
    SameDone(t, t');
    SameSettled(t, t');
    hide Step, Enabled, Batched, OneLeader;
  }

  lemma DecideKeepsResults(t: Table, e: Event)
    requires Enabled(t, e) && Decides(t, e) && OneLeader(t) && Fifo(t) && Batched(t) && Results(t)
    requires RoundsInRange(Step(t, e))
    ensures Results(Step(t, e))
  {
    DecideKeepsRounds(t, e);
    DecideKeepsItems(t, e);
  }

  lemma CurrentIsFresh(t: Table)
    requires Fifo(t) && ItemsMatch(t)
    ensures forall j: nat :: j < |t.current| ==> t.current[j] < |t.reqs| && t.writes[t.current[j]] == 0
  {
    forall j: nat | j < |t.current| ensures t.current[j] < |t.reqs| && t.writes[t.current[j]] == 0 {
      assert t.entered[|Flat(t.rounds)| + j] == t.current[j];
      CurrentIsUnsettled(t, t.current[j]);
    }
  }

  lemma DecideKeepsRounds(t: Table, e: Event)
    requires Enabled(t, e) && Decides(t, e) && OneLeader(t) && Fifo(t) && Batched(t) && Results(t)
    requires RoundsInRange(Step(t, e))
    ensures RoundsMarked(Step(t, e))
  {
    DecideEffect(t, e);
    CurrentIsFresh(t);
    var t' := Step(t, e);
    var n := |t.rounds|;
    NobodyElseWorks(t, e.r);
    assert !MarkingNow(t);
    hide Fifo, ItemsMatch, Step, Enabled, Decides, Batched, OneLeader;
    assert MarkingPc(t'.pcs[e.r]);
    forall i: nat | i < n ensures RoundDone(t', i) {
      assert RoundDone(t, i) && t'.rounds[i] == t.rounds[i];
    }
    assert MarkedUpTo(t', t'.pcs[e.r].stage);
  }

  lemma DecideKeepsItems(t: Table, e: Event)
    requires Enabled(t, e) && Decides(t, e) && Fifo(t) && Batched(t) && ItemsMatch(t)
    ensures ItemsMatch(Step(t, e))
  {
    DecideEffect(t, e);
    StaysSettled(t, e);
    var t' := Step(t, e);
    var n := |t.rounds|;
    hide Step, Enabled, Decides, Batched, Fifo;
    forall r: nat, i: nat | r < |t.reqs| && SettledIn(t', r, i)
      ensures t.writes[r] <= Writes(t'.rounds[i].verdict)
      ensures t.items[r] == Written(t.reqs[r], t'.rounds[i].verdict, t.writes[r])
    {
      if i < n { assert SettledIn(t, r, i); } else { CurrentIsUnsettled(t, r); }
    }
  }

  lemma MarkKeepsResults(t: Table, r: nat)
    requires Enabled(t, Mark(r)) && OneLeader(t) && Fifo(t) && Batched(t) && Results(t)
    ensures Results(Step(t, Mark(r)))
  {
    MarkKeepsRounds(t, r);
    MarkKeepsItems(t, r);
  }

  lemma MarkKeepsRounds(t: Table, r: nat)
    requires Enabled(t, Mark(r)) && OneLeader(t) && Fifo(t) && Batched(t) && RoundsMarked(t)
    ensures RoundsMarked(Step(t, Mark(r)))
  {
    OnlyOnePcMoves(t, Mark(r));
    var t' := Step(t, Mark(r));
    var last := |t.rounds| - 1;
    var st := t.pcs[r].stage;
    NobodyElseWorks(t, r);
    FlatOfFifo(t);
    hide Fifo;
    assert MarkedUpTo(t, st) && MarkingPc(t'.pcs[r]);
    forall i: nat, j: nat | i < |t.rounds| && j < |t.rounds[i].batch| && !(i == last && j == st.next)
      ensures t'.writes[t.rounds[i].batch[j]] == t.writes[t.rounds[i].batch[j]]
    {
      if t.rounds[i].batch[j] == t.rounds[last].batch[st.next] { FlatDistinct(t.rounds, i, last, j, st.next); }
    }
    forall i: nat | i < last ensures RoundDone(t', i) {
      assert RoundDone(t, i);
    }
    assert MarkedUpTo(t', t'.pcs[r].stage);
  }

  lemma MarkKeepsItems(t: Table, r: nat)
    requires Enabled(t, Mark(r)) && OneLeader(t) && Fifo(t) && Batched(t) && Results(t)
    ensures ItemsMatch(Step(t, Mark(r)))
  {
    OnlyOnePcMoves(t, Mark(r));
    var t' := Step(t, Mark(r));
    var last := |t.rounds| - 1;
    var st := t.pcs[r].stage;
    var b := t.pcs[r].batch[st.next];
    FlatOfFifo(t);
    SameSettled(t, t');
    assert MarkedUpTo(t, st) && SettledIn(t, b, last) && t.writes[b] == st.step;
    WriteNext(t.reqs[b], st.verdict, st.step);
    forall x: nat, i: nat | x < |t.reqs| && SettledIn(t', x, i)
      ensures t'.writes[x] <= Writes(t.rounds[i].verdict)
      ensures t'.items[x] == Written(t.reqs[x], t.rounds[i].verdict, t'.writes[x])
    {
      if x == b { SameRound(t, b, i, last); }
    }
  }

  lemma StepKeepsResults(t: Table, e: Event)
    requires Enabled(t, e) && OneLeader(t) && Fifo(t) && Batched(t) && Results(t)
    requires Fifo(Step(t, e)) && RoundsInRange(Step(t, e))
    ensures Results(Step(t, e))
  {
    if Decides(t, e) { DecideKeepsResults(t, e); }
    else if e.Mark? { MarkKeepsResults(t, e.r); }
    else if e.Relock? { RelockKeepsResults(t, e.r); }
    else { QuietKeepsResults(t, e); }
  }

  // ---------------------------------------------------------------------------
  // Answers
  // ---------------------------------------------------------------------------

  /** Leaders are the ones that have led; waiters have not; whoever is past waiting is
      settled, unless a leader has unwound; answers come last. */
  ghost predicate Roles(t: Table) {
    Sized(t) && forall r: nat :: r < |t.pcs| ==> RoleOk(t, r)
  }

  /** Later reads see more writes. */
  predicate InOrder(looked: nat, seen: Seen, writes: nat) {
    looked <= seen.shared <= seen.rows <= seen.last <= writes
  }

  /** In the middle of answering: the flag, and the figures read so far, are those that were
      there at the time. */
  ghost predicate Reading(t: Table, r: nat, v: Verdict)
    requires Sized(t) && r < |t.reqs| && t.pcs[r].Answering?
  {
    var p, req, s, w, full := t.pcs[r], t.reqs[r], t.seen[r], t.writes[r], Writes(v);
    && p.fields <= 2 && t.looked[r] <= w && p.failed == Written(req, v, t.looked[r]).failed
    && (p.fields >= 1 ==> t.looked[r] <= s.shared <= w && p.got.shared == Written(req, v, s.shared).stats.shared)
    && (p.fields >= 2 ==> s.shared <= s.rows <= w && p.got.rows == Written(req, v, s.rows).stats.rows)
    && (r in t.led ==> t.looked[r] == full && (p.fields >= 1 ==> s.shared == full) && (p.fields >= 2 ==> s.rows == full))
  }

  /** What request `r` of round `i` has read and said. */
  ghost predicate AnswerOk(t: Table, r: nat, i: nat)
    requires Sized(t) && r < |t.reqs| && i < |t.rounds|
  {
    var v, full := t.rounds[i].verdict, Writes(t.rounds[i].verdict);
    && (r in t.led && Late(t.pcs[r]) && r !in t.unwound ==> t.writes[r] == full)
    && (t.pcs[r].Answering? ==> Reading(t, r, v))
    && (t.returned[r].Some? && r !in t.unwound ==>
          && InOrder(t.looked[r], t.seen[r], t.writes[r])
          && t.returned[r].value == Told(t.reqs[r], v, t.looked[r], t.seen[r])
          && (r in t.led ==> t.looked[r] == full && t.seen[r] == Seen(full, full, full)))
    && (r in t.unwound ==> t.returned[r] == Some(Failed(NO_ROLLBACK.message)))
  }

  ghost predicate Answers(t: Table) {
    && Sized(t)
    && forall r: nat, i: nat :: r < |t.reqs| && SettledIn(t, r, i) ==> AnswerOk(t, r, i)
  }

  /** One request's share of `Roles`. */
  ghost predicate RoleOk(t: Table, r: nat)
    requires Sized(t) && r < |t.pcs|
  {
    && (Leads(t.pcs[r]) ==> r in t.led)
    && (t.pcs[r].Waiting? || t.pcs[r].Idle? ==> r !in t.led)
    && (Late(t.pcs[r]) ==> Settled(t, r) || r in t.unwound)
    && (r in t.unwound || t.returned[r].Some? ==> t.pcs[r].Exiting? || t.pcs[r].Gone?)
  }

  /** A step leaves the other requests' reading and answering alone. */
  lemma OthersUntouched(t: Table, e: Event, t': Table, r: nat)
    requires Enabled(t, e) && r < |t.pcs| && r != e.r && t' == Step(t, e)
    requires Sized(t) && Sized(t') && t'.reqs == t.reqs
    ensures
      && t'.pcs[r] == t.pcs[r] && t'.returned[r] == t.returned[r]
      && t'.looked[r] == t.looked[r] && t'.seen[r] == t.seen[r]
      && (r in t'.led <==> r in t.led) && (r in t'.unwound <==> r in t.unwound)
  {
    if Statement(e) { StatementEffect(t, e); }
    hide BeginStep, IngestStep, CommitStep, RollbackStep;
  }

  lemma OwnRole(t: Table, e: Event, t': Table)
    requires Enabled(t, e) && OneLeader(t) && Fifo(t) && Batched(t) && Results(t) && RoleOk(t, e.r)
    requires t' == Step(t, e) && Sized(t') && t'.reqs == t.reqs
    ensures RoleOk(t', e.r)
  {
    hide OneLeader, Fifo, Batched, RoundsMarked, Settled, BeginStep, IngestStep, CommitStep, RollbackStep;
    OnlyOnePcMoves(t, e);
    if Statement(e) { StatementEffect(t, e); }
    StaysSettled(t, e);
    if e.Finish? { AllSettled(t, e.r); }
    if e.Wake? { assert t.items[e.r] != FRESH; }
  }

  lemma StepKeepsRoles(t: Table, e: Event)
    requires Enabled(t, e) && OneLeader(t) && Fifo(t) && Batched(t) && Results(t) && Roles(t)
    ensures Roles(Step(t, e))
  {
    OnlyOnePcMoves(t, e);
    var t' := Step(t, e);
    forall r: nat | r < |t.pcs| ensures RoleOk(t', r) {
      assert RoleOk(t, r);
      if r == e.r {
        OwnRole(t, e, t');
      } else {
        OthersUntouched(t, e, t', r);
        StaysSettled(t, e);
      }
    }
  }

  /** A leader that finds the queue empty has had its own request settled. */
  lemma AllSettled(t: Table, r: nat)
    requires Enabled(t, Finish(r)) && OneLeader(t) && Fifo(t) && Batched(t)
    ensures Settled(t, r)
  {
    NobodyTries(t, r);
    assert r in t.entered && t.entered == Flat(t.rounds);
    var i := RoundOf(t.rounds, r);
    assert SettledIn(t, r, i);
  }

  lemma StaysSettled(t: Table, e: Event)
    requires Enabled(t, e)
    ensures forall r: nat, i: nat :: SettledIn(t, r, i) ==> SettledIn(Step(t, e), r, i)
    ensures forall r: nat :: Settled(t, r) ==> Settled(Step(t, e), r)
  {
    if Statement(e) { StatementEffect(t, e); }
    hide BeginStep, IngestStep, CommitStep, RollbackStep;
    var t' := Step(t, e);
    assert t.rounds <= t'.rounds;
    forall r: nat | Settled(t, r) ensures Settled(t', r) {
      var i: nat :| SettledIn(t, r, i);
      assert SettledIn(t', r, i);
    }
  }

  lemma StepKeepsAnswers(t: Table, e: Event)
    requires Enabled(t, e) && OneLeader(t) && Fifo(t) && Batched(t) && Results(t) && Roles(t) && Answers(t)
    requires Results(Step(t, e))
    ensures Answers(Step(t, e))
  {
    if Decides(t, e) { DecideKeepsAnswers(t, e); }
    else if e.Mark? { MarkKeepsAnswers(t, e.r); }
    else if e.Finish? { FinishKeepsAnswers(t, e.r); }
    else { OtherKeepsAnswers(t, e); }
  }

  /** Nobody whose batch is being decided has looked or answered yet. */
  lemma DecideKeepsAnswers(t: Table, e: Event)
    requires Enabled(t, e) && Decides(t, e) && OneLeader(t) && Fifo(t) && Batched(t) && Roles(t) && Answers(t)
    ensures Answers(Step(t, e))
  {
    StatementEffect(t, e);
    hide Step;
    var t' := Step(t, e);
    var n := |t.rounds|;
    assert SomebodyLeads(t);
    assert t'.rounds[..n] == t.rounds && t'.rounds[n].batch == t.current;
    forall r: nat, i: nat | r < |t.reqs| && SettledIn(t', r, i) ensures AnswerOk(t', r, i) {
      if i < n {
        assert SettledIn(t, r, i) && AnswerOk(t, r, i);
      } else {
        CurrentIsUnsettled(t, r);
        assert RoleOk(t, r) && t.unwound == {};
        assert !Late(t.pcs[r]) && t.returned[r].None?;
      }
    }
  }

  /** What one write changes for the owners of the request objects. */
  lemma MarkEffect(t: Table, r: nat)
    requires Enabled(t, Mark(r))
    ensures
      var t', b := Step(t, Mark(r)), t.pcs[r].batch[t.pcs[r].stage.next];
      && Sized(t') && t'.reqs == t.reqs && t'.rounds == t.rounds && b < |t.reqs|
      && t'.writes == t.writes[b := t.writes[b] + 1] && Leads(t'.pcs[r]) && t'.pcs == t.pcs[r := t'.pcs[r]]
      && t'.led == t.led && t'.unwound == t.unwound && t'.looked == t.looked && t'.seen == t.seen
      && t'.returned == t.returned
  {
    hide WriteField, Writes;
  }

  /** The request being written to is in the last round and has not all its writes. */
  lemma BeingWritten(t: Table, r: nat, i: nat)
    requires Enabled(t, Mark(r)) && Fifo(t) && Batched(t) && RoundsMarked(t)
    requires SettledIn(t, t.pcs[r].batch[t.pcs[r].stage.next], i)
    ensures t.writes[t.pcs[r].batch[t.pcs[r].stage.next]] < Writes(t.rounds[i].verdict)
  {
    var st := t.pcs[r].stage;
    FlatOfFifo(t);
    assert MarkedUpTo(t, st);
    hide Fifo, RoundsMarked;
    SameRound(t, t.pcs[r].batch[st.next], i, |t.rounds| - 1);
  }

  lemma MarkKeepsAnswers(t: Table, r: nat)
    requires Enabled(t, Mark(r)) && OneLeader(t) && Fifo(t) && Batched(t) && Results(t) && Roles(t) && Answers(t)
    ensures Answers(Step(t, Mark(r)))
  {
    var t', b := Step(t, Mark(r)), t.pcs[r].batch[t.pcs[r].stage.next];
    MarkEffect(t, r);
    SameSettled(t, t');
    hide Step, AnswerOk, Fifo, OneLeader, Batched, Roles, RoundsMarked, ItemsMatch, Settled;
    forall x: nat, i: nat | x < |t.reqs| && SettledIn(t', x, i) ensures AnswerOk(t', x, i) {
      assert SettledIn(t, x, i) && AnswerOk(t, x, i);
      if x == b { BeingWritten(t, r, i); }
      MarkedAnswer(t, t', x, i, r);
    }
  }

  /** A further write disturbs neither an unfinished owner nor one that has all of them. */
  lemma MarkedAnswer(t: Table, t': Table, x: nat, i: nat, r: nat)
    requires Sized(t) && Sized(t') && t'.reqs == t.reqs && t'.rounds == t.rounds && x < |t.reqs| && i < |t.rounds|
    requires AnswerOk(t, x, i)
    requires x == r ==> Leads(t.pcs[x]) && Leads(t'.pcs[x])
    requires x != r ==> t'.pcs[x] == t.pcs[x]
    requires t'.led == t.led && t'.unwound == t.unwound && t'.looked[x] == t.looked[x] && t'.seen[x] == t.seen[x]
    requires t'.returned[x] == t.returned[x]
    requires t'.writes[x] == t.writes[x] || t.writes[x] < t'.writes[x] <= Writes(t.rounds[i].verdict)
    ensures AnswerOk(t', x, i)
  {
    hide Told, Written;
  }


  lemma FinishKeepsAnswers(t: Table, r: nat)
    requires Enabled(t, Finish(r)) && OneLeader(t) && Fifo(t) && Batched(t) && Results(t) && Roles(t) && Answers(t)
    ensures Answers(Step(t, Finish(r)))
  {
    OnlyOnePcMoves(t, Finish(r));
    var t' := Step(t, Finish(r));
    NobodyElseWorks(t, r);
    assert !MarkingNow(t);
    SameSettled(t, t');
    forall x: nat, i: nat | x < |t.reqs| && SettledIn(t', x, i) ensures AnswerOk(t', x, i) {
      assert SettledIn(t, x, i) && AnswerOk(t, x, i) && RoundDone(t, i);
      if x == r { assert RoleOk(t, r) && t.returned[r].None? && r !in t.unwound; }
    }
  }

  lemma OtherKeepsAnswers(t: Table, e: Event)
    requires Enabled(t, e) && Results(t) && Roles(t) && Answers(t)
    requires !Decides(t, e) && !e.Mark? && !e.Finish?
    ensures Answers(Step(t, e))
  {
    OnlyOnePcMoves(t, e);
    if Statement(e) { StatementEffect(t, e); }
    hide BeginStep, IngestStep, CommitStep, RollbackStep;
    var t' := Step(t, e);
    assert t'.rounds == t.rounds && t'.items == t.items && t'.writes == t.writes;
    SameSettled(t, t');
    hide AnswerOk, RoundsMarked, ItemsMatch, Roles;
    forall x: nat, i: nat | x < |t.reqs| && SettledIn(t', x, i) ensures AnswerOk(t', x, i) {
      assert SettledIn(t, x, i) && AnswerOk(t, x, i);
      if x == e.r { OwnAnswer(t, e, i); } else { OthersUntouched(t, e, t', x); OthersAnswer(t, t', x, i); }
    }
  }

  lemma OthersAnswer(t: Table, t': Table, x: nat, i: nat)
    requires Sized(t) && Sized(t') && t'.reqs == t.reqs && t'.rounds == t.rounds && t'.writes == t.writes
    requires x < |t.reqs| && i < |t.rounds| && AnswerOk(t, x, i)
    requires t'.pcs[x] == t.pcs[x] && t'.returned[x] == t.returned[x]
    requires t'.looked[x] == t.looked[x] && t'.seen[x] == t.seen[x]
    requires (x in t'.led <==> x in t.led) && (x in t'.unwound <==> x in t.unwound)
    ensures AnswerOk(t', x, i)
  {
    hide Written, Told, InOrder;
  }

  lemma OwnAnswer(t: Table, e: Event, i: nat)
    requires Enabled(t, e) && Results(t) && Roles(t) && SettledIn(t, e.r, i) && AnswerOk(t, e.r, i)
    requires !Decides(t, e) && !e.Mark? && !e.Finish?
    ensures Sized(Step(t, e)) && Step(t, e).rounds == t.rounds && AnswerOk(Step(t, e), e.r, i)
  {
    OnlyOnePcMoves(t, e);
    assert RoleOk(t, e.r);
    if Statement(e) {
      StatementEffect(t, e);
      hide Step;
    } else if e.Read? {
      OwnRead(t, e.r, i);
    } else if e.Return? {
      OwnReturn(t, e.r, i);
    } else {
      hide ReadStep, ReturnStep, MarkStep;
    }
  }

  lemma OwnRead(t: Table, r: nat, i: nat)
    requires Enabled(t, Read(r)) && ItemsMatch(t) && RoleOk(t, r) && SettledIn(t, r, i) && AnswerOk(t, r, i)
    ensures Sized(Step(t, Read(r))) && Step(t, Read(r)).rounds == t.rounds && AnswerOk(Step(t, Read(r)), r, i)
  {
    assert t.items[r] == Written(t.reqs[r], t.rounds[i].verdict, t.writes[r]);
    assert t.returned[r].None? && r !in t.unwound;
    hide Written, ItemsMatch, RoleOk;
  }

  lemma OwnReturn(t: Table, r: nat, i: nat)
    requires Enabled(t, Return(r)) && ItemsMatch(t) && RoleOk(t, r) && SettledIn(t, r, i) && AnswerOk(t, r, i)
    ensures Sized(Step(t, Return(r))) && Step(t, Return(r)).rounds == t.rounds && AnswerOk(Step(t, Return(r)), r, i)
  {
    assert t.items[r] == Written(t.reqs[r], t.rounds[i].verdict, t.writes[r]);
    assert t.returned[r].None? && r !in t.unwound;
    hide Written, ItemsMatch, RoleOk;
  }

  // ---------------------------------------------------------------------------
  // Over every run
  // ---------------------------------------------------------------------------

  ghost predicate Inv(t: Table) {
    OneLeader(t) && Counted(t) && Fifo(t) && Batched(t) && StoredOnce(t) && Results(t) && Roles(t) && Answers(t)
  }

  lemma StartInv(reqs: seq<Request>, conns: seq<Txn>)
    requires |conns| == |reqs|
    ensures Inv(Start(reqs, conns))
  {
    var t := Start(reqs, conns);
    StartCounts(reqs, conns);
    assert OneLeader(t) && Batched(t);
    assert Flat(t.rounds) == [];
    assert Fifo(t) && StoredOnce(t);
    assert Results(t) && Roles(t) && Answers(t);
  }

  lemma StartCounts(reqs: seq<Request>, conns: seq<Txn>)
    requires |conns| == |reqs|
    ensures Counted(Start(reqs, conns))
  {
    assert InFlightSet(Start(reqs, conns).pcs) == {};
  }

  lemma StepKeepsInv(t: Table, e: Event)
    requires Enabled(t, e) && Inv(t)
    ensures Inv(Step(t, e))
  {
    StepKeepsOneLeader(t, e);
    StepKeepsCounted(t, e);
    StepKeepsFifo(t, e);
    StepKeepsBatched(t, e);
    StepKeepsStoredOnce(t, e);
    StepKeepsResults(t, e);
    StepKeepsRoles(t, e);
    StepKeepsAnswers(t, e);
  }

  /** Every interleaving of any number of requests keeps: one leader at most, the counter
      equal to the requests in flight, FIFO batches, each stored at most once, and request
      objects that hold the first so many writes of their own batch's result. */
  lemma {:induction false} RunKeepsInv(reqs: seq<Request>, conns: seq<Txn>, es: seq<Event>)
    requires |conns| == |reqs|
    requires Run(Start(reqs, conns), es).Some?
    ensures Inv(Run(Start(reqs, conns), es).value)
    decreases |es|
  {
    if es == [] {
      StartInv(reqs, conns);
    } else {
      RunKeepsInv(reqs, conns, es[..|es| - 1]);
      StepKeepsInv(Run(Start(reqs, conns), es[..|es| - 1]).value, es[|es| - 1]);
    }
  }
}
