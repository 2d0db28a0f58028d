/** The commit coordinator: pending queues, leaders and in-flight counts of all tables in
    three maps behind one lock. Each method is one critical section. */
module CommitSections {
  import opened Json
  import opened GroupCommit

  /** One table's share of the coordinator. */
  datatype Share = Share(pending: seq<nat>, committing: bool, active: nat)

  function ShareOf(t: Table): (s: Share) { Share(t.pending, t.committing, t.active) }

  function Entered(s: Share, r: nat): (s': Share) { Share(s.pending + [r], true, s.active + 1) }

  function Taken(s: Share): (s': Share) { s.(pending := []) }

  function Released(s: Share): (s': Share) { s.(committing := false) }

  function Left(s: Share): (s': Share) { s.(active := if s.active > 0 then s.active - 1 else 0) }

  class RawCommitCoordinator {
    var pending: map<string, seq<nat>>
    var committing: set<string>
    var active: map<string, nat>

    /** Counters that reach zero are erased. */
    ghost predicate Valid()
      reads this
    {
      forall target :: target in active ==> active[target] > 0
    }

    function At(target: string): (s: Share)
      reads this
    {
      Share(if target in pending then pending[target] else [], target in committing,
            if target in active then active[target] else 0)
    }

    constructor ()
      ensures Valid() && forall target :: At(target) == Share([], false, 0)
    {
      pending, committing, active := map[], {}, map[];
    }

    /** A request arrives; it leads when nobody does. */
    method Enter(target: string, r: nat) returns (leads: bool, activeAtEntry: nat)
      requires Valid()
      modifies this
      ensures Valid() && At(target) == Entered(old(At(target)), r)
      ensures leads == !old(At(target)).committing && activeAtEntry == At(target).active
      ensures forall other :: other != target ==> At(other) == old(At(other))
    {
      active := active[target := (if target in active then active[target] else 0) + 1];
      activeAtEntry := active[target];
      pending := pending[target := (if target in pending then pending[target] else []) + [r]];
      leads := target !in committing;
      if leads { committing := committing + {target}; }
    }

    /** The leader takes everything that has queued up, or stops leading in the same
        section: no request can slip in between the check and the release. */
    method TakeOrRelease(target: string) returns (batch: seq<nat>)
      requires Valid()
      modifies this
      ensures Valid() && batch == old(At(target)).pending
      ensures At(target) == if batch == [] then Released(old(At(target))) else Taken(old(At(target)))
      ensures forall other :: other != target ==> At(other) == old(At(other))
    {
      batch := if target in pending then pending[target] else [];
      pending := pending[target := []];
      if batch == [] { committing := committing - {target}; }
    }

    /** The guard's destructor. */
    method Leave(target: string)
      requires Valid()
      modifies this
      ensures Valid() && At(target) == Left(old(At(target)))
      ensures forall other :: other != target ==> At(other) == old(At(other))
    {
      if target in active {
        active := active[target := active[target] - 1];
        if active[target] == 0 { active := active - {target}; }
      }
    }
  }

  function Section(t: Table, e: Event): (s: Share) {
    var s := ShareOf(t);
    match e
    case Enter(r) => Entered(s, r)
    case Take(_) => Taken(s)
    case Finish(_) => Released(s)
    case Exit(_) => Left(s)
    case _ => s
  }

  /** Steps of the protocol are these sections, and every other step leaves the
      coordinator alone; a leader takes a batch exactly when one is queued, and else
      releases the table. */
  lemma StepIsItsSection(t: Table, e: Event)
    requires OneLeader(t) && Enabled(t, e)
    ensures ShareOf(Step(t, e)) == Section(t, e)
    ensures e.Enter? ==> (Step(t, e).pcs[e.r].Leader? <==> !ShareOf(t).committing)
    ensures e.Take? ==> ShareOf(t).pending != []
    ensures e.Finish? ==> ShareOf(t).pending == []
  {
  }
}
