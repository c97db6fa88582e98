/**
  The gate around the runs: the persisted flag that creation has started. It is written before the first object is
  created, is never taken back, and lets a deletion skip the store only when there is nothing in it.
 */
module StatusGate {
  import opened Basics
  import opened Protocol
  import opened World
  import opened Isolation
  import opened Conservation

  predicate Started(m: Member) {
    m.status.started == Some(true)
  }

  /** Shoot w runs, or owns objects, only after the flag has been persisted. */
  ghost predicate Gated(sys: System, w: Shoot) {
    && Isolated(sys) && w in sys.members
    && (Started(sys.members[w]) || (sys.members[w].run.None? && OwnsNothing(sys.store, w)))
  }

  /** Where nothing was created yet, the gate is closed. */
  lemma PristineIsGated(sys: System, w: Shoot)
    requires Pristine(sys) && DistinctShoots(SpecsOf(sys)) && w in sys.members
    ensures OutcomeRecorded(sys, w)
  {}

  lemma OwnershipStays(sys: System, e: Event, w: Shoot)
    requires Isolated(sys) && CanHappen(sys, e) && (e.who != w || !e.Call?) && OwnsNothing(sys.store, w)
    ensures OwnsNothing(Step(sys, e).store, w)
  {
    if e.Call? {
      StepIsolated(sys, e);
      OthersDoNotMatter(sys.store, Step(sys, e).store, e.who, w);
    }
  }

  lemma StepGated(sys: System, e: Event, w: Shoot)
    requires Gated(sys, w) && CanHappen(sys, e)
    ensures Gated(Step(sys, e), w)
    ensures Started(sys.members[w]) ==> Started(Step(sys, e).members[w])
  {
    StepIsolated(sys, e);
    if !Started(sys.members[w]) { OwnershipStays(sys, e, w); }
  }

  /** The gate: whatever fails, the flag is persisted before the shoot owns anything, and never goes back. */
  lemma {:induction false} GateHolds(sys: System, es: seq<Event>, w: Shoot)
    requires Gated(sys, w) && Possible(sys, es)
    ensures Gated(Exec(sys, es), w)
    ensures Started(sys.members[w]) ==> Started(Exec(sys, es).members[w])
    decreases |es|
  {
    if es != [] {
      var n := |es| - 1;
      GateHolds(sys, es[..n], w);
      StepGated(Exec(sys, es[..n]), es[n], w);
    }
  }

  /** No object is created before the flag is persisted: an event that creates one finds the flag set. */
  lemma CreatedAfterStart(sys: System, es: seq<Event>, e: Event, w: Shoot, key: Key)
    requires Gated(sys, w) && Possible(sys, es) && CanHappen(Exec(sys, es), e)
    requires !Mine(Exec(sys, es).store, w, key) && Mine(Step(Exec(sys, es), e).store, w, key)
    ensures w in Exec(sys, es).members && Started(Exec(sys, es).members[w])
  {
    GateHolds(sys, es, w);
    var now := Exec(sys, es);
    if !Started(now.members[w]) { OwnershipStays(now, e, w); }
  }

  // ---- when creation counts as started ----

  /** This event starts creation: the shoot is prepared, the API is reached, and the early status write is kept. */
  predicate StartsCreation(e: Event, w: Shoot) {
    e.who == w && e.Reconcile? && e.prepared && e.connected && e.written
  }

  lemma FlagNeedsStart(sys: System, e: Event, w: Shoot)
    requires Gated(sys, w) && CanHappen(sys, e) && !Started(sys.members[w]) && Started(Step(sys, e).members[w])
    ensures StartsCreation(e, w)
  {}

  /** The flag becomes true in one way only: somewhere among the events, a reconcile of the shoot was prepared, reached
      the API, and kept its early write. */
  lemma {:induction false} StartedByReconcile(sys: System, es: seq<Event>, w: Shoot)
    requires Gated(sys, w) && Possible(sys, es) && !Started(sys.members[w])
    requires w in Exec(sys, es).members && Started(Exec(sys, es).members[w])
    ensures exists i :: 0 <= i < |es| && StartsCreation(es[i], w)
    decreases |es|
  {
    if es != [] {
      var n := |es| - 1;
      GateHolds(sys, es[..n], w);
      var before := Exec(sys, es[..n]);
      if Started(before.members[w]) {
        StartedByReconcile(sys, es[..n], w);
        var i :| 0 <= i < n && StartsCreation(es[..n][i], w);
        assert StartsCreation(es[i], w);
      } else {
        FlagNeedsStart(before, es[n], w);
        assert StartsCreation(es[n], w);
      }
    }
  }

  /** A reconcile runs if and only if it is prepared and creation has started, or starts now. A kept early write says
      whether it does, and leaves the state alone; one that is lost leaves the whole status alone. */
  lemma ReconcileStarts(sys: System, e: Event, w: Shoot)
    requires w in sys.members && CanHappen(sys, e) && e.Reconcile? && e.who == w
    ensures var m, m' := sys.members[w], Step(sys, e).members[w];
            && (m'.run.Some? <==> e.prepared && (Started(m) || StartsCreation(e, w)))
            && m'.status.state == m.status.state
            && m'.status.started == if Started(m) || !e.written then m.status.started else Some(e.prepared && e.connected)
  {}

  /** So a shoot with wrong credentials can be deleted: its first reconcile fails, and then deletions do nothing, prepared
      or not, whatever state is recorded, until a reconcile starts creation. */
  lemma {:induction false} WrongCredentials(sys: System, e: Event, es: seq<Event>, w: Shoot, prepared: bool)
    requires Gated(sys, w) && !Started(sys.members[w]) && CanHappen(sys, e) && e.who == w && e.Reconcile?
    requires !(e.prepared && e.connected) && Possible(Step(sys, e), es)
    requires forall i :: 0 <= i < |es| ==> !StartsCreation(es[i], w)
    ensures var now := Exec(Step(sys, e), es);
            && OwnsNothing(now.store, w) && CanHappen(now, Delete(w, prepared)) && Step(now, Delete(w, prepared)) == now
  {
    var next := Step(sys, e);
    StepGated(sys, e, w);
    assert !Started(next.members[w]);
    GateHolds(next, es, w);
    var now := Exec(next, es);
    if Started(now.members[w]) { StartedByReconcile(next, es, w); }
    assert now.members[w := now.members[w]] == now.members;
  }

  /** A deletion runs if and only if it is prepared, creation has started, and a state is recorded; it leaves the status
      alone. */
  lemma DeleteStarts(sys: System, e: Event, w: Shoot)
    requires w in sys.members && CanHappen(sys, e) && e.Delete? && e.who == w
    ensures var m, m' := sys.members[w], Step(sys, e).members[w];
            && (m'.run.Some? <==> e.prepared && Started(m) && m.status.state.Some?)
            && m'.status == m.status
  {}

  // ---- when a deletion may do nothing ----

  /** The outcome of the shoot's first run is recorded. */
  ghost predicate FirstOutcomeKept(sys: System, e: Event, w: Shoot) {
    e.who == w && w in sys.members && sys.members[w].status.state.None? ==> !e.Crash? && (e.Finish? ==> e.written)
  }

  ghost predicate FirstOutcomesKept(sys: System, es: seq<Event>, w: Shoot)
    requires Possible(sys, es)
    decreases |es|
  {
    es == [] || (FirstOutcomesKept(sys, es[..|es| - 1], w) && FirstOutcomeKept(Exec(sys, es[..|es| - 1]), es[|es| - 1], w))
  }

  /** While no run is under way, a shoot without a recorded state owns nothing. */
  ghost predicate OutcomeRecorded(sys: System, w: Shoot) {
    && Gated(sys, w)
    && (sys.members[w].run.None? && sys.members[w].status.state.None? ==> OwnsNothing(sys.store, w))
  }

  lemma StepRecorded(sys: System, e: Event, w: Shoot)
    requires OutcomeRecorded(sys, w) && CanHappen(sys, e) && FirstOutcomeKept(sys, e, w)
    ensures OutcomeRecorded(Step(sys, e), w)
  {
    StepGated(sys, e, w);
    if (e.who != w || !e.Call?) && OwnsNothing(sys.store, w) { OwnershipStays(sys, e, w); }
  }

  lemma {:induction false} StaysRecorded(sys: System, es: seq<Event>, w: Shoot)
    requires OutcomeRecorded(sys, w) && Possible(sys, es) && FirstOutcomesKept(sys, es, w)
    ensures OutcomeRecorded(Exec(sys, es), w)
    decreases |es|
  {
    if es != [] {
      var n := |es| - 1;
      StaysRecorded(sys, es[..n], w);
      StepRecorded(Exec(sys, es[..n]), es[n], w);
    }
  }

  /** A deletion skips the store only if the shoot owns nothing there, once the outcome of the first run is recorded. */
  lemma SkippedOnlyWhenEmpty(sys: System, es: seq<Event>, w: Shoot)
    requires OutcomeRecorded(sys, w) && Possible(sys, es) && FirstOutcomesKept(sys, es, w)
    requires var now := Exec(sys, es); w in now.members && now.members[w].run.None? && NothingToDelete(now.members[w].status)
    ensures OwnsNothing(Exec(sys, es).store, w)
  {
    StaysRecorded(sys, es, w);
  }

  /** How a run ends, and what is written then: nothing when it dies. */
  predicate Ends(e: Event, w: Shoot) {
    e.who == w && (e.Finish? || e.Crash?)
  }

  predicate Unwritten(e: Event) {
    e.Crash? || (e.Finish? && !e.written)
  }

  /** Exactly the loss of the first outcome makes the skip unsafe: after a run of a started shoot has ended, deletion
      would skip if and only if no state was recorded before and the run died or lost its write. */
  lemma LostFirstOutcome(sys: System, w: Shoot, e: Event)
    requires Gated(sys, w) && CanHappen(sys, e) && Ends(e, w)
    ensures NothingToDelete(Step(sys, e).members[w].status) <==> Unwritten(e) && sys.members[w].status.state.None?
  {}

  /** And then what the run has created stays behind: deletions find nothing to do. */
  lemma LostFirstOutcomeLeaks(sys: System, w: Shoot, e: Event, key: Key, prepared: bool)
    requires Gated(sys, w) && CanHappen(sys, e) && Ends(e, w) && Unwritten(e)
    requires sys.members[w].status.state.None? && Mine(sys.store, w, key)
    ensures var later := Step(sys, e);
            CanHappen(later, Delete(w, prepared)) && Step(later, Delete(w, prepared)) == later && Mine(later.store, w, key)
  {
    var later := Step(sys, e);
    assert later.members[w := later.members[w]] == later.members;
  }
}
