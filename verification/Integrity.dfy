/**
  References of objects while nothing is deleted: under all faults, in any interleaving, what a creation run writes
  refers only to objects that exist and are the shoot's own.
 */
module Integrity {
  import opened Basics
  import opened Protocol
  import opened World
  import opened Plan
  import opened Isolation
  import opened References
  import opened Convergence

  /** What is recorded for an earlier task leads to an object of the shoot. */
  lemma EarlierIsMine(st: Store, was: map<Key, Obj>, w: Shoot, spec: Spec, todo: seq<Task>, s: State, u: Task)
    requires todo != [] && AllGood(st, was, w, spec, s, todo) && OwnRefs(st, w, spec, s)
    requires u in s.refs && Rank(u) < Rank(todo[0]) && Owned(u) && !IsExternal(u, s)
    ensures Reachable(u, s) && Mine(st, w, KeyOf(u, s))
  {
    UpcomingTail(s.nsxt3, todo);
    assert Good(st, was, spec, s, u);
  }

  lemma EarlierLookup(st: Store, was: map<Key, Obj>, w: Shoot, spec: Spec, todo: seq<Task>, s: State, u: Task)
    requires todo != [] && AllGood(st, was, w, spec, s, todo)
    requires InPlan(s.nsxt3, u) && Rank(u) < Rank(todo[0]) && !Owned(u)
    ensures GoodLookup(st, spec, s, u)
  {
    UpcomingTail(s.nsxt3, todo);
    assert Good(st, was, spec, s, u);
  }

  lemma EarlierLookups(st: Store, was: map<Key, Obj>, w: Shoot, spec: Spec, todo: seq<Task>, s: State)
    requires todo != [] && AllGood(st, was, w, spec, s, todo)
    ensures Rank(IpPool) < Rank(todo[0]) ==> IpPool in s.refs && s.refs[IpPool] == PoolId(st, spec)
    ensures Rank(Address) < Rank(todo[0]) ==> Address in s.refs && Alloc in s.refs && s.refs[Address] == s.refs[Alloc]
    ensures todo[0].Port? ==> Switch in s.refs && Segment in s.refs && s.refs[Switch] == s.refs[Segment]
  {
    var t := todo[0];
    assert InPlan(s.nsxt3, t);
    if Rank(IpPool) < Rank(t) { EarlierLookup(st, was, w, spec, todo, s, IpPool); }
    if Rank(Address) < Rank(t) { EarlierLookup(st, was, w, spec, todo, s, Address); }
    if t.Port? { EarlierLookup(st, was, w, spec, todo, s, Switch); }
  }

  lemma EarlierObjects(st: Store, was: map<Key, Obj>, w: Shoot, spec: Spec, todo: seq<Task>, s: State)
    requires todo != [] && AllGood(st, was, w, spec, s, todo) && OwnRefs(st, w, spec, s)
    ensures forall u :: u in s.refs && Rank(u) < Rank(todo[0]) && Owned(u) ==>
              if IsExternal(u, s) then u.Tier1? && s.refs[u] == spec.externalTier1.value
              else Reachable(u, s) && Mine(st, w, KeyOf(u, s))
  {
    forall u | u in s.refs && Rank(u) < Rank(todo[0]) && Owned(u) && !IsExternal(u, s)
      ensures Reachable(u, s) && Mine(st, w, KeyOf(u, s))
    {
      EarlierIsMine(st, was, w, spec, todo, s, u);
    }
  }

  /** Before a task of a creation run, everything recorded for earlier tasks is as it should be. */
  lemma GroundedHere(st: Store, was: map<Key, Obj>, w: Shoot, spec: Spec, todo: seq<Task>, s: State)
    requires todo != [] && AllGood(st, was, w, spec, s, todo) && OwnRefs(st, w, spec, s)
    ensures Grounded(st, w, spec, s, todo[0])
  {
    EarlierLookups(st, was, w, spec, todo, s);
    EarlierObjects(st, was, w, spec, todo, s);
  }

  /** Every object that a creation run is about to create refers only to objects that are there and are the shoot's. */
  lemma CreatesReferToExisting(sys: System, start: Event, es: seq<Event>, w: Shoot, a: Answer, dep: Key)
    requires Starts(sys, start, w) && Possible(Step(sys, start), es) && OnlyCalls(es, w)
    requires CanHappen(Exec(Step(sys, start), es), Call(w, a))
    requires var now := Exec(Step(sys, start), es);
             var op := PendingOp(now.members[w], a);
             op.Make? && DependsOn(now.store, sys.members[w].spec, op.key, op.obj, dep)
    ensures Mine(Exec(Step(sys, start), es).store, w, dep)
    ensures Rank(dep.kind) < Rank(PendingOp(Exec(Step(sys, start), es).members[w], a).key.kind)
  {
    StartUnderway(sys, start, w);
    RunsUnderway(Step(sys, start), sys.store.objects, es, w);
    RunsStayIsolated(Step(sys, start), es);
    var now := Exec(Step(sys, start), es);
    assert SpecsOf(now)[w] == sys.members[w].spec;
    var r := now.members[w].run.value;
    GroundedHere(now.store, sys.store.objects, w, sys.members[w].spec, r.todo, r.s);
    CreatedResolved(now.store, w, sys.members[w].spec, r.todo[0], r.s, a.draw);
  }

  lemma CallStaysReferential(st: Store, was: map<Key, Obj>, w: Shoot, spec: Spec, r: Run, a: Answer)
    requires r.Pending? && OwnRun(st, w, spec, r) && WellUnderWay(st, was, w, spec, r) && Referential(st, w, spec)
    requires Admissible(st, NextOp(spec, r, a.draw), a)
    ensures Referential(After(st, w, NextOp(spec, r, a.draw), a), w, spec)
  {
    var t, s := r.todo[0], r.s;
    if r.phase.Writing? {
      GroundedHere(st, was, w, spec, r.todo, s);
      WantedResolved(st, w, spec, t, s, s.segmentName);
      WrittenReferential(st, w, spec, KeyOf(t, s), r.phase.want, a);
    } else if r.phase.Making? {
      GroundedHere(st, was, w, spec, r.todo, s);
      CreatedResolved(st, w, spec, t, s, a.draw);
      MadeReferential(st, w, spec, NewKey(t, s, a.draw.id), Created(t, spec, s, a.draw.suffix), a);
    }
  }

  lemma ReferentialForOthers(st: Store, st': Store, w: Shoot, spec: Spec)
    requires SameForShoot(st, st', w) && Referential(st, w, spec)
    ensures Referential(st', w, spec)
  {
    forall key, dep | Mine(st', w, key) && DependsOn(st', spec, key, st'.objects[key], dep)
      ensures Mine(st', w, dep) && Rank(dep.kind) < Rank(key.kind)
    {
      DepsKept(st, st', spec, key, st.objects[key], dep);
    }
  }

  /** Nothing of shoot w dangles, and it is not being deleted. */
  ghost predicate Whole(sys: System, w: Shoot) {
    && Isolated(sys) && w in sys.members && Referential(sys.store, w, sys.members[w].spec)
    && (sys.members[w].run.Some? ==> exists was :: Underway(sys, was, w))
  }

  lemma StepWhole(sys: System, e: Event, w: Shoot)
    requires Whole(sys, w) && CanHappen(sys, e) && (e.who == w ==> !e.Delete?)
    ensures Whole(Step(sys, e), w)
  {
    StepIsolated(sys, e);
    var m := sys.members[w];
    if e.who != w {
      OthersDoNotMatter(sys.store, Step(sys, e).store, e.who, w);
      ReferentialForOthers(sys.store, Step(sys, e).store, w, m.spec);
      if m.run.Some? {
        var was :| Underway(sys, was, w);
        StepUnderway(sys, was, e, w);
      }
    } else if e.Call? {
      var was :| Underway(sys, was, w);
      StepUnderway(sys, was, e, w);
      CallStaysReferential(sys.store, was, w, m.spec, m.run.value, e.answer);
    } else if e.Reconcile? && Step(sys, e).members[w].run.Some? {
      StartUnderway(sys, e, w);
    }
  }

  /** Referential integrity without deletions: whatever fails in the creation runs, at every moment every object of the
      shoot finds all objects it depends on. */
  lemma {:induction false} IntegrityWithoutDeletion(sys: System, es: seq<Event>, w: Shoot)
    requires Whole(sys, w) && Possible(sys, es) && forall e :: e in es && e.who == w ==> !e.Delete?
    ensures Whole(Exec(sys, es), w)
    decreases |es|
  {
    if es != [] {
      IntegrityWithoutDeletion(sys, es[..|es| - 1], w);
      StepWhole(Exec(sys, es[..|es| - 1]), es[|es| - 1], w);
    }
  }
}
