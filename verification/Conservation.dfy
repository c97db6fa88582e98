/**
  Deletion undoes creation. After any number of interrupted creation runs, one deletion run that succeeds leaves none
  of the shoot's objects, and everything else as it was; deletion runs that are aborted may be repeated until then.
 */
module Conservation {
  import opened Basics
  import opened Protocol
  import opened World
  import opened Plan
  import opened Isolation
  import opened Deletion
  import opened Anchoring
  import opened Recovery

  /** The objects that are not of shoot w. */
  ghost function Foreign(st: Store, w: Shoot): map<Key, Obj> {
    map key | key in st.objects && !Mine(st, w, key) :: st.objects[key]
  }

  ghost predicate OwnsNothing(st: Store, w: Shoot) {
    forall key :: !Mine(st, w, key)
  }

  lemma ForeignKept(st: Store, st': Store, w: Shoot)
    requires Confined(st, st', w)
    ensures Foreign(st', w) == Foreign(st, w)
  {
    forall key ensures key in Foreign(st', w) <==> key in Foreign(st, w) {}
  }

  lemma NothingForeign(st: Store, w: Shoot)
    requires OwnsNothing(st, w)
    ensures Foreign(st, w) == st.objects
  {
    forall key ensures key in Foreign(st, w) <==> key in st.objects {}
  }

  predicate OnlyOf(es: seq<Event>, w: Shoot) {
    forall e :: e in es ==> e.who == w
  }

  lemma {:induction false} RunsKeepForeign(sys: System, es: seq<Event>, w: Shoot)
    requires Isolated(sys) && Possible(sys, es) && OnlyOf(es, w)
    ensures Foreign(Exec(sys, es).store, w) == Foreign(sys.store, w)
    ensures Exec(sys, es).store.catalog == sys.store.catalog && Exec(sys, es).store.gateways == sys.store.gateways
    decreases |es|
  {
    if es != [] {
      var n := |es| - 1;
      RunsKeepForeign(sys, es[..n], w);
      RunsStayIsolated(sys, es[..n]);
      StepIsolated(Exec(sys, es[..n]), es[n]);
      ForeignKept(Exec(sys, es[..n]).store, Exec(sys, es).store, w);
    }
  }

  lemma NothingLeft(sys: System, w: Shoot)
    requires InGoodOrder(sys, w) && Deleted(sys, w)
    ensures OwnsNothing(sys.store, w)
  {
    var m := sys.members[w];
    assert OwnRefs(sys.store, w, m.spec, m.run.value.s);
    forall key ensures !Mine(sys.store, w, key) {
      assert InPlan(m.spec.nsxt3, key.kind) ==> NoneOf(sys.store, w, key.kind);
    }
  }

  /** Among any other shoots: once a deletion run succeeds, the shoot owns nothing, and no event of its own has ever
      changed an object of anyone else. */
  lemma DeletionIsComplete(sys: System, es: seq<Event>, w: Shoot, n: nat)
    requires InGoodOrder(sys, w) && Possible(sys, es) && OrderlyFor(sys, es, w) && Deleted(Exec(sys, es), w)
    requires n < |es|
    ensures Possible(sys, es[..n]) && Possible(sys, es[..n + 1])
    ensures OwnsNothing(Exec(sys, es).store, w)
    ensures es[n].who == w ==> Foreign(Exec(sys, es[..n + 1]).store, w) == Foreign(Exec(sys, es[..n]).store, w)
  {
    RunsStayInGoodOrder(sys, es, w);
    NothingLeft(Exec(sys, es), w);
    Isolation.Isolation(sys, es, n);
    if es[n].who == w { ForeignKept(Exec(sys, es[..n]).store, Exec(sys, es[..n + 1]).store, w); }
  }

  /** Conservation: whatever runs the shoot made before, cut off wherever, a deletion run that succeeds returns the
      store to what it was before the first of them. */
  lemma Conservation(sys: System, es: seq<Event>, w: Shoot)
    requires InGoodOrder(sys, w) && OwnsNothing(sys.store, w)
    requires Possible(sys, es) && OrderlyFor(sys, es, w) && OnlyOf(es, w) && Deleted(Exec(sys, es), w)
    ensures Exec(sys, es).store.objects == sys.store.objects
    ensures Exec(sys, es).store.catalog == sys.store.catalog && Exec(sys, es).store.gateways == sys.store.gateways
  {
    RunsStayInGoodOrder(sys, es, w);
    NothingLeft(Exec(sys, es), w);
    NothingForeign(Exec(sys, es).store, w);
    NothingForeign(sys.store, w);
    RunsKeepForeign(sys, es, w);
  }

  /** A system to start from: nothing has been issued, no object carries the tags of a shoot, no status is recorded. */
  ghost predicate Pristine(sys: System) {
    && sys.store.issued == map[]
    && (forall w, key :: w in sys.members && key in sys.store.objects && Owned(key.kind) ==>
          !Tagged(sys.store.objects[key], sys.members[w].spec, key.kind))
    && (forall w :: w in sys.members ==> sys.members[w].status == Status(None, None) && sys.members[w].run.None?)
  }

  /** Every such system is in good order for every shoot whose names can be looked up. */
  lemma PristineIsInOrder(sys: System, w: Shoot)
    requires Pristine(sys) && DistinctShoots(SpecsOf(sys)) && w in sys.members && Provided(sys.store, sys.members[w].spec)
    ensures InGoodOrder(sys, w) && AllAnchored(sys, w) && OwnsNothing(sys.store, w)
  {}

  // ---- conditions on events alone ----

  /** The calls of shoot w are spared what orderly events are spared. */
  ghost predicate SparedFor(sys: System, es: seq<Event>, w: Shoot)
    requires Possible(sys, es)
    decreases |es|
  {
    es == []
    || (SparedFor(sys, es[..|es| - 1], w)
        && (es[|es| - 1].who == w ==> SparedAt(Exec(sys, es[..|es| - 1]), es[|es| - 1])))
  }

  ghost predicate SparedAt(sys: System, e: Event)
    requires CanHappen(sys, e)
  {
    var m := sys.members[e.who];
    e.Call? ==> Spared(sys.store, e.who, PendingOp(m, e.answer), m.run.value.mode, e.answer)
  }

  lemma TrackedStep(sys: System, e: Event, w: Shoot)
    requires AllAnchored(sys, w) && CanHappen(sys, e) && e.who == w && Tracked(sys, e) && SparedAt(sys, e)
    ensures Orderly(sys, e)
  {
    var m := sys.members[w];
    if m.run.Some? && !m.run.value.mode.Deleting? && m.status.state.Some? {
      assert Anchored(sys.store, m.spec, m.status.state.value);
    }
  }

  /** Where deletions are kept track of, no run has to be expendable: it may die or lose its status at any moment. */
  lemma {:induction false} TrackedIsOrderly(sys: System, es: seq<Event>, w: Shoot)
    requires AllAnchored(sys, w) && Possible(sys, es) && TrackedFor(sys, es, w) && SparedFor(sys, es, w)
    ensures OrderlyFor(sys, es, w)
    decreases |es|
  {
    if es != [] {
      var n := |es| - 1;
      TrackedIsOrderly(sys, es[..n], w);
      RunsStayAnchored(sys, es[..n], w);
      if es[n].who == w { TrackedStep(Exec(sys, es[..n]), es[n], w); }
    }
  }

  /** The listings of a run are answered, and so are the lookup of the SNAT pool and the read of the external gateway in a
      recovery; those of locale services need not be while creating. */
  predicate Answered(op: Op, mode: Mode, a: Answer) {
    match op
    case List(kind, _) => a.fault.Works? || (mode.Creating? && kind.Locale?)
    case Lookup(kind, _) => mode.Recovering? && kind.IpPool? ==> a.fault.Works?
    case ReadGateway(_) => mode.Recovering? ==> a.fault.Works?
    case _ => true
  }

  ghost predicate AnsweredAt(sys: System, e: Event)
    requires CanHappen(sys, e)
  {
    var m := sys.members[e.who];
    e.Call? ==> Answered(PendingOp(m, e.answer), m.run.value.mode, e.answer)
  }

  ghost predicate AnsweredFor(sys: System, es: seq<Event>, w: Shoot)
    requires Possible(sys, es)
    decreases |es|
  {
    es == []
    || (AnsweredFor(sys, es[..|es| - 1], w)
        && (es[|es| - 1].who == w ==> AnsweredAt(Exec(sys, es[..|es| - 1]), es[|es| - 1])))
  }

  predicate NoDelete(es: seq<Event>, w: Shoot) {
    forall e :: e in es && e.who == w ==> !e.Delete?
  }

  /** Shoot w is not being deleted. */
  predicate NotDeleting(sys: System, w: Shoot) {
    w in sys.members && (sys.members[w].run.Some? ==> sys.members[w].run.value.mode.Creating?)
  }

  lemma CreatingStep(sys: System, e: Event, w: Shoot)
    requires AllAnchored(sys, w) && NotDeleting(sys, w) && CanHappen(sys, e)
    requires e.who == w ==> !e.Delete? && AnsweredAt(sys, e)
    ensures e.who == w ==> Orderly(sys, e)
    ensures AllAnchored(Step(sys, e), w) && NotDeleting(Step(sys, e), w)
  {
    var m := sys.members[w];
    if e.who == w {
      if e.Call? {
        assert !PendingOp(m, e.answer).Erase?;
        ResumeOnCourse(m.spec, m.run.value, Told(sys.store, PendingOp(m, e.answer), e.answer));
      } else if e.Reconcile? {
        var s := UpdateExternal(m.spec, m.status.state.GetOr(InitialState(m.spec)));
        BeginOnCourse(m.spec, Creating, Tasks(s.nsxt3), s);
      }
      TrackedStep(sys, e, w);
    }
    StepAnchored(sys, e, w);
  }

  /** Creation runs whose listings are answered are orderly, wherever they are cut off, and whether or not their status is
      written. */
  lemma {:induction false} CreationIsOrderly(sys: System, es: seq<Event>, w: Shoot)
    requires AllAnchored(sys, w) && NotDeleting(sys, w) && Possible(sys, es) && NoDelete(es, w) && AnsweredFor(sys, es, w)
    ensures OrderlyFor(sys, es, w) && AllAnchored(Exec(sys, es), w) && NotDeleting(Exec(sys, es), w)
    decreases |es|
  {
    if es != [] {
      var n := |es| - 1;
      CreationIsOrderly(sys, es[..n], w);
      CreatingStep(Exec(sys, es[..n]), es[n], w);
    }
  }

  /** The run has not failed. */
  predicate Unfailed(sys: System, w: Shoot) {
    && w in sys.members && sys.members[w].run.Some? && !sys.members[w].run.value.mode.Creating?
    && (sys.members[w].run.value.Finished? ==> sys.members[w].run.value.ok)
  }

  /** A deletion of a strict object that is lost makes the run fail. */
  lemma LostIsFailed(sys: System, w: Shoot, a: Answer)
    requires Isolated(sys) && CanHappen(sys, Call(w, a)) && Unfailed(Step(sys, Call(w, a)), w)
    ensures var op := PendingOp(sys.members[w], a); op.Erase? && Strict(op.key.kind) ==> !a.fault.Lost?
  {
    var m, r := sys.members[w], sys.members[w].run.value;
    ResumeOnCourse(m.spec, r, Told(sys.store, PendingOp(m, a), a));
  }

  /** A deletion run that succeeds, and whose listings are answered, is orderly. */
  lemma {:induction false} SuccessIsOrderly(sys: System, es: seq<Event>, w: Shoot)
    requires Isolated(sys) && Possible(sys, es) && OnlyCalls(es, w) && AnsweredFor(sys, es, w)
    requires w in sys.members && sys.members[w].run.Some? && !sys.members[w].run.value.mode.Creating?
    requires Unfailed(Exec(sys, es), w)
    ensures OrderlyFor(sys, es, w)
    decreases |es|
  {
    if es != [] {
      var n := |es| - 1;
      var before := Exec(sys, es[..n]);
      RunsStayIsolated(sys, es[..n]);
      StaysDeletion(sys, es[..n], w);
      SuccessIsOrderly(sys, es[..n], w);
      if es[n].who == w { LostIsFailed(before, w, es[n].answer); }
    }
  }

  lemma {:induction false} StaysDeletion(sys: System, es: seq<Event>, w: Shoot)
    requires Possible(sys, es) && OnlyCalls(es, w)
    requires w in sys.members && sys.members[w].run.Some? && !sys.members[w].run.value.mode.Creating?
    ensures var now := Exec(sys, es);
            w in now.members && now.members[w].run.Some? && !now.members[w].run.value.mode.Creating?
    decreases |es|
  {
    if es != [] {
      var n := |es| - 1;
      StaysDeletion(sys, es[..n], w);
      var m := Exec(sys, es[..n]).members[w];
      if es[n].who == w {
        ResumeOnCourse(m.spec, m.run.value, Told(Exec(sys, es[..n]).store, PendingOp(m, es[n].answer), es[n].answer));
      }
    }
  }

  lemma DeletionStarted(sys: System, start: Event, later: seq<Event>, w: Shoot)
    requires InGoodOrder(sys, w) && CanHappen(sys, start) && start.Delete? && start.who == w
    requires Possible(Step(sys, start), later) && OnlyCalls(later, w) && Deleted(Exec(Step(sys, start), later), w)
    ensures var m := Step(sys, start).members[w]; m.run.Some? && !m.run.value.mode.Creating?
    ensures Step(sys, start).store == sys.store
  {
    if Step(sys, start).members[w].run.None? { NoRunNoDeletion(Step(sys, start), later, w); }
    var m := sys.members[w];
    if !NothingToDelete(m.status) {
      var s := UpdateExternal(m.spec, m.status.state.value);
      BeginOnCourse(m.spec, Recovering, Tasks(s.nsxt3), s);
    }
  }

  lemma {:induction false} NoRunNoDeletion(sys: System, es: seq<Event>, w: Shoot)
    requires Possible(sys, es) && OnlyCalls(es, w) && w in sys.members && sys.members[w].run.None?
    ensures w in Exec(sys, es).members && Exec(sys, es).members[w].run.None?
    decreases |es|
  {
    if es != [] { NoRunNoDeletion(sys, es[..|es| - 1], w); }
  }

  /** Conservation, with conditions on events alone: from a system in which nothing was created yet, make any creation
      runs whose listings are answered, cut off anywhere, their status kept or lost; then one deletion run whose listings
      are answered. If it succeeds, the shoot owns nothing; and if it was alone, the store is as it was. */
  lemma ConservationFromPristine(sys: System, es: seq<Event>, start: Event, later: seq<Event>, w: Shoot)
    requires Pristine(sys) && DistinctShoots(SpecsOf(sys)) && w in sys.members && Provided(sys.store, sys.members[w].spec)
    requires Possible(sys, es) && NoDelete(es, w) && AnsweredFor(sys, es, w)
    requires CanHappen(Exec(sys, es), start) && start.Delete? && start.who == w
    requires var run := Step(Exec(sys, es), start);
             Possible(run, later) && OnlyCalls(later, w) && AnsweredFor(run, later, w) && Deleted(Exec(run, later), w)
    ensures OwnsNothing(Exec(Step(Exec(sys, es), start), later).store, w)
    ensures OnlyOf(es, w) && OnlyOf(later, w) ==>
              Exec(Step(Exec(sys, es), start), later).store.objects == sys.store.objects
  {
    var now, run := Exec(sys, es), Step(Exec(sys, es), start);
    PristineIsInOrder(sys, w);
    CreationIsOrderly(sys, es, w);
    RunsStayInGoodOrder(sys, es, w);
    StepInGoodOrder(now, start, w);
    DeletionStarted(now, start, later, w);
    SuccessIsOrderly(run, later, w);
    RunsStayInGoodOrder(run, later, w);
    NothingLeft(Exec(run, later), w);
    if OnlyOf(es, w) && OnlyOf(later, w) {
      RunsKeepForeign(sys, es, w);
      RunsKeepForeign(run, later, w);
      NothingForeign(Exec(run, later).store, w);
      NothingForeign(sys.store, w);
    }
  }

  // ---- deletion from nothing but the spec ----

  /** A deletion run that is started directly, with an empty state. */
  function DeleteDirectly(sys: System, w: Shoot): System
    requires w in sys.members
  {
    var m := sys.members[w];
    sys.(members := sys.members[w := m.(run := Some(StartDelete(m.spec, InitialState(m.spec))))])
  }

  lemma DirectDeletionInOrder(sys: System, w: Shoot)
    requires InGoodOrder(sys, w) && sys.members[w].run.None?
    ensures InGoodOrder(DeleteDirectly(sys, w), w)
  {
    var m, st := sys.members[w], sys.store;
    var s := UpdateExternal(m.spec, InitialState(m.spec));
    assert SpecsOf(DeleteDirectly(sys, w)) == SpecsOf(sys);
    TasksAreOrdered(s.nsxt3);
    assert Sound(st, w, m.spec, s) && OwnRefs(st, w, m.spec, s);
    BeginSound(st, w, m.spec, Recovering, Tasks(s.nsxt3), s);
    BeginOwn(st, w, m.spec, Recovering, Tasks(s.nsxt3), s);
    BeginOnCourse(m.spec, Recovering, Tasks(s.nsxt3), s);
  }

  /** The spec is enough: a deletion that starts without any recorded state conserves the store as well. */
  lemma ConservationFromNothing(sys: System, es: seq<Event>, later: seq<Event>, w: Shoot)
    requires InGoodOrder(sys, w) && OwnsNothing(sys.store, w)
    requires Possible(sys, es) && OrderlyFor(sys, es, w) && OnlyOf(es, w)
    requires w in Exec(sys, es).members && Exec(sys, es).members[w].run.None?
    requires var now := DeleteDirectly(Exec(sys, es), w);
             Possible(now, later) && OrderlyFor(now, later, w) && OnlyOf(later, w) && Deleted(Exec(now, later), w)
    ensures Exec(DeleteDirectly(Exec(sys, es), w), later).store.objects == sys.store.objects
  {
    RunsStayInGoodOrder(sys, es, w);
    RunsKeepForeign(sys, es, w);
    var now := DeleteDirectly(Exec(sys, es), w);
    DirectDeletionInOrder(Exec(sys, es), w);
    RunsStayInGoodOrder(now, later, w);
    RunsKeepForeign(now, later, w);
    NothingLeft(Exec(now, later), w);
    NothingForeign(Exec(now, later).store, w);
    NothingForeign(sys.store, w);
  }

  // ---- resumable deletion ----

  /** Shoot w owns no more than before, and what it still owns is as it was. */
  ghost predicate Shrunk(st: Store, st': Store, w: Shoot) {
    forall key :: Mine(st', w, key) ==> Mine(st, w, key) && st'.objects[key] == st.objects[key]
  }

  /** Shoot w is not being created. */
  predicate NotCreating(sys: System, w: Shoot) {
    w in sys.members && (sys.members[w].run.Some? ==> !sys.members[w].run.value.mode.Creating?)
  }

  lemma CallShrinks(st: Store, w: Shoot, spec: Spec, r: Run, a: Answer)
    requires OwnRun(st, w, spec, r) && r.Pending? && !r.mode.Creating?
    ensures var op := NextOp(spec, r, a.draw);
            Shrunk(st, After(st, w, op, a), w) && !Resume(spec, r, Told(st, op, a)).mode.Creating?
  {
    var op := NextOp(spec, r, a.draw);
    assert !op.Write? && !op.Make?;
    ResumeOnCourse(spec, r, Told(st, op, a));
  }

  lemma StepShrinks(sys: System, e: Event, w: Shoot)
    requires Isolated(sys) && CanHappen(sys, e) && NotCreating(sys, w) && (e.who == w ==> !e.Reconcile?)
    ensures Shrunk(sys.store, Step(sys, e).store, w) && NotCreating(Step(sys, e), w)
  {
    StepIsolated(sys, e);
    var m := sys.members[w];
    if e.who != w {
      OthersDoNotMatter(sys.store, Step(sys, e).store, e.who, w);
    } else if e.Call? {
      CallShrinks(sys.store, w, m.spec, m.run.value, e.answer);
    } else if e.Delete? && m.status.state.Some? {
      var s := UpdateExternal(m.spec, m.status.state.value);
      BeginOnCourse(m.spec, Recovering, Tasks(s.nsxt3), s);
    }
  }

  /** The state a deletion run has ended with, successfully or not. */
  predicate DeletionEnded(sys: System, w: Shoot, s: State) {
    && w in sys.members && sys.members[w].run.Some?
    && sys.members[w].run.value.Finished? && sys.members[w].run.value.mode.Deleting? && sys.members[w].run.value.s == s
  }

  /** The state a deletion run ends with records exactly the objects that are left; what else it records, deletions get
      past, and the shoot owns nothing from there on. */
  lemma RecordsWhatIsLeft(sys: System, w: Shoot, s: State, key: Key)
    requires InGoodOrder(sys, w) && DeletionEnded(sys, w, s)
    ensures Mine(sys.store, w, key) <==>
              Owned(key.kind) && Recorded(s, key.kind) && KeyOf(key.kind, s) == key && key in sys.store.objects
    ensures forall t :: Gone(sys.store, s, t) ==> !Strict(t) && NothingFrom(sys.store, w, t)
  {
    var t := key.kind;
    assert OwnRefs(sys.store, w, sys.members[w].spec, s);
    if Mine(sys.store, w, key) {
      assert Recorded(s, t) && !Gone(sys.store, s, t);
      assert Mine(sys.store, w, KeyOf(t, s));
    }
  }

  /** Whatever is recorded now was recorded in s, with the same id. */
  predicate Within(s: State, s': State) {
    forall t :: Owned(t) && t in s'.refs && !IsExternal(t, s') ==> t in s.refs && s.refs[t] == s'.refs[t]
  }

  /** Since a deletion run ended with s: nothing has been recorded, and nothing is owned, that s does not record. */
  ghost predicate Since(sys: System, w: Shoot, s: State) {
    && NotCreating(sys, w)
    && (forall key :: Mine(sys.store, w, key) ==> key.kind in s.refs && s.refs[key.kind] == IssuedId(key))
    && var m := sys.members[w];
       && (m.run.Some? && !m.run.value.Panicked? ==> Within(s, m.run.value.s))
       && ((m.run.None? || m.run.value.mode.Recovering?) && m.status.state.Some? ==> Within(s, m.status.state.value))
  }

  lemma RecoveringWithin(st: Store, w: Shoot, specs: Specs, r: Run, a: Answer, s: State)
    requires w in specs && TruthfulTags(st, specs) && OwnRun(st, w, specs[w], r) && r.Pending? && r.mode.Recovering?
    requires forall key :: Mine(st, w, key) ==> key.kind in s.refs && s.refs[key.kind] == IssuedId(key)
    requires Admissible(st, NextOp(specs[w], r, a.draw), a) && Within(s, r.s)
    ensures var r' := Resume(specs[w], r, Told(st, NextOp(specs[w], r, a.draw), a)); !r'.Panicked? ==> Within(s, r'.s)
  {
    var spec, t, now, rest := specs[w], r.todo[0], r.s, r.todo[1..];
    var resp := Told(st, NextOp(spec, r, a.draw), a);
    BeginKeeps(spec, Recovering, rest, now);
    if r.phase.Listing? {
      BeginKeeps(spec, Recovering, rest, TryRecover(spec, t, now, resp));
      ListedWithin(st, w, specs, t, now, resp, s);
    } else if resp.Found? || resp.Gateway? {
      BeginKeeps(spec, Recovering, rest, SetRef(now, t, resp.id));
    }
  }

  lemma ListedWithin(st: Store, w: Shoot, specs: Specs, t: Task, now: State, resp: Resp, s: State)
    requires w in specs && TruthfulTags(st, specs) && Owned(t) && HasParent(t, now) && t !in now.refs
    requires forall key :: Mine(st, w, key) ==> key.kind in s.refs && s.refs[key.kind] == IssuedId(key)
    requires resp.Items? ==> Lists(st, t, ParentId(t, now), resp.items)
    requires Within(s, now)
    ensures Within(s, TryRecover(specs[w], t, now, resp))
  {
    if resp.Items? {
      FirstTaggedListed(resp.items, TagsOf(specs[w], t));
      var found := FirstTagged(resp.items, TagsOf(specs[w], t));
      if found.Some? { assert Mine(st, w, Key(t, ParentId(t, now), found.value.id)); }
    }
  }

  lemma DeletingWithin(spec: Spec, r: Run, resp: Resp, s: State)
    requires r.Pending? && WellPhased(spec, r) && InMode(r.mode, r.phase) && r.mode.Deleting? && Within(s, r.s)
    ensures var r' := Resume(spec, r, resp); !r'.Panicked? ==> Within(s, r'.s)
  {
    BeginKeeps(spec, Deleting, r.todo[1..], ClearRef(r.s, r.todo[0]));
  }

  /** No run of shoot w dies, and its status writes are kept. */
  predicate WritesKept(es: seq<Event>, w: Shoot) {
    forall e :: e in es && e.who == w ==> !e.Crash? && (e.Finish? ==> e.written)
  }

  lemma StepSince(sys: System, e: Event, w: Shoot, s: State)
    requires InGoodOrder(sys, w) && Since(sys, w, s) && CanHappen(sys, e)
    requires e.who == w ==> !e.Reconcile? && Orderly(sys, e) && !e.Crash? && (e.Finish? ==> e.written)
    ensures Since(Step(sys, e), w, s)
  {
    StepIsolated(sys, e);
    StepShrinks(sys, e, w);
    var m := sys.members[w];
    if e.who == w {
      match e {
        case Call(_, a) =>
          ResumeOnCourse(m.spec, m.run.value, Told(sys.store, PendingOp(m, a), a));
          if m.run.value.mode.Recovering? {
            RecoveringWithin(sys.store, w, SpecsOf(sys), m.run.value, a, s);
          } else {
            DeletingWithin(m.spec, m.run.value, Told(sys.store, PendingOp(m, a), a), s);
          }
        case Delete(_, _) =>
          if m.status.state.Some? {
            var now := UpdateExternal(m.spec, m.status.state.value);
            BeginKeeps(m.spec, Recovering, Tasks(now.nsxt3), now);
            assert OwnRefs(sys.store, w, m.spec, m.status.state.value);
          }
        case _ =>
      }
    }
  }

  lemma {:induction false} RunsSince(sys: System, es: seq<Event>, w: Shoot, s: State)
    requires InGoodOrder(sys, w) && Since(sys, w, s) && Possible(sys, es) && OrderlyFor(sys, es, w) && NoReconcile(es, w)
    requires WritesKept(es, w)
    ensures Since(Exec(sys, es), w, s) && InGoodOrder(Exec(sys, es), w)
    decreases |es|
  {
    if es != [] {
      var n := |es| - 1;
      RunsSince(sys, es[..n], w, s);
      StepSince(Exec(sys, es[..n]), es[n], w, s);
      StepInGoodOrder(Exec(sys, es[..n]), es[n], w);
    }
  }

  lemma EndedSince(sys: System, w: Shoot, s: State)
    requires InGoodOrder(sys, w) && DeletionEnded(sys, w, s)
    ensures Since(sys, w, s)
  {
    forall key | Mine(sys.store, w, key) ensures key.kind in s.refs && s.refs[key.kind] == IssuedId(key) {
      RecordsWhatIsLeft(sys, w, s, key);
    }
  }

  lemma SinceWithin(sys: System, w: Shoot, s: State, s': State)
    requires Since(sys, w, s) && DeletionEnded(sys, w, s')
    ensures Within(s, s')
  {}

  /** Resuming: over any series of aborted deletion runs whose status is written, the recorded references only shrink;
      recovery never brings back a deleted object. */
  lemma ReferencesShrink(sys: System, es: seq<Event>, w: Shoot, s: State, s': State, t: Task)
    requires InGoodOrder(sys, w) && Possible(sys, es) && OrderlyFor(sys, es, w) && NoReconcile(es, w)
    requires WritesKept(es, w)
    requires DeletionEnded(sys, w, s) && DeletionEnded(Exec(sys, es), w, s')
    requires Owned(t) && !IsExternal(t, s') && t in s'.refs
    ensures t in s.refs && s.refs[t] == s'.refs[t]
  {
    EndedSince(sys, w, s);
    RunsSince(sys, es, w, s);
    SinceWithin(Exec(sys, es), w, s, s');
  }

  /** Any series of aborted runs and then a success ends in the same store as one uninterrupted run. */
  lemma SameEnd(sys: System, direct: seq<Event>, resumed: seq<Event>, w: Shoot)
    requires InGoodOrder(sys, w)
    requires Possible(sys, direct) && OrderlyFor(sys, direct, w) && OnlyOf(direct, w) && Deleted(Exec(sys, direct), w)
    requires Possible(sys, resumed) && OrderlyFor(sys, resumed, w) && OnlyOf(resumed, w) && Deleted(Exec(sys, resumed), w)
    ensures Exec(sys, direct).store.objects == Exec(sys, resumed).store.objects
  {
    RunsStayInGoodOrder(sys, direct, w);
    RunsStayInGoodOrder(sys, resumed, w);
    NothingLeft(Exec(sys, direct), w);
    NothingLeft(Exec(sys, resumed), w);
    NothingForeign(Exec(sys, direct).store, w);
    NothingForeign(Exec(sys, resumed).store, w);
    RunsKeepForeign(sys, direct, w);
    RunsKeepForeign(sys, resumed, w);
  }
}
