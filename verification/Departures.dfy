/**
  Where the code does not do what one would expect. Each condition under which a shoot's events are orderly is needed:
  for every system in good order in which it is violated, what goes wrong is stated here, and in Orphans.dfy. And a locale
  service that is gone makes a creation run ask for ever.
 */
module Departures {
  import opened Basics
  import opened Protocol
  import opened World
  import opened Plan
  import opened Isolation
  import opened References
  import opened Convergence
  import opened Deletion
  import opened Anchoring
  import opened Recovery
  import opened Progress

  // ---- a listing that fails while creating ----

  /** A failing listing counts as an empty one: a creation run that meets it while the shoot already owns an object of
      the kind, but has no record of it, creates another. */
  lemma FailedListingDuplicates(sys: System, w: Shoot, failed: Answer, key: Key) returns (made: Answer)
    requires InGoodOrder(sys, w) && CanHappen(sys, Call(w, failed)) && failed.fault.Refused?
    requires var m := sys.members[w];
             && m.run.value.mode.Creating? && m.run.value.phase.Listing? && !key.kind.Locale?
             && Mine(sys.store, w, key) && key.kind == m.run.value.todo[0] && LayoutOk(key.kind, m.spec)
    ensures var next := Step(sys, Call(w, failed));
            && CanHappen(next, Call(w, made)) && made.fault.Works?
            && var st := Step(next, Call(w, made)).store;
               exists twin :: twin != key && twin.kind == key.kind && Mine(st, w, twin) && Mine(st, w, key)
  {
    var m := sys.members[w];
    var was :| Underway(sys, was, w);
    var r, next := m.run.value, Step(sys, Call(w, failed));
    FailedListingMakes(sys.store, was, w, m.spec, r, failed);
    made := AnswerExists(next.store, m.spec, next.members[w].run.value);
    var twin := NewKey(key.kind, r.s, made.draw.id);
    assert PendingOp(next.members[w], made) == Make(twin, Created(key.kind, m.spec, r.s, made.draw.suffix));
    MadeIsOwn(next.store, w, twin, Created(key.kind, m.spec, r.s, made.draw.suffix), made, key);
  }

  lemma FailedListingMakes(st: Store, was: map<Key, Obj>, w: Shoot, spec: Spec, r: Run, failed: Answer)
    requires OwnRun(st, w, spec, r) && WellUnderWay(st, was, w, spec, r)
    requires r.Pending? && r.phase.Listing? && LayoutOk(r.todo[0], spec) && failed.fault.Refused?
    ensures var op, making := NextOp(spec, r, failed.draw), Pending(Creating, r.todo, Making, r.s);
            After(st, w, op, failed) == st && Resume(spec, r, Told(st, op, failed)) == making && WellPhased(spec, making)
  {
    EarlierIsSet(st, was, w, spec, r.todo, r.s);
    EarlierIsReady(r.s, r.todo[0]);
  }

  lemma MadeIsOwn(st: Store, w: Shoot, twin: Key, o: Obj, made: Answer, key: Key)
    requires Mine(st, w, key) && made.fault.Works? && IsFresh(st, twin.id) && IssuedId(twin) == twin.id
    ensures var st' := After(st, w, Make(twin, o), made);
            twin != key && Mine(st', w, twin) && Mine(st', w, key)
  {}

  // ---- an object that a deletion run overlooks ----

  /** The run will not come to delete the object of task t with this id: it records none or another, and will not
      list. */
  predicate Overlooks(r: Run, t: Task, id: Id) {
    match r
    case Pending(mode, todo, _, s) =>
      && !mode.Creating? && (t in s.refs ==> s.refs[t] != id)
      && (mode.Recovering? && t !in s.refs ==>
            || t !in todo
            || (ParentTask(t).Some? && ParentTask(t).value !in s.refs && ParentTask(t).value !in todo))
    case Finished(mode, _, s) => !mode.Creating?
    case Panicked(mode) => !mode.Creating?
  }

  lemma {:induction false} BeginOverlooks(spec: Spec, mode: Mode, todo: seq<Task>, s: State, t: Task, id: Id)
    requires !mode.Creating? && (t in s.refs ==> s.refs[t] != id)
    requires mode.Recovering? && t !in s.refs ==>
               || t !in todo
               || (ParentTask(t).Some? && ParentTask(t).value !in s.refs && ParentTask(t).value !in todo)
    ensures Overlooks(Begin(spec, mode, todo, s), t, id)
    decreases mode.Recovering?, |todo|
  {
    if todo == [] {
      if mode.Recovering? { BeginOverlooks(spec, Deleting, Reverse(Tasks(s.nsxt3)), s, t, id); }
    } else {
      BeginFollows(spec, mode, todo, s);
      assert todo == [todo[0]] + todo[1..];
      if Enter(spec, mode, todo[0], s).Skip? { BeginOverlooks(spec, mode, todo[1..], s, t, id); }
    }
  }

  /** A reference is set that the run was waiting for. */
  lemma SetOverlooks(spec: Spec, todo: seq<Task>, s: State, s': State, u: Task, t: Task, id: Id)
    requires todo != [] && todo[0] == u && Overlooks(Pending(Recovering, todo, Looking, s), t, id)
    requires u != t && s'.nsxt3 == s.nsxt3 && s'.external == s.external
    requires forall v :: v != u ==> (v in s'.refs <==> v in s.refs) && (v in s.refs ==> s'.refs[v] == s.refs[v])
    ensures Overlooks(Begin(spec, Recovering, todo[1..], s'), t, id)
  {
    assert todo == [u] + todo[1..];
    BeginOverlooks(spec, Recovering, todo[1..], s', t, id);
  }

  lemma RecoveringOverlooks(spec: Spec, r: Run, resp: Resp, t: Task, id: Id)
    requires r.Pending? && WellPhased(spec, r) && InMode(r.mode, r.phase) && r.mode.Recovering?
    requires InPhase(r.todo[0], r.phase, r.s) && Owned(t) && !IsExternal(t, r.s) && Overlooks(r, t, id)
    ensures Overlooks(Resume(spec, r, resp), t, id)
  {
    var u, s, todo := r.todo[0], r.s, r.todo;
    assert todo == [u] + todo[1..];
    assert u != t;
    if r.phase.Listing? {
      SetOverlooks(spec, todo, s, TryRecover(spec, u, s, resp), u, t, id);
    } else {
      SetOverlooks(spec, todo, s, s, u, t, id);
      LookedOverlooks(spec, todo, s, resp, t, id);
    }
  }

  lemma LookedOverlooks(spec: Spec, todo: seq<Task>, s: State, resp: Resp, t: Task, id: Id)
    requires todo != [] && todo[0] != t && Overlooks(Pending(Recovering, todo, Looking, s), t, id)
    requires Overlooks(Begin(spec, Recovering, todo[1..], s), t, id)
    ensures Overlooks(OnLooked(spec, Recovering, todo, s, resp), t, id)
  {
    if resp.Found? || resp.Gateway? { SetOverlooks(spec, todo, s, SetRef(s, todo[0], resp.id), todo[0], t, id); }
  }

  lemma ResumeOverlooks(spec: Spec, r: Run, resp: Resp, t: Task, id: Id)
    requires r.Pending? && WellPhased(spec, r) && InMode(r.mode, r.phase) && OnPlan(r.s.nsxt3, r.mode, r.todo)
    requires InPhase(r.todo[0], r.phase, r.s) && Owned(t) && !IsExternal(t, r.s) && Overlooks(r, t, id)
    ensures Overlooks(Resume(spec, r, resp), t, id)
  {
    if r.mode.Recovering? {
      RecoveringOverlooks(spec, r, resp, t, id);
    } else {
      BeginOverlooks(spec, Deleting, r.todo[1..], ClearRef(r.s, r.todo[0]), t, id);
    }
  }

  /** Shoot w owns the object, and its run overlooks it. */
  ghost predicate LeftAside(sys: System, w: Shoot, key: Key) {
    && Isolated(sys) && w in sys.members && Mine(sys.store, w, key)
    && !(sys.members[w].spec.externalTier1.Some? && (key.kind.Tier1? || key.kind.Locale?))
    && sys.members[w].run.Some? && Overlooks(sys.members[w].run.value, key.kind, IssuedId(key))
  }

  lemma StepLeavesAside(sys: System, e: Event, w: Shoot, key: Key)
    requires LeftAside(sys, w, key) && CanHappen(sys, e) && (e.who == w ==> e.Call?)
    ensures LeftAside(Step(sys, e), w, key)
  {
    StepIsolated(sys, e);
    var m := sys.members[w];
    if e.who != w {
      OthersDoNotMatter(sys.store, Step(sys, e).store, e.who, w);
    } else {
      ResumeOverlooks(m.spec, m.run.value, Told(sys.store, PendingOp(m, e.answer), e.answer), key.kind, IssuedId(key));
    }
  }

  lemma {:induction false} RunsLeaveAside(sys: System, es: seq<Event>, w: Shoot, key: Key)
    requires LeftAside(sys, w, key) && Possible(sys, es) && OnlyCalls(es, w)
    ensures LeftAside(Exec(sys, es), w, key)
    decreases |es|
  {
    if es != [] {
      RunsLeaveAside(sys, es[..|es| - 1], w, key);
      StepLeavesAside(Exec(sys, es[..|es| - 1]), es[|es| - 1], w, key);
    }
  }

  // ---- a call of a recovery that fails ----

  /** In good order, what is recorded is there, but for objects that deletions get past. */
  lemma InOrderIsSmooth(sys: System, w: Shoot)
    requires InGoodOrder(sys, w) && DeletingSafely(sys, w)
    requires sys.members[w].run.value.Pending? && sys.members[w].run.value.mode.Recovering?
    ensures DeletingSmoothly(sys, w)
  {
    var r := sys.members[w].run.value;
    forall t | Strict(t) && Recorded(r.s, t) ensures KeyOf(t, r.s) in sys.store.objects { assert !Gone(sys.store, r.s, t); }
  }

  /** The failing call of a recovery, and what it leaves unrecorded. */
  ghost predicate RecoveryFails(sys: System, w: Shoot, failed: Answer, key: Key) {
    && InGoodOrder(sys, w) && DeletingSafely(sys, w) && CanHappen(sys, Call(w, failed)) && failed.fault.Refused?
    && var r := sys.members[w].run.value;
       && r.mode.Recovering? && Mine(sys.store, w, key) && key.kind !in r.s.refs
       && MissedWith(r.todo[0], r.phase, r.s, key.kind)
  }

  lemma RefusedGoesOn(st: Store, w: Shoot, spec: Spec, r: Run, failed: Answer)
    requires OwnRun(st, w, spec, r) && r.Pending? && r.mode.Recovering? && failed.fault.Refused?
    ensures var op := NextOp(spec, r, failed.draw);
            After(st, w, op, failed) == st && Resume(spec, r, Told(st, op, failed)) == Begin(spec, Recovering, r.todo[1..], r.s)
  {}

  lemma FailedRecoverySmooth(sys: System, w: Shoot, failed: Answer, key: Key)
    requires RecoveryFails(sys, w, failed, key)
    ensures DeletingSmoothly(Step(sys, Call(w, failed)), w)
  {
    var m, r := sys.members[w], sys.members[w].run.value;
    StepIsolated(sys, Call(w, failed));
    InOrderIsSmooth(sys, w);
    RefusedGoesOn(sys.store, w, m.spec, r, failed);
    UpcomingTail(r.s.nsxt3, r.todo);
    BeginSmooth(sys.store, m.spec, Recovering, r.todo[1..], r.s);
  }

  /** What a recovery fails to record with this task. */
  predicate MissedWith(t: Task, phase: Phase, s: State, missed: Task) {
    || (phase.Listing? && t == missed)
    || (t.IpPool? && missed.Alloc?)
    || (t.Tier1? && s.external && missed.Rule?)
  }

  lemma MissedIsOverlooked(spec: Spec, todo: seq<Task>, phase: Phase, s: State, missed: Task, id: Id)
    requires todo != [] && Upcoming(s.nsxt3, todo) && todo[0] !in s.refs && missed !in s.refs
    requires MissedWith(todo[0], phase, s, missed)
    ensures Overlooks(Begin(spec, Recovering, todo[1..], s), missed, id)
  {
    UpcomingTail(s.nsxt3, todo);
    BeginOverlooks(spec, Recovering, todo[1..], s, missed, id);
  }

  lemma FailedRecoveryLeavesAside(sys: System, w: Shoot, failed: Answer, key: Key)
    requires RecoveryFails(sys, w, failed, key)
    ensures LeftAside(Step(sys, Call(w, failed)), w, key)
  {
    var m, r := sys.members[w], sys.members[w].run.value;
    StepIsolated(sys, Call(w, failed));
    RefusedGoesOn(sys.store, w, m.spec, r, failed);
    MissedIsOverlooked(m.spec, r.todo, r.phase, r.s, key.kind, IssuedId(key));
    assert !(m.spec.externalTier1.Some? && (key.kind.Tier1? || key.kind.Locale?));
  }

  /** A recovery ignores errors. Should the listing of a kind fail, or the lookup of the SNAT pool, or the read of an
      external gateway, then the unrecorded object of the kind, the allocation, or the rule is overlooked: if all other
      calls work, the deletion succeeds and leaves it behind. */
  lemma FailedRecoveryLeaves(sys: System, w: Shoot, failed: Answer, key: Key, es: seq<Event>)
    requires RecoveryFails(sys, w, failed, key)
    requires Possible(Step(sys, Call(w, failed)), es) && Undisturbed(es, w)
    ensures var now := Exec(Step(sys, Call(w, failed)), es);
            && Mine(now.store, w, key)
            && w in now.members && now.members[w].run.Some?
            && (now.members[w].run.value.Pending? || Deleted(now, w))
  {
    var next := Step(sys, Call(w, failed));
    FailedRecoverySmooth(sys, w, failed, key);
    FailedRecoveryLeavesAside(sys, w, failed, key);
    RunsSmooth(next, es, w);
    RunsLeaveAside(next, es, w, key);
    assert SafeRun(Exec(next, es).members[w].spec, Exec(next, es).members[w].run.value);
  }

  // ---- a deletion that is lost track of ----

  lemma AboutToErase(st: Store, w: Shoot, spec: Spec, r: Run)
    requires OwnRun(st, w, spec, r) && r.Pending? && r.phase.Erasing?
    ensures Recorded(r.s, r.todo[0]) && IssuedTo(st, IssuedId(KeyOf(r.todo[0], r.s)), w)
  {
    PlanTail(r.s.nsxt3, r.mode, r.todo);
  }

  lemma LostErasure(st: Store, w: Shoot, spec: Spec, r: Run, a: Answer)
    requires r.Pending? && WellPhased(spec, r) && r.phase.Erasing? && r.mode.Deleting? && Strict(r.todo[0]) && a.fault.Lost?
    ensures var t, op := r.todo[0], NextOp(spec, r, a.draw);
            && Resume(spec, r, Told(st, op, a)) == Finished(Deleting, false, r.s)
            && KeyOf(t, r.s) !in After(st, w, op, a).objects && After(st, w, op, a).issued == st.issued
  {}

  /** One strict object whose deletion is not acknowledged is enough to make all later deletion runs fail. */
  lemma LostAnswerSticks(sys: System, w: Shoot, a: Answer, es: seq<Event>)
    requires InGoodOrder(sys, w) && CanHappen(sys, Call(w, a)) && a.fault.Lost?
    requires var r := sys.members[w].run.value; r.phase.Erasing? && Strict(r.todo[0])
    requires CanHappen(Step(sys, Call(w, a)), Finish(w, true))
    requires Possible(Step(Step(sys, Call(w, a)), Finish(w, true)), es) && NoReconcile(es, w)
    ensures var r := sys.members[w].run.value;
            var recorded := Step(Step(sys, Call(w, a)), Finish(w, true));
            && Dangling(Exec(recorded, es), w, r.todo[0], KeyOf(r.todo[0], r.s))
            && !Deleted(Exec(recorded, es), w)
  {
    var m, r := sys.members[w], sys.members[w].run.value;
    var next := Step(sys, Call(w, a));
    AboutToErase(sys.store, w, m.spec, r);
    LostErasure(sys.store, w, m.spec, r, a);
    StepIsolated(sys, Call(w, a));
    StepIsolated(next, Finish(w, true));
    DeletionStaysStuck(Step(next, Finish(w, true)), es, w, r.todo[0], KeyOf(r.todo[0], r.s));
  }

  /** A deletion run that dies, or loses its final status write, after it has deleted a strict object that is on record:
      the same. */
  lemma ForgottenDeletionSticks(sys: System, e: Event, w: Shoot, t: Task, es: seq<Event>)
    requires InGoodOrder(sys, w) && CanHappen(sys, e) && e.who == w && (e.Crash? || (e.Finish? && !e.written))
    requires var m := sys.members[w];
             m.run.value.mode.Deleting? && m.status.state.Some? && Strict(t) && Gone(sys.store, m.status.state.value, t)
    requires Possible(Step(sys, e), es) && NoReconcile(es, w)
    ensures !Deleted(Exec(Step(sys, e), es), w)
    ensures Dangling(Exec(Step(sys, e), es), w, t, KeyOf(t, sys.members[w].status.state.value))
  {
    var s := sys.members[w].status.state.value;
    StepIsolated(sys, e);
    assert OwnRefs(sys.store, w, sys.members[w].spec, s);
    DeletionStaysStuck(Step(sys, e), es, w, t, KeyOf(t, s));
  }

  /** What is recorded under a gone object is gone as well. */
  lemma ChildIsGone(st: Store, w: Shoot, spec: Spec, s: State, t: Task)
    requires Parented(s) && OwnRefs(st, w, spec, s) && Gone(st, s, t) && !Strict(t) && !Childless(s, t) && NothingFrom(st, w, t)
    ensures (exists u :: Strict(u) && Gone(st, s, u)) || (!s.nsxt3 && t.Server? && Gone(st, s, Pool))
  {
    var u :| u in s.refs && InPlan(s.nsxt3, u) && Owned(u) && !u.Locale? && ParentTask(u) == Some(if t.Locale? then Tier1 else t);
    assert u.Rule? || u.Pool?;
    assert Recorded(s, u) && KeyOf(u, s).kind == u;
    assert !Mine(st, w, KeyOf(u, s));
    assert Gone(st, s, u);
  }

  /** Exactly: a deletion run is not expendable if a recorded strict object is gone, or, in version 1, the DHCP server and
      its pool both are. */
  lemma WhenNotExpendable(sys: System, w: Shoot, s: State)
    requires InGoodOrder(sys, w) && sys.members[w].run.Some? && sys.members[w].run.value.mode.Deleting?
    requires sys.members[w].status.state == Some(s)
    ensures !Expendable(sys.store, w, sys.members[w])
            <==> || (exists t :: Strict(t) && Gone(sys.store, s, t))
                 || (!s.nsxt3 && Gone(sys.store, s, Server) && Gone(sys.store, s, Pool))
  {
    if !Expendable(sys.store, w, sys.members[w]) {
      var t :| Gone(sys.store, s, t) && !(!Strict(t) && Childless(s, t));
      if !Strict(t) { ChildIsGone(sys.store, w, sys.members[w].spec, s, t); }
    }
  }

  // ---- a re-creation that is lost track of ----

  /** If an object of the advanced API is recorded but gone, a creation run makes another. Should that run die, or lose
      its final status write, the record still names the old one: the next deletion run passes over the new one, whatever
      its calls answer, and leaves it behind. */
  lemma ForgottenCreationLeaves(sys: System, e: Event, w: Shoot, key: Key, start: Event, es: seq<Event>)
    requires InGoodOrder(sys, w) && CanHappen(sys, e) && e.who == w && (e.Crash? || (e.Finish? && !e.written))
    requires var m := sys.members[w];
             && m.run.value.mode.Creating? && Mine(sys.store, w, key) && m.status.state.Some?
             && Gone(sys.store, m.status.state.value, key.kind) && m.status.state.value.refs[key.kind] != IssuedId(key)
    requires CanHappen(Step(sys, e), start) && start.Delete? && start.who == w
    requires Step(Step(sys, e), start).members[w].run.Some?
    requires Possible(Step(Step(sys, e), start), es) && OnlyCalls(es, w)
    ensures Mine(Exec(Step(Step(sys, e), start), es).store, w, key)
  {
    var m, t, s := sys.members[w], key.kind, sys.members[w].status.state.value;
    StepIsolated(sys, e);
    StepIsolated(Step(sys, e), start);
    assert OwnRefs(sys.store, w, m.spec, s) && UpdateExternal(m.spec, s) == s;
    BeginOverlooks(m.spec, Recovering, Tasks(s.nsxt3), s, t, IssuedId(key));
    RunsLeaveAside(Step(Step(sys, e), start), es, w, key);
  }

  // ---- a locale service that is gone ----

  /** The creation run of shoot w asks for a locale service that is gone. */
  ghost predicate AsksInVain(sys: System, was: map<Key, Obj>, w: Shoot) {
    && Underway(sys, was, w)
    && var r := sys.members[w].run.value; r.Pending? && LocaleLost(sys.store, r.todo, r.phase, r.s)
  }

  lemma StepAsksInVain(sys: System, was: map<Key, Obj>, e: Event, w: Shoot)
    requires AsksInVain(sys, was, w) && CanHappen(sys, e) && (e.who == w ==> e.Call? && e.answer.fault.Works?)
    ensures AsksInVain(Step(sys, e), was, w)
    ensures e.who == w ==> Tier1 !in Step(sys, e).members[w].run.value.s.refs
    ensures e.who != w ==> Step(sys, e).members[w] == sys.members[w]
  {
    var m, r := sys.members[w], sys.members[w].run.value;
    StepIsolated(sys, e);
    StepUnderway(sys, was, e, w);
    if e.who == w {
      ReadAnswer(sys.store, m.spec, r, e.answer);
      LostStaysLost(sys.store, was, w, m.spec, r.todo, r.s, Told(sys.store, PendingOp(m, e.answer), e.answer));
    } else {
      OthersDoNotMatter(sys.store, Step(sys, e).store, e.who, w);
      assert !Mine(Step(sys, e).store, w, KeyOf(Locale, r.s));
    }
  }

  /** It does so without end: as long as its calls are answered it neither succeeds nor fails, and it has forgotten the
      gateway. */
  lemma {:induction false} GoneLocaleNeverEnds(sys: System, was: map<Key, Obj>, es: seq<Event>, w: Shoot)
    requires AsksInVain(sys, was, w) && Possible(sys, es) && Undisturbed(es, w)
    ensures AsksInVain(Exec(sys, es), was, w)
    ensures CallsOf(es, w) > 0 ==> Tier1 !in Exec(sys, es).members[w].run.value.s.refs
    decreases |es|
  {
    if es != [] {
      var n := |es| - 1;
      GoneLocaleNeverEnds(sys, was, es[..n], w);
      StepAsksInVain(Exec(sys, es[..n]), was, es[n], w);
    }
  }

  /** As meant, the task would forget its own reference: then it creates the service next, as the other tasks do. */
  lemma LocaleAsMeant(spec: Spec, mode: Mode, todo: seq<Task>, s: State)
    requires todo != [] && todo[0].Locale? && Ready(Locale, s) && !IsExternal(Locale, s)
    ensures var s' := ClearRef(s, Locale);
            var r := Follow(spec, mode, todo, s', EnsureEntry(spec, Locale, s'));
            if Tier1 in s.refs then r == Pending(mode, todo, Making, s') && WellPhased(spec, r) else r == Panicked(mode)
  {}
}
