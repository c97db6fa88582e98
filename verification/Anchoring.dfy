/**
  What is recorded leads to what exists, as long as deletions are kept track of: none succeeds unseen, and no deletion
  run dies or loses its final status write. Everything else may fail, listings and lookups included.
 */
module Anchoring {
  import opened Basics
  import opened Protocol
  import opened World
  import opened Plan
  import opened Isolation
  import opened References
  import opened Convergence
  import opened Deletion

  /** An own object is recorded but not there. */
  predicate Gone(st: Store, s: State, t: Task) {
    Owned(t) && Recorded(s, t) && KeyOf(t, s) !in st.objects
  }

  predicate PoolKnown(st: Store, spec: Spec, s: State) {
    IpPool in s.refs ==> s.refs[IpPool] == PoolId(st, spec)
  }

  /** References come with their parents, and nothing recorded is gone. */
  ghost predicate Anchored(st: Store, spec: Spec, s: State) {
    Parented(s) && PoolKnown(st, spec, s) && forall t :: !Gone(st, s, t)
  }

  ghost predicate AnchoredRun(st: Store, spec: Spec, r: Run) {
    match r
    case Pending(mode, todo, phase, s) =>
      && Anchored(st, spec, s) && todo != []
      && (mode.Deleting? ==> Ahead(s, todo))
      && (phase.Making? ==> todo[0] !in s.refs)
    case Finished(_, _, s) => Anchored(st, spec, s)
    case Panicked(_) => true
  }

  predicate DeletionUnderWay(run: Option<Run>) {
    run.Some? && run.value.mode.Deleting?
  }

  ghost predicate AnchoredMember(st: Store, m: Member) {
    && (m.status.state.Some? && !DeletionUnderWay(m.run) ==> Anchored(st, m.spec, m.status.state.value))
    && (m.run.Some? ==> AnchoredRun(st, m.spec, m.run.value))
  }

  /** A creation run of shoot w is well under way. */
  ghost predicate CreatesWell(sys: System, w: Shoot) {
    w in sys.members && sys.members[w].run.Some? && sys.members[w].run.value.mode.Creating? ==>
      exists was :: Underway(sys, was, w)
  }

  ghost predicate AllAnchored(sys: System, w: Shoot) {
    Isolated(sys) && w in sys.members && AnchoredMember(sys.store, sys.members[w]) && CreatesWell(sys, w)
  }

  /** The faults that deletions are spared. */
  ghost predicate Tracked(sys: System, e: Event)
    requires CanHappen(sys, e)
  {
    var m := sys.members[e.who];
    match e
    case Call(_, a) => PendingOp(m, a).Erase? ==> !a.fault.Lost?
    case Finish(_, written) => m.run.value.mode.Deleting? ==> written
    case Crash(_) => !m.run.value.mode.Deleting?
    case _ => true
  }

  // ---- silent steps ----

  /** A run keeps its state until the next call. */
  lemma {:induction false} BeginKeeps(spec: Spec, mode: Mode, todo: seq<Task>, s: State)
    ensures var r := Begin(spec, mode, todo, s);
            && (!r.Panicked? ==> r.s == s)
            && (r.Pending? ==> r.todo != [] && (r.phase.Making? ==> r.todo[0] !in s.refs))
    decreases mode.Recovering?, |todo|
  {
    if todo == [] {
      if mode.Recovering? { BeginKeeps(spec, Deleting, Reverse(Tasks(s.nsxt3)), s); }
    } else {
      BeginFollows(spec, mode, todo, s);
      if Enter(spec, mode, todo[0], s).Skip? { BeginKeeps(spec, mode, todo[1..], s); }
    }
  }

  /** A deletion has everything recorded ahead of it. */
  lemma {:induction false} BeginAhead(spec: Spec, mode: Mode, todo: seq<Task>, s: State)
    requires mode.Deleting? ==> Ahead(s, todo)
    ensures var r := Begin(spec, mode, todo, s); r.Pending? && r.mode.Deleting? ==> Ahead(s, r.todo)
    decreases mode.Recovering?, |todo|
  {
    if todo == [] {
      if mode.Recovering? {
        ReverseDescends(s.nsxt3);
        BeginAhead(spec, Deleting, Reverse(Tasks(s.nsxt3)), s);
      }
    } else {
      BeginFollows(spec, mode, todo, s);
      assert todo == [todo[0]] + todo[1..];
      if Enter(spec, mode, todo[0], s).Skip? { BeginAhead(spec, mode, todo[1..], s); }
    }
  }

  lemma BeginAnchored(st: Store, spec: Spec, mode: Mode, todo: seq<Task>, s: State)
    requires OnPlan(s.nsxt3, mode, todo) && (mode.Deleting? ==> Ahead(s, todo)) && Anchored(st, spec, s)
    ensures AnchoredRun(st, spec, Begin(spec, mode, todo, s))
  {
    BeginKeeps(spec, mode, todo, s);
    BeginAhead(spec, mode, todo, s);
  }

  lemma FollowAnchored(st: Store, spec: Spec, todo: seq<Task>, s: State)
    requires todo != [] && OnPlan(s.nsxt3, Creating, todo) && Anchored(st, spec, s)
    ensures AnchoredRun(st, spec, Follow(spec, Creating, todo, s, EnsureEntry(spec, todo[0], s)))
  {
    PlanTail(s.nsxt3, Creating, todo);
    if EnsureEntry(spec, todo[0], s).Skip? { BeginAnchored(st, spec, Creating, todo[1..], s); }
  }

  // ---- changes of the state ----

  /** A reference is set: to what exists, if it is an own object, or to what it was. */
  ghost predicate RefSet(st: Store, spec: Spec, s: State, s': State, t: Task) {
    && s'.nsxt3 == s.nsxt3 && s'.external == s.external && t in s'.refs
    && (forall u :: u != t ==> (u in s'.refs <==> u in s.refs) && (u in s.refs ==> s'.refs[u] == s.refs[u]))
    && (t in s.refs && Owned(t) ==> s'.refs[t] == s.refs[t])
    && (Owned(t) && !IsExternal(t, s) ==> HasParent(t, s) && Reachable(t, s') && KeyOf(t, s') in st.objects)
    && (t.IpPool? ==> s'.refs[t] == PoolId(st, spec))
  }

  /** Setting a reference moves no object that was reached before. */
  lemma KeyKept(st: Store, spec: Spec, s: State, s': State, t: Task, u: Task)
    requires RefSet(st, spec, s, s', t) && PoolKnown(st, spec, s) && u != t && u in s.refs && Reachable(u, s)
    ensures Reachable(u, s') && KeyOf(u, s') == KeyOf(u, s)
  {}

  lemma SetAnchored(st: Store, spec: Spec, s: State, s': State, t: Task)
    requires Anchored(st, spec, s) && RefSet(st, spec, s, s', t)
    ensures Anchored(st, spec, s')
  {
    forall u | u in s'.refs && InPlan(s'.nsxt3, u) && Owned(u) && !IsExternal(u, s')
      ensures Reachable(u, s') && KeyOf(u, s') in st.objects
    {
      if u != t {
        assert Recorded(s, u) && !Gone(st, s, u);
        KeyKept(st, spec, s, s', t, u);
      }
    }
  }

  lemma GrownAnchored(st: Store, st': Store, spec: Spec, s: State)
    requires Anchored(st, spec, s) && st'.catalog == st.catalog && forall key :: key in st.objects ==> key in st'.objects
    ensures Anchored(st', spec, s)
  {
    forall t ensures !Gone(st', s, t) { assert !Gone(st, s, t); }
  }

  /** The last object of a deletion is erased, or was never there, and is forgotten. */
  lemma ClearedAnchored(st: Store, st': Store, spec: Spec, todo: seq<Task>, s: State)
    requires todo != [] && Descending(s.nsxt3, todo) && Anchored(st, spec, s) && Ahead(s, todo)
    requires Owned(todo[0]) && Reachable(todo[0], s) && st'.catalog == st.catalog
    requires forall key :: key in st.objects && key != KeyOf(todo[0], s) ==> key in st'.objects
    ensures Anchored(st', spec, ClearRef(s, todo[0])) && Ahead(ClearRef(s, todo[0]), todo[1..])
  {
    var s' := ClearRef(s, todo[0]);
    DescendingTail(s.nsxt3, todo);
    ClearedParented(s, todo);
    forall u ensures !Gone(st', s', u) {
      if Owned(u) && Recorded(s', u) { assert !Gone(st, s, u) && KeyOf(u, s') == KeyOf(u, s); }
    }
  }

  // ---- one call ----

  lemma LookedAnchored(st: Store, spec: Spec, mode: Mode, todo: seq<Task>, s: State, resp: Resp)
    requires todo != [] && !mode.Deleting? && OnPlan(s.nsxt3, mode, todo) && Anchored(st, spec, s)
    requires Owned(todo[0]) ==> IsExternal(todo[0], s) && todo[0] !in s.refs
    requires todo[0].IpPool? && resp.Found? ==> resp.id == PoolId(st, spec)
    ensures AnchoredRun(st, spec, OnLooked(spec, mode, todo, s, resp))
  {
    var t := todo[0];
    PlanTail(s.nsxt3, mode, todo);
    BeginAnchored(st, spec, mode, todo[1..], s);
    if (t.Tier1? && resp.Gateway?) || (!t.Tier1? && resp.Found?) {
      SetAnchored(st, spec, s, SetRef(s, t, resp.id), t);
      BeginAnchored(st, spec, mode, todo[1..], SetRef(s, t, resp.id));
    }
  }

  lemma RecoveredRef(st: Store, spec: Spec, t: Task, s: State, item: Item)
    requires Owned(t) && !IsExternal(t, s) && HasParent(t, s) && t !in s.refs
    requires NewKey(t, s, item.id) in st.objects
    ensures RefSet(st, spec, s, Recovered(t, s, item), t)
  {
    var s' := Recovered(t, s, item);
    assert KeyOf(t, s') == NewKey(t, s, item.id);
  }

  /** Recovery finds what is there; of a locale service, the default one. */
  lemma ListedRef(st: Store, spec: Spec, t: Task, s: State, resp: Resp)
    requires Owned(t) && !IsExternal(t, s) && HasParent(t, s) && t !in s.refs
    requires resp.Items? ==> Lists(st, t, ParentId(t, s), resp.items)
    requires resp.Items? && t.Locale? ==>
               forall i :: i in resp.items && Tagged(i.obj, spec, Locale) ==> Key(Locale, ParentId(Locale, s), DEFAULT) in st.objects
    ensures var s' := TryRecover(spec, t, s, resp); s' == s || RefSet(st, spec, s, s', t)
  {
    if resp.Items? {
      FirstTaggedListed(resp.items, TagsOf(spec, t));
      var found := FirstTagged(resp.items, TagsOf(spec, t));
      if found.Some? { RecoveredRef(st, spec, t, s, found.value); }
    }
  }

  lemma ListedAnchored(st: Store, spec: Spec, mode: Mode, todo: seq<Task>, s: State, resp: Resp)
    requires todo != [] && !mode.Deleting? && OnPlan(s.nsxt3, mode, todo) && Anchored(st, spec, s)
    requires Owned(todo[0]) && !IsExternal(todo[0], s) && HasParent(todo[0], s) && todo[0] !in s.refs
    requires resp.Items? ==> Lists(st, todo[0], ParentId(todo[0], s), resp.items)
    requires resp.Items? && todo[0].Locale? ==>
               forall i :: i in resp.items && Tagged(i.obj, spec, Locale) ==> Key(Locale, ParentId(Locale, s), DEFAULT) in st.objects
    ensures AnchoredRun(st, spec, OnListed(spec, mode, todo, s, resp))
  {
    var s' := TryRecover(spec, todo[0], s, resp);
    PlanTail(s.nsxt3, mode, todo);
    ListedRef(st, spec, todo[0], s, resp);
    if s' != s { SetAnchored(st, spec, s, s', todo[0]); }
    BeginAnchored(st, spec, mode, todo[1..], s');
    if mode.Creating? { FollowAnchored(st, spec, todo, s'); }
  }

  /** The recorded object is there, so a read finds it or fails. */
  lemma ReadAnchored(st: Store, spec: Spec, todo: seq<Task>, s: State, resp: Resp)
    requires todo != [] && OnPlan(s.nsxt3, Creating, todo) && Anchored(st, spec, s)
    requires Owned(todo[0]) && Ready(todo[0], s) && LayoutOk(todo[0], spec) && (resp.One? || resp.Err?)
    ensures AnchoredRun(st, spec, OnRead(spec, Creating, todo, s, resp))
  {
    PlanTail(s.nsxt3, Creating, todo);
    BeginAnchored(st, spec, Creating, todo[1..], s);
  }

  lemma WrittenAnchored(st: Store, w: Shoot, spec: Spec, todo: seq<Task>, s: State, want: Obj, a: Answer)
    requires todo != [] && OnPlan(s.nsxt3, Creating, todo) && Anchored(st, spec, s)
    requires Reachable(todo[0], s)
    ensures var op := Write(KeyOf(todo[0], s), want);
            AnchoredRun(After(st, w, op, a), spec, OnWritten(spec, Creating, todo, s, Told(st, op, a)))
  {
    var st' := After(st, w, Write(KeyOf(todo[0], s), want), a);
    PlanTail(s.nsxt3, Creating, todo);
    GrownAnchored(st, st', spec, s);
    BeginAnchored(st', spec, Creating, todo[1..], s);
  }

  lemma MadeRef(st: Store, spec: Spec, t: Task, s: State, id: Id, name: Option<string>)
    requires Owned(t) && !IsExternal(t, s) && HasParent(t, s) && t !in s.refs && NewKey(t, s, id) in st.objects
    ensures RefSet(st, spec, s, WithMade(t, s, id, name), t)
  {
    assert KeyOf(t, WithMade(t, s, id, name)) == NewKey(t, s, id);
  }

  lemma MadeAnchored(st: Store, w: Shoot, spec: Spec, todo: seq<Task>, s: State, draw: Draw, o: Obj, a: Answer)
    requires todo != [] && OnPlan(s.nsxt3, Creating, todo) && Anchored(st, spec, s)
    requires Owned(todo[0]) && !IsExternal(todo[0], s) && HasParent(todo[0], s) && todo[0] !in s.refs
    ensures var op := Make(NewKey(todo[0], s, draw.id), o);
            AnchoredRun(After(st, w, op, a), spec, OnMade(spec, Creating, todo, s, Told(st, op, a)))
  {
    var t, key := todo[0], NewKey(todo[0], s, draw.id);
    var st' := After(st, w, Make(key, o), a);
    PlanTail(s.nsxt3, Creating, todo);
    GrownAnchored(st, st', spec, s);
    if a.fault.Works? {
      var s' := WithMade(t, s, key.id, NameOf(o));
      MadeRef(st', spec, t, s, key.id, NameOf(o));
      SetAnchored(st', spec, s, s', t);
      BeginAnchored(st', spec, Creating, todo[1..], s');
    }
  }

  /** The recorded object is there: its deletion works, or is refused and leaves it in place. */
  lemma ErasedAnchored(st: Store, w: Shoot, spec: Spec, todo: seq<Task>, s: State, a: Answer)
    requires todo != [] && Descending(s.nsxt3, todo) && Anchored(st, spec, s) && Ahead(s, todo) && !a.fault.Lost?
    requires Owned(todo[0]) && Reachable(todo[0], s) && !IsExternal(todo[0], s)
    ensures var op := Erase(KeyOf(todo[0], s));
            AnchoredRun(After(st, w, op, a), spec, OnErased(spec, Deleting, todo, s, Told(st, op, a)))
  {
    var st' := After(st, w, Erase(KeyOf(todo[0], s)), a);
    DescendingTail(s.nsxt3, todo);
    assert !Gone(st, s, todo[0]);
    if a.fault.Works? {
      ClearedAnchored(st, st', spec, todo, s);
      BeginAnchored(st', spec, Deleting, todo[1..], ClearRef(s, todo[0]));
    }
  }

  lemma CheckedAnchored(st: Store, spec: Spec, todo: seq<Task>, s: State, a: Answer)
    requires todo != [] && Descending(s.nsxt3, todo) && Anchored(st, spec, s)
    requires Owned(todo[0]) && Reachable(todo[0], s) && !IsExternal(todo[0], s)
    ensures AnchoredRun(st, spec, OnChecked(spec, Deleting, todo, s, Told(st, Read(KeyOf(todo[0], s)), a)))
  {
    DescendingTail(s.nsxt3, todo);
    assert !Gone(st, s, todo[0]);
  }

  // The same in the terms of NextOp and Resume.

  lemma LookingAnchored(st: Store, w: Shoot, spec: Spec, r: Run, a: Answer)
    requires r.Pending? && OwnRun(st, w, spec, r) && AnchoredRun(st, spec, r) && r.phase.Looking?
    ensures AnchoredRun(st, spec, Resume(spec, r, Told(st, NextOp(spec, r, a.draw), a)))
  {
    LookedAnchored(st, spec, r.mode, r.todo, r.s, Told(st, NextOp(spec, r, a.draw), a));
  }

  lemma ListingAnchored(st: Store, w: Shoot, specs: Specs, r: Run, a: Answer)
    requires w in specs && TruthfulTags(st, specs)
    requires r.Pending? && OwnRun(st, w, specs[w], r) && AnchoredRun(st, specs[w], r) && r.phase.Listing?
    requires Admissible(st, NextOp(specs[w], r, a.draw), a)
    ensures AnchoredRun(st, specs[w], Resume(specs[w], r, Told(st, NextOp(specs[w], r, a.draw), a)))
  {
    if r.todo[0].Locale? { LocaleListed(st, w, specs, ParentId(Locale, r.s), a.listing); }
    ListedAnchored(st, specs[w], r.mode, r.todo, r.s, Told(st, NextOp(specs[w], r, a.draw), a));
  }

  lemma ReadingAnchored(st: Store, w: Shoot, spec: Spec, r: Run, a: Answer)
    requires r.Pending? && OwnRun(st, w, spec, r) && AnchoredRun(st, spec, r) && r.phase.Reading?
    ensures AnchoredRun(st, spec, Resume(spec, r, Told(st, NextOp(spec, r, a.draw), a)))
  {
    ReadAnswer(st, spec, r, a);
    PlanTail(r.s.nsxt3, r.mode, r.todo);
    assert !Gone(st, r.s, r.todo[0]);
    ReadAnchored(st, spec, r.todo, r.s, Told(st, NextOp(spec, r, a.draw), a));
  }

  lemma ChangingAnchored(st: Store, w: Shoot, spec: Spec, r: Run, a: Answer)
    requires r.Pending? && OwnRun(st, w, spec, r) && AnchoredRun(st, spec, r) && (r.phase.Writing? || r.phase.Making?)
    ensures var op := NextOp(spec, r, a.draw); AnchoredRun(After(st, w, op, a), spec, Resume(spec, r, Told(st, op, a)))
  {
    if r.phase.Writing? {
      WrittenAnchored(st, w, spec, r.todo, r.s, r.phase.want, a);
    } else {
      MadeAnchored(st, w, spec, r.todo, r.s, a.draw, Created(r.todo[0], spec, r.s, a.draw.suffix), a);
    }
  }

  lemma DeletingAnchored(st: Store, w: Shoot, spec: Spec, r: Run, a: Answer)
    requires r.Pending? && OwnRun(st, w, spec, r) && AnchoredRun(st, spec, r) && (r.phase.Erasing? || r.phase.Checking?)
    requires NextOp(spec, r, a.draw).Erase? ==> !a.fault.Lost?
    ensures var op := NextOp(spec, r, a.draw); AnchoredRun(After(st, w, op, a), spec, Resume(spec, r, Told(st, op, a)))
  {
    if r.phase.Erasing? {
      ErasedAnchored(st, w, spec, r.todo, r.s, a);
    } else {
      CheckedAnchored(st, spec, r.todo, r.s, a);
    }
  }

  lemma CallAnchored(st: Store, w: Shoot, specs: Specs, r: Run, a: Answer)
    requires w in specs && TruthfulTags(st, specs)
    requires r.Pending? && OwnRun(st, w, specs[w], r) && AnchoredRun(st, specs[w], r)
    requires Admissible(st, NextOp(specs[w], r, a.draw), a)
    requires NextOp(specs[w], r, a.draw).Erase? ==> !a.fault.Lost?
    ensures var op := NextOp(specs[w], r, a.draw); AnchoredRun(After(st, w, op, a), specs[w], Resume(specs[w], r, Told(st, op, a)))
  {
    match r.phase {
      case Looking => LookingAnchored(st, w, specs[w], r, a);
      case Listing => ListingAnchored(st, w, specs, r, a);
      case Reading => ReadingAnchored(st, w, specs[w], r, a);
      case Writing(_) => ChangingAnchored(st, w, specs[w], r, a);
      case Making => ChangingAnchored(st, w, specs[w], r, a);
      case Erasing => DeletingAnchored(st, w, specs[w], r, a);
      case Checking => DeletingAnchored(st, w, specs[w], r, a);
    }
  }

  // ---- whole systems ----

  /** The store of w stands still, but what others have changed. */
  lemma AnchoredForOthers(st: Store, st': Store, w: Shoot, spec: Spec, s: State)
    requires SameForShoot(st, st', w) && OwnRefs(st, w, spec, s) && Anchored(st, spec, s)
    ensures Anchored(st', spec, s)
  {
    forall t ensures !Gone(st', s, t) {
      assert !Gone(st, s, t);
      if Owned(t) && Recorded(s, t) { assert Mine(st, w, KeyOf(t, s)); }
    }
  }

  lemma StatusAfterCall(st: Store, w: Shoot, m: Member, a: Answer)
    requires OwnMember(st, w, m) && AnchoredMember(st, m) && m.run.Some? && m.run.value.Pending?
    ensures var op, r := PendingOp(m, a), m.run.value;
            !r.mode.Deleting? && m.status.state.Some? ==> Anchored(After(st, w, op, a), m.spec, m.status.state.value)
  {
    if m.status.state.Some? && !m.run.value.mode.Deleting? {
      assert !PendingOp(m, a).Erase?;
      GrownAnchored(st, After(st, w, PendingOp(m, a), a), m.spec, m.status.state.value);
    }
  }

  lemma StepCreatesWell(sys: System, e: Event, w: Shoot)
    requires Isolated(sys) && CreatesWell(sys, w) && CanHappen(sys, e)
    ensures CreatesWell(Step(sys, e), w)
  {
    StepIsolated(sys, e);
    if w in sys.members {
      var m := sys.members[w];
      if m.run.Some? && m.run.value.mode.Creating? && (e.who == w ==> e.Call?) {
        var was :| Underway(sys, was, w);
        StepUnderway(sys, was, e, w);
      } else if e.who == w && e.Reconcile? && Step(sys, e).members[w].run.Some? {
        StartUnderway(sys, e, w);
      } else if e.who == w && e.Call? {
        ResumeOnCourse(m.spec, m.run.value, Told(sys.store, PendingOp(m, e.answer), e.answer));
      } else if e.who == w && e.Delete? && Step(sys, e).members[w].run.Some? {
        BeginOnCourse(m.spec, Recovering, Tasks(m.status.state.value.nsxt3), UpdateExternal(m.spec, m.status.state.value));
      }
    }
  }

  lemma OtherStepAnchored(sys: System, e: Event, w: Shoot)
    requires AllAnchored(sys, w) && CanHappen(sys, e) && e.who != w
    ensures AnchoredMember(Step(sys, e).store, sys.members[w])
  {
    var m, st, st' := sys.members[w], sys.store, Step(sys, e).store;
    StepIsolated(sys, e);
    OthersDoNotMatter(st, st', e.who, w);
    if m.status.state.Some? && !DeletionUnderWay(m.run) { AnchoredForOthers(st, st', w, m.spec, m.status.state.value); }
    if m.run.Some? && !m.run.value.Panicked? { AnchoredForOthers(st, st', w, m.spec, m.run.value.s); }
  }

  lemma StartAnchored(st: Store, w: Shoot, spec: Spec, state: Option<State>)
    requires state.Some? ==> OwnRefs(st, w, spec, state.value) && Anchored(st, spec, state.value)
    ensures AnchoredRun(st, spec, StartCreate(spec, state.GetOr(InitialState(spec))))
    ensures state.Some? ==> AnchoredRun(st, spec, StartDelete(spec, state.value))
  {
    var s := UpdateExternal(spec, state.GetOr(InitialState(spec)));
    TasksAreOrdered(s.nsxt3);
    assert state.Some? ==> s == state.value;
    BeginAnchored(st, spec, Creating, Tasks(s.nsxt3), s);
    BeginAnchored(st, spec, Recovering, Tasks(s.nsxt3), s);
  }

  lemma StepAnchored(sys: System, e: Event, w: Shoot)
    requires AllAnchored(sys, w) && CanHappen(sys, e) && (e.who == w ==> Tracked(sys, e))
    ensures AllAnchored(Step(sys, e), w)
  {
    StepIsolated(sys, e);
    StepCreatesWell(sys, e, w);
    var m := sys.members[w];
    if e.who != w {
      OtherStepAnchored(sys, e, w);
    } else {
      match e {
        case Reconcile(_, _, _, _) => StartAnchored(sys.store, w, m.spec, m.status.state);
        case Delete(_, _) => StartAnchored(sys.store, w, m.spec, m.status.state);
        case Call(_, a) =>
          CallAnchored(sys.store, w, SpecsOf(sys), m.run.value, a);
          StatusAfterCall(sys.store, w, m, a);
          ResumeOnCourse(m.spec, m.run.value, Told(sys.store, PendingOp(m, a), a));
        case _ =>
      }
    }
  }

  ghost predicate TrackedFor(sys: System, es: seq<Event>, w: Shoot)
    requires Possible(sys, es)
    decreases |es|
  {
    es == []
    || (TrackedFor(sys, es[..|es| - 1], w)
        && (es[|es| - 1].who == w ==> Tracked(Exec(sys, es[..|es| - 1]), es[|es| - 1])))
  }

  lemma {:induction false} RunsStayAnchored(sys: System, es: seq<Event>, w: Shoot)
    requires AllAnchored(sys, w) && Possible(sys, es) && TrackedFor(sys, es, w)
    ensures AllAnchored(Exec(sys, es), w)
    decreases |es|
  {
    if es != [] {
      RunsStayAnchored(sys, es[..|es| - 1], w);
      StepAnchored(Exec(sys, es[..|es| - 1]), es[|es| - 1], w);
    }
  }

  // ---- the results ----

  /** Where deletions are kept track of, the recorded state has every reference's parent, nothing it records is gone, and
      it is defined unless it is of version 1 and records neither the segment nor the logical switch. */
  lemma ParentsAreRecorded(sys: System, es: seq<Event>, w: Shoot, s: State)
    requires AllAnchored(sys, w) && Possible(sys, es) && TrackedFor(sys, es, w)
    requires var m := Exec(sys, es).members; w in m && !DeletionUnderWay(m[w].run) && m[w].status.state == Some(s)
    ensures Parented(s) && forall t :: !Gone(Exec(sys, es).store, s, t)
    ensures Defined(Exec(sys, es).members[w].spec, s) <==> s.nsxt3 || Switch in s.refs || Segment in s.refs
    ensures AllThere(Exec(sys, es).store, s)
  {
    RunsStayAnchored(sys, es, w);
    var now := Exec(sys, es);
    assert OwnRefs(now.store, w, now.members[w].spec, s);
    forall t | Strict(t) && Recorded(s, t) ensures KeyOf(t, s) in now.store.objects { assert !Gone(now.store, s, t); }
  }

  /** Definedness: where deletions are kept track of, no run of a shoot ever dereferences nil, but for recoveries of
      version 1 that start without segment and logical switch. */
  lemma NoPanic(sys: System, es: seq<Event>, start: Event, more: seq<Event>, w: Shoot)
    requires AllAnchored(sys, w) && Possible(sys, es) && TrackedFor(sys, es, w)
    requires var now := Exec(sys, es);
             && CanHappen(now, start) && start.who == w && (start.Reconcile? || start.Delete?)
             && Possible(Step(now, start), more) && OnlyCalls(more, w) && Step(now, start).members[w].run.Some?
    ensures var s, last := Exec(sys, es).members[w].status.state, Exec(Step(Exec(sys, es), start), more);
            && w in last.members && last.members[w].run.Some?
            && (start.Reconcile? || s.value.nsxt3 || Switch in s.value.refs || Segment in s.value.refs ==>
                  !last.members[w].run.value.Panicked?)
  {
    RunsStayAnchored(sys, es, w);
    var now := Exec(sys, es);
    if start.Reconcile? {
      CreationNeverPanics(now, start, more, w);
    } else {
      var s := now.members[w].status.state.value;
      ParentsAreRecorded(sys, es, w, s);
      RunsKeepRun(Step(now, start), more, w);
      if s.nsxt3 || Switch in s.refs || Segment in s.refs { DeletionNeverPanics(now, start, more, w, s); }
    }
  }

  lemma {:induction false} RunsKeepRun(sys: System, es: seq<Event>, w: Shoot)
    requires Possible(sys, es) && OnlyCalls(es, w) && w in sys.members && sys.members[w].run.Some?
    ensures w in Exec(sys, es).members && Exec(sys, es).members[w].run.Some?
    decreases |es|
  {
    if es != [] { RunsKeepRun(sys, es[..|es| - 1], w); }
  }
}
