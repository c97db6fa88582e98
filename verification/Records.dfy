/**
  What is recorded besides the references of objects: the name of the segment, the address, the external gateway. No run
  leaves a name or an address behind whose object it has forgotten, a deletion that succeeds leaves nothing, and a recorded
  name is the name of the segment that is there.
 */
module Records {
  import opened Basics
  import opened Tags
  import opened Protocol
  import opened World
  import opened Plan
  import opened Isolation
  import opened Convergence
  import opened Deletion
  import opened Anchoring
  import Authorization

  // ---- nothing is left behind ----

  /** A name needs a segment, an address needs an allocation. */
  predicate Tidy(s: State) {
    && (Segment !in s.refs ==> s.segmentName.None?)
    && (Address in s.refs ==> Alloc in s.refs)
  }

  /** Nothing of the shoot's own is recorded: no object, no address, no name. An external gateway may be. */
  predicate Emptied(s: State) {
    && (forall t :: t in s.refs && Owned(t) && InPlan(s.nsxt3, t) ==> IsExternal(t, s))
    && Address !in s.refs && s.segmentName.None?
  }

  ghost predicate TidyRun(r: Run) {
    match r
    case Pending(mode, todo, phase, s) =>
      Tidy(s) && InMode(mode, phase) && (mode.Deleting? ==> Descending(s.nsxt3, todo) && Ahead(s, todo))
    case Finished(mode, ok, s) => Tidy(s) && (mode.Deleting? && ok ==> Emptied(s))
    case Panicked(_) => true
  }

  /** With nothing ahead, nothing is recorded. */
  lemma NothingAhead(s: State)
    requires Tidy(s) && Ahead(s, [])
    ensures Emptied(s)
  {
    assert !IsExternal(Segment, s) && !IsExternal(Alloc, s);
  }

  lemma EnterTidy(spec: Spec, mode: Mode, todo: seq<Task>, s: State)
    requires todo != [] && Tidy(s) && (mode.Deleting? ==> Descending(s.nsxt3, todo) && Ahead(s, todo))
    ensures var e := Enter(spec, mode, todo[0], s);
            && (e.Ask? ==> InMode(mode, e.phase)) && (e.Fail? ==> mode.Creating?)
            && (e.Skip? && mode.Deleting? ==> Descending(s.nsxt3, todo[1..]) && Ahead(s, todo[1..]))
  {
    if mode.Deleting? { DescendingTail(s.nsxt3, todo); }
  }

  lemma {:induction false} BeginTidy(spec: Spec, mode: Mode, todo: seq<Task>, s: State)
    requires Tidy(s) && (mode.Deleting? ==> Descending(s.nsxt3, todo) && Ahead(s, todo))
    ensures TidyRun(Begin(spec, mode, todo, s))
    decreases mode.Recovering?, |todo|
  {
    if todo == [] {
      if mode.Recovering? {
        ReverseDescends(s.nsxt3);
        BeginTidy(spec, Deleting, Reverse(Tasks(s.nsxt3)), s);
      } else if mode.Deleting? {
        NothingAhead(s);
      }
    } else {
      BeginFollows(spec, mode, todo, s);
      EnterTidy(spec, mode, todo, s);
      if Enter(spec, mode, todo[0], s).Skip? { BeginTidy(spec, mode, todo[1..], s); }
    }
  }

  lemma EnsureTidy(spec: Spec, todo: seq<Task>, s: State)
    requires todo != [] && Tidy(s)
    ensures TidyRun(Follow(spec, Creating, todo, s, EnsureEntry(spec, todo[0], s)))
  {
    BeginTidy(spec, Creating, todo[1..], s);
  }

  /** What is forgotten is forgotten whole. */
  lemma ClearTidy(s: State, t: Task)
    requires Tidy(s)
    ensures Tidy(ClearRef(s, t))
  {}

  lemma AskedTidy(spec: Spec, mode: Mode, todo: seq<Task>, s: State, resp: Resp)
    requires todo != [] && Tidy(s) && !mode.Deleting? && (todo[0].Address? ==> Alloc in s.refs)
    ensures !todo[0].Segment? ==> TidyRun(OnLooked(spec, mode, todo, s, resp))
    ensures HasParent(todo[0], s) && !todo[0].Address? ==> TidyRun(OnListed(spec, mode, todo, s, resp))
  {
    BeginTidy(spec, mode, todo[1..], s);
    if !todo[0].Segment? && (resp.Found? || resp.Gateway?) { BeginTidy(spec, mode, todo[1..], SetRef(s, todo[0], resp.id)); }
    if HasParent(todo[0], s) && !todo[0].Address? {
      var s' := TryRecover(spec, todo[0], s, resp);
      BeginTidy(spec, mode, todo[1..], s');
      EnsureTidy(spec, todo, s');
    }
  }

  lemma ReadTidy(spec: Spec, todo: seq<Task>, s: State, resp: Resp)
    requires todo != [] && Tidy(s) && Owned(todo[0]) && Ready(todo[0], s) && LayoutOk(todo[0], spec)
    ensures TidyRun(OnRead(spec, Creating, todo, s, resp))
  {
    BeginTidy(spec, Creating, todo[1..], s);
    ClearTidy(s, if todo[0].Locale? then Tier1 else todo[0]);
    EnsureTidy(spec, todo, Forget(todo[0], s));
  }

  lemma ChangedTidy(spec: Spec, todo: seq<Task>, s: State, resp: Resp)
    requires todo != [] && Tidy(s) && HasParent(todo[0], s) && Owned(todo[0])
    ensures TidyRun(OnWritten(spec, Creating, todo, s, resp)) && TidyRun(OnMade(spec, Creating, todo, s, resp))
  {
    BeginTidy(spec, Creating, todo[1..], s);
    if resp.Made? { BeginTidy(spec, Creating, todo[1..], WithMade(todo[0], s, resp.id, resp.name)); }
  }

  lemma DeletedTidy(spec: Spec, todo: seq<Task>, s: State, resp: Resp)
    requires todo != [] && Tidy(s) && Descending(s.nsxt3, todo) && Ahead(s, todo)
    ensures TidyRun(OnErased(spec, Deleting, todo, s, resp)) && TidyRun(OnChecked(spec, Deleting, todo, s, resp))
  {
    DescendingTail(s.nsxt3, todo);
    ClearTidy(s, todo[0]);
    BeginTidy(spec, Deleting, todo[1..], ClearRef(s, todo[0]));
  }

  /** Any answer at all keeps a run tidy. */
  lemma ResumeTidy(spec: Spec, r: Run, resp: Resp)
    requires r.Pending? && WellPhased(spec, r) && TidyRun(r)
    ensures TidyRun(Resume(spec, r, resp))
  {
    match r.phase {
      case Looking => AskedTidy(spec, r.mode, r.todo, r.s, resp);
      case Listing => AskedTidy(spec, r.mode, r.todo, r.s, resp);
      case Reading => ReadTidy(spec, r.todo, r.s, resp);
      case Writing(_) => BeginTidy(spec, Creating, r.todo[1..], r.s);
      case Making => ChangedTidy(spec, r.todo, r.s, resp);
      case Erasing => DeletedTidy(spec, r.todo, r.s, resp);
      case Checking => DeletedTidy(spec, r.todo, r.s, resp);
    }
  }

  lemma {:induction false} FeedTidy(spec: Spec, r: Run, told: seq<Resp>)
    requires TidyRun(r)
    ensures TidyRun(Feed(spec, r, told))
    decreases |told|
  {
    if told != [] && r.Pending? && WellPhased(spec, r) {
      ResumeTidy(spec, r, told[0]);
      FeedTidy(spec, Resume(spec, r, told[0]), told[1..]);
    }
  }

  /** Whatever the API answers, a run that starts from a tidy state is tidy wherever it is; and a deletion run that
      succeeds ends with nothing recorded. */
  lemma RunsEndTidy(spec: Spec, s: State, told: seq<Resp>, delete: bool)
    requires Tidy(s)
    ensures var r := Feed(spec, if delete then StartDelete(spec, s) else StartCreate(spec, s), told);
            && (!r.Panicked? ==> Tidy(r.s))
            && (r.Finished? && r.ok && r.mode.Deleting? ==> Emptied(r.s))
  {
    var s' := UpdateExternal(spec, s);
    BeginTidy(spec, if delete then Recovering else Creating, Tasks(s.nsxt3), s');
    FeedTidy(spec, if delete then StartDelete(spec, s) else StartCreate(spec, s), told);
  }

  // ---- whole systems ----

  ghost predicate TidyMember(m: Member) {
    && (m.status.state.Some? ==> Tidy(m.status.state.value))
    && (m.run.Some? ==> TidyRun(m.run.value))
  }

  lemma StepTidy(sys: System, e: Event, w: Shoot)
    requires w in sys.members && TidyMember(sys.members[w]) && CanHappen(sys, e)
    ensures TidyMember(Step(sys, e).members[w])
  {
    var m := sys.members[w];
    if e.who == w {
      match e {
        case Call(_, a) => ResumeTidy(m.spec, m.run.value, Told(sys.store, PendingOp(m, a), a));
        case Reconcile(_, _, _, _) =>
          var s := m.status.state.GetOr(InitialState(m.spec));
          BeginTidy(m.spec, Creating, Tasks(s.nsxt3), UpdateExternal(m.spec, s));
        case Delete(_, _) =>
          if m.status.state.Some? {
            BeginTidy(m.spec, Recovering, Tasks(m.status.state.value.nsxt3), UpdateExternal(m.spec, m.status.state.value));
          }
        case _ =>
      }
    }
  }

  /** Over all events of all shoots, whatever fails: no state that is recorded, or carried by a run, has the name of a
      segment or an address without the reference they belong to; and once a deletion run has succeeded, its state has none
      of the shoot's own references, no address and no name. */
  lemma {:induction false} RecordsStayTidy(sys: System, es: seq<Event>, w: Shoot)
    requires w in sys.members && TidyMember(sys.members[w]) && Possible(sys, es)
    ensures var now := Exec(sys, es);
            && w in now.members && TidyMember(now.members[w])
            && (Deleted(now, w) ==> Emptied(now.members[w].run.value.s))
    decreases |es|
  {
    if es != [] {
      RecordsStayTidy(sys, es[..|es| - 1], w);
      StepTidy(Exec(sys, es[..|es| - 1]), es[|es| - 1], w);
    }
  }

  // ---- the recorded name ----

  ghost predicate NameHolds(st: Store, s: State) {
    Segment in s.refs && Key(Segment, ROOT, s.refs[Segment]) in st.objects ==>
      s.segmentName == NameOf(st.objects[Key(Segment, ROOT, s.refs[Segment])])
  }

  /** A patch of the segment keeps its name. */
  predicate KeepsName(want: Obj, s: State) {
    if s.segmentName.Some? then NameOf(want) == s.segmentName else DisplayName !in want.attrs
  }

  ghost predicate NamedRun(st: Store, r: Run) {
    match r
    case Pending(_, todo, phase, s) =>
      NameHolds(st, s) && (phase.Writing? && todo != [] && todo[0].Segment? ==> KeepsName(phase.want, s))
    case Finished(_, _, s) => NameHolds(st, s)
    case Panicked(_) => true
  }

  ghost predicate NamedMember(st: Store, m: Member) {
    && (m.status.state.Some? ==> NameHolds(st, m.status.state.value))
    && (m.run.Some? ==> NamedRun(st, m.run.value))
  }

  lemma BeginNamed(st: Store, spec: Spec, mode: Mode, todo: seq<Task>, s: State)
    requires NameHolds(st, s)
    ensures NamedRun(st, Begin(spec, mode, todo, s))
  {
    BeginKeeps(spec, mode, todo, s);
    BeginAsks(spec, mode, todo, s);
  }

  lemma {:induction false} BeginAsks(spec: Spec, mode: Mode, todo: seq<Task>, s: State)
    ensures var r := Begin(spec, mode, todo, s); r.Pending? ==> !r.phase.Writing?
    decreases mode.Recovering?, |todo|
  {
    if todo == [] {
      if mode.Recovering? { BeginAsks(spec, Deleting, Reverse(Tasks(s.nsxt3)), s); }
    } else {
      BeginFollows(spec, mode, todo, s);
      if Enter(spec, mode, todo[0], s).Skip? { BeginAsks(spec, mode, todo[1..], s); }
    }
  }

  lemma EnsureNamed(st: Store, spec: Spec, todo: seq<Task>, s: State)
    requires todo != [] && NameHolds(st, s)
    ensures NamedRun(st, Follow(spec, Creating, todo, s, EnsureEntry(spec, todo[0], s)))
  {
    BeginNamed(st, spec, Creating, todo[1..], s);
  }

  lemma ListedNamed(st: Store, spec: Spec, mode: Mode, todo: seq<Task>, s: State, resp: Resp)
    requires todo != [] && HasParent(todo[0], s) && NameHolds(st, s) && !mode.Deleting?
    requires resp.Items? ==> Lists(st, todo[0], ParentId(todo[0], s), resp.items)
    ensures NamedRun(st, OnListed(spec, mode, todo, s, resp))
  {
    var s' := TryRecover(spec, todo[0], s, resp);
    if resp.Items? { FirstTaggedListed(resp.items, TagsOf(spec, todo[0])); }
    assert NameHolds(st, s');
    BeginNamed(st, spec, mode, todo[1..], s');
    EnsureNamed(st, spec, todo, s');
  }

  lemma LookedNamed(st: Store, spec: Spec, mode: Mode, todo: seq<Task>, s: State, resp: Resp)
    requires todo != [] && !todo[0].Segment? && NameHolds(st, s)
    ensures NamedRun(st, OnLooked(spec, mode, todo, s, resp))
  {
    BeginNamed(st, spec, mode, todo[1..], s);
    if resp.Found? || resp.Gateway? { BeginNamed(st, spec, mode, todo[1..], SetRef(s, todo[0], resp.id)); }
  }

  lemma PatchKeepsName(spec: Spec, s: State, have: Obj)
    requires Ready(Segment, s) && LayoutOk(Segment, spec)
    ensures KeepsName(Patch(Segment, spec, s, have), s)
  {}

  lemma ReadNamed(st: Store, spec: Spec, todo: seq<Task>, s: State, resp: Resp)
    requires todo != [] && Owned(todo[0]) && Ready(todo[0], s) && LayoutOk(todo[0], spec) && NameHolds(st, s)
    ensures NamedRun(st, OnRead(spec, Creating, todo, s, resp))
  {
    BeginNamed(st, spec, Creating, todo[1..], s);
    if resp.One? && todo[0].Segment? { PatchKeepsName(spec, s, resp.obj); }
    EnsureNamed(st, spec, todo, Forget(todo[0], s));
  }

  /** What a call leaves of the segment of an earlier state: the name it had. */
  lemma WriteKeepsName(st: Store, w: Shoot, s: State, s': State, key: Key, want: Obj, a: Answer)
    requires NameHolds(st, s) && NameHolds(st, s')
    requires key.kind.Segment? ==> Segment in s.refs && key == Key(Segment, ROOT, s.refs[Segment]) && KeepsName(want, s)
    requires key.kind.Segment? ==> key in st.objects
    ensures NameHolds(After(st, w, Write(key, want), a), s')
  {}

  lemma MadeKeepsName(st: Store, w: Shoot, s: State, key: Key, o: Obj, a: Answer)
    requires NameHolds(st, s) && (Segment in s.refs ==> s.refs[Segment] in st.issued)
    requires key.kind.Locale? || IsFresh(st, key.id)
    ensures NameHolds(After(st, w, Make(key, o), a), s)
  {}

  lemma EraseKeepsName(st: Store, w: Shoot, s: State, key: Key, a: Answer)
    requires NameHolds(st, s)
    ensures NameHolds(After(st, w, Erase(key), a), s)
  {}

  /** A call of the shoot's run keeps the name of its segment, for every state whose references are the shoot's. */
  lemma CallKeepsName(st: Store, was: map<Key, Obj>, w: Shoot, spec: Spec, r: Run, a: Answer, s: State)
    requires r.Pending? && OwnRun(st, w, spec, r) && NamedRun(st, r) && OwnRefs(st, w, spec, s) && NameHolds(st, s)
    requires Admissible(st, NextOp(spec, r, a.draw), a) && (r.mode.Creating? ==> WellUnderWay(st, was, w, spec, r))
    ensures NameHolds(After(st, w, NextOp(spec, r, a.draw), a), s)
  {
    var op := NextOp(spec, r, a.draw);
    assert !IsExternal(Segment, s);
    match op {
      case Write(key, want) => WriteKeepsName(st, w, r.s, s, key, want, a);
      case Make(key, o) => MadeKeepsName(st, w, s, key, o, a);
      case Erase(key) => EraseKeepsName(st, w, s, key, a);
      case _ =>
    }
  }

  /** The segment that was just created has the name that is recorded. */
  lemma MadeNamed(st: Store, w: Shoot, spec: Spec, r: Run, a: Answer)
    requires r.Pending? && r.phase.Making? && OwnRun(st, w, spec, r) && NamedRun(st, r)
    requires var op := NextOp(spec, r, a.draw); Admissible(st, op, a) && NameHolds(After(st, w, op, a), r.s)
    ensures var op := NextOp(spec, r, a.draw); NamedRun(After(st, w, op, a), Resume(spec, r, Told(st, op, a)))
  {
    var op := NextOp(spec, r, a.draw);
    var st' := After(st, w, op, a);
    if a.fault.Works? {
      var s' := WithMade(r.todo[0], r.s, op.key.id, NameOf(op.obj));
      assert NameHolds(st', s');
      BeginNamed(st', spec, Creating, r.todo[1..], s');
    }
  }

  lemma DeletingNamed(st: Store, spec: Spec, todo: seq<Task>, s: State, resp: Resp)
    requires todo != [] && NameHolds(st, s)
    ensures NamedRun(st, OnErased(spec, Deleting, todo, s, resp)) && NamedRun(st, OnChecked(spec, Deleting, todo, s, resp))
  {
    BeginNamed(st, spec, Deleting, todo[1..], ClearRef(s, todo[0]));
  }

  lemma ResumeNamed(st: Store, was: map<Key, Obj>, w: Shoot, spec: Spec, r: Run, a: Answer)
    requires r.Pending? && OwnRun(st, w, spec, r) && NamedRun(st, r)
    requires Admissible(st, NextOp(spec, r, a.draw), a) && (r.mode.Creating? ==> WellUnderWay(st, was, w, spec, r))
    ensures var op := NextOp(spec, r, a.draw); NamedRun(After(st, w, op, a), Resume(spec, r, Told(st, op, a)))
  {
    var op := NextOp(spec, r, a.draw);
    var st', resp := After(st, w, op, a), Told(st, op, a);
    CallKeepsName(st, was, w, spec, r, a, r.s);
    match r.phase {
      case Looking => LookedNamed(st', spec, r.mode, r.todo, r.s, resp);
      case Listing => ListedNamed(st', spec, r.mode, r.todo, r.s, resp);
      case Reading => ReadNamed(st', spec, r.todo, r.s, resp);
      case Writing(_) => BeginNamed(st', spec, Creating, r.todo[1..], r.s);
      case Making => MadeNamed(st, w, spec, r, a);
      case Erasing => DeletingNamed(st', spec, r.todo, r.s, resp);
      case Checking => DeletingNamed(st', spec, r.todo, r.s, resp);
    }
  }

  lemma NameForOthers(st: Store, st': Store, w: Shoot, spec: Spec, s: State)
    requires SameForShoot(st, st', w) && OwnRefs(st, w, spec, s) && NameHolds(st, s)
    ensures NameHolds(st', s)
  {
    if Segment in s.refs {
      var key := Key(Segment, ROOT, s.refs[Segment]);
      assert !IsExternal(Segment, s) && (Mine(st', w, key) <==> Mine(st, w, key));
    }
  }

  ghost predicate Named(sys: System, w: Shoot) {
    Isolated(sys) && CreatesWell(sys, w) && w in sys.members && NamedMember(sys.store, sys.members[w])
  }

  lemma CallNamed(sys: System, w: Shoot, a: Answer)
    requires Named(sys, w) && CanHappen(sys, Call(w, a))
    ensures NamedMember(Step(sys, Call(w, a)).store, Step(sys, Call(w, a)).members[w])
  {
    var m := sys.members[w];
    var was := map[];
    if m.run.value.mode.Creating? { was :| Underway(sys, was, w); }
    ResumeNamed(sys.store, was, w, m.spec, m.run.value, a);
    if m.status.state.Some? { CallKeepsName(sys.store, was, w, m.spec, m.run.value, a, m.status.state.value); }
  }

  lemma OtherNamed(sys: System, e: Event, w: Shoot)
    requires Named(sys, w) && CanHappen(sys, e) && e.who != w
    ensures NamedMember(Step(sys, e).store, sys.members[w])
  {
    var m, st' := sys.members[w], Step(sys, e).store;
    StepIsolated(sys, e);
    OthersDoNotMatter(sys.store, st', e.who, w);
    if m.status.state.Some? { NameForOthers(sys.store, st', w, m.spec, m.status.state.value); }
    if m.run.Some? && !m.run.value.Panicked? { NameForOthers(sys.store, st', w, m.spec, m.run.value.s); }
  }

  lemma StepNamed(sys: System, e: Event, w: Shoot)
    requires Named(sys, w) && CanHappen(sys, e)
    ensures Named(Step(sys, e), w)
  {
    var m := sys.members[w];
    StepIsolated(sys, e);
    StepCreatesWell(sys, e, w);
    if e.who != w {
      OtherNamed(sys, e, w);
    } else {
      match e {
        case Call(_, a) => CallNamed(sys, w, a);
        case Reconcile(_, _, _, _) =>
          var s := m.status.state.GetOr(InitialState(m.spec));
          BeginNamed(sys.store, m.spec, Creating, Tasks(s.nsxt3), UpdateExternal(m.spec, s));
        case Delete(_, _) =>
          if m.status.state.Some? {
            var s := m.status.state.value;
            BeginNamed(sys.store, m.spec, Recovering, Tasks(s.nsxt3), UpdateExternal(m.spec, s));
          }
        case _ =>
      }
    }
  }

  /** Over all events of all shoots, whatever fails: if the recorded segment is there, the recorded name is its display
      name, in the recorded state and in that of the run. */
  lemma {:induction false} NameIsDisplayName(sys: System, es: seq<Event>, w: Shoot)
    requires Named(sys, w) && Possible(sys, es)
    ensures Named(Exec(sys, es), w)
    decreases |es|
  {
    if es != [] {
      NameIsDisplayName(sys, es[..|es| - 1], w);
      StepNamed(Exec(sys, es[..|es| - 1]), es[|es| - 1], w);
    }
  }

  // ---- the external gateway ----

  /** The gateway is tagged for the shoot's garden, and one of its entries accepts the shoot's namespace. */
  ghost predicate Admits(st: Store, spec: Spec, id: Id) {
    && id in st.gateways
    && var tags := TagsToMap(st.gateways[id]);
       && "garden" in tags && tags["garden"] == spec.gardenID && spec.gardenID != ""
       && "authorized-shoots" in tags
       && exists p :: p in Authorization.Split(tags["authorized-shoots"], ',') && Authorization.EntryAccepts(p, spec.namespace)
  }

  ghost predicate GatewayAdmits(st: Store, spec: Spec, s: State) {
    s.external && Tier1 in s.refs ==> Admits(st, spec, s.refs[Tier1])
  }

  ghost predicate AdmittedRun(st: Store, spec: Spec, r: Run) {
    !r.Panicked? ==> GatewayAdmits(st, spec, r.s)
  }

  ghost predicate AdmittedMember(st: Store, m: Member) {
    && (m.status.state.Some? ==> GatewayAdmits(st, m.spec, UpdateExternal(m.spec, m.status.state.value)))
    && (m.run.Some? ==> AdmittedRun(st, m.spec, m.run.value))
  }

  lemma AuthorizedAdmits(st: Store, spec: Spec, id: Id)
    requires id in st.gateways && Authorization.Authorized(spec.gardenID, spec.namespace, TagsToMap(st.gateways[id]))
    ensures Admits(st, spec, id)
  {
    var tags := TagsToMap(st.gateways[id]);
    var p :| p in Authorization.Split(Authorization.TagValue(tags, Authorization.SCOPE_AUTHORIZED), ',')
             && Authorization.EntryAccepts(p, spec.namespace);
    assert p in Authorization.Split(tags["authorized-shoots"], ',');
  }

  lemma BeginAdmitted(st: Store, spec: Spec, mode: Mode, todo: seq<Task>, s: State)
    requires GatewayAdmits(st, spec, s)
    ensures AdmittedRun(st, spec, Begin(spec, mode, todo, s))
  {
    BeginKeeps(spec, mode, todo, s);
  }

  lemma FollowAdmitted(st: Store, spec: Spec, mode: Mode, todo: seq<Task>, s: State, e: Entry)
    requires todo != [] && GatewayAdmits(st, spec, s)
    ensures AdmittedRun(st, spec, Follow(spec, mode, todo, s, e))
  {
    BeginAdmitted(st, spec, mode, todo[1..], s);
  }

  lemma LookedAdmitted(st: Store, spec: Spec, r: Run, a: Answer)
    requires r.Pending? && WellPhased(spec, r) && r.phase.Looking? && GatewayAdmits(st, spec, r.s)
    ensures AdmittedRun(st, spec, Resume(spec, r, Told(st, NextOp(spec, r, a.draw), a)))
  {
    var t, s, resp := r.todo[0], r.s, Told(st, NextOp(spec, r, a.draw), a);
    BeginAdmitted(st, spec, r.mode, r.todo[1..], s);
    if t.Tier1? && resp.Gateway? {
      if Authorization.Authorized(spec.gardenID, spec.namespace, TagsToMap(resp.tags)) {
        AuthorizedAdmits(st, spec, resp.id);
        BeginAdmitted(st, spec, r.mode, r.todo[1..], SetRef(s, t, resp.id));
      }
    } else if !t.Tier1? && resp.Found? {
      BeginAdmitted(st, spec, r.mode, r.todo[1..], SetRef(s, t, resp.id));
    }
  }

  /** No other answer touches an external gateway. */
  lemma OtherwiseAdmitted(st: Store, spec: Spec, r: Run, resp: Resp)
    requires r.Pending? && WellPhased(spec, r) && !r.phase.Looking? && GatewayAdmits(st, spec, r.s)
    requires r.s.external ==> !r.todo[0].Tier1?
    ensures AdmittedRun(st, spec, Resume(spec, r, resp))
  {
    var t, s, rest := r.todo[0], r.s, r.todo[1..];
    BeginAdmitted(st, spec, r.mode, rest, s);
    match r.phase {
      case Listing =>
        BeginAdmitted(st, spec, r.mode, rest, TryRecover(spec, t, s, resp));
        FollowAdmitted(st, spec, r.mode, r.todo, TryRecover(spec, t, s, resp), EnsureEntry(spec, t, TryRecover(spec, t, s, resp)));
      case Reading => FollowAdmitted(st, spec, r.mode, r.todo, Forget(t, s), EnsureEntry(spec, t, Forget(t, s)));
      case Making => if resp.Made? { BeginAdmitted(st, spec, r.mode, rest, WithMade(t, s, resp.id, resp.name)); }
      case Erasing => BeginAdmitted(st, spec, r.mode, rest, ClearRef(s, t));
      case Checking => BeginAdmitted(st, spec, r.mode, rest, ClearRef(s, t));
      case Writing(_) =>
    }
  }

  lemma StepAdmitted(sys: System, e: Event, w: Shoot)
    requires Isolated(sys) && w in sys.members && AdmittedMember(sys.store, sys.members[w]) && CanHappen(sys, e)
    ensures AdmittedMember(Step(sys, e).store, Step(sys, e).members[w])
  {
    StepIsolated(sys, e);
    var st, m := sys.store, sys.members[w];
    if e.who == w {
      match e {
        case Call(_, a) =>
          if m.run.value.phase.Looking? {
            LookedAdmitted(st, m.spec, m.run.value, a);
          } else {
            OtherwiseAdmitted(st, m.spec, m.run.value, Told(st, PendingOp(m, a), a));
          }
        case Reconcile(_, _, _, _) =>
          var s := m.status.state.GetOr(InitialState(m.spec));
          BeginAdmitted(st, m.spec, Creating, Tasks(s.nsxt3), UpdateExternal(m.spec, s));
        case Delete(_, _) =>
          if m.status.state.Some? {
            var s := m.status.state.value;
            BeginAdmitted(st, m.spec, Recovering, Tasks(s.nsxt3), UpdateExternal(m.spec, s));
          }
        case _ =>
      }
    }
  }

  /** Over all events of all shoots: an external gateway is recorded only if its tags admit the shoot. */
  lemma {:induction false} GatewaysAreAdmitted(sys: System, es: seq<Event>, w: Shoot)
    requires Isolated(sys) && w in sys.members && AdmittedMember(sys.store, sys.members[w]) && Possible(sys, es)
    ensures w in Exec(sys, es).members && AdmittedMember(Exec(sys, es).store, Exec(sys, es).members[w])
    decreases |es|
  {
    if es != [] {
      var n := |es| - 1;
      GatewaysAreAdmitted(sys, es[..n], w);
      RunsStayIsolated(sys, es[..n]);
      StepAdmitted(Exec(sys, es[..n]), es[n], w);
    }
  }
}
