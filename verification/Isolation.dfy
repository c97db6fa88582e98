/**
  Shoots do not touch each other: under any interleaving of their runs, with every fault and every crash, a call of
  one shoot changes at most one object, and that object is its own.
 */
module Isolation {
  import opened Basics
  import opened Tags
  import opened Protocol
  import opened World
  import opened Plan

  type Specs = map<Shoot, Spec>

  function SpecsOf(sys: System): Specs {
    map w | w in sys.members :: sys.members[w].spec
  }

  /** No two shoots agree on garden id and cluster, nor on garden name and cluster. */
  ghost predicate DistinctShoots(specs: Specs) {
    forall v, w :: v in specs && w in specs && v != w && specs[v].cluster == specs[w].cluster ==>
      specs[v].gardenID != specs[w].gardenID && specs[v].gardenName != specs[w].gardenName
  }

  ghost predicate IssuedTo(st: Store, id: Id, w: Shoot) {
    id in st.issued && st.issued[id] == w
  }

  /** An object of shoot w. */
  ghost predicate Mine(st: Store, w: Shoot, key: Key) {
    key in st.objects && IssuedTo(st, IssuedId(key), w)
  }

  ghost predicate Tagged(o: Obj, spec: Spec, kind: Task) {
    ContainsTags(o.tags, TagsOf(spec, kind))
  }

  /** Tags do not lie: an object that carries the tags of a shoot was issued to it. An own object may have lost its tags. */
  ghost predicate TruthfulTags(st: Store, specs: Specs) {
    && (forall key, w :: Mine(st, w, key) ==> w in specs && Owned(key.kind))
    && (forall key, w :: Mine(st, w, key) && key.kind.Locale? ==> key.id == DEFAULT)
    && (forall key, w :: key in st.objects && w in specs && Owned(key.kind) && Tagged(st.objects[key], specs[w], key.kind)
          ==> Mine(st, w, key))
    && (forall id :: id in st.gateways ==> id !in st.issued)
  }

  /** Every object of shoot w carries its tags. */
  ghost predicate OwnTagged(st: Store, w: Shoot, spec: Spec) {
    forall key :: Mine(st, w, key) ==> Tagged(st.objects[key], spec, key.kind)
  }

  /** The references of a state belong to its plan and were issued to its shoot; an external gateway is the spec's. */
  ghost predicate OwnRefs(st: Store, w: Shoot, spec: Spec, s: State) {
    && s.nsxt3 == spec.nsxt3 && s.external == spec.externalTier1.Some?
    && (forall t :: t in s.refs ==> InPlan(s.nsxt3, t))
    && forall t :: t in s.refs && Owned(t) ==>
         if IsExternal(t, s) then t.Tier1? && s.refs[t] == spec.externalTier1.value else IssuedTo(st, s.refs[t], w)
  }

  ghost predicate OwnRun(st: Store, w: Shoot, spec: Spec, r: Run) {
    match r
    case Pending(mode, todo, phase, s) =>
      && OwnRefs(st, w, spec, s)
      && WellPhased(spec, r)
      && OnPlan(s.nsxt3, mode, todo) && InMode(mode, phase) && InPhase(todo[0], phase, s)
      && (phase.Writing? ==> ContainsTags(phase.want.tags, TagsOf(spec, todo[0])) && DestinationNetwork !in phase.want.attrs)
    case Finished(_, _, s) => OwnRefs(st, w, spec, s)
    case Panicked(_) => true
  }

  ghost predicate OwnMember(st: Store, w: Shoot, m: Member) {
    && (m.status.state.Some? ==> OwnRefs(st, w, m.spec, m.status.state.value))
    && (m.run.Some? ==> OwnRun(st, w, m.spec, m.run.value))
  }

  ghost predicate Isolated(sys: System) {
    && DistinctShoots(SpecsOf(sys))
    && TruthfulTags(sys.store, SpecsOf(sys))
    && forall w :: w in sys.members ==> OwnMember(sys.store, w, sys.members[w])
  }

  /** Nothing but objects of w changes, ids stay issued, and what is managed elsewhere stays as it is. */
  ghost predicate Confined(st: Store, st': Store, w: Shoot) {
    && st'.catalog == st.catalog && st'.gateways == st.gateways
    && (forall id :: id in st.issued ==> id in st'.issued && st'.issued[id] == st.issued[id])
    && (forall id :: id in st'.issued && id !in st.issued ==> st'.issued[id] == w)
    && (forall key :: key in st.objects && !Mine(st, w, key) ==> key in st'.objects && st'.objects[key] == st.objects[key])
    && (forall key :: key in st'.objects && !Mine(st', w, key) ==> key in st.objects && st'.objects[key] == st.objects[key])
    && (forall key :: key in st.objects && Mine(st', w, key) ==> Mine(st, w, key))
  }

  /** Seen from w, nothing has changed. */
  ghost predicate SameForShoot(st: Store, st': Store, w: Shoot) {
    && st'.catalog == st.catalog && st'.gateways == st.gateways
    && (forall id :: IssuedTo(st, id, w) ==> IssuedTo(st', id, w))
    && (forall key :: Mine(st', w, key) <==> Mine(st, w, key))
    && (forall key :: Mine(st, w, key) ==> st'.objects[key] == st.objects[key])
  }

  lemma OthersDoNotMatter(st: Store, st': Store, v: Shoot, w: Shoot)
    requires Confined(st, st', v) && v != w
    ensures SameForShoot(st, st', w)
  {
    forall key ensures Mine(st', w, key) <==> Mine(st, w, key) {}
  }

  // ---- silent steps ----

  /** What entering a task asks for first. */
  lemma EnterInPhase(spec: Spec, mode: Mode, t: Task, s: State)
    requires s.external == spec.externalTier1.Some?
    ensures var e := Enter(spec, mode, t, s); e.Ask? ==> InMode(mode, e.phase) && InPhase(t, e.phase, s) && !e.phase.Writing?
    ensures var e := EnsureEntry(spec, t, s); e.Ask? ==> InMode(Creating, e.phase) && InPhase(t, e.phase, s) && !e.phase.Writing?
  {}

  lemma FollowOwn(st: Store, w: Shoot, spec: Spec, mode: Mode, todo: seq<Task>, s: State, e: Entry)
    requires todo != [] && OwnRefs(st, w, spec, s) && OnPlan(s.nsxt3, mode, todo)
    requires e.Ask? ==> InMode(mode, e.phase) && InPhase(todo[0], e.phase, s) && !e.phase.Writing?
    requires WellPhased(spec, Follow(spec, mode, todo, s, e)) && !e.Skip?
    ensures OwnRun(st, w, spec, Follow(spec, mode, todo, s, e))
  {}

  lemma {:induction false} BeginOwn(st: Store, w: Shoot, spec: Spec, mode: Mode, todo: seq<Task>, s: State)
    requires OwnRefs(st, w, spec, s) && OnPlan(s.nsxt3, mode, todo)
    ensures OwnRun(st, w, spec, Begin(spec, mode, todo, s))
    decreases mode.Recovering?, |todo|
  {
    if todo == [] {
      if mode.Recovering? {
        ReverseDescends(s.nsxt3);
        BeginOwn(st, w, spec, Deleting, Reverse(Tasks(s.nsxt3)), s);
      }
    } else {
      var e := Enter(spec, mode, todo[0], s);
      BeginFollows(spec, mode, todo, s);
      if e.Skip? {
        PlanTail(s.nsxt3, mode, todo);
        BeginOwn(st, w, spec, mode, todo[1..], s);
      } else {
        BeginPhased(spec, mode, todo, s);
        EnterInPhase(spec, mode, todo[0], s);
        FollowOwn(st, w, spec, mode, todo, s, e);
      }
    }
  }

  lemma EnsureOwn(st: Store, w: Shoot, spec: Spec, todo: seq<Task>, s: State)
    requires todo != [] && OwnRefs(st, w, spec, s) && OnPlan(s.nsxt3, Creating, todo)
    ensures OwnRun(st, w, spec, Follow(spec, Creating, todo, s, EnsureEntry(spec, todo[0], s)))
  {
    var e := EnsureEntry(spec, todo[0], s);
    if e.Skip? {
      PlanTail(s.nsxt3, Creating, todo);
      BeginOwn(st, w, spec, Creating, todo[1..], s);
    } else {
      EnsurePhased(spec, Creating, todo, s);
      EnterInPhase(spec, Creating, todo[0], s);
      FollowOwn(st, w, spec, Creating, todo, s, e);
    }
  }

  lemma {:induction false} FirstTaggedListed(items: seq<Item>, tags: seq<Tag>)
    ensures FirstTagged(items, tags).Some? ==>
              FirstTagged(items, tags).value in items && ContainsTags(FirstTagged(items, tags).value.obj.tags, tags)
    ensures FirstTagged(items, tags).None? ==> forall i :: i in items ==> !ContainsTags(i.obj.tags, tags)
  {
    if items != [] { FirstTaggedListed(items[1..], tags); }
  }

  lemma TagsOfDistinct(spec: Spec, t: Task)
    ensures DistinctScopes(TagsOf(spec, t))
  {
    ShootTagsDistinct(if Advanced(t) then spec.gardenName else spec.gardenID, spec.cluster);
  }

  /** Objects carry the tags of at most one shoot. */
  lemma TaggedOnce(specs: Specs, o: Obj, kind: Task, v: Shoot, w: Shoot)
    requires DistinctShoots(specs) && v in specs && w in specs
    requires Tagged(o, specs[v], kind) && Tagged(o, specs[w], kind)
    ensures v == w
  {
    if Advanced(kind) {
      OneOwner(o.tags, specs[v].gardenName, specs[v].cluster, specs[w].gardenName, specs[w].cluster);
    } else {
      OneOwner(o.tags, specs[v].gardenID, specs[v].cluster, specs[w].gardenID, specs[w].cluster);
    }
  }

  // ---- one call ----

  /** The object a call may change was or will be issued to the caller, and is written with the caller's tags. */
  ghost predicate OwnOp(st: Store, w: Shoot, spec: Spec, op: Op) {
    match op
    case Write(key, o) => Owned(key.kind) && IssuedTo(st, IssuedId(key), w) && Tagged(o, spec, key.kind)
                          && (key.kind.Locale? ==> key.id == DEFAULT)
    case Make(key, o) => Owned(key.kind) && Tagged(o, spec, key.kind) && (key.kind.Locale? ==> key.id == DEFAULT)
                         && (IssuedTo(st, IssuedId(key), w) || IsFresh(st, IssuedId(key)))
    case Erase(key) => IssuedTo(st, IssuedId(key), w)
    case _ => true
  }

  lemma CallIsOwn(st: Store, w: Shoot, spec: Spec, r: Run, a: Answer)
    requires r.Pending? && OwnRun(st, w, spec, r) && Admissible(st, NextOp(spec, r, a.draw), a)
    ensures OwnOp(st, w, spec, NextOp(spec, r, a.draw))
  {
    var t := r.todo[0];
    if r.phase.Making? {
      var o := Created(t, spec, r.s, a.draw.suffix);
      TagsOfDistinct(spec, t);
      MergeContains(TagsOf(spec, t), []);
      assert MergeTags(TagsOf(spec, t), []) == TagsOf(spec, t);
    }
  }

  /** The key a call may change. */
  predicate Touches(op: Op, key: Key) {
    match op
    case Write(k, _) => k == key
    case Make(k, _) => k == key
    case Erase(k) => k == key
    case _ => false
  }

  lemma OnlyTouched(st: Store, w: Shoot, op: Op, a: Answer)
    ensures var st' := After(st, w, op, a);
            && st'.catalog == st.catalog && st'.gateways == st.gateways
            && (forall key :: !Touches(op, key) ==>
                  (key in st'.objects <==> key in st.objects) && (key in st.objects ==> st'.objects[key] == st.objects[key]))
            && (forall id :: id in st.issued ==> id in st'.issued)
            && (forall id :: id in st'.issued ==>
                  || (id in st.issued && st'.issued[id] == st.issued[id])
                  || (op.Make? && id == IssuedId(op.key) && st'.issued[id] == w))
            && (forall key :: key in st'.objects && Touches(op, key) ==>
                  || (key in st.objects && st'.objects[key] == st.objects[key])
                  || ((op.Write? || op.Make?) && st'.objects[key].tags == op.obj.tags
                      && (op.Make? ==> IssuedTo(st', IssuedId(key), w))))
  {}

  lemma OwnOpConfined(st: Store, w: Shoot, spec: Spec, op: Op, a: Answer)
    requires OwnOp(st, w, spec, op)
    ensures Confined(st, After(st, w, op, a), w)
    ensures forall v, key :: v != w ==> (Mine(After(st, w, op, a), v, key) <==> Mine(st, v, key))
  {
    var st' := After(st, w, op, a);
    OnlyTouched(st, w, op, a);
    forall key | Touches(op, key) && key in st.objects ensures IssuedTo(st, IssuedId(key), w) {}
    forall key | Touches(op, key) && key in st'.objects ensures IssuedTo(st', IssuedId(key), w) || st' == st {}
  }

  lemma TagsStayTruthful(st: Store, w: Shoot, specs: Specs, op: Op, a: Answer)
    requires DistinctShoots(specs) && TruthfulTags(st, specs) && w in specs
    requires OwnOp(st, w, specs[w], op)
    ensures TruthfulTags(After(st, w, op, a), specs)
  {
    var st' := After(st, w, op, a);
    OnlyTouched(st, w, op, a);
    OwnOpConfined(st, w, specs[w], op, a);
    forall key, v | Mine(st', v, key) ensures v in specs && Owned(key.kind) {
      if v != w { assert Mine(st, v, key); }
      else if key in st.objects && st'.objects[key] == st.objects[key] { assert Mine(st, v, key); }
    }
    forall key, v | key in st'.objects && v in specs && Owned(key.kind) && Tagged(st'.objects[key], specs[v], key.kind)
      ensures Mine(st', v, key)
    {
      if key in st.objects && st'.objects[key] == st.objects[key] {
        assert Mine(st, v, key);
      } else {
        TaggedOnce(specs, op.obj, key.kind, v, w);
      }
    }
  }

  /** Shoots lose no tags: what they write carries them. */
  lemma OwnStaysTagged(st: Store, w: Shoot, spec: Spec, op: Op, a: Answer)
    requires OwnOp(st, w, spec, op) && OwnTagged(st, w, spec)
    ensures OwnTagged(After(st, w, op, a), w, spec)
  {
    var st' := After(st, w, op, a);
    OnlyTouched(st, w, op, a);
    OwnOpConfined(st, w, spec, op, a);
    forall key | Mine(st', w, key) ensures Tagged(st'.objects[key], spec, key.kind) {
      if key in st.objects && st'.objects[key] == st.objects[key] { assert Mine(st, w, key); }
    }
  }

  /** What a shoot knows about its references outlives every step, its own and those of others. */
  lemma OwnRefsKept(st: Store, st': Store, v: Shoot, w: Shoot, spec: Spec, s: State)
    requires Confined(st, st', v) && OwnRefs(st, w, spec, s)
    ensures OwnRefs(st', w, spec, s)
  {}

  // The run after an answer refers to objects of its shoot only, phase by phase.

  lemma ListingOwn(st: Store, w: Shoot, specs: Specs, mode: Mode, todo: seq<Task>, s: State, resp: Resp)
    requires TruthfulTags(st, specs) && w in specs && OwnRefs(st, w, specs[w], s)
    requires todo != [] && Owned(todo[0]) && HasParent(todo[0], s) && !IsExternal(todo[0], s)
    requires OnPlan(s.nsxt3, mode, todo) && !mode.Deleting?
    requires resp.Items? ==> Lists(st, todo[0], ParentId(todo[0], s), resp.items)
    ensures OwnRun(st, w, specs[w], OnListed(specs[w], mode, todo, s, resp))
  {
    var spec, t := specs[w], todo[0];
    var found := if resp.Items? then FirstTagged(resp.items, TagsOf(spec, t)) else None;
    var s' := TryRecover(spec, t, s, resp);
    if found.Some? {
      FirstTaggedListed(resp.items, TagsOf(spec, t));
      assert Mine(st, w, Key(t, ParentId(t, s), found.value.id));
    }
    PlanTail(s.nsxt3, mode, todo);
    assert OwnRefs(st, w, spec, s');
    BeginOwn(st, w, spec, mode, todo[1..], s');
    if mode.Creating? { EnsureOwn(st, w, spec, todo, s'); }
  }

  lemma PatchOwn(t: Task, spec: Spec, s: State, have: Obj)
    requires Owned(t) && Ready(t, s) && LayoutOk(t, spec)
    ensures var want := Patch(t, spec, s, have);
            ContainsTags(want.tags, TagsOf(spec, t)) && DestinationNetwork !in want.attrs
  {
    TagsOfDistinct(spec, t);
    MergeContains(TagsOf(spec, t), have.tags);
  }

  lemma ReadingOwn(st: Store, w: Shoot, spec: Spec, r: Run, resp: Resp)
    requires r.Pending? && r.phase.Reading? && OwnRun(st, w, spec, r)
    ensures OwnRun(st, w, spec, OnRead(spec, r.mode, r.todo, r.s, resp))
  {
    var t, s := r.todo[0], r.s;
    PlanTail(s.nsxt3, r.mode, r.todo);
    if resp.One? {
      PatchOwn(t, spec, s, resp.obj);
      BeginOwn(st, w, spec, r.mode, r.todo[1..], s);
    } else if resp.NotFound? && !t.Alloc? {
      EnsureOwn(st, w, spec, r.todo, Forget(t, s));
    }
  }

  lemma MakingOwn(st: Store, w: Shoot, spec: Spec, mode: Mode, todo: seq<Task>, s: State, resp: Resp)
    requires todo != [] && HasParent(todo[0], s) && Owned(todo[0]) && !IsExternal(todo[0], s) && OwnRefs(st, w, spec, s)
    requires OnPlan(s.nsxt3, mode, todo)
    requires resp.Made? && !todo[0].Locale? ==> IssuedTo(st, resp.id, w)
    ensures OwnRun(st, w, spec, OnMade(spec, mode, todo, s, resp))
  {
    PlanTail(s.nsxt3, mode, todo);
    BeginOwn(st, w, spec, mode, todo[1..], s);
    if resp.Made? {
      var s' := WithMade(todo[0], s, resp.id, resp.name);
      assert OwnRefs(st, w, spec, s');
      BeginOwn(st, w, spec, mode, todo[1..], s');
    }
  }

  lemma LookedRefs(st: Store, w: Shoot, spec: Spec, t: Task, s: State, id: Id)
    requires OwnRefs(st, w, spec, s) && InPlan(s.nsxt3, t)
    requires Owned(t) ==> t.Tier1? && spec.externalTier1 == Some(id)
    ensures OwnRefs(st, w, spec, SetRef(s, t, id))
  {}

  lemma LookingOwn(st: Store, w: Shoot, spec: Spec, mode: Mode, todo: seq<Task>, s: State, resp: Resp)
    requires todo != [] && OwnRefs(st, w, spec, s) && OnPlan(s.nsxt3, mode, todo)
    requires Owned(todo[0]) ==> todo[0].Tier1? && spec.externalTier1.Some?
    requires todo[0].Tier1? && resp.Gateway? ==> resp.id == spec.externalTier1.value
    ensures OwnRun(st, w, spec, OnLooked(spec, mode, todo, s, resp))
  {
    PlanTail(s.nsxt3, mode, todo);
    BeginOwn(st, w, spec, mode, todo[1..], s);
    if (todo[0].Tier1? && resp.Gateway?) || (!todo[0].Tier1? && resp.Found?) {
      LookedRefs(st, w, spec, todo[0], s, resp.id);
      BeginOwn(st, w, spec, mode, todo[1..], SetRef(s, todo[0], resp.id));
    }
  }

  lemma DeletingOwn(st: Store, w: Shoot, spec: Spec, r: Run, resp: Resp)
    requires r.Pending? && OwnRun(st, w, spec, r) && (r.phase.Erasing? || r.phase.Checking?)
    ensures OwnRun(st, w, spec, Resume(spec, r, resp))
  {
    PlanTail(r.s.nsxt3, r.mode, r.todo);
    BeginOwn(st, w, spec, r.mode, r.todo[1..], r.s);
    BeginOwn(st, w, spec, r.mode, r.todo[1..], ClearRef(r.s, r.todo[0]));
  }

  lemma ResumeOwn(st: Store, w: Shoot, specs: Specs, r: Run, a: Answer)
    requires TruthfulTags(st, specs) && DistinctShoots(specs) && w in specs
    requires r.Pending? && OwnRun(st, w, specs[w], r) && Admissible(st, NextOp(specs[w], r, a.draw), a)
    ensures var op := NextOp(specs[w], r, a.draw);
            OwnRun(After(st, w, op, a), w, specs[w], Resume(specs[w], r, Told(st, op, a)))
  {
    var spec := specs[w];
    var op := NextOp(spec, r, a.draw);
    var st', resp := After(st, w, op, a), Told(st, op, a);
    CallIsOwn(st, w, spec, r, a);
    OwnOpConfined(st, w, spec, op, a);
    TagsStayTruthful(st, w, specs, op, a);
    OwnRefsKept(st, st', w, w, spec, r.s);
    assert OwnRun(st', w, spec, r);
    match r.phase {
      case Looking => LookingOwn(st', w, spec, r.mode, r.todo, r.s, resp);
      case Listing =>
        assert st' == st;
        ListingOwn(st', w, specs, r.mode, r.todo, r.s, resp);
      case Reading => ReadingOwn(st', w, spec, r, resp);
      case Writing(_) =>
        PlanTail(r.s.nsxt3, r.mode, r.todo);
        BeginOwn(st', w, spec, r.mode, r.todo[1..], r.s);
      case Making => MakingOwn(st', w, spec, r.mode, r.todo, r.s, resp);
      case Erasing => DeletingOwn(st', w, spec, r, resp);
      case Checking => DeletingOwn(st', w, spec, r, resp);
    }
  }

  // ---- whole systems ----

  lemma OwnMemberKept(st: Store, st': Store, v: Shoot, w: Shoot, m: Member)
    requires Confined(st, st', v) && OwnMember(st, w, m)
    ensures OwnMember(st', w, m)
  {}

  lemma StartOwn(st: Store, w: Shoot, spec: Spec, state: Option<State>)
    requires state.Some? ==> OwnRefs(st, w, spec, state.value)
    ensures OwnRun(st, w, spec, StartCreate(spec, state.GetOr(InitialState(spec))))
    ensures state.Some? ==> OwnRun(st, w, spec, StartDelete(spec, state.value))
  {
    var s := UpdateExternal(spec, state.GetOr(InitialState(spec)));
    TasksAreOrdered(s.nsxt3);
    BeginOwn(st, w, spec, Creating, Tasks(s.nsxt3), s);
    if state.Some? { BeginOwn(st, w, spec, Recovering, Tasks(s.nsxt3), s); }
  }

  lemma StepMemberOwn(sys: System, e: Event)
    requires Isolated(sys) && CanHappen(sys, e)
    ensures OwnMember(StepStore(sys, e), e.who, StepMember(sys, e))
    ensures StepMember(sys, e).spec == sys.members[e.who].spec
    ensures Confined(sys.store, StepStore(sys, e), e.who)
    ensures TruthfulTags(StepStore(sys, e), SpecsOf(sys))
  {
    var st, w, m, specs := sys.store, e.who, sys.members[e.who], SpecsOf(sys);
    match e {
      case Reconcile(_, prepared, connected, written) =>
        StartOwn(st, w, m.spec, m.status.state);
      case Delete(_, _) =>
        StartOwn(st, w, m.spec, m.status.state);
      case Call(_, a) =>
        var op := PendingOp(m, a);
        ResumeOwn(st, w, specs, m.run.value, a);
        CallIsOwn(st, w, m.spec, m.run.value, a);
        OwnOpConfined(st, w, m.spec, op, a);
        TagsStayTruthful(st, w, specs, op, a);
        OwnRefsKeptStatus(st, After(st, w, op, a), w, m);
      case Finish(_, _) =>
      case Crash(_) =>
    }
  }

  lemma OwnRefsKeptStatus(st: Store, st': Store, w: Shoot, m: Member)
    requires Confined(st, st', w) && OwnMember(st, w, m)
    ensures m.status.state.Some? ==> OwnRefs(st', w, m.spec, m.status.state.value)
  {}

  /** Every event keeps the shoots isolated, whatever fails. */
  lemma StepIsolated(sys: System, e: Event)
    requires Isolated(sys) && CanHappen(sys, e)
    ensures Isolated(Step(sys, e)) && SpecsOf(Step(sys, e)) == SpecsOf(sys)
    ensures Confined(sys.store, Step(sys, e).store, e.who)
  {
    StepMemberOwn(sys, e);
    var sys' := Step(sys, e);
    assert SpecsOf(sys') == SpecsOf(sys);
    forall w | w in sys'.members ensures OwnMember(sys'.store, w, sys'.members[w]) {
      if w != e.who { OwnMemberKept(sys.store, sys'.store, e.who, w, sys.members[w]); }
    }
  }

  lemma {:induction false} RunsStayIsolated(sys: System, es: seq<Event>)
    requires Isolated(sys) && Possible(sys, es)
    ensures Isolated(Exec(sys, es)) && SpecsOf(Exec(sys, es)) == SpecsOf(sys)
    ensures Exec(sys, es).store.catalog == sys.store.catalog && Exec(sys, es).store.gateways == sys.store.gateways
    decreases |es|
  {
    if es != [] {
      RunsStayIsolated(sys, es[..|es| - 1]);
      StepIsolated(Exec(sys, es[..|es| - 1]), es[|es| - 1]);
    }
  }

  /** Every event keeps a shoot's objects tagged. */
  lemma StepStaysTagged(sys: System, e: Event, w: Shoot)
    requires Isolated(sys) && CanHappen(sys, e) && w in sys.members && OwnTagged(sys.store, w, sys.members[w].spec)
    ensures OwnTagged(Step(sys, e).store, w, sys.members[w].spec)
  {
    StepIsolated(sys, e);
    if e.who != w {
      OthersDoNotMatter(sys.store, Step(sys, e).store, e.who, w);
    } else if e.Call? {
      var m := sys.members[w];
      CallIsOwn(sys.store, w, m.spec, m.run.value, e.answer);
      OwnStaysTagged(sys.store, w, m.spec, PendingOp(m, e.answer), e.answer);
    }
  }

  lemma {:induction false} RunsStayTagged(sys: System, es: seq<Event>, w: Shoot)
    requires Isolated(sys) && Possible(sys, es) && w in sys.members && OwnTagged(sys.store, w, sys.members[w].spec)
    ensures w in Exec(sys, es).members && OwnTagged(Exec(sys, es).store, w, sys.members[w].spec)
    decreases |es|
  {
    if es != [] {
      var n := |es| - 1;
      RunsStayTagged(sys, es[..n], w);
      RunsStayIsolated(sys, es[..n]);
      assert SpecsOf(Exec(sys, es[..n]))[w] == sys.members[w].spec;
      StepStaysTagged(Exec(sys, es[..n]), es[n], w);
    }
  }

  /** Isolation: in every interleaving, the n-th event changes nothing but objects issued to its shoot; they carry that
      shoot's tags, if its objects did so at the start. Objects of others, external gateways and catalog entries stay as
      they are. */
  lemma Isolation(sys: System, es: seq<Event>, n: nat)
    requires Isolated(sys) && Possible(sys, es) && n < |es|
    ensures Possible(sys, es[..n]) && Possible(sys, es[..n + 1])
    ensures var before, later, w := Exec(sys, es[..n]), Exec(sys, es[..n + 1]), es[n].who;
            && w in sys.members && Confined(before.store, later.store, w)
            && forall key :: key in before.store.objects
                 && (key !in later.store.objects || later.store.objects[key] != before.store.objects[key])
                 ==> && Mine(before.store, w, key) && Owned(key.kind)
                     && (OwnTagged(sys.store, w, sys.members[w].spec) ==>
                           Tagged(before.store.objects[key], sys.members[w].spec, key.kind))
  {
    PossiblePrefix(sys, es, n);
    PossiblePrefix(sys, es, n + 1);
    assert es[..n + 1][..n] == es[..n];
    RunsStayIsolated(sys, es[..n]);
    var before, w := Exec(sys, es[..n]), es[n].who;
    assert w in SpecsOf(before) && SpecsOf(before) == SpecsOf(sys);
    StepIsolated(before, es[n]);
    if OwnTagged(sys.store, w, sys.members[w].spec) { RunsStayTagged(sys, es[..n], w); }
  }
}
