/**
  What a shoot can rely on when its events are orderly: it never owns two objects of one kind, every object it owns has
  all the objects it refers to, and a recovery finds everything that is left before anything is deleted. Creation runs
  may fail or die at any call and lose their status; the other shoots may do anything.
 */
module Recovery {
  import opened Basics
  import opened Tags
  import opened Protocol
  import opened World
  import opened Plan
  import opened Isolation
  import opened References
  import opened Convergence
  import opened Integrity
  import opened Deletion
  import opened Anchoring

  // ---- the objects of a shoot ----

  predicate WellPlaced(st: Store, spec: Spec, key: Key) {
    match key.kind
    case Locale => key.id == DEFAULT
    case Alloc => key.parent == PoolId(st, spec)
    case Rule => spec.externalTier1.Some? ==> key.parent == spec.externalTier1.value
    case Pool => true
    case _ => key.parent == ROOT
  }

  /** One object per kind, of the kinds of the plan. */
  ghost predicate NoDuplicates(st: Store, w: Shoot, spec: Spec) {
    && (forall k, l :: Mine(st, w, k) && Mine(st, w, l) && k.kind == l.kind ==> k == l)
    && (forall k :: Mine(st, w, k) ==> Owned(k.kind) && WellPlaced(st, spec, k) && InPlan(spec.nsxt3, k.kind))
    && (forall k :: Mine(st, w, k) && spec.externalTier1.Some? ==> !k.kind.Tier1? && !k.kind.Locale?)
  }

  ghost predicate NoneOf(st: Store, w: Shoot, t: Task) {
    forall key :: Mine(st, w, key) ==> key.kind != t
  }

  // ---- states and runs ----

  /** Nothing is recorded that is reached through t, or through the gateway that the locale service forgets. */
  predicate Childless(s: State, t: Task) {
    forall u :: u in s.refs && InPlan(s.nsxt3, u) && Owned(u) && !u.Locale? ==>
      ParentTask(u) != Some(if t.Locale? then Tier1 else t)
  }

  /** The shoot owns nothing from task t on. */
  ghost predicate NothingFrom(st: Store, w: Shoot, t: Task) {
    forall key :: Mine(st, w, key) ==> Rank(key.kind) < Rank(t)
  }

  /** References come with their parents. What is recorded may be gone only if deletions get past it, nothing is reached
      through it, and the shoot owns nothing from its task on: its deletion has succeeded unseen. */
  ghost predicate Sound(st: Store, w: Shoot, spec: Spec, s: State) {
    && Parented(s) && PoolKnown(st, spec, s)
    && forall t :: Gone(st, s, t) ==> !Strict(t) && Childless(s, t) && NothingFrom(st, w, t)
  }

  /** A task has been recovered: if the shoot owns an object of it, or one under the pool or gateway it looks up, the
      reference is set. */
  ghost predicate Complete(st: Store, w: Shoot, s: State, t: Task) {
    && (t in s.refs || NoneOf(st, w, t))
    && (t.IpPool? ==> IpPool in s.refs || NoneOf(st, w, Alloc))
    && (IsExternal(t, s) && t.Tier1? ==> Tier1 in s.refs || NoneOf(st, w, Rule))
  }

  /** Every object the shoot owns is recorded. */
  ghost predicate Accounted(st: Store, w: Shoot, s: State) {
    forall key :: Mine(st, w, key) ==> key.kind in s.refs
  }

  ghost predicate Between(st: Store, w: Shoot, mode: Mode, todo: seq<Task>, s: State) {
    match mode
    case Creating => true
    case Recovering => forall t :: InPlan(s.nsxt3, t) && t !in todo ==> Complete(st, w, s, t)
    case Deleting =>
      Ahead(s, todo) && forall t :: InPlan(s.nsxt3, t) ==> if t in todo then Complete(st, w, s, t) else NoneOf(st, w, t)
  }

  ghost predicate SoundRun(st: Store, w: Shoot, spec: Spec, r: Run) {
    match r
    case Pending(mode, todo, phase, s) =>
      && Sound(st, w, spec, s) && todo != [] && Between(st, w, mode, todo, s)
      && (phase.Making? ==> (NoneOf(st, w, todo[0]) || todo[0].Locale?) && todo[0] !in s.refs)
    case Finished(mode, ok, s) =>
      && Sound(st, w, spec, s)
      && (mode.Deleting? ==> Accounted(st, w, s) && (ok ==> Between(st, w, Deleting, [], s)))
    case Panicked(_) => true
  }

  /** What is recorded while a run is under way. A creation run has made nothing from the task of a gone object on,
      unless it has made that object anew; of a deletion run, the shoot owns nothing from there on. */
  ghost predicate SoundStatus(st: Store, w: Shoot, m: Member) {
    m.status.state.Some? ==>
      var s := m.status.state.value;
      if m.run.None? || m.run.value.mode.Recovering? then Sound(st, w, m.spec, s)
      else
        && Parented(s) && PoolKnown(st, m.spec, s)
        && forall t :: Gone(st, s, t) ==>
             if m.run.value.mode.Deleting? then NothingFrom(st, w, t)
             else !Strict(t) && Childless(s, t) && (NoneOf(st, w, t) ==> NothingFrom(st, w, t))
  }

  ghost predicate SoundMember(st: Store, w: Shoot, m: Member) {
    && NoDuplicates(st, w, m.spec) && Referential(st, w, m.spec)
    && SoundStatus(st, w, m)
    && (m.run.Some? ==> SoundRun(st, w, m.spec, m.run.value))
  }

  /** The run may die, or lose its final status write: what is recorded is not misleading. A creation run must not have
      made an object anew that is recorded but gone; a deletion run must not have deleted what is recorded, but for
      objects that deletions get past and nothing recorded is reached through. */
  ghost predicate Expendable(st: Store, w: Shoot, m: Member) {
    m.run.Some? && m.status.state.Some? ==>
      var s := m.status.state.value;
      match m.run.value.mode
      case Creating => forall t :: Gone(st, s, t) ==> NoneOf(st, w, t)
      case Recovering => true
      case Deleting => forall t :: Gone(st, s, t) ==> !Strict(t) && Childless(s, t)
  }

  /** The faults a shoot is spared: its listings work where there is something to find, and so do the lookups of the SNAT
      pool and of the external gateway when it recovers; no strict object is deleted unseen; and runs die only while they
      are expendable. */
  ghost predicate Orderly(sys: System, e: Event)
    requires CanHappen(sys, e)
  {
    var m := sys.members[e.who];
    match e
    case Call(w, a) => Spared(sys.store, w, PendingOp(m, a), m.run.value.mode, a)
    case Finish(_, written) => !written ==> Expendable(sys.store, e.who, m)
    case Crash(_) => Expendable(sys.store, e.who, m)
    case _ => true
  }

  ghost predicate Spared(st: Store, w: Shoot, op: Op, mode: Mode, a: Answer) {
    match op
    case List(kind, _) => a.fault.Works? || NoneOf(st, w, kind) || (mode.Creating? && kind.Locale?)
    case Lookup(kind, _) => mode.Recovering? && kind.IpPool? ==> a.fault.Works? || NoneOf(st, w, Alloc)
    case ReadGateway(_) => mode.Recovering? ==> a.fault.Works? || NoneOf(st, w, Rule)
    case Erase(key) => Strict(key.kind) ==> !a.fault.Lost?
    case _ => true
  }

  // ---- silent steps ----

  /** A creation run lists before it creates. */
  lemma {:induction false} BeginNotMaking(spec: Spec, todo: seq<Task>, s: State)
    ensures var r := Begin(spec, Creating, todo, s); r.Pending? ==> !r.phase.Making?
    decreases |todo|
  {
    if todo != [] {
      BeginFollows(spec, Creating, todo, s);
      if Enter(spec, Creating, todo[0], s).Skip? { BeginNotMaking(spec, todo[1..], s); }
    }
  }

  lemma BeginCreating(st: Store, w: Shoot, spec: Spec, todo: seq<Task>, s: State)
    requires Sound(st, w, spec, s)
    ensures SoundRun(st, w, spec, Begin(spec, Creating, todo, s))
  {
    BeginNotMaking(spec, todo, s);
    BeginKeeps(spec, Creating, todo, s);
    BeginOnCourse(spec, Creating, todo, s);
  }

  /** A recovery skips a task only if there is nothing to recover: without the parent reference there is no parent,
      and without a parent there is no child. */
  lemma NothingToRecover(st: Store, w: Shoot, spec: Spec, todo: seq<Task>, s: State)
    requires NoDuplicates(st, w, spec) && Referential(st, w, spec) && OwnRefs(st, w, spec, s)
    requires todo != [] && Upcoming(s.nsxt3, todo) && Between(st, w, Recovering, todo, s)
    requires Enter(spec, Recovering, todo[0], s).Skip?
    ensures Complete(st, w, s, todo[0])
  {
    var t := todo[0];
    UpcomingTail(s.nsxt3, todo);
    if t !in s.refs && Owned(t) && !IsExternal(t, s) {
      var p := ParentTask(t).value;
      assert InPlan(s.nsxt3, p) && Rank(p) < Rank(t) && p !in todo;
      assert Complete(st, w, s, p);
      forall key | Mine(st, w, key) ensures key.kind != t {
        if key.kind == t {
          assert DependsOn(st, spec, key, st.objects[key], Key(p, ROOT, key.parent));
        }
      }
    }
  }

  /** A deletion run has recovered everything before it deletes anything. */
  lemma DeletingAccounts(st: Store, w: Shoot, spec: Spec, todo: seq<Task>, s: State)
    requires NoDuplicates(st, w, spec) && s.nsxt3 == spec.nsxt3 && Between(st, w, Deleting, todo, s)
    ensures Accounted(st, w, s)
  {
    forall key | Mine(st, w, key) ensures key.kind in s.refs {
      var t := key.kind;
      assert if t in todo then Complete(st, w, s, t) else NoneOf(st, w, t);
    }
  }

  /** What entering a task tells, while recovering and deleting. */
  lemma EnterSound(st: Store, w: Shoot, spec: Spec, mode: Mode, todo: seq<Task>, s: State)
    requires NoDuplicates(st, w, spec) && Referential(st, w, spec) && OwnRefs(st, w, spec, s)
    requires todo != [] && OnPlan(s.nsxt3, mode, todo) && !mode.Creating? && Between(st, w, mode, todo, s)
    ensures var e := Enter(spec, mode, todo[0], s);
            && (e.Skip? ==> Between(st, w, mode, todo[1..], s))
            && !e.Fail? && (e.Ask? ==> !e.phase.Making?)
  {
    assert todo == [todo[0]] + todo[1..];
    PlanTail(s.nsxt3, mode, todo);
    if Enter(spec, mode, todo[0], s).Skip? {
      if mode.Recovering? {
        NothingToRecover(st, w, spec, todo, s);
      } else {
        DescendingTail(s.nsxt3, todo);
        assert Complete(st, w, s, todo[0]);
      }
    }
  }

  lemma {:induction false} BeginSound(st: Store, w: Shoot, spec: Spec, mode: Mode, todo: seq<Task>, s: State)
    requires NoDuplicates(st, w, spec) && Referential(st, w, spec) && OwnRefs(st, w, spec, s) && Sound(st, w, spec, s)
    requires OnPlan(s.nsxt3, mode, todo) && !mode.Creating? && Between(st, w, mode, todo, s)
    ensures SoundRun(st, w, spec, Begin(spec, mode, todo, s))
    decreases mode.Recovering?, |todo|
  {
    if todo == [] {
      if mode.Recovering? {
        ReverseDescends(s.nsxt3);
        BeginSound(st, w, spec, Deleting, Reverse(Tasks(s.nsxt3)), s);
      } else {
        DeletingAccounts(st, w, spec, [], s);
      }
    } else {
      BeginFollows(spec, mode, todo, s);
      EnterSound(st, w, spec, mode, todo, s);
      if Enter(spec, mode, todo[0], s).Skip? {
        PlanTail(s.nsxt3, mode, todo);
        BeginSound(st, w, spec, mode, todo[1..], s);
      }
    }
  }

  // ---- changes of state and store ----

  /** A reference is set, to an object that comes before whatever is gone. */
  lemma SetSound(st: Store, w: Shoot, spec: Spec, s: State, s': State, t: Task)
    requires Sound(st, w, spec, s) && RefSet(st, spec, s, s', t)
    requires Owned(t) && !IsExternal(t, s) ==> forall d :: Gone(st, s, d) ==> Rank(t) <= Rank(d)
    ensures Sound(st, w, spec, s')
  {
    forall u | u in s'.refs && InPlan(s'.nsxt3, u) && Owned(u) && !IsExternal(u, s') ensures Reachable(u, s') {
      if u != t { KeyKept(st, spec, s, s', t, u); }
    }
    forall d | Gone(st, s', d) ensures !Strict(d) && Childless(s', d) && NothingFrom(st, w, d) {
      assert d != t;
      KeyKept(st, spec, s, s', t, d);
      assert Gone(st, s, d);
    }
  }

  /** The store has grown, before whatever is gone. */
  lemma SoundGrown(st: Store, st': Store, w: Shoot, spec: Spec, s: State)
    requires Sound(st, w, spec, s) && st'.catalog == st.catalog
    requires forall key :: key in st.objects ==> key in st'.objects
    requires forall d, key :: Gone(st, s, d) && Mine(st', w, key) && !Mine(st, w, key) ==> Rank(key.kind) < Rank(d)
    ensures Sound(st', w, spec, s)
  {
    forall d | Gone(st', s, d) ensures !Strict(d) && Childless(s, d) && NothingFrom(st', w, d) { assert Gone(st, s, d); }
  }

  /** A reference is forgotten that nothing recorded is reached through. */
  lemma ForgetSound(st: Store, w: Shoot, spec: Spec, s: State, t: Task)
    requires Sound(st, w, spec, s) && Owned(t)
    requires forall u :: u in s.refs && InPlan(s.nsxt3, u) && Owned(u) && !u.Locale? ==> ParentTask(u) != Some(t)
    ensures Sound(st, w, spec, ClearRef(s, t))
  {
    var s' := ClearRef(s, t);
    forall d | Gone(st, s', d) ensures !Strict(d) && Childless(s', d) && NothingFrom(st, w, d) {
      assert Recorded(s, d) && KeyOf(d, s') == KeyOf(d, s);
      assert Gone(st, s, d);
    }
  }

  // ---- calls of a creation run ----

  lemma LookedSound(st: Store, w: Shoot, spec: Spec, todo: seq<Task>, s: State, resp: Resp)
    requires todo != [] && Sound(st, w, spec, s)
    requires Owned(todo[0]) ==> IsExternal(todo[0], s) && todo[0] !in s.refs
    requires todo[0].IpPool? && resp.Found? ==> resp.id == PoolId(st, spec)
    ensures SoundRun(st, w, spec, OnLooked(spec, Creating, todo, s, resp))
  {
    var t := todo[0];
    BeginCreating(st, w, spec, todo[1..], s);
    if (t.Tier1? && resp.Gateway?) || (!t.Tier1? && resp.Found?) {
      SetSound(st, w, spec, s, SetRef(s, t, resp.id), t);
      BeginCreating(st, w, spec, todo[1..], SetRef(s, t, resp.id));
    }
  }

  /** Every object the shoot owns of a kind lies under the parent its state points to. */
  lemma ParentAgrees(st: Store, w: Shoot, spec: Spec, s: State, key: Key)
    requires NoDuplicates(st, w, spec) && Referential(st, w, spec) && Sound(st, w, spec, s) && OwnRefs(st, w, spec, s)
    requires Mine(st, w, key) && HasParent(key.kind, s)
    ensures key.parent == ParentId(key.kind, s)
  {
    var t := key.kind;
    if ParentTask(t).Some? && Owned(ParentTask(t).value) {
      var p := ParentTask(t).value;
      if !IsExternal(p, s) {
        var dep := Key(p, ROOT, key.parent);
        assert DependsOn(st, spec, key, st.objects[key], dep);
        assert Mine(st, w, dep) && !Gone(st, s, p);
        assert Mine(st, w, KeyOf(p, s));
      }
    }
  }

  /** A listing without a tagged item means that the shoot owns no object of the kind. */
  lemma NotListed(st: Store, w: Shoot, specs: Specs, t: Task, s: State, items: seq<Item>)
    requires w in specs && TruthfulTags(st, specs) && OwnTagged(st, w, specs[w]) && OwnRefs(st, w, specs[w], s)
    requires NoDuplicates(st, w, specs[w]) && Referential(st, w, specs[w]) && Sound(st, w, specs[w], s)
    requires HasParent(t, s) && Lists(st, t, ParentId(t, s), items) && FirstTagged(items, TagsOf(specs[w], t)).None?
    ensures NoneOf(st, w, t)
  {
    FirstTaggedListed(items, TagsOf(specs[w], t));
    forall key | Mine(st, w, key) ensures key.kind != t {
      if key.kind == t {
        ParentAgrees(st, w, specs[w], s, key);
        MineIsListed(st, w, specs, key, items);
      }
    }
  }

  lemma MineIsListed(st: Store, w: Shoot, specs: Specs, key: Key, items: seq<Item>)
    requires w in specs && TruthfulTags(st, specs) && OwnTagged(st, w, specs[w]) && Mine(st, w, key) && Lists(st, key.kind, key.parent, items)
    ensures exists i :: i in items && ContainsTags(i.obj.tags, TagsOf(specs[w], key.kind))
  {
    var item := Item(key.id, st.objects[key]);
    assert item in items;
    assert Tagged(item.obj, specs[w], key.kind);
  }

  /** What a listing tells: the reference of the own object, which comes before whatever is gone, or that there is none. */
  lemma ListedSound(st: Store, w: Shoot, specs: Specs, t: Task, s: State, items: seq<Item>)
    requires w in specs && TruthfulTags(st, specs) && OwnTagged(st, w, specs[w]) && OwnRefs(st, w, specs[w], s)
    requires NoDuplicates(st, w, specs[w]) && Referential(st, w, specs[w]) && Sound(st, w, specs[w], s)
    requires Owned(t) && !IsExternal(t, s) && HasParent(t, s) && t !in s.refs && InPlan(s.nsxt3, t)
    requires Lists(st, t, ParentId(t, s), items)
    ensures var s' := TryRecover(specs[w], t, s, Items(items));
            Sound(st, w, specs[w], s') && (t in s'.refs || (s' == s && NoneOf(st, w, t)))
  {
    var s' := TryRecover(specs[w], t, s, Items(items));
    FirstTaggedListed(items, TagsOf(specs[w], t));
    if t.Locale? { LocaleListed(st, w, specs, ParentId(t, s), items); }
    var found := FirstTagged(items, TagsOf(specs[w], t));
    if found.Some? {
      ListedRef(st, specs[w], t, s, Items(items));
      assert Mine(st, w, Key(t, ParentId(t, s), found.value.id));
      SetSound(st, w, specs[w], s, s', t);
    } else {
      NotListed(st, w, specs, t, s, items);
    }
  }

  lemma CreatingListed(st: Store, w: Shoot, specs: Specs, todo: seq<Task>, s: State, items: seq<Item>)
    requires w in specs && TruthfulTags(st, specs) && OwnTagged(st, w, specs[w]) && OwnRefs(st, w, specs[w], s)
    requires NoDuplicates(st, w, specs[w]) && Referential(st, w, specs[w]) && Sound(st, w, specs[w], s)
    requires todo != [] && InPlan(s.nsxt3, todo[0])
    requires Owned(todo[0]) && !IsExternal(todo[0], s) && HasParent(todo[0], s) && todo[0] !in s.refs
    requires Lists(st, todo[0], ParentId(todo[0], s), items)
    ensures SoundRun(st, w, specs[w], OnListed(specs[w], Creating, todo, s, Items(items)))
  {
    var s' := TryRecover(specs[w], todo[0], s, Items(items));
    ListedSound(st, w, specs, todo[0], s, items);
    AfterListing(st, w, specs[w], todo, s');
  }

  lemma AfterListing(st: Store, w: Shoot, spec: Spec, todo: seq<Task>, s: State)
    requires todo != [] && Sound(st, w, spec, s) && (todo[0] in s.refs || NoneOf(st, w, todo[0]) || todo[0].Locale?)
    ensures SoundRun(st, w, spec, Follow(spec, Creating, todo, s, EnsureEntry(spec, todo[0], s)))
  {
    BeginCreating(st, w, spec, todo[1..], s);
  }

  /** A recorded object that is gone is the last; when it is forgotten, there is none of its kind. */
  lemma GoneForgotten(st: Store, w: Shoot, spec: Spec, s: State, t: Task)
    requires Sound(st, w, spec, s) && OwnRefs(st, w, spec, s) && Gone(st, s, t)
    ensures NoneOf(st, w, t) && !t.Alloc?
    ensures Sound(st, w, spec, Forget(t, s))
  {
    ForgetSound(st, w, spec, s, if t.Locale? then Tier1 else t);
  }

  lemma ReadSound(st: Store, w: Shoot, spec: Spec, todo: seq<Task>, s: State, resp: Resp)
    requires todo != [] && Sound(st, w, spec, s) && OwnRefs(st, w, spec, s) && InPlan(s.nsxt3, todo[0])
    requires Owned(todo[0]) && !IsExternal(todo[0], s) && Ready(todo[0], s) && LayoutOk(todo[0], spec) && Reachable(todo[0], s)
    requires resp.One? || resp.Err? || (resp.NotFound? && Gone(st, s, todo[0]))
    ensures SoundRun(st, w, spec, OnRead(spec, Creating, todo, s, resp))
  {
    var t := todo[0];
    BeginCreating(st, w, spec, todo[1..], s);
    if resp.NotFound? {
      GoneForgotten(st, w, spec, s, t);
      BeginCreating(st, w, spec, todo[1..], Forget(t, s));
    }
  }

  lemma WrittenSound(st: Store, w: Shoot, spec: Spec, todo: seq<Task>, s: State, want: Obj, a: Answer)
    requires todo != [] && Sound(st, w, spec, s) && Reachable(todo[0], s) && KeyOf(todo[0], s) in st.objects
    ensures var op := Write(KeyOf(todo[0], s), want);
            SoundRun(After(st, w, op, a), w, spec, OnWritten(spec, Creating, todo, s, Told(st, op, a)))
  {
    var st' := After(st, w, Write(KeyOf(todo[0], s), want), a);
    SoundGrown(st, st', w, spec, s);
    BeginCreating(st', w, spec, todo[1..], s);
  }

  /** What is gone belongs to a task to come. */
  lemma GoneAhead(st: Store, was: map<Key, Obj>, w: Shoot, spec: Spec, todo: seq<Task>, s: State, d: Task)
    requires AllGood(st, was, w, spec, s, todo) && Gone(st, s, d)
    ensures d in todo
  {
    assert d !in todo ==> Good(st, was, spec, s, d);
  }

  /** One object was written or added; it is the only one of its kind. */
  lemma StillNoDuplicates(st: Store, st': Store, w: Shoot, spec: Spec, key: Key)
    requires NoDuplicates(st, w, spec) && st'.catalog == st.catalog
    requires forall k :: Mine(st', w, k) && k != key ==> Mine(st, w, k)
    requires Owned(key.kind) && InPlan(spec.nsxt3, key.kind) && WellPlaced(st, spec, key)
    requires spec.externalTier1.Some? ==> !key.kind.Tier1? && !key.kind.Locale?
    requires forall k :: Mine(st, w, k) && k.kind == key.kind ==> k == key
    ensures NoDuplicates(st', w, spec)
  {}

  lemma NewKeyPlaced(st: Store, w: Shoot, spec: Spec, t: Task, s: State, id: Id)
    requires PoolKnown(st, spec, s) && OwnRefs(st, w, spec, s) && Owned(t) && !IsExternal(t, s) && HasParent(t, s)
    ensures WellPlaced(st, spec, NewKey(t, s, id))
  {}

  /** Of a kind that is about to be created the shoot owns at most the locale service of its gateway, which is the same. */
  lemma OnlyLocale(st: Store, w: Shoot, spec: Spec, s: State, k: Key, key: Key)
    requires NoDuplicates(st, w, spec) && Referential(st, w, spec) && Sound(st, w, spec, s) && OwnRefs(st, w, spec, s)
    requires Mine(st, w, k) && k.kind == key.kind && (NoneOf(st, w, key.kind) || key.kind.Locale?) && HasParent(key.kind, s)
    requires key.kind.Locale? ==> key == Key(Locale, ParentId(Locale, s), DEFAULT)
    ensures k == key
  {
    ParentAgrees(st, w, spec, s, k);
  }

  /** A creation adds the only object of its kind, before whatever is gone. */
  lemma MadeStore(st: Store, was: map<Key, Obj>, w: Shoot, spec: Spec, todo: seq<Task>, s: State, draw: Draw, o: Obj, a: Answer)
    requires NoDuplicates(st, w, spec) && Referential(st, w, spec) && Sound(st, w, spec, s) && OwnRefs(st, w, spec, s)
    requires todo != [] && AllGood(st, was, w, spec, s, todo) && (NoneOf(st, w, todo[0]) || todo[0].Locale?) && todo[0] !in s.refs
    requires Owned(todo[0]) && !IsExternal(todo[0], s) && HasParent(todo[0], s)
    requires var id := IssuedId(NewKey(todo[0], s, draw.id)); IsFresh(st, id) || IssuedTo(st, id, w)
    ensures var st' := After(st, w, Make(NewKey(todo[0], s, draw.id), o), a);
            NoDuplicates(st', w, spec) && Sound(st', w, spec, s)
    ensures var st' := After(st, w, Make(NewKey(todo[0], s, draw.id), o), a);
            forall d :: Gone(st', s, d) ==> Rank(todo[0]) < Rank(d)
  {
    var key := NewKey(todo[0], s, draw.id);
    var st' := After(st, w, Make(key, o), a);
    UpcomingTail(s.nsxt3, todo);
    NewKeyPlaced(st, w, spec, todo[0], s, draw.id);
    forall d | Gone(st, s, d) ensures Rank(todo[0]) < Rank(d) { GoneAhead(st, was, w, spec, todo, s, d); }
    forall k | Mine(st', w, k) && k != key ensures Mine(st, w, k) {}
    forall k | Mine(st, w, k) && k.kind == key.kind ensures k == key { OnlyLocale(st, w, spec, s, k, key); }
    StillNoDuplicates(st, st', w, spec, key);
    SoundGrown(st, st', w, spec, s);
    forall d | Gone(st', s, d) ensures Rank(todo[0]) < Rank(d) { assert Gone(st, s, d); }
  }

  lemma WithMadeSound(st: Store, w: Shoot, spec: Spec, t: Task, s: State, id: Id, name: Option<string>)
    requires Sound(st, w, spec, s) && Owned(t) && !IsExternal(t, s) && HasParent(t, s) && t !in s.refs
    requires NewKey(t, s, id) in st.objects && forall d :: Gone(st, s, d) ==> Rank(t) < Rank(d)
    ensures Sound(st, w, spec, WithMade(t, s, id, name))
  {
    SetSound(st, w, spec, s, WithMade(t, s, id, name), t);
  }

  lemma MadeSound(st: Store, was: map<Key, Obj>, w: Shoot, spec: Spec, todo: seq<Task>, s: State, draw: Draw, o: Obj, a: Answer)
    requires NoDuplicates(st, w, spec) && Referential(st, w, spec) && Sound(st, w, spec, s) && OwnRefs(st, w, spec, s)
    requires todo != [] && AllGood(st, was, w, spec, s, todo) && (NoneOf(st, w, todo[0]) || todo[0].Locale?) && todo[0] !in s.refs
    requires Owned(todo[0]) && !IsExternal(todo[0], s) && HasParent(todo[0], s)
    requires var id := IssuedId(NewKey(todo[0], s, draw.id)); IsFresh(st, id) || IssuedTo(st, id, w)
    ensures var op := Make(NewKey(todo[0], s, draw.id), o);
            var st' := After(st, w, op, a);
            NoDuplicates(st', w, spec) && SoundRun(st', w, spec, OnMade(spec, Creating, todo, s, Told(st, op, a)))
  {
    var t, key := todo[0], NewKey(todo[0], s, draw.id);
    var st' := After(st, w, Make(key, o), a);
    MadeStore(st, was, w, spec, todo, s, draw, o, a);
    if a.fault.Works? {
      var s' := WithMade(t, s, key.id, NameOf(o));
      WithMadeSound(st', w, spec, t, s, key.id, NameOf(o));
      BeginCreating(st', w, spec, todo[1..], s');
    }
  }

  // ---- calls of a recovery ----

  /** A lookup that succeeds, or whose failure leaves nothing unrecovered. */
  lemma LookupRecovers(st: Store, w: Shoot, spec: Spec, todo: seq<Task>, s: State, resp: Resp)
    requires NoDuplicates(st, w, spec) && Referential(st, w, spec) && OwnRefs(st, w, spec, s) && Sound(st, w, spec, s)
    requires todo != [] && Upcoming(s.nsxt3, todo) && Between(st, w, Recovering, todo, s)
    requires Owned(todo[0]) ==> IsExternal(todo[0], s) && todo[0] !in s.refs && todo[0].Tier1?
    requires todo[0].Tier1? && resp.Gateway? ==> spec.externalTier1 == Some(resp.id)
    requires todo[0].IpPool? && resp.Found? ==> resp.id == PoolId(st, spec)
    requires todo[0].IpPool? ==> LookupWorks(spec, todo[0], resp) || NoneOf(st, w, Alloc)
    requires todo[0].Tier1? ==> LookupWorks(spec, todo[0], resp) || NoneOf(st, w, Rule)
    ensures SoundRun(st, w, spec, OnLooked(spec, Recovering, todo, s, resp))
  {
    var t := todo[0];
    UpcomingTail(s.nsxt3, todo);
    if LookupWorks(spec, t, resp) {
      var s' := SetRef(s, t, resp.id);
      SetSound(st, w, spec, s, s', t);
      LookedRefs(st, w, spec, t, s, resp.id);
      forall u | InPlan(s'.nsxt3, u) && u !in todo[1..] ensures Complete(st, w, s', u) {
        if u != t { assert Complete(st, w, s, u); }
      }
      BeginSound(st, w, spec, Recovering, todo[1..], s');
    } else {
      NothingMissed(st, w, spec, todo, s);
    }
  }

  /** A call fails that had nothing to find. */
  lemma NothingMissed(st: Store, w: Shoot, spec: Spec, todo: seq<Task>, s: State)
    requires NoDuplicates(st, w, spec) && Referential(st, w, spec) && OwnRefs(st, w, spec, s) && Sound(st, w, spec, s)
    requires todo != [] && Upcoming(s.nsxt3, todo) && Between(st, w, Recovering, todo, s) && Complete(st, w, s, todo[0])
    ensures SoundRun(st, w, spec, Begin(spec, Recovering, todo[1..], s))
  {
    UpcomingTail(s.nsxt3, todo);
    forall u | InPlan(s.nsxt3, u) && u !in todo[1..] ensures Complete(st, w, s, u) {
      if u != todo[0] { assert Complete(st, w, s, u); }
    }
    BeginSound(st, w, spec, Recovering, todo[1..], s);
  }

  lemma ListingRecovers(st: Store, w: Shoot, specs: Specs, todo: seq<Task>, s: State, items: seq<Item>)
    requires w in specs && TruthfulTags(st, specs) && OwnTagged(st, w, specs[w]) && OwnRefs(st, w, specs[w], s)
    requires NoDuplicates(st, w, specs[w]) && Referential(st, w, specs[w]) && Sound(st, w, specs[w], s)
    requires todo != [] && Upcoming(s.nsxt3, todo) && Between(st, w, Recovering, todo, s)
    requires Owned(todo[0]) && !IsExternal(todo[0], s) && HasParent(todo[0], s) && todo[0] !in s.refs
    requires Lists(st, todo[0], ParentId(todo[0], s), items)
    ensures SoundRun(st, w, specs[w], OnListed(specs[w], Recovering, todo, s, Items(items)))
  {
    var t, s' := todo[0], TryRecover(specs[w], todo[0], s, Items(items));
    UpcomingTail(s.nsxt3, todo);
    ListedSound(st, w, specs, t, s, items);
    ListedOwn(st, w, specs, t, s, items);
    forall u | InPlan(s'.nsxt3, u) && u !in todo[1..] ensures Complete(st, w, s', u) {
      if u != t { assert Complete(st, w, s, u); }
    }
    BeginSound(st, w, specs[w], Recovering, todo[1..], s');
  }

  lemma ListedOwn(st: Store, w: Shoot, specs: Specs, t: Task, s: State, items: seq<Item>)
    requires w in specs && TruthfulTags(st, specs) && OwnTagged(st, w, specs[w]) && OwnRefs(st, w, specs[w], s) && InPlan(s.nsxt3, t)
    requires Owned(t) && !IsExternal(t, s) && HasParent(t, s) && Lists(st, t, ParentId(t, s), items)
    ensures OwnRefs(st, w, specs[w], TryRecover(specs[w], t, s, Items(items)))
  {
    FirstTaggedListed(items, TagsOf(specs[w], t));
    var found := FirstTagged(items, TagsOf(specs[w], t));
    if found.Some? { assert Mine(st, w, Key(t, ParentId(t, s), found.value.id)); }
  }

  // ---- calls of a deletion ----

  lemma FewerNoDuplicates(st: Store, st': Store, w: Shoot, spec: Spec)
    requires NoDuplicates(st, w, spec) && st'.catalog == st.catalog
    requires forall k :: Mine(st', w, k) ==> Mine(st, w, k)
    ensures NoDuplicates(st', w, spec)
  {}

  /** The last object in the plan is erased: nothing refers to it. */
  lemma FewerReferential(st: Store, st': Store, w: Shoot, spec: Spec, key: Key)
    requires Referential(st, w, spec) && st'.catalog == st.catalog
    requires forall k :: Mine(st, w, k) ==> Rank(k.kind) <= Rank(key.kind)
    requires forall k :: Mine(st', w, k) <==> Mine(st, w, k) && k != key
    requires forall k :: Mine(st', w, k) ==> st'.objects[k] == st.objects[k]
    ensures Referential(st', w, spec)
  {
    forall k, dep | Mine(st', w, k) && DependsOn(st', spec, k, st'.objects[k], dep)
      ensures Mine(st', w, dep) && Rank(dep.kind) < Rank(k.kind)
    {
      DepsKept(st, st', spec, k, st.objects[k], dep);
    }
  }

  /** In a deletion run, everything the shoot still owns is at or before the current task. */
  lemma NothingBehind(st: Store, w: Shoot, spec: Spec, todo: seq<Task>, s: State, key: Key)
    requires NoDuplicates(st, w, spec) && s.nsxt3 == spec.nsxt3
    requires todo != [] && Descending(s.nsxt3, todo) && Between(st, w, Deleting, todo, s) && Mine(st, w, key)
    ensures Rank(key.kind) <= Rank(todo[0])
  {
    DescendingTail(s.nsxt3, todo);
    var t := key.kind;
    assert InPlan(s.nsxt3, t) && (t !in todo ==> NoneOf(st, w, t));
  }

  /** The object of a task is erased, or was gone before. */
  ghost predicate ErasedOne(st: Store, st': Store, w: Shoot, key: Key) {
    && st'.catalog == st.catalog && st'.objects == st.objects - {key} && st'.issued == st.issued
    && IssuedTo(st, IssuedId(key), w)
  }

  /** What is left after that comes before the task. */
  lemma LeftBefore(st: Store, w: Shoot, spec: Spec, todo: seq<Task>, s: State, k: Key)
    requires NoDuplicates(st, w, spec) && Sound(st, w, spec, s) && OwnRefs(st, w, spec, s)
    requires todo != [] && Descending(s.nsxt3, todo) && Between(st, w, Deleting, todo, s)
    requires Owned(todo[0]) && !IsExternal(todo[0], s) && Reachable(todo[0], s)
    requires Mine(st, w, k) && k != KeyOf(todo[0], s)
    ensures Rank(k.kind) < Rank(todo[0])
  {
    var t := todo[0];
    DescendingTail(s.nsxt3, todo);
    NothingBehind(st, w, spec, todo, s, k);
    assert KeyOf(t, s) !in st.objects ==> Gone(st, s, t);
    assert KeyOf(t, s) in st.objects ==> Mine(st, w, KeyOf(t, s));
  }

  lemma ErasedStore(st: Store, st': Store, w: Shoot, spec: Spec, todo: seq<Task>, s: State)
    requires NoDuplicates(st, w, spec) && Referential(st, w, spec) && Sound(st, w, spec, s) && OwnRefs(st, w, spec, s)
    requires todo != [] && Descending(s.nsxt3, todo) && Between(st, w, Deleting, todo, s)
    requires Owned(todo[0]) && !IsExternal(todo[0], s) && Reachable(todo[0], s)
    requires ErasedOne(st, st', w, KeyOf(todo[0], s))
    ensures NoDuplicates(st', w, spec) && Referential(st', w, spec)
    ensures forall key :: Mine(st', w, key) ==> Rank(key.kind) < Rank(todo[0])
  {
    var key := KeyOf(todo[0], s);
    forall k | Mine(st', w, k) ensures Rank(k.kind) < Rank(todo[0]) { LeftBefore(st, w, spec, todo, s, k); }
    FewerNoDuplicates(st, st', w, spec);
    forall k | Mine(st, w, k) ensures Rank(k.kind) <= Rank(key.kind) { NothingBehind(st, w, spec, todo, s, k); }
    FewerReferential(st, st', w, spec, key);
  }

  /** The deletion works, or the object was gone: the reference is cleared. */
  lemma ErasedSound(st: Store, st': Store, w: Shoot, spec: Spec, todo: seq<Task>, s: State)
    requires NoDuplicates(st, w, spec) && Referential(st, w, spec) && Sound(st, w, spec, s) && OwnRefs(st, w, spec, s)
    requires todo != [] && Descending(s.nsxt3, todo) && Between(st, w, Deleting, todo, s)
    requires Owned(todo[0]) && !IsExternal(todo[0], s) && Reachable(todo[0], s)
    requires ErasedOne(st, st', w, KeyOf(todo[0], s))
    ensures SoundRun(st', w, spec, Begin(spec, Deleting, todo[1..], ClearRef(s, todo[0])))
  {
    var t, s' := todo[0], ClearRef(s, todo[0]);
    ErasedStore(st, st', w, spec, todo, s);
    DescendingTail(s.nsxt3, todo);
    ClearedParented(s, todo);
    ClearedSound(st, st', w, spec, todo, s);
    ErasedBetween(st, st', w, spec, todo, s);
    BeginSound(st', w, spec, Deleting, todo[1..], s');
  }

  lemma ErasedBetween(st: Store, st': Store, w: Shoot, spec: Spec, todo: seq<Task>, s: State)
    requires todo != [] && Descending(s.nsxt3, todo) && Parented(s) && Between(st, w, Deleting, todo, s)
    requires Owned(todo[0]) && !IsExternal(todo[0], s) && Reachable(todo[0], s)
    requires ErasedOne(st, st', w, KeyOf(todo[0], s))
    requires forall key :: Mine(st', w, key) ==> Rank(key.kind) < Rank(todo[0])
    ensures Between(st', w, Deleting, todo[1..], ClearRef(s, todo[0]))
  {
    var s' := ClearRef(s, todo[0]);
    DescendingTail(s.nsxt3, todo);
    ClearedParented(s, todo);
    forall u | InPlan(s'.nsxt3, u) ensures if u in todo[1..] then Complete(st', w, s', u) else NoneOf(st', w, u) {
      assert if u in todo then Complete(st, w, s, u) else NoneOf(st, w, u);
    }
  }

  lemma ClearedSound(st: Store, st': Store, w: Shoot, spec: Spec, todo: seq<Task>, s: State)
    requires Sound(st, w, spec, s) && OwnRefs(st, w, spec, s)
    requires todo != [] && Descending(s.nsxt3, todo) && Ahead(s, todo)
    requires Owned(todo[0]) && !IsExternal(todo[0], s) && Reachable(todo[0], s)
    requires ErasedOne(st, st', w, KeyOf(todo[0], s))
    ensures Sound(st', w, spec, ClearRef(s, todo[0])) && OwnRefs(st', w, spec, ClearRef(s, todo[0]))
  {
    var s' := ClearRef(s, todo[0]);
    ClearedParented(s, todo);
    forall d | Gone(st', s', d) ensures !Strict(d) && Childless(s', d) && NothingFrom(st', w, d) {
      StillGone(st, st', s, todo[0], d, KeyOf(todo[0], s));
    }
  }

  lemma StillGone(st: Store, st': Store, s: State, t: Task, d: Task, key: Key)
    requires Reachable(t, s) && key == KeyOf(t, s) && st'.objects == st.objects - {key} && Owned(t)
    requires Gone(st', ClearRef(s, t), d)
    ensures Gone(st, s, d) && d != t
  {}

  /** Deletion goes backwards: nothing is reached through what comes next. */
  lemma AheadIsChildless(s: State, todo: seq<Task>)
    requires todo != [] && Descending(s.nsxt3, todo) && Ahead(s, todo)
    ensures Childless(s, todo[0])
  {
    DescendingTail(s.nsxt3, todo);
  }

  /** The deletion has succeeded unseen: the reference stays. */
  lemma UnseenSound(st: Store, st': Store, w: Shoot, spec: Spec, todo: seq<Task>, s: State)
    requires NoDuplicates(st, w, spec) && Referential(st, w, spec) && Sound(st, w, spec, s) && OwnRefs(st, w, spec, s)
    requires todo != [] && Descending(s.nsxt3, todo) && Between(st, w, Deleting, todo, s)
    requires Owned(todo[0]) && !IsExternal(todo[0], s) && Reachable(todo[0], s) && !Strict(todo[0])
    requires ErasedOne(st, st', w, KeyOf(todo[0], s))
    ensures Sound(st', w, spec, s) && Between(st', w, Deleting, todo, s)
  {
    var t := todo[0];
    ErasedStore(st, st', w, spec, todo, s);
    DescendingTail(s.nsxt3, todo);
    forall d | Gone(st', s, d) ensures !Strict(d) && Childless(s, d) && NothingFrom(st', w, d) {
      if d != t {
        assert KeyOf(d, s).kind == d;
        assert Gone(st, s, d);
      } else {
        AheadIsChildless(s, todo);
      }
    }
    forall u | InPlan(s.nsxt3, u) ensures if u in todo then Complete(st', w, s, u) else NoneOf(st', w, u) {
      assert if u in todo then Complete(st, w, s, u) else NoneOf(st, w, u);
    }
  }

  /** A deletion run that gives up has everything on record. */
  lemma GivingUp(st: Store, w: Shoot, spec: Spec, todo: seq<Task>, s: State)
    requires NoDuplicates(st, w, spec) && OwnRefs(st, w, spec, s) && Sound(st, w, spec, s) && Between(st, w, Deleting, todo, s)
    ensures SoundRun(st, w, spec, Finished(Deleting, false, s))
  {
    DeletingAccounts(st, w, spec, todo, s);
  }

  lemma ErasingSound(st: Store, w: Shoot, spec: Spec, todo: seq<Task>, s: State, a: Answer)
    requires NoDuplicates(st, w, spec) && Referential(st, w, spec) && Sound(st, w, spec, s) && OwnRefs(st, w, spec, s)
    requires todo != [] && Descending(s.nsxt3, todo) && Between(st, w, Deleting, todo, s)
    requires Owned(todo[0]) && !IsExternal(todo[0], s) && Reachable(todo[0], s)
    requires Strict(todo[0]) ==> !a.fault.Lost?
    ensures var op := Erase(KeyOf(todo[0], s));
            SoundRun(After(st, w, op, a), w, spec, OnErased(spec, Deleting, todo, s, Told(st, op, a)))
  {
    var t, op := todo[0], Erase(KeyOf(todo[0], s));
    var st', resp := After(st, w, op, a), Told(st, op, a);
    DescendingTail(s.nsxt3, todo);
    if a.fault.Refused? {
      GivingUp(st, w, spec, todo, s);
    } else if resp.Done? || (resp.NotFound? && Advanced(t)) {
      ErasedSound(st, st', w, spec, todo, s);
    } else {
      assert Strict(t) ==> !Gone(st, s, t);
      UnseenGoesOn(st, st', w, spec, todo, s);
    }
  }

  lemma UnseenGoesOn(st: Store, st': Store, w: Shoot, spec: Spec, todo: seq<Task>, s: State)
    requires NoDuplicates(st, w, spec) && Referential(st, w, spec) && Sound(st, w, spec, s) && OwnRefs(st, w, spec, s)
    requires todo != [] && Descending(s.nsxt3, todo) && Between(st, w, Deleting, todo, s)
    requires Owned(todo[0]) && !IsExternal(todo[0], s) && Reachable(todo[0], s) && !Strict(todo[0])
    requires ErasedOne(st, st', w, KeyOf(todo[0], s))
    ensures SoundRun(st', w, spec, Finished(Deleting, false, s)) && SoundRun(st', w, spec, Pending(Deleting, todo, Checking, s))
  {
    UnseenSound(st, st', w, spec, todo, s);
    ErasedStore(st, st', w, spec, todo, s);
    GivingUp(st', w, spec, todo, s);
  }

  lemma ErasingStore(st: Store, w: Shoot, spec: Spec, todo: seq<Task>, s: State, a: Answer)
    requires NoDuplicates(st, w, spec) && Referential(st, w, spec) && Sound(st, w, spec, s) && OwnRefs(st, w, spec, s)
    requires todo != [] && Descending(s.nsxt3, todo) && Between(st, w, Deleting, todo, s)
    requires Owned(todo[0]) && !IsExternal(todo[0], s) && Reachable(todo[0], s)
    ensures var st' := After(st, w, Erase(KeyOf(todo[0], s)), a); NoDuplicates(st', w, spec) && Referential(st', w, spec)
  {
    if !a.fault.Refused? {
      DescendingTail(s.nsxt3, todo);
      ErasedStore(st, After(st, w, Erase(KeyOf(todo[0], s)), a), w, spec, todo, s);
    }
  }

  lemma CheckingSound(st: Store, w: Shoot, spec: Spec, todo: seq<Task>, s: State, a: Answer)
    requires NoDuplicates(st, w, spec) && Referential(st, w, spec) && Sound(st, w, spec, s) && OwnRefs(st, w, spec, s)
    requires todo != [] && Descending(s.nsxt3, todo) && Between(st, w, Deleting, todo, s)
    requires Owned(todo[0]) && !IsExternal(todo[0], s) && Reachable(todo[0], s)
    ensures SoundRun(st, w, spec, OnChecked(spec, Deleting, todo, s, Told(st, Read(KeyOf(todo[0], s)), a)))
  {
    if Told(st, Read(KeyOf(todo[0], s)), a).NotFound? {
      assert st.objects - {KeyOf(todo[0], s)} == st.objects;
      ErasedSound(st, st, w, spec, todo, s);
    } else {
      GivingUp(st, w, spec, todo, s);
    }
  }

  // ---- one call of the shoot's own run, in the terms of NextOp and Resume ----

  /** The store and the run are in order. */
  ghost predicate InOrder(st: Store, w: Shoot, spec: Spec, r: Run) {
    NoDuplicates(st, w, spec) && Referential(st, w, spec) && SoundRun(st, w, spec, r)
  }

  lemma CreatingAsks(st: Store, w: Shoot, specs: Specs, r: Run, a: Answer)
    requires w in specs && TruthfulTags(st, specs) && OwnTagged(st, w, specs[w]) && OwnRun(st, w, specs[w], r) && InOrder(st, w, specs[w], r)
    requires r.Pending? && r.mode.Creating? && (r.phase.Looking? || r.phase.Listing?)
    requires var op := NextOp(specs[w], r, a.draw); Admissible(st, op, a) && Spared(st, w, op, r.mode, a)
    ensures var op := NextOp(specs[w], r, a.draw);
            After(st, w, op, a) == st && SoundRun(st, w, specs[w], Resume(specs[w], r, Told(st, op, a)))
  {
    PlanTail(r.s.nsxt3, r.mode, r.todo);
    if r.phase.Looking? {
      LookedSound(st, w, specs[w], r.todo, r.s, Told(st, NextOp(specs[w], r, a.draw), a));
    } else if a.fault.Works? {
      CreatingListed(st, w, specs, r.todo, r.s, a.listing);
    } else {
      AfterListing(st, w, specs[w], r.todo, r.s);
    }
  }

  lemma CreatingReads(st: Store, w: Shoot, spec: Spec, r: Run, a: Answer)
    requires OwnRun(st, w, spec, r) && InOrder(st, w, spec, r) && r.Pending? && r.phase.Reading?
    ensures var op := NextOp(spec, r, a.draw);
            After(st, w, op, a) == st && SoundRun(st, w, spec, Resume(spec, r, Told(st, op, a)))
  {
    ReadAnswer(st, spec, r, a);
    PlanTail(r.s.nsxt3, r.mode, r.todo);
    ReadSound(st, w, spec, r.todo, r.s, Told(st, NextOp(spec, r, a.draw), a));
  }

  lemma CreatingWrites(st: Store, was: map<Key, Obj>, w: Shoot, spec: Spec, r: Run, a: Answer)
    requires OwnRun(st, w, spec, r) && InOrder(st, w, spec, r) && WellUnderWay(st, was, w, spec, r)
    requires r.Pending? && r.phase.Writing?
    ensures var op := NextOp(spec, r, a.draw);
            InOrder(After(st, w, op, a), w, spec, Resume(spec, r, Told(st, op, a)))
  {
    CallStaysReferential(st, was, w, spec, r, a);
    WrittenStore(st, w, spec, KeyOf(r.todo[0], r.s), r.phase.want, a);
    WrittenSound(st, w, spec, r.todo, r.s, r.phase.want, a);
  }

  lemma WrittenStore(st: Store, w: Shoot, spec: Spec, key: Key, want: Obj, a: Answer)
    requires NoDuplicates(st, w, spec) && key in st.objects
    ensures NoDuplicates(After(st, w, Write(key, want), a), w, spec)
  {
    FewerNoDuplicates(st, After(st, w, Write(key, want), a), w, spec);
  }

  lemma CreatingMakes(st: Store, was: map<Key, Obj>, w: Shoot, spec: Spec, r: Run, a: Answer)
    requires OwnRun(st, w, spec, r) && InOrder(st, w, spec, r) && WellUnderWay(st, was, w, spec, r)
    requires r.Pending? && r.phase.Making? && Admissible(st, NextOp(spec, r, a.draw), a)
    ensures var op := NextOp(spec, r, a.draw);
            InOrder(After(st, w, op, a), w, spec, Resume(spec, r, Told(st, op, a)))
  {
    CallStaysReferential(st, was, w, spec, r, a);
    MadeSound(st, was, w, spec, r.todo, r.s, a.draw, Created(r.todo[0], spec, r.s, a.draw.suffix), a);
  }

  lemma LookedUp(st: Store, w: Shoot, spec: Spec, r: Run, a: Answer)
    requires r.Pending? && r.phase.Looking? && OwnRun(st, w, spec, r) && Provided(st, spec)
    ensures var t, resp := r.todo[0], Told(st, NextOp(spec, r, a.draw), a);
            && (t.Tier1? && resp.Gateway? ==> spec.externalTier1 == Some(resp.id))
            && (t.IpPool? && resp.Found? ==> resp.id == PoolId(st, spec))
            && ((t.IpPool? || t.Tier1?) && a.fault.Works? ==> LookupWorks(spec, t, resp))
  {}

  lemma RecoveringCall(st: Store, w: Shoot, specs: Specs, r: Run, a: Answer)
    requires w in specs && TruthfulTags(st, specs) && OwnTagged(st, w, specs[w]) && OwnRun(st, w, specs[w], r) && InOrder(st, w, specs[w], r)
    requires Provided(st, specs[w]) && r.Pending? && r.mode.Recovering?
    requires var op := NextOp(specs[w], r, a.draw); Admissible(st, op, a) && Spared(st, w, op, r.mode, a)
    ensures var op := NextOp(specs[w], r, a.draw);
            After(st, w, op, a) == st && SoundRun(st, w, specs[w], Resume(specs[w], r, Told(st, op, a)))
  {
    if r.phase.Looking? {
      LookedUp(st, w, specs[w], r, a);
      LookupRecovers(st, w, specs[w], r.todo, r.s, Told(st, NextOp(specs[w], r, a.draw), a));
    } else if a.fault.Works? {
      ListingRecovers(st, w, specs, r.todo, r.s, a.listing);
    } else {
      NothingMissed(st, w, specs[w], r.todo, r.s);
    }
  }

  lemma DeletingCallInOrder(st: Store, w: Shoot, spec: Spec, r: Run, a: Answer)
    requires OwnRun(st, w, spec, r) && InOrder(st, w, spec, r) && r.Pending? && r.mode.Deleting?
    requires Spared(st, w, NextOp(spec, r, a.draw), r.mode, a)
    ensures var op := NextOp(spec, r, a.draw);
            InOrder(After(st, w, op, a), w, spec, Resume(spec, r, Told(st, op, a)))
  {
    if r.phase.Erasing? {
      ErasingStore(st, w, spec, r.todo, r.s, a);
      ErasingSound(st, w, spec, r.todo, r.s, a);
    } else {
      CheckingSound(st, w, spec, r.todo, r.s, a);
    }
  }

  lemma CreatingCall(st: Store, was: map<Key, Obj>, w: Shoot, specs: Specs, r: Run, a: Answer)
    requires w in specs && TruthfulTags(st, specs) && OwnTagged(st, w, specs[w]) && OwnRun(st, w, specs[w], r) && InOrder(st, w, specs[w], r)
    requires r.Pending? && r.mode.Creating? && WellUnderWay(st, was, w, specs[w], r)
    requires var op := NextOp(specs[w], r, a.draw); Admissible(st, op, a) && Spared(st, w, op, r.mode, a)
    ensures var op := NextOp(specs[w], r, a.draw);
            InOrder(After(st, w, op, a), w, specs[w], Resume(specs[w], r, Told(st, op, a)))
  {
    if r.phase.Writing? || r.phase.Making? {
      CreatingChanges(st, was, w, specs[w], r, a);
    } else if r.phase.Reading? {
      CreatingReads(st, w, specs[w], r, a);
    } else {
      CreatingAsks(st, w, specs, r, a);
    }
  }

  lemma CreatingChanges(st: Store, was: map<Key, Obj>, w: Shoot, spec: Spec, r: Run, a: Answer)
    requires OwnRun(st, w, spec, r) && InOrder(st, w, spec, r) && WellUnderWay(st, was, w, spec, r)
    requires r.Pending? && (r.phase.Writing? || r.phase.Making?) && Admissible(st, NextOp(spec, r, a.draw), a)
    ensures var op := NextOp(spec, r, a.draw);
            InOrder(After(st, w, op, a), w, spec, Resume(spec, r, Told(st, op, a)))
  {
    if r.phase.Writing? {
      CreatingWrites(st, was, w, spec, r, a);
    } else {
      CreatingMakes(st, was, w, spec, r, a);
    }
  }

  /** One orderly call keeps everything in order. */
  lemma CallInOrder(st: Store, was: map<Key, Obj>, w: Shoot, specs: Specs, r: Run, a: Answer)
    requires w in specs && TruthfulTags(st, specs) && OwnTagged(st, w, specs[w]) && OwnRun(st, w, specs[w], r) && InOrder(st, w, specs[w], r)
    requires Provided(st, specs[w]) && r.Pending? && (r.mode.Creating? ==> WellUnderWay(st, was, w, specs[w], r))
    requires var op := NextOp(specs[w], r, a.draw); Admissible(st, op, a) && Spared(st, w, op, r.mode, a)
    ensures var op := NextOp(specs[w], r, a.draw);
            InOrder(After(st, w, op, a), w, specs[w], Resume(specs[w], r, Told(st, op, a)))
  {
    if r.mode.Recovering? {
      RecoveringCall(st, w, specs, r, a);
    } else if r.mode.Deleting? {
      DeletingCallInOrder(st, w, specs[w], r, a);
    } else {
      CreatingCall(st, was, w, specs, r, a);
    }
  }

  // ---- the steps of others ----

  lemma GoneForOthers(st: Store, st': Store, w: Shoot, spec: Spec, s: State)
    requires SameForShoot(st, st', w) && OwnRefs(st, w, spec, s)
    ensures forall t :: Gone(st', s, t) <==> Gone(st, s, t)
  {
    forall t | Owned(t) && Recorded(s, t) ensures KeyOf(t, s) in st'.objects <==> KeyOf(t, s) in st.objects {
      assert Mine(st', w, KeyOf(t, s)) <==> Mine(st, w, KeyOf(t, s));
    }
  }

  lemma SoundForOthers(st: Store, st': Store, w: Shoot, spec: Spec, s: State)
    requires SameForShoot(st, st', w) && OwnRefs(st, w, spec, s) && Sound(st, w, spec, s)
    ensures Sound(st', w, spec, s)
  {
    GoneForOthers(st, st', w, spec, s);
    forall d | Gone(st', s, d) ensures NothingFrom(st', w, d) { assert NothingFrom(st, w, d); }
  }

  lemma SoundRunForOthers(st: Store, st': Store, w: Shoot, spec: Spec, r: Run)
    requires SameForShoot(st, st', w) && OwnRun(st, w, spec, r) && SoundRun(st, w, spec, r)
    ensures SoundRun(st', w, spec, r)
  {
    forall t ensures NoneOf(st, w, t) <==> NoneOf(st', w, t) {}
    if !r.Panicked? { SoundForOthers(st, st', w, spec, r.s); }
    if r.Pending? {
      assert forall t :: Complete(st, w, r.s, t) ==> Complete(st', w, r.s, t);
      assert Between(st', w, r.mode, r.todo, r.s);
    }
  }

  lemma SoundMemberForOthers(st: Store, st': Store, w: Shoot, m: Member)
    requires SameForShoot(st, st', w) && OwnMember(st, w, m) && SoundMember(st, w, m)
    ensures SoundMember(st', w, m)
  {
    FewerNoDuplicates(st, st', w, m.spec);
    ReferentialForOthers(st, st', w, m.spec);
    if m.status.state.Some? {
      if Sound(st, w, m.spec, m.status.state.value) { SoundForOthers(st, st', w, m.spec, m.status.state.value); }
      GoneForOthers(st, st', w, m.spec, m.status.state.value);
      forall t ensures (NothingFrom(st, w, t) ==> NothingFrom(st', w, t)) && (NoneOf(st', w, t) ==> NoneOf(st, w, t)) {}
    }
    if m.run.Some? { SoundRunForOthers(st, st', w, m.spec, m.run.value); }
  }

  // ---- whole systems ----

  /** A run starts from a sound state, or from none. */
  lemma StartSound(st: Store, w: Shoot, spec: Spec, state: Option<State>)
    requires NoDuplicates(st, w, spec) && Referential(st, w, spec)
    requires state.Some? ==> OwnRefs(st, w, spec, state.value) && Sound(st, w, spec, state.value)
    ensures SoundRun(st, w, spec, StartCreate(spec, state.GetOr(InitialState(spec))))
    ensures state.Some? ==> SoundRun(st, w, spec, StartDelete(spec, state.value))
  {
    var s := UpdateExternal(spec, state.GetOr(InitialState(spec)));
    TasksAreOrdered(s.nsxt3);
    assert state.Some? ==> s == state.value;
    assert Sound(st, w, spec, s) && OwnRefs(st, w, spec, s);
    BeginCreating(st, w, spec, Tasks(s.nsxt3), s);
    BeginSound(st, w, spec, Recovering, Tasks(s.nsxt3), s);
  }

  /** What is known of shoot w in a system. */
  ghost predicate InGoodOrder(sys: System, w: Shoot) {
    && Isolated(sys) && CreatesWell(sys, w) && w in sys.members
    && Provided(sys.store, sys.members[w].spec) && OwnTagged(sys.store, w, sys.members[w].spec)
    && SoundMember(sys.store, w, sys.members[w])
  }

  lemma CallInGoodOrder(sys: System, w: Shoot, a: Answer)
    requires InGoodOrder(sys, w) && CanHappen(sys, Call(w, a)) && Orderly(sys, Call(w, a))
    ensures SoundMember(Step(sys, Call(w, a)).store, w, Step(sys, Call(w, a)).members[w])
  {
    var m := sys.members[w];
    var r := m.run.value;
    var was := map[];
    if r.mode.Creating? { was :| Underway(sys, was, w); }
    CallInOrder(sys.store, was, w, SpecsOf(sys), r, a);
    StatusInOrder(sys.store, was, w, SpecsOf(sys), m, a);
  }

  lemma StatusInOrder(st: Store, was: map<Key, Obj>, w: Shoot, specs: Specs, m: Member, a: Answer)
    requires w in specs && m.spec == specs[w] && TruthfulTags(st, specs) && OwnTagged(st, w, specs[w]) && OwnMember(st, w, m) && SoundMember(st, w, m)
    requires m.run.Some? && m.run.value.Pending? && Provided(st, m.spec)
    requires m.run.value.mode.Creating? ==> WellUnderWay(st, was, w, m.spec, m.run.value)
    requires Admissible(st, PendingOp(m, a), a) && Spared(st, w, PendingOp(m, a), m.run.value.mode, a)
    ensures var op, r := PendingOp(m, a), m.run.value;
            SoundStatus(After(st, w, op, a), w, m.(run := Some(Resume(m.spec, r, Told(st, op, a)))))
  {
    var op, r := PendingOp(m, a), m.run.value;
    ResumeOnCourse(m.spec, r, Told(st, op, a));
    if m.status.state.Some? {
      var s := m.status.state.value;
      match r.mode {
        case Creating => RecordWhileCreating(st, was, w, m.spec, s, r, a);
        case Recovering => RecoveringCall(st, w, specs, r, a);
        case Deleting => RecordWhileDeleting(st, w, m.spec, s, r, a);
      }
    }
  }

  /** A creation run makes nothing from the task of a gone object on, before it has made that object anew. */
  lemma RecordWhileCreating(st: Store, was: map<Key, Obj>, w: Shoot, spec: Spec, s: State, r: Run, a: Answer)
    requires r.Pending? && r.mode.Creating? && OwnRun(st, w, spec, r) && OwnRefs(st, w, spec, s)
    requires WellUnderWay(st, was, w, spec, r) && Admissible(st, NextOp(spec, r, a.draw), a)
    requires forall t :: Gone(st, s, t) ==> !Strict(t) && Childless(s, t) && (NoneOf(st, w, t) ==> NothingFrom(st, w, t))
    ensures var st' := After(st, w, NextOp(spec, r, a.draw), a);
            forall t :: Gone(st', s, t) ==> !Strict(t) && Childless(s, t) && (NoneOf(st', w, t) ==> NothingFrom(st', w, t))
  {
    var op := NextOp(spec, r, a.draw);
    var st' := After(st, w, op, a);
    CreatingOnlyGrows(st, was, w, spec, r, a);
    forall t | Gone(st', s, t) ensures Gone(st, s, t) && (NoneOf(st', w, t) ==> NothingFrom(st', w, t)) {
      assert Gone(st, s, t);
      if NoneOf(st', w, t) { MadeBefore(st, was, w, spec, r, a, t); }
    }
  }

  /** A creation run changes no more than the object of its task, and erases nothing. */
  lemma CreatingOnlyGrows(st: Store, was: map<Key, Obj>, w: Shoot, spec: Spec, r: Run, a: Answer)
    requires r.Pending? && r.mode.Creating? && OwnRun(st, w, spec, r) && WellUnderWay(st, was, w, spec, r)
    ensures var st' := After(st, w, NextOp(spec, r, a.draw), a);
            && (forall key :: key in st.objects ==> key in st'.objects)
            && (forall key :: Mine(st, w, key) ==> Mine(st', w, key))
  {
    var op := NextOp(spec, r, a.draw);
    assert !op.Erase?;
    if op.Make? { assert op.key.kind == r.todo[0]; }
  }

  lemma GoodIsMine(st: Store, was: map<Key, Obj>, w: Shoot, spec: Spec, s: State, t: Task)
    requires Good(st, was, spec, s, t) && Owned(t) && !IsExternal(t, s) && OwnRefs(st, w, spec, s)
    ensures !NoneOf(st, w, t)
  {
    assert Mine(st, w, KeyOf(t, s));
  }

  lemma MadeBefore(st: Store, was: map<Key, Obj>, w: Shoot, spec: Spec, r: Run, a: Answer, t: Task)
    requires r.Pending? && r.mode.Creating? && OwnRun(st, w, spec, r) && WellUnderWay(st, was, w, spec, r)
    requires Admissible(st, NextOp(spec, r, a.draw), a) && Owned(t) && InPlan(r.s.nsxt3, t) && !IsExternal(t, r.s)
    requires NoneOf(st, w, t) ==> NothingFrom(st, w, t)
    requires NoneOf(After(st, w, NextOp(spec, r, a.draw), a), w, t)
    ensures NothingFrom(After(st, w, NextOp(spec, r, a.draw), a), w, t)
  {
    CreatingOnlyGrows(st, was, w, spec, r, a);
    var op := NextOp(spec, r, a.draw);
    var st' := After(st, w, op, a);
    UpcomingTail(r.s.nsxt3, r.todo);
    if r.phase.Making? {
      forall u | InPlan(r.s.nsxt3, u) && u !in r.todo && Owned(u) && !IsExternal(u, r.s) ensures !NoneOf(st, w, u) {
        GoodIsMine(st, was, w, spec, r.s, u);
      }
    }
    forall key | Mine(st', w, key) && !Mine(st, w, key) ensures key.kind == r.todo[0] && r.phase.Making? {
      NewIsMade(st, was, w, spec, r, a, key);
    }
  }

  lemma NewIsMade(st: Store, was: map<Key, Obj>, w: Shoot, spec: Spec, r: Run, a: Answer, key: Key)
    requires r.Pending? && r.mode.Creating? && OwnRun(st, w, spec, r) && WellUnderWay(st, was, w, spec, r)
    requires Admissible(st, NextOp(spec, r, a.draw), a)
    requires Mine(After(st, w, NextOp(spec, r, a.draw), a), w, key) && !Mine(st, w, key)
    ensures r.phase.Making? && key.kind == r.todo[0]
  {}

  /** After a deletion, the shoot owns nothing from the task on. */
  lemma RecordWhileDeleting(st: Store, w: Shoot, spec: Spec, s: State, r: Run, a: Answer)
    requires NoDuplicates(st, w, spec) && Referential(st, w, spec) && SoundRun(st, w, spec, r)
    requires r.Pending? && r.mode.Deleting? && OwnRun(st, w, spec, r)
    requires forall t :: Gone(st, s, t) ==> NothingFrom(st, w, t)
    ensures var st' := After(st, w, NextOp(spec, r, a.draw), a);
            forall t :: Gone(st', s, t) ==> NothingFrom(st', w, t)
  {
    var op := NextOp(spec, r, a.draw);
    var st' := After(st, w, op, a);
    if op.Erase? && !a.fault.Refused? {
      assert ErasedOne(st, st', w, op.key);
      ErasedStore(st, st', w, spec, r.todo, r.s);
      forall t | Gone(st', s, t) ensures NothingFrom(st', w, t) {
        if KeyOf(t, s) != op.key { assert Gone(st, s, t); }
      }
    }
  }

  lemma StartInGoodOrder(st: Store, w: Shoot, m: Member)
    requires SoundMember(st, w, m) && OwnMember(st, w, m) && m.run.None?
    ensures forall p, c, k :: SoundMember(st, w, StartReconcile(m, p, c, k))
    ensures forall p :: SoundMember(st, w, StartDeletion(m, p))
  {
    var s := UpdateExternal(m.spec, m.status.state.GetOr(InitialState(m.spec)));
    StartSound(st, w, m.spec, m.status.state);
    BeginOnCourse(m.spec, Creating, Tasks(s.nsxt3), s);
    BeginOnCourse(m.spec, Recovering, Tasks(s.nsxt3), s);
  }

  /** A run is over: what is recorded then is sound, written or not. */
  lemma EndInGoodOrder(st: Store, w: Shoot, m: Member, written: bool)
    requires SoundMember(st, w, m) && OwnMember(st, w, m) && m.run.Some? && (!written ==> Expendable(st, w, m))
    ensures !written ==> SoundMember(st, w, m.(run := None))
    ensures written && m.run.value.Finished? ==> SoundMember(st, w, Persist(m, true))
  {}

  lemma StepInGoodOrder(sys: System, e: Event, w: Shoot)
    requires InGoodOrder(sys, w) && CanHappen(sys, e) && (e.who == w ==> Orderly(sys, e))
    ensures InGoodOrder(Step(sys, e), w)
  {
    var st, m := sys.store, sys.members[w];
    StepIsolated(sys, e);
    StepStaysTagged(sys, e, w);
    StepCreatesWell(sys, e, w);
    if e.who != w {
      OthersDoNotMatter(st, Step(sys, e).store, e.who, w);
      SoundMemberForOthers(st, Step(sys, e).store, w, m);
    } else {
      match e {
        case Reconcile(_, _, _, _) => StartInGoodOrder(st, w, m);
        case Delete(_, _) => StartInGoodOrder(st, w, m);
        case Call(_, a) => CallInGoodOrder(sys, w, a);
        case Finish(_, written) => EndInGoodOrder(st, w, m, written);
        case Crash(_) => EndInGoodOrder(st, w, m, false);
      }
    }
  }

  /** All events of shoot w are orderly; what happens to the others is left open. */
  ghost predicate OrderlyFor(sys: System, es: seq<Event>, w: Shoot)
    requires Possible(sys, es)
    decreases |es|
  {
    es == []
    || (OrderlyFor(sys, es[..|es| - 1], w)
        && (es[|es| - 1].who == w ==> Orderly(Exec(sys, es[..|es| - 1]), es[|es| - 1])))
  }

  lemma {:induction false} RunsStayInGoodOrder(sys: System, es: seq<Event>, w: Shoot)
    requires InGoodOrder(sys, w) && Possible(sys, es) && OrderlyFor(sys, es, w)
    ensures InGoodOrder(Exec(sys, es), w) && SpecsOf(Exec(sys, es)) == SpecsOf(sys)
    decreases |es|
  {
    if es != [] {
      RunsStayInGoodOrder(sys, es[..|es| - 1], w);
      StepInGoodOrder(Exec(sys, es[..|es| - 1]), es[|es| - 1], w);
      StepIsolated(Exec(sys, es[..|es| - 1]), es[|es| - 1]);
    }
  }

  // ---- the main results ----

  /** No duplicates: the store never holds two objects of one kind that carry the tags of one shoot. */
  lemma OneObjectOfAKind(sys: System, es: seq<Event>, w: Shoot, k: Key, l: Key)
    requires InGoodOrder(sys, w) && Possible(sys, es) && OrderlyFor(sys, es, w)
    requires var st := Exec(sys, es).store;
             k in st.objects && l in st.objects && Owned(k.kind) && k.kind == l.kind
             && Tagged(st.objects[k], sys.members[w].spec, k.kind) && Tagged(st.objects[l], sys.members[w].spec, l.kind)
    ensures k == l
  {
    RunsStayInGoodOrder(sys, es, w);
    var now := Exec(sys, es);
    assert SpecsOf(now)[w] == sys.members[w].spec;
    assert Mine(now.store, w, k) && Mine(now.store, w, l);
  }

  /** Referential integrity: at every moment, what an object of a shoot refers to exists and is the shoot's too. */
  lemma NothingDangles(sys: System, es: seq<Event>, w: Shoot, key: Key, dep: Key)
    requires InGoodOrder(sys, w) && Possible(sys, es) && OrderlyFor(sys, es, w)
    requires var st := Exec(sys, es).store;
             Mine(st, w, key) && DependsOn(st, sys.members[w].spec, key, st.objects[key], dep)
    ensures Mine(Exec(sys, es).store, w, dep) && Rank(dep.kind) < Rank(key.kind)
  {
    RunsStayInGoodOrder(sys, es, w);
    assert SpecsOf(Exec(sys, es))[w] == sys.members[w].spec;
  }

  /** Looking up the logical switch in a recovery panics exactly when the shoot owns no segment. */
  lemma SwitchLookupPanics(st: Store, w: Shoot, spec: Spec, r: Run, a: Answer)
    requires InOrder(st, w, spec, r) && OwnRun(st, w, spec, r)
    requires r.Pending? && r.mode.Recovering? && r.phase.Looking? && r.todo[0].Switch? && a.fault.Works?
    ensures Resume(spec, r, Told(st, NextOp(spec, r, a.draw), a)).Panicked? <==> NoneOf(st, w, Segment)
  {
    SegmentKnown(st, w, spec, r);
    if Segment in r.s.refs { SwitchFound(st, spec, r, a); }
  }

  lemma SegmentKnown(st: Store, w: Shoot, spec: Spec, r: Run)
    requires InOrder(st, w, spec, r) && OwnRun(st, w, spec, r) && r.Pending? && r.mode.Recovering? && r.todo[0].Switch?
    ensures Segment in r.s.refs <==> !NoneOf(st, w, Segment)
    ensures Segment in r.s.refs ==> Key(Segment, ROOT, r.s.refs[Segment]) in st.objects
  {
    UpcomingTail(r.s.nsxt3, r.todo);
    assert Complete(st, w, r.s, Segment);
    if Segment in r.s.refs { assert !Gone(st, r.s, Segment) && Mine(st, w, KeyOf(Segment, r.s)); }
  }

  lemma SwitchFound(st: Store, spec: Spec, r: Run, a: Answer)
    requires r.Pending? && WellPhased(spec, r) && r.mode.Recovering? && r.phase.Looking? && r.todo[0].Switch? && a.fault.Works?
    requires Upcoming(r.s.nsxt3, r.todo) && Parented(r.s) && r.s.external == spec.externalTier1.Some?
    requires Segment in r.s.refs && Key(Segment, ROOT, r.s.refs[Segment]) in st.objects
    ensures !Resume(spec, r, Told(st, NextOp(spec, r, a.draw), a)).Panicked?
  {
    UpcomingTail(r.s.nsxt3, r.todo);
    BeginSafe(spec, Recovering, r.todo[1..], SetRef(r.s, Switch, r.s.refs[Segment]));
  }
}
