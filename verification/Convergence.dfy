/**
  What creation runs achieve, in any interleaving with the other shoots: they never dereference nil, refer to nothing
  that does not exist, and, if they succeed, leave every object as the spec wants it; from then on further runs change
  nothing. What is recorded, and the attributes and tags of the shoot's objects, may be anything at the start.
 */
module Convergence {
  import opened Basics
  import opened Tags
  import opened Protocol
  import opened World
  import opened Plan
  import opened Isolation
  import opened References
  import Authorization

  // ---- what the spec wants of one object ----

  /** An object after a write. */
  function Patched(t: Task, have: Obj, o: Obj): Obj {
    if Advanced(t) then o else Obj(have.attrs + o.attrs, o.tags)
  }

  /** The object has every attribute the task sends, and the shoot's tags. Allocations are taken as they are. */
  predicate Meets(t: Task, have: Obj, want: Obj) {
    t.Alloc? ||
    ((forall a :: a in want.attrs ==> SameAttr(a, have.attrs, want.attrs)) && ContainsTags(have.tags, want.tags))
  }

  /** Whatever a task sends, it also compares. */
  lemma SentIsCompared(t: Task, spec: Spec, s: State, name: Option<string>)
    requires Owned(t) && !t.Alloc? && Ready(t, s) && LayoutOk(t, spec)
    ensures forall a :: a in WantedAttrs(t, spec, s, name) ==> a in Compared(t)
  {}

  /** Should the task patch the object again, nothing changes. */
  predicate Steadfast(t: Task, have: Obj, want: Obj) {
    Drifted(t, have, want) ==> Patched(t, have, Obj(want.attrs, MergeTags(want.tags, have.tags))) == have
  }

  lemma EqualToSelf(a: seq<string>)
    ensures EqualStrings(a, a)
  {}

  lemma MetByPatching(t: Task, have: Obj, want: Obj)
    requires DistinctScopes(want.tags)
    ensures var o := Patched(t, have, Obj(want.attrs, MergeTags(want.tags, have.tags)));
            Meets(t, o, want) && Steadfast(t, o, want)
  {
    var o := Patched(t, have, Obj(want.attrs, MergeTags(want.tags, have.tags)));
    MergeContains(want.tags, have.tags);
    MergeIdempotent(want.tags, have.tags);
    forall a | a in want.attrs ensures SameAttr(a, o.attrs, want.attrs) {
      if want.attrs[a].Texts? { EqualToSelf(want.attrs[a].texts); }
    }
    assert (have.attrs + want.attrs) + want.attrs == have.attrs + want.attrs;
  }

  /** Creating over what is there, if anything, is as good. */
  lemma MetByMaking(t: Task, have: Obj, want: Obj)
    requires DistinctScopes(want.tags)
    ensures Meets(t, Patched(t, have, want), want) && Steadfast(t, Patched(t, have, want), want)
  {
    NothingForeignInSelf(want.tags, want.tags);
    assert MergeTags(want.tags, want.tags) == want.tags;
    MetByPatching(t, Obj(have.attrs, want.tags), want);
  }

  /** What is met is all the code compares, unless the object has a compared attribute that the task does not send. */
  lemma MeetsIsAgreeing(t: Task, have: Obj, want: Obj)
    requires Meets(t, have, want) && !t.Alloc? && forall a :: a in want.attrs ==> a in Compared(t)
    ensures Agrees(t, have, want) <==> forall a :: a in Compared(t) && a !in want.attrs ==> a !in have.attrs
  {
    if a :| a in Compared(t) && a !in want.attrs && a in have.attrs {
      assert !SameAttr(a, have.attrs, want.attrs);
    } else {
      forall a | a in Compared(t) ensures SameAttr(a, have.attrs, want.attrs) {}
    }
  }

  // ---- tasks that are done ----

  /** Attributes the task does not send are as they were; the policy API keeps them. */
  ghost predicate Untouched(was: map<Key, Obj>, key: Key, have: Obj, want: Obj) {
    Advanced(key.kind) || key.kind.Alloc?
    || forall a :: a !in want.attrs ==> (a in have.attrs <==> key in was && a in was[key].attrs)
  }

  ghost predicate GoodObject(st: Store, was: map<Key, Obj>, spec: Spec, s: State, t: Task)
    requires Owned(t)
  {
    && Reachable(t, s) && Ready(t, s) && LayoutOk(t, spec)
    && KeyOf(t, s) in st.objects
    && var have, want := st.objects[KeyOf(t, s)], Wanted(t, spec, s);
       Meets(t, have, want) && Steadfast(t, have, want) && Untouched(was, KeyOf(t, s), have, want)
  }

  ghost predicate GoodLookup(st: Store, spec: Spec, s: State, t: Task)
    requires !Owned(t)
  {
    && t in s.refs
    && if t.Address? then Alloc in s.refs && s.refs[t] == s.refs[Alloc] && IsAlloc(st, s.refs[t])
       else if t.Switch? then Segment in s.refs && s.refs[t] == s.refs[Segment] && Key(Segment, ROOT, s.refs[t]) in st.objects
       else (t, LookupName(spec, t)) in st.catalog && s.refs[t] == st.catalog[(t, LookupName(spec, t))]
  }

  /** The task has got what the spec wants. */
  ghost predicate Good(st: Store, was: map<Key, Obj>, spec: Spec, s: State, t: Task) {
    if !Owned(t) then GoodLookup(st, spec, s, t)
    else if IsExternal(t, s) then t.Tier1? ==> t in s.refs
    else GoodObject(st, was, spec, s, t)
  }

  /** The shoot's objects of the tasks to come are as they were. */
  ghost predicate TodoSame(st: Store, was: map<Key, Obj>, w: Shoot, todo: seq<Task>) {
    forall key: Key :: key.kind in todo && IssuedTo(st, IssuedId(key), w) ==>
      (key in st.objects <==> key in was) && (key in was ==> st.objects[key] == was[key])
  }

  /** What was there is still there, or had been issued to a shoot. */
  ghost predicate WasKnown(st: Store, was: map<Key, Obj>) {
    forall key :: key in was ==> key in st.objects || IssuedId(key) in st.issued
  }

  ghost predicate AllGood(st: Store, was: map<Key, Obj>, w: Shoot, spec: Spec, s: State, todo: seq<Task>) {
    && s.external == spec.externalTier1.Some?
    && Upcoming(s.nsxt3, todo)
    && (forall t :: InPlan(s.nsxt3, t) && t !in todo ==> Good(st, was, spec, s, t))
    && TodoSame(st, was, w, todo) && WasKnown(st, was)
  }

  /** Two states that agree on everything before task t. */
  predicate SameBefore(s: State, s': State, t: Task) {
    && s'.nsxt3 == s.nsxt3 && s'.external == s.external
    && (t.Segment? || s'.segmentName == s.segmentName)
    && forall u: Task :: Rank(u) < Rank(t) ==> (u in s'.refs <==> u in s.refs) && (u in s.refs ==> s'.refs[u] == s.refs[u])
  }

  /** A task's wishes depend on earlier tasks only. */
  lemma WishesKept(spec: Spec, s: State, s': State, u: Task, t: Task, name: Option<string>)
    requires SameBefore(s, s', t) && Rank(u) <= Rank(t) && !(u.Locale? && t.Locale?)
    requires Owned(u) && Ready(u, s) && LayoutOk(u, spec)
    ensures Ready(u, s') && WantedAttrs(u, spec, s', name) == WantedAttrs(u, spec, s, name)
  {
    if u.Segment? { assert (DhcpConfig in s'.refs <==> DhcpConfig in s.refs) && (DhcpConfig in s.refs ==> TopPath(DhcpConfig, s') == TopPath(DhcpConfig, s)); }
  }

  /** Nothing but objects of kind t has changed, and nothing is gone. */
  ghost predicate OnlyKind(st: Store, st': Store, t: Task) {
    && st'.catalog == st.catalog
    && (forall key :: key in st.objects ==> key in st'.objects)
    && (forall key :: key in st'.objects && key.kind != t ==> key in st.objects && st'.objects[key] == st.objects[key])
  }

  lemma WantedKept(spec: Spec, s: State, s': State, u: Task, t: Task)
    requires SameBefore(s, s', t) && Rank(u) < Rank(t)
    requires Owned(u) && Ready(u, s) && LayoutOk(u, spec)
    ensures Ready(u, s') && Wanted(u, spec, s') == Wanted(u, spec, s)
  {
    WishesKept(spec, s, s', u, t, s.segmentName);
    if !u.Segment? { NameOnlyOfSegment(spec, s', u, s.segmentName, s'.segmentName); }
  }

  lemma KeyKeptBefore(s: State, s': State, u: Task, t: Task)
    requires SameBefore(s, s', t) && Rank(u) < Rank(t) && Owned(u) && Reachable(u, s)
    ensures Reachable(u, s') && KeyOf(u, s') == KeyOf(u, s)
  {}

  lemma GoodObjectKept(st: Store, st': Store, was: map<Key, Obj>, spec: Spec, s: State, s': State, u: Task, t: Task)
    requires Owned(u) && GoodObject(st, was, spec, s, u) && Rank(u) < Rank(t) && SameBefore(s, s', t) && OnlyKind(st, st', t)
    ensures GoodObject(st', was, spec, s', u)
  {
    WantedKept(spec, s, s', u, t);
    KeyKeptBefore(s, s', u, t);
    assert st'.objects[KeyOf(u, s')] == st.objects[KeyOf(u, s)];
  }

  lemma GoodKept(st: Store, st': Store, was: map<Key, Obj>, spec: Spec, s: State, s': State, u: Task, t: Task)
    requires Good(st, was, spec, s, u) && Rank(u) < Rank(t) && SameBefore(s, s', t) && OnlyKind(st, st', t)
    ensures Good(st', was, spec, s', u)
  {
    if u.Address? {
      var p :| Key(Alloc, p, s.refs[u]) in st.objects;
      assert Key(Alloc, p, s.refs[u]) in st'.objects;
    } else if Owned(u) && !IsExternal(u, s) {
      GoodObjectKept(st, st', was, spec, s, s', u, t);
    }
  }

  lemma NameOnlyOfSegment(spec: Spec, s: State, u: Task, name: Option<string>, name': Option<string>)
    requires Owned(u) && !u.Segment? && Ready(u, s) && LayoutOk(u, spec)
    ensures WantedAttrs(u, spec, s, name) == WantedAttrs(u, spec, s, name')
  {}

  /** The state has moved on, the store has not. */
  lemma StateMoved(st: Store, was: map<Key, Obj>, w: Shoot, spec: Spec, todo: seq<Task>, s: State, s': State)
    requires todo != [] && AllGood(st, was, w, spec, s, todo) && SameBefore(s, s', todo[0])
    ensures AllGood(st, was, w, spec, s', todo)
    ensures Good(st, was, spec, s', todo[0]) ==> AllGood(st, was, w, spec, s', todo[1..])
  {
    UpcomingTail(s.nsxt3, todo);
    forall u | InPlan(s.nsxt3, u) && u !in todo ensures Good(st, was, spec, s', u) {
      GoodKept(st, st, was, spec, s, s', u, todo[0]);
    }
  }

  /** Ids that are issued now were not in use. */
  ghost predicate NewIdsUnused(st: Store, st': Store, was: map<Key, Obj>, w: Shoot) {
    forall key: Key :: IssuedTo(st', IssuedId(key), w) && !IssuedTo(st, IssuedId(key), w) ==> key !in st.objects && key !in was
  }

  /** The task is done, and its object written. */
  lemma TaskDone(st: Store, st': Store, was: map<Key, Obj>, w: Shoot, spec: Spec, todo: seq<Task>, s: State, s': State)
    requires todo != [] && AllGood(st, was, w, spec, s, todo) && SameBefore(s, s', todo[0]) && OnlyKind(st, st', todo[0])
    requires Good(st', was, spec, s', todo[0]) && NewIdsUnused(st, st', was, w)
    requires forall id :: id in st.issued ==> id in st'.issued
    ensures AllGood(st', was, w, spec, s', todo[1..])
  {
    UpcomingTail(s.nsxt3, todo);
    forall u | InPlan(s.nsxt3, u) && u !in todo ensures Good(st', was, spec, s', u) {
      GoodKept(st, st', was, spec, s, s', u, todo[0]);
    }
    forall key: Key | key.kind in todo[1..] && IssuedTo(st', IssuedId(key), w)
      ensures (key in st'.objects <==> key in was) && (key in was ==> st'.objects[key] == was[key])
    {
      assert key.kind != todo[0];
    }
  }

  // ---- silent steps ----

  lemma GoodIsSet(st: Store, was: map<Key, Obj>, spec: Spec, s: State, t: Task)
    requires Good(st, was, spec, s, t)
    ensures t in s.refs || (t.Locale? && s.external)
  {}

  /** What earlier tasks have recorded. */
  ghost predicate EarlierSet(s: State, t: Task) {
    forall u :: InPlan(s.nsxt3, u) && Rank(u) < Rank(t) ==> u in s.refs || (u.Locale? && s.external)
  }

  lemma EarlierIsSet(st: Store, was: map<Key, Obj>, w: Shoot, spec: Spec, todo: seq<Task>, s: State)
    requires todo != [] && AllGood(st, was, w, spec, s, todo)
    ensures EarlierSet(s, todo[0]) && InPlan(s.nsxt3, todo[0])
  {
    UpcomingTail(s.nsxt3, todo);
    forall u | InPlan(s.nsxt3, u) && Rank(u) < Rank(todo[0]) ensures u in s.refs || (u.Locale? && s.external) {
      GoodIsSet(st, was, spec, s, u);
    }
  }

  /** Everything that a task dereferences belongs to an earlier one. */
  lemma EarlierIsReady(s: State, t: Task)
    requires EarlierSet(s, t) && InPlan(s.nsxt3, t)
    ensures Owned(t) && !IsExternal(t, s) ==> Ready(t, s) && HasParent(t, s)
    ensures t.Address? ==> Alloc in s.refs
    ensures t.Switch? ==> Segment in s.refs
  {
    match t {
      case Tier1 => assert InPlan(s.nsxt3, Tier0);
      case Locale => assert InPlan(s.nsxt3, Tier1) && InPlan(s.nsxt3, EdgeCluster);
      case Rule => assert InPlan(s.nsxt3, Tier1) && InPlan(s.nsxt3, Address);
      case _ =>
    }
  }

  /** The run asks for a locale service that is gone; it will go on asking. */
  predicate LocaleLost(st: Store, todo: seq<Task>, phase: Phase, s: State) {
    && todo != [] && todo[0].Locale? && phase.Reading? && !s.external
    && EdgeCluster in s.refs && Locale in s.refs && KeyOf(Locale, s) !in st.objects
  }

  ghost predicate WritingFits(st: Store, spec: Spec, t: Task, phase: Phase, s: State) {
    phase.Writing? ==>
      && Owned(t) && !t.Alloc? && Ready(t, s) && LayoutOk(t, spec) && Reachable(t, s)
      && KeyOf(t, s) in st.objects && phase.want == Patch(t, spec, s, st.objects[KeyOf(t, s)])
  }

  ghost predicate WellUnderWay(st: Store, was: map<Key, Obj>, w: Shoot, spec: Spec, r: Run) {
    match r
    case Pending(mode, todo, phase, s) =>
      && mode.Creating? && todo != []
      && (LocaleLost(st, todo, phase, s) || (AllGood(st, was, w, spec, s, todo) && WritingFits(st, spec, todo[0], phase, s)))
    case Finished(mode, ok, s) => mode.Creating? && (ok ==> AllGood(st, was, w, spec, s, []))
    case Panicked(_) => false
  }

  /** What a creation needs to succeed: a network large enough for DHCP, and the locale service it has recorded. */
  predicate Clear(st: Store, spec: Spec, s: State) {
    spec.layout.Some? && (!s.external && Locale in s.refs ==> KeyOf(Locale, s) in st.objects)
  }

  ghost predicate Thriving(st: Store, spec: Spec, r: Run) {
    match r
    case Pending(_, _, _, s) => Clear(st, spec, s)
    case Finished(_, ok, _) => ok
    case Panicked(_) => false
  }

  /** Where a run gets to: well under way, and thriving if the way is clear. */
  ghost predicate Onward(st: Store, was: map<Key, Obj>, w: Shoot, spec: Spec, r: Run, clear: bool) {
    WellUnderWay(st, was, w, spec, r) && (clear ==> Thriving(st, spec, r))
  }

  lemma EnsureWell(st: Store, was: map<Key, Obj>, w: Shoot, spec: Spec, todo: seq<Task>, s: State)
    requires todo != [] && AllGood(st, was, w, spec, s, todo)
    ensures var e := EnsureEntry(spec, todo[0], s);
            && !e.Panic? && (e.Fail? ==> spec.layout.None?)
            && (e.Ask? ==> !e.phase.Writing?)
            && (e.Skip? ==> AllGood(st, was, w, spec, s, todo[1..]))
  {
    EarlierIsSet(st, was, w, spec, todo, s);
    EarlierIsReady(s, todo[0]);
    if EnsureEntry(spec, todo[0], s).Skip? { StateMoved(st, was, w, spec, todo, s, s); }
  }

  lemma {:induction false} BeginWell(st: Store, was: map<Key, Obj>, w: Shoot, spec: Spec, todo: seq<Task>, s: State)
    requires AllGood(st, was, w, spec, s, todo)
    ensures Onward(st, was, w, spec, Begin(spec, Creating, todo, s), Clear(st, spec, s))
    decreases |todo|
  {
    if todo != [] {
      BeginFollows(spec, Creating, todo, s);
      EnsureWell(st, was, w, spec, todo, s);
      if Enter(spec, Creating, todo[0], s).Skip? { BeginWell(st, was, w, spec, todo[1..], s); }
    }
  }

  lemma FollowWell(st: Store, was: map<Key, Obj>, w: Shoot, spec: Spec, todo: seq<Task>, s: State)
    requires todo != [] && AllGood(st, was, w, spec, s, todo)
    ensures Onward(st, was, w, spec, Follow(spec, Creating, todo, s, EnsureEntry(spec, todo[0], s)), Clear(st, spec, s))
  {
    EnsureWell(st, was, w, spec, todo, s);
    if EnsureEntry(spec, todo[0], s).Skip? { BeginWell(st, was, w, spec, todo[1..], s); }
  }

  // ---- one call, phase by phase ----

  /** The answer sets the reference. */
  predicate LookupWorks(spec: Spec, t: Task, resp: Resp) {
    if t.Tier1? then resp.Gateway? && Authorization.Authorized(spec.gardenID, spec.namespace, TagsToMap(resp.tags))
    else resp.Found?
  }

  lemma LookingWell(st: Store, was: map<Key, Obj>, w: Shoot, spec: Spec, todo: seq<Task>, s: State, resp: Resp)
    requires todo != [] && AllGood(st, was, w, spec, s, todo) && InPhase(todo[0], Looking, s)
    requires Owned(todo[0]) ==> todo[0].Tier1?
    requires !Owned(todo[0]) && resp.Found? ==> GoodLookup(st, spec, SetRef(s, todo[0], resp.id), todo[0])
    ensures Onward(st, was, w, spec, OnLooked(spec, Creating, todo, s, resp), Clear(st, spec, s) && LookupWorks(spec, todo[0], resp))
  {
    var t := todo[0];
    EarlierIsSet(st, was, w, spec, todo, s);
    EarlierIsReady(s, todo[0]);
    if LookupWorks(spec, t, resp) {
      var s' := SetRef(s, t, resp.id);
      StateMoved(st, was, w, spec, todo, s, s');
      BeginWell(st, was, w, spec, todo[1..], s');
    }
  }

  lemma ListingWell(st: Store, was: map<Key, Obj>, w: Shoot, spec: Spec, todo: seq<Task>, s: State, resp: Resp)
    requires todo != [] && AllGood(st, was, w, spec, s, todo) && Owned(todo[0]) && HasParent(todo[0], s)
    requires resp.Items? ==> todo[0].Locale? ==>
               forall i :: i in resp.items && Tagged(i.obj, spec, Locale) ==> Key(Locale, ParentId(Locale, s), DEFAULT) in st.objects
    ensures Onward(st, was, w, spec, OnListed(spec, Creating, todo, s, resp), Clear(st, spec, s))
  {
    var s' := TryRecover(spec, todo[0], s, resp);
    if resp.Items? { FirstTaggedListed(resp.items, TagsOf(spec, todo[0])); }
    StateMoved(st, was, w, spec, todo, s, s');
    FollowWell(st, was, w, spec, todo, s');
    assert Clear(st, spec, s) ==> Clear(st, spec, s');
  }

  lemma ReadingWell(st: Store, was: map<Key, Obj>, w: Shoot, spec: Spec, todo: seq<Task>, s: State, resp: Resp)
    requires todo != [] && AllGood(st, was, w, spec, s, todo) && !IsExternal(todo[0], s)
    requires Owned(todo[0]) && Ready(todo[0], s) && LayoutOk(todo[0], spec) && Reachable(todo[0], s)
    requires IssuedTo(st, IssuedId(KeyOf(todo[0], s)), w)
    requires resp.One? ==> KeyOf(todo[0], s) in st.objects && resp.obj == st.objects[KeyOf(todo[0], s)]
    requires resp.NotFound? ==> KeyOf(todo[0], s) !in st.objects
    ensures Onward(st, was, w, spec, OnRead(spec, Creating, todo, s, resp), Clear(st, spec, s) && (resp.One? || resp.NotFound?))
  {
    var t := todo[0];
    if resp.One? {
      if !Drifted(t, resp.obj, Wanted(t, spec, s)) {
        if !t.Alloc? { SentIsCompared(t, spec, s, s.segmentName); }
        StateMoved(st, was, w, spec, todo, s, s);
        BeginWell(st, was, w, spec, todo[1..], s);
      }
    } else if resp.NotFound? && !t.Locale? && !t.Alloc? {
      StateMoved(st, was, w, spec, todo, s, Forget(t, s));
      FollowWell(st, was, w, spec, todo, Forget(t, s));
    }
  }

  lemma WritingWell(st: Store, was: map<Key, Obj>, w: Shoot, spec: Spec, todo: seq<Task>, s: State, want: Obj, a: Answer)
    requires todo != [] && AllGood(st, was, w, spec, s, todo) && WritingFits(st, spec, todo[0], Writing(want), s)
    requires !IsExternal(todo[0], s) && IssuedTo(st, IssuedId(KeyOf(todo[0], s)), w)
    ensures var op := Write(KeyOf(todo[0], s), want);
            Onward(After(st, w, op, a), was, w, spec, OnWritten(spec, Creating, todo, s, Told(st, op, a)),
                   Clear(st, spec, s) && a.fault.Works?)
  {
    var t, key := todo[0], KeyOf(todo[0], s);
    var st' := After(st, w, Write(key, want), a);
    if a.fault.Works? {
      var have := st.objects[key];
      assert st'.objects == st.objects[key := Patched(t, have, want)];
      TagsOfDistinct(spec, t);
      MetByPatching(t, have, Wanted(t, spec, s));
      TaskDone(st, st', was, w, spec, todo, s, s);
      BeginWell(st', was, w, spec, todo[1..], s);
    }
  }

  lemma MakingWell(st: Store, was: map<Key, Obj>, w: Shoot, spec: Spec, todo: seq<Task>, s: State, draw: Draw, a: Answer)
    requires todo != [] && AllGood(st, was, w, spec, s, todo) && !IsExternal(todo[0], s)
    requires Owned(todo[0]) && Ready(todo[0], s) && LayoutOk(todo[0], spec) && HasParent(todo[0], s)
    requires var id := IssuedId(NewKey(todo[0], s, draw.id)); IsFresh(st, id) || (todo[0].Locale? && IssuedTo(st, id, w))
    ensures var op := Make(NewKey(todo[0], s, draw.id), Created(todo[0], spec, s, draw.suffix));
            Onward(After(st, w, op, a), was, w, spec, OnMade(spec, Creating, todo, s, Told(st, op, a)),
                   Clear(st, spec, s) && a.fault.Works?)
  {
    var t := todo[0];
    var key, o := NewKey(t, s, draw.id), Created(t, spec, s, draw.suffix);
    var st' := After(st, w, Make(key, o), a);
    if a.fault.Works? {
      var s' := WithMade(t, s, key.id, NameOf(o));
      MadeIsNew(st, was, w, todo, key, o, a);
      MadeIsGood(st, st', was, spec, t, s, draw);
      MadeIsWanted(t, spec, s, draw, NameOf(o));
      TaskDone(st, st', was, w, spec, todo, s, s');
      BeginWell(st', was, w, spec, todo[1..], s');
      MadeStaysClear(st, st', spec, t, s, draw, NameOf(o));
    }
  }

  lemma MadeStaysClear(st: Store, st': Store, spec: Spec, t: Task, s: State, draw: Draw, name: Option<string>)
    requires HasParent(t, s) && NewKey(t, s, draw.id) in st'.objects && forall key :: key in st.objects ==> key in st'.objects
    ensures Clear(st, spec, s) ==> Clear(st', spec, WithMade(t, s, NewKey(t, s, draw.id).id, name))
  {}

  /** What is created was not there before, unless it is the shoot's own locale service. */
  lemma MadeIsNew(st: Store, was: map<Key, Obj>, w: Shoot, todo: seq<Task>, key: Key, o: Obj, a: Answer)
    requires TodoSame(st, was, w, todo) && WasKnown(st, was) && key.kind in todo && !a.fault.Refused?
    requires IsFresh(st, IssuedId(key)) || (key.kind.Locale? && IssuedTo(st, IssuedId(key), w))
    ensures (key in st.objects <==> key in was) && (key in was ==> st.objects[key] == was[key])
    ensures NewIdsUnused(st, After(st, w, Make(key, o), a), was, w)
  {}

  /** A new object has just what was sent; one that was there keeps what was not. */
  lemma MadeIsGood(st: Store, st': Store, was: map<Key, Obj>, spec: Spec, t: Task, s: State, draw: Draw)
    requires Owned(t) && Ready(t, s) && LayoutOk(t, spec) && HasParent(t, s) && st'.catalog == st.catalog
    requires var key, o := NewKey(t, s, draw.id), Created(t, spec, s, draw.suffix);
             && st'.objects == st.objects[key := Overwrite(st.objects, key, o)]
             && (key in st.objects <==> key in was) && (key in was ==> st.objects[key] == was[key])
    ensures GoodObject(st', was, spec, WithMade(t, s, draw.id, NameOf(Created(t, spec, s, draw.suffix))), t)
    ensures OnlyKind(st, st', t)
  {
    var key, o := NewKey(t, s, draw.id), Created(t, spec, s, draw.suffix);
    MadeIsWanted(t, spec, s, draw, NameOf(o));
    var have := if key in st.objects then st.objects[key] else Obj(map[], []);
    assert st'.objects[key] == Patched(t, have, o);
    TagsOfDistinct(spec, t);
    MetByMaking(t, have, o);
  }

  /** What was created is what the task wants from then on. */
  lemma MadeIsWanted(t: Task, spec: Spec, s: State, draw: Draw, name: Option<string>)
    requires Owned(t) && Ready(t, s) && LayoutOk(t, spec) && HasParent(t, s)
    requires name == NameOf(Created(t, spec, s, draw.suffix))
    ensures var s' := WithMade(t, s, draw.id, name);
            && Ready(t, s') && Reachable(t, s') && SameBefore(s, s', t)
            && Wanted(t, spec, s') == Created(t, spec, s, draw.suffix)
            && KeyOf(t, s') == NewKey(t, s, draw.id)
  {
    var s' := WithMade(t, s, draw.id, name);
    var full := Some(FullName(spec) + "-" + draw.suffix);
    if !t.Locale? { WishesKept(spec, s, s', t, t, full); }
    if !t.Segment? { NameOnlyOfSegment(spec, s', t, s'.segmentName, full); }
  }

  /** A locale service that is gone is asked for again, or the run fails. */
  lemma LostStaysLost(st: Store, was: map<Key, Obj>, w: Shoot, spec: Spec, todo: seq<Task>, s: State, resp: Resp)
    requires LocaleLost(st, todo, Reading, s) && (resp.NotFound? || resp.Err?)
    ensures WellUnderWay(st, was, w, spec, OnRead(spec, Creating, todo, s, resp))
    ensures resp.NotFound? ==> OnRead(spec, Creating, todo, s, resp) == Pending(Creating, todo, Reading, ClearRef(s, Tier1))
  {}

  // ---- one call of a run ----

  /** The allocation and the segment that later lookups ask for are there. */
  lemma LookedUpIsThere(st: Store, was: map<Key, Obj>, w: Shoot, spec: Spec, todo: seq<Task>, s: State)
    requires todo != [] && AllGood(st, was, w, spec, s, todo)
    ensures todo[0].Address? ==> Alloc in s.refs && IsAlloc(st, s.refs[Alloc])
    ensures todo[0].Switch? ==> Segment in s.refs && Key(Segment, ROOT, s.refs[Segment]) in st.objects
  {
    UpcomingTail(s.nsxt3, todo);
    if todo[0].Address? {
      assert Good(st, was, spec, s, Alloc);
      assert Key(Alloc, s.refs[IpPool], s.refs[Alloc]) in st.objects;
    }
    if todo[0].Switch? { assert Good(st, was, spec, s, Segment); }
  }

  lemma LookupAnswer(st: Store, spec: Spec, r: Run, a: Answer)
    requires r.Pending? && r.phase.Looking? && WellPhased(spec, r)
    requires var t, s := r.todo[0], r.s;
             && (t.Address? ==> IsAlloc(st, s.refs[Alloc]))
             && (t.Switch? ==> Segment in s.refs && Key(Segment, ROOT, s.refs[Segment]) in st.objects)
    ensures var t, resp := r.todo[0], Told(st, NextOp(spec, r, a.draw), a);
            && (!Owned(t) && resp.Found? ==> GoodLookup(st, spec, SetRef(r.s, t, resp.id), t))
            && (a.fault.Works? && Provided(st, spec) ==> LookupWorks(spec, t, resp))
  {}

  lemma LocaleListed(st: Store, w: Shoot, specs: Specs, parent: Id, items: seq<Item>)
    requires w in specs && TruthfulTags(st, specs) && Lists(st, Locale, parent, items)
    ensures forall i :: i in items && Tagged(i.obj, specs[w], Locale) ==> Key(Locale, parent, DEFAULT) in st.objects
  {
    forall i | i in items && Tagged(i.obj, specs[w], Locale) ensures Key(Locale, parent, DEFAULT) in st.objects {
      assert Mine(st, w, Key(Locale, parent, i.id));
    }
  }

  // The steps in the terms of NextOp and Resume, for any fault; if the call works, the run thrives.

  lemma LookingCall(st: Store, was: map<Key, Obj>, w: Shoot, spec: Spec, r: Run, a: Answer)
    requires r.Pending? && r.phase.Looking? && OwnRun(st, w, spec, r) && WellUnderWay(st, was, w, spec, r)
    ensures Onward(st, was, w, spec, Resume(spec, r, Told(st, NextOp(spec, r, a.draw), a)),
                   Clear(st, spec, r.s) && a.fault.Works? && Provided(st, spec))
  {
    LookedUpIsThere(st, was, w, spec, r.todo, r.s);
    LookupAnswer(st, spec, r, a);
    LookingWell(st, was, w, spec, r.todo, r.s, Told(st, NextOp(spec, r, a.draw), a));
  }

  lemma ListingCall(st: Store, was: map<Key, Obj>, w: Shoot, specs: Specs, r: Run, a: Answer)
    requires w in specs && TruthfulTags(st, specs)
    requires r.Pending? && r.phase.Listing? && OwnRun(st, w, specs[w], r) && WellUnderWay(st, was, w, specs[w], r)
    requires Admissible(st, NextOp(specs[w], r, a.draw), a)
    ensures Onward(st, was, w, specs[w], Resume(specs[w], r, Told(st, NextOp(specs[w], r, a.draw), a)), Clear(st, specs[w], r.s))
  {
    if r.todo[0].Locale? { LocaleListed(st, w, specs, ParentId(Locale, r.s), a.listing); }
    ListingWell(st, was, w, specs[w], r.todo, r.s, Told(st, NextOp(specs[w], r, a.draw), a));
  }

  lemma ReadAnswer(st: Store, spec: Spec, r: Run, a: Answer)
    requires r.Pending? && WellPhased(spec, r) && r.phase.Reading?
    ensures var key, resp := KeyOf(r.todo[0], r.s), Told(st, NextOp(spec, r, a.draw), a);
            && (resp.One? || resp.NotFound? || (resp.Err? && !a.fault.Works?))
            && (resp.One? ==> key in st.objects && resp.obj == st.objects[key])
            && (resp.NotFound? ==> key !in st.objects)
  {}

  lemma ReadingCall(st: Store, was: map<Key, Obj>, w: Shoot, spec: Spec, r: Run, a: Answer)
    requires r.Pending? && r.phase.Reading? && OwnRun(st, w, spec, r) && WellUnderWay(st, was, w, spec, r)
    requires !LocaleLost(st, r.todo, r.phase, r.s)
    ensures Onward(st, was, w, spec, Resume(spec, r, Told(st, NextOp(spec, r, a.draw), a)), Clear(st, spec, r.s) && a.fault.Works?)
  {
    ReadAnswer(st, spec, r, a);
    ReadingWell(st, was, w, spec, r.todo, r.s, Told(st, NextOp(spec, r, a.draw), a));
  }

  lemma ChangingCall(st: Store, was: map<Key, Obj>, w: Shoot, spec: Spec, r: Run, a: Answer)
    requires r.Pending? && (r.phase.Writing? || r.phase.Making?)
    requires OwnRun(st, w, spec, r) && WellUnderWay(st, was, w, spec, r)
    requires Admissible(st, NextOp(spec, r, a.draw), a)
    ensures var op := NextOp(spec, r, a.draw);
            Onward(After(st, w, op, a), was, w, spec, Resume(spec, r, Told(st, op, a)), Clear(st, spec, r.s) && a.fault.Works?)
  {
    if r.phase.Writing? {
      WritingWell(st, was, w, spec, r.todo, r.s, r.phase.want, a);
    } else {
      MakingWell(st, was, w, spec, r.todo, r.s, a.draw, a);
    }
  }

  lemma CallWell(st: Store, was: map<Key, Obj>, w: Shoot, specs: Specs, r: Run, a: Answer)
    requires w in specs && TruthfulTags(st, specs) && OwnRun(st, w, specs[w], r)
    requires r.Pending? && WellUnderWay(st, was, w, specs[w], r) && !LocaleLost(st, r.todo, r.phase, r.s)
    requires Admissible(st, NextOp(specs[w], r, a.draw), a)
    ensures var op := NextOp(specs[w], r, a.draw);
            Onward(After(st, w, op, a), was, w, specs[w], Resume(specs[w], r, Told(st, op, a)),
                   Clear(st, specs[w], r.s) && a.fault.Works? && Provided(st, specs[w]))
  {
    match r.phase {
      case Looking => LookingCall(st, was, w, specs[w], r, a);
      case Listing => ListingCall(st, was, w, specs, r, a);
      case Reading => ReadingCall(st, was, w, specs[w], r, a);
      case Writing(_) => ChangingCall(st, was, w, specs[w], r, a);
      case Making => ChangingCall(st, was, w, specs[w], r, a);
    }
  }

  // ---- among other shoots ----

  /** The run of shoot w creates; at its start the objects were these. */
  ghost predicate Underway(sys: System, was: map<Key, Obj>, w: Shoot) {
    && Isolated(sys) && w in sys.members && sys.members[w].run.Some?
    && WellUnderWay(sys.store, was, w, sys.members[w].spec, sys.members[w].run.value)
  }

  /** Others cannot undo what is done. */
  lemma GoodForOthers(st: Store, st': Store, was: map<Key, Obj>, w: Shoot, spec: Spec, s: State, t: Task)
    requires SameForShoot(st, st', w) && OwnRefs(st, w, spec, s) && Good(st, was, spec, s, t)
    ensures Good(st', was, spec, s, t)
  {
    if t.Address? {
      var p :| Key(Alloc, p, s.refs[t]) in st.objects;
      assert Mine(st, w, Key(Alloc, p, s.refs[t]));
      assert Mine(st', w, Key(Alloc, p, s.refs[t]));
    } else if t.Switch? {
      assert Mine(st, w, Key(Segment, ROOT, s.refs[t]));
      assert Mine(st', w, Key(Segment, ROOT, s.refs[t]));
    } else if Owned(t) && !IsExternal(t, s) {
      assert Mine(st, w, KeyOf(t, s));
      assert Mine(st', w, KeyOf(t, s));
    }
  }

  lemma AllGoodForOthers(st: Store, st': Store, v: Shoot, was: map<Key, Obj>, w: Shoot, spec: Spec, s: State, todo: seq<Task>)
    requires Confined(st, st', v) && v != w && OwnRefs(st, w, spec, s) && AllGood(st, was, w, spec, s, todo)
    ensures AllGood(st', was, w, spec, s, todo)
  {
    OthersDoNotMatter(st, st', v, w);
    forall t | Good(st, was, spec, s, t) ensures Good(st', was, spec, s, t) { GoodForOthers(st, st', was, w, spec, s, t); }
    forall key: Key | key.kind in todo && IssuedTo(st', IssuedId(key), w)
      ensures (key in st'.objects <==> key in was) && (key in was ==> st'.objects[key] == was[key])
    {
      assert IssuedTo(st, IssuedId(key), w) && (Mine(st', w, key) <==> Mine(st, w, key));
    }
    forall key: Key | key in was ensures key in st'.objects || IssuedId(key) in st'.issued {
      assert key in st.objects || IssuedId(key) in st.issued;
    }
  }

  lemma WellForOthers(st: Store, st': Store, v: Shoot, was: map<Key, Obj>, w: Shoot, spec: Spec, r: Run)
    requires Confined(st, st', v) && v != w && OwnRun(st, w, spec, r) && WellUnderWay(st, was, w, spec, r)
    ensures WellUnderWay(st', was, w, spec, r)
    ensures Thriving(st, spec, r) ==> Thriving(st', spec, r)
  {
    OthersDoNotMatter(st, st', v, w);
    match r {
      case Pending(_, todo, phase, s) =>
        if LocaleLost(st, todo, phase, s) {
          assert !Mine(st', w, KeyOf(Locale, s));
        } else {
          AllGoodForOthers(st, st', v, was, w, spec, s, todo);
          if phase.Writing? { assert Mine(st, w, KeyOf(todo[0], s)) && Mine(st', w, KeyOf(todo[0], s)); }
        }
        if Clear(st, spec, s) && Locale in s.refs && !s.external { assert Mine(st, w, KeyOf(Locale, s)); }
      case Finished(_, ok, s) => if ok { AllGoodForOthers(st, st', v, was, w, spec, s, []); }
    }
  }

  lemma StepUnderway(sys: System, was: map<Key, Obj>, e: Event, w: Shoot)
    requires Underway(sys, was, w) && CanHappen(sys, e) && (e.who == w ==> e.Call?)
    ensures Underway(Step(sys, e), was, w)
    ensures var m := sys.members[w];
            Thriving(sys.store, m.spec, m.run.value) && Provided(sys.store, m.spec) && (e.who == w ==> e.answer.fault.Works?) ==>
              Thriving(Step(sys, e).store, m.spec, Step(sys, e).members[w].run.value)
  {
    StepIsolated(sys, e);
    var m := sys.members[w];
    if e.who != w {
      WellForOthers(sys.store, Step(sys, e).store, e.who, was, w, m.spec, m.run.value);
    } else if LocaleLost(sys.store, m.run.value.todo, m.run.value.phase, m.run.value.s) {
      ReadAnswer(sys.store, m.spec, m.run.value, e.answer);
      LostStaysLost(sys.store, was, w, m.spec, m.run.value.todo, m.run.value.s, Told(sys.store, PendingOp(m, e.answer), e.answer));
    } else {
      CallWell(sys.store, was, w, SpecsOf(sys), m.run.value, e.answer);
    }
  }

  lemma {:induction false} RunsUnderway(sys: System, was: map<Key, Obj>, es: seq<Event>, w: Shoot)
    requires Underway(sys, was, w) && Possible(sys, es) && OnlyCalls(es, w)
    ensures Underway(Exec(sys, es), was, w)
    decreases |es|
  {
    if es != [] {
      RunsUnderway(sys, was, es[..|es| - 1], w);
      StepUnderway(Exec(sys, es[..|es| - 1]), was, es[|es| - 1], w);
    }
  }

  /** The run of shoot w is on its way to success. */
  ghost predicate OnTrack(sys: System, was: map<Key, Obj>, w: Shoot) {
    && Underway(sys, was, w) && Provided(sys.store, sys.members[w].spec)
    && Thriving(sys.store, sys.members[w].spec, sys.members[w].run.value)
  }

  lemma StepOnTrack(sys: System, was: map<Key, Obj>, e: Event, w: Shoot)
    requires OnTrack(sys, was, w) && CanHappen(sys, e) && (e.who == w ==> e.Call? && e.answer.fault.Works?)
    ensures OnTrack(Step(sys, e), was, w)
  {
    StepUnderway(sys, was, e, w);
    StepIsolated(sys, e);
  }

  lemma {:induction false} RunsOnTrack(sys: System, was: map<Key, Obj>, es: seq<Event>, w: Shoot)
    requires OnTrack(sys, was, w) && Possible(sys, es) && Undisturbed(es, w)
    ensures OnTrack(Exec(sys, es), was, w)
    decreases |es|
  {
    if es != [] {
      var n := |es| - 1;
      RunsOnTrack(sys, was, es[..n], w);
      StepOnTrack(Exec(sys, es[..n]), was, es[n], w);
    }
  }

  /** A creation run of shoot w starts here. */
  ghost predicate Starts(sys: System, start: Event, w: Shoot) {
    Isolated(sys) && CanHappen(sys, start) && start.Reconcile? && start.who == w && Step(sys, start).members[w].run.Some?
  }

  /** The state it starts from. */
  function StartState(m: Member): State {
    UpdateExternal(m.spec, m.status.state.GetOr(InitialState(m.spec)))
  }

  lemma StartUnderway(sys: System, start: Event, w: Shoot)
    requires Starts(sys, start, w)
    ensures Underway(Step(sys, start), sys.store.objects, w) && Step(sys, start).store == sys.store
    ensures SpecsOf(Step(sys, start)) == SpecsOf(sys)
    ensures var m := sys.members[w];
            Clear(sys.store, m.spec, StartState(m)) ==> Thriving(sys.store, m.spec, Step(sys, start).members[w].run.value)
  {
    var m, s := sys.members[w], StartState(sys.members[w]);
    StepIsolated(sys, start);
    TasksAreOrdered(s.nsxt3);
    assert AllGood(sys.store, sys.store.objects, w, m.spec, s, Tasks(s.nsxt3));
    BeginWell(sys.store, sys.store.objects, w, m.spec, Tasks(s.nsxt3), s);
  }

  /** Definedness: from whatever state, a creation run never dereferences nil, in both versions, under all faults and in
      any interleaving. */
  lemma CreationNeverPanics(sys: System, start: Event, es: seq<Event>, w: Shoot)
    requires Starts(sys, start, w) && Possible(Step(sys, start), es) && OnlyCalls(es, w)
    ensures var now := Exec(Step(sys, start), es);
            w in now.members && now.members[w].run.Some? && !now.members[w].run.value.Panicked?
  {
    StartUnderway(sys, start, w);
    RunsUnderway(Step(sys, start), sys.store.objects, es, w);
  }

  /** The run of shoot w has succeeded, with this state. */
  predicate Succeeded(sys: System, w: Shoot, s: State) {
    w in sys.members && sys.members[w].run == Some(Finished(Creating, true, s))
  }

  /** Convergence: if a creation run succeeds, every task's object is there, is the shoot's own, and has each attribute
      that the task sends as the spec wants it, and the shoot's tags. */
  lemma Convergence(sys: System, start: Event, es: seq<Event>, w: Shoot, s: State, t: Task)
    requires Starts(sys, start, w) && Possible(Step(sys, start), es) && OnlyCalls(es, w)
    requires Succeeded(Exec(Step(sys, start), es), w, s)
    requires InPlan(s.nsxt3, t) && Owned(t) && !IsExternal(t, s)
    ensures var now, spec := Exec(Step(sys, start), es), sys.members[w].spec;
            && Reachable(t, s) && Ready(t, s) && LayoutOk(t, spec) && Mine(now.store, w, KeyOf(t, s))
            && Meets(t, now.store.objects[KeyOf(t, s)], Wanted(t, spec, s))
            && Untouched(sys.store.objects, KeyOf(t, s), now.store.objects[KeyOf(t, s)], Wanted(t, spec, s))
  {
    StartUnderway(sys, start, w);
    RunsUnderway(Step(sys, start), sys.store.objects, es, w);
    RunsStayIsolated(Step(sys, start), es);
    var now := Exec(Step(sys, start), es);
    assert SpecsOf(now)[w] == sys.members[w].spec;
    assert Good(now.store, sys.store.objects, sys.members[w].spec, s, t);
  }

  // ---- as the code compares ----

  /** Before the run, the object had no compared attribute that its task does not send. */
  predicate NoStray(was: map<Key, Obj>, key: Key, want: Obj) {
    Advanced(key.kind) || key !in was
    || forall a :: a in Compared(key.kind) && a !in want.attrs ==> a !in was[key].attrs
  }

  /** What a task compares but does not send: nothing, except the destination of a rule, the DHCP configuration of a
      segment of version 1, and the name of a segment whose name is not recorded. */
  lemma ComparedButNotSent(t: Task, spec: Spec, s: State, a: Attr)
    requires Owned(t) && !t.Alloc? && Ready(t, s) && LayoutOk(t, spec) && a in Compared(t)
    ensures a !in Wanted(t, spec, s).attrs <==>
              || (t.Rule? && a.DestinationNetwork?)
              || (t.Segment? && a.DhcpConfigPath? && DhcpConfig !in s.refs)
              || (t.Segment? && a.DisplayName? && s.segmentName.None?)
  {
    match t {
      case Rule =>
      case Segment => SegmentSent(spec, s, a);
      case _ => AllSent(t, spec, s, a);
    }
  }

  lemma SegmentSent(spec: Spec, s: State, a: Attr)
    requires Ready(Segment, s) && LayoutOk(Segment, spec) && a in Compared(Segment)
    ensures a in Wanted(Segment, spec, s).attrs <==>
              (a.DhcpConfigPath? ==> DhcpConfig in s.refs) && (a.DisplayName? ==> s.segmentName.Some?)
  {}

  lemma AllSent(t: Task, spec: Spec, s: State, a: Attr)
    requires Owned(t) && !t.Alloc? && !t.Rule? && !t.Segment? && Ready(t, s) && LayoutOk(t, spec) && a in Compared(t)
    ensures a in Wanted(t, spec, s).attrs
  {}

  /** After a run that succeeds, an object agrees with the spec as the code compares them if and only if it had no such
      attribute before the run, or was not there. */
  lemma AgreesIff(sys: System, start: Event, es: seq<Event>, w: Shoot, s: State, t: Task)
    requires Starts(sys, start, w) && Possible(Step(sys, start), es) && OnlyCalls(es, w)
    requires Succeeded(Exec(Step(sys, start), es), w, s)
    requires InPlan(s.nsxt3, t) && Owned(t) && !IsExternal(t, s) && !t.Alloc?
    ensures var now, spec := Exec(Step(sys, start), es), sys.members[w].spec;
            && Reachable(t, s) && Ready(t, s) && LayoutOk(t, spec) && KeyOf(t, s) in now.store.objects
            && var key, want := KeyOf(t, s), Wanted(t, spec, s);
               Agrees(t, now.store.objects[key], want) <==> NoStray(sys.store.objects, key, want)
  {
    Convergence(sys, start, es, w, s, t);
    var spec, key := sys.members[w].spec, KeyOf(t, s);
    SentIsCompared(t, spec, s, s.segmentName);
    MeetsIsAgreeing(t, Exec(Step(sys, start), es).store.objects[key], Wanted(t, spec, s));
    forall a | a in Compared(t) ensures Advanced(t) ==> a in Wanted(t, spec, s).attrs { ComparedButNotSent(t, spec, s, a); }
  }

  /** Kind by kind: everything agrees outright, but for rules that had a destination, segments of version 1 that had a
      DHCP configuration, and segments without a recorded name that had one. */
  lemma Agreement(sys: System, start: Event, es: seq<Event>, w: Shoot, s: State, t: Task)
    requires Starts(sys, start, w) && Possible(Step(sys, start), es) && OnlyCalls(es, w)
    requires Succeeded(Exec(Step(sys, start), es), w, s)
    requires InPlan(s.nsxt3, t) && Owned(t) && !IsExternal(t, s) && !t.Alloc?
    ensures var now, spec, was := Exec(Step(sys, start), es), sys.members[w].spec, sys.store.objects;
            && Reachable(t, s) && Ready(t, s) && LayoutOk(t, spec) && KeyOf(t, s) in now.store.objects
            && var key := KeyOf(t, s);
               var agrees := Agrees(t, now.store.objects[key], Wanted(t, spec, s));
               match t
               case Rule => agrees <==> !(key in was && DestinationNetwork in was[key].attrs)
               case Segment =>
                 agrees <==> !(key in was
                               && ((!s.nsxt3 && DhcpConfigPath in was[key].attrs)
                                   || (s.segmentName.None? && DisplayName in was[key].attrs)))
               case _ => agrees
  {
    AgreesIff(sys, start, es, w, s, t);
    forall a | a in Compared(t)
      ensures a !in Wanted(t, sys.members[w].spec, s).attrs <==>
                || (t.Rule? && a.DestinationNetwork?)
                || (t.Segment? && a.DhcpConfigPath? && DhcpConfig !in s.refs)
                || (t.Segment? && a.DisplayName? && s.segmentName.None?)
    {
      ComparedButNotSent(t, sys.members[w].spec, s, a);
    }
    if t.Segment? { SegmentVersion(sys, start, es, w, s); }
  }

  /** The segment's own version test agrees with the task list. */
  lemma SegmentVersion(sys: System, start: Event, es: seq<Event>, w: Shoot, s: State)
    requires Starts(sys, start, w) && Possible(Step(sys, start), es) && OnlyCalls(es, w)
    requires Succeeded(Exec(Step(sys, start), es), w, s)
    ensures DhcpConfig in s.refs <==> s.nsxt3
  {
    StartUnderway(sys, start, w);
    RunsUnderway(Step(sys, start), sys.store.objects, es, w);
    var now := Exec(Step(sys, start), es);
    assert OwnRefs(now.store, w, now.members[w].spec, s);
    if s.nsxt3 { assert Good(now.store, sys.store.objects, now.members[w].spec, s, DhcpConfig); }
  }

  // ---- a rule with a destination ----

  ghost predicate HasDestination(st: Store, w: Shoot, key: Key, v: Value) {
    && key.kind.Rule? && IssuedTo(st, IssuedId(key), w)
    && (key in st.objects ==> DestinationNetwork in st.objects[key].attrs && st.objects[key].attrs[DestinationNetwork] == v)
  }

  lemma CallKeepsDestination(st: Store, w: Shoot, spec: Spec, r: Run, a: Answer, key: Key, v: Value)
    requires HasDestination(st, w, key, v) && key in st.objects
    requires r.Pending? && OwnRun(st, w, spec, r) && Admissible(st, NextOp(spec, r, a.draw), a)
    ensures HasDestination(After(st, w, NextOp(spec, r, a.draw), a), w, key, v)
  {
    var op := NextOp(spec, r, a.draw);
    assert op.Make? ==> op.key != key;
    assert op.Write? ==> DestinationNetwork !in op.obj.attrs;
  }

  /** The destination network of a rule survives every run of every shoot, for as long as the rule exists: rules are
      patched without one, compared against none, and never agree. */
  lemma {:induction false} DestinationSurvives(sys: System, es: seq<Event>, w: Shoot, key: Key, v: Value, n: nat)
    requires Isolated(sys) && Possible(sys, es) && HasDestination(sys.store, w, key, v) && key in sys.store.objects
    requires n <= |es| && Possible(sys, es[..n])
    requires forall k: nat :: k <= n ==> Possible(sys, es[..k]) && key in Exec(sys, es[..k]).store.objects
    ensures HasDestination(Exec(sys, es[..n]).store, w, key, v)
    decreases n
  {
    if n == 0 {
      assert es[..0] == [];
    } else {
      DestinationSurvives(sys, es, w, key, v, n - 1);
      assert es[..n][..n - 1] == es[..n - 1];
      var before, e := Exec(sys, es[..n - 1]), es[n - 1];
      RunsStayIsolated(sys, es[..n - 1]);
      StepIsolated(before, e);
      if e.who != w {
        OthersDoNotMatter(before.store, Step(before, e).store, e.who, w);
        assert Mine(before.store, w, key) && Mine(Step(before, e).store, w, key);
      } else if e.Call? {
        CallKeepsDestination(before.store, w, before.members[w].spec, before.members[w].run.value, e.answer, key, v);
      }
    }
  }
}
