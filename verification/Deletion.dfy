/**
  Deletion runs from any recorded state: exactly when they can dereference nil, whatever the API answers, and exactly
  when one whose calls work succeeds.
 */
module Deletion {
  import opened Basics
  import opened Protocol
  import opened World
  import opened Plan
  import opened Isolation

  // ---- nil dereferences, under any answers ----

  /** A run after a series of answers. */
  ghost function Feed(spec: Spec, r: Run, told: seq<Resp>): Run
    decreases |told|
  {
    if told == [] || !r.Pending? || !WellPhased(spec, r) then r else Feed(spec, Resume(spec, r, told[0]), told[1..])
  }

  /** Every recorded reference comes with the one it is read through. */
  predicate Parented(s: State) {
    forall t :: t in s.refs && InPlan(s.nsxt3, t) && Owned(t) && !IsExternal(t, s) ==> Reachable(t, s)
  }

  /** What a recorded state must have: parents; a gateway if it is external but the spec names none; and, in version 1,
      the segment, or the logical switch that is looked up by it. */
  predicate Defined(spec: Spec, s: State) {
    && Parented(s)
    && (s.external ==> spec.externalTier1.Some? || Tier1 in s.refs)
    && (s.nsxt3 || Switch in s.refs || Segment in s.refs)
  }

  /** What is recorded is still to be deleted. */
  predicate Ahead(s: State, todo: seq<Task>) {
    forall t :: t in s.refs && InPlan(s.nsxt3, t) && Owned(t) && !IsExternal(t, s) ==> t in todo
  }

  ghost predicate SafeRun(spec: Spec, r: Run) {
    match r
    case Pending(mode, todo, phase, s) =>
      && WellPhased(spec, r) && InMode(mode, phase) && OnPlan(s.nsxt3, mode, todo) && !mode.Creating?
      && (mode.Recovering? ==> Defined(spec, s) && todo[0] !in s.refs)
      && (mode.Deleting? ==> Parented(s) && Ahead(s, todo))
    case Finished(mode, _, _) => mode.Deleting?
    case Panicked(_) => false
  }

  lemma EnterSafe(spec: Spec, mode: Mode, todo: seq<Task>, s: State)
    requires todo != [] && OnPlan(s.nsxt3, mode, todo) && !mode.Creating?
    requires mode.Recovering? ==> Defined(spec, s)
    requires mode.Deleting? ==> Parented(s) && Ahead(s, todo)
    ensures var t, e := todo[0], Enter(spec, mode, todo[0], s);
            && !e.Panic? && !e.Fail?
            && (e.Ask? ==> InMode(mode, e.phase) && !e.phase.Checking? && (mode.Recovering? ==> t !in s.refs))
            && (e.Skip? && mode.Deleting? ==> Ahead(s, todo[1..]))
  {
    assert todo == [todo[0]] + todo[1..];
    PlanTail(s.nsxt3, mode, todo);
  }

  lemma {:induction false} BeginSafe(spec: Spec, mode: Mode, todo: seq<Task>, s: State)
    requires OnPlan(s.nsxt3, mode, todo) && !mode.Creating?
    requires mode.Recovering? ==> Defined(spec, s)
    requires mode.Deleting? ==> Parented(s) && Ahead(s, todo)
    ensures var r := Begin(spec, mode, todo, s);
            SafeRun(spec, r) && r.s == s && (r.Finished? ==> r.ok) && (r.Pending? ==> !r.phase.Checking?)
    decreases mode.Recovering?, |todo|
  {
    if todo == [] {
      if mode.Recovering? {
        ReverseDescends(s.nsxt3);
        BeginSafe(spec, Deleting, Reverse(Tasks(s.nsxt3)), s);
      }
    } else {
      BeginFollows(spec, mode, todo, s);
      PlanTail(s.nsxt3, mode, todo);
      EnterSafe(spec, mode, todo, s);
      if Enter(spec, mode, todo[0], s).Skip? {
        BeginSafe(spec, mode, todo[1..], s);
      } else {
        BeginPhased(spec, mode, todo, s);
      }
    }
  }

  lemma RecoveringSafe(spec: Spec, r: Run, resp: Resp)
    requires r.Pending? && SafeRun(spec, r) && r.mode.Recovering?
    ensures SafeRun(spec, Resume(spec, r, resp))
  {
    var t, s, rest := r.todo[0], r.s, r.todo[1..];
    PlanTail(s.nsxt3, r.mode, r.todo);
    BeginSafe(spec, Recovering, rest, s);
    if r.phase.Listing? {
      BeginSafe(spec, Recovering, rest, TryRecover(spec, t, s, resp));
    } else if resp.Found? || resp.Gateway? {
      BeginSafe(spec, Recovering, rest, SetRef(s, t, resp.id));
    }
  }

  /** Deletion goes backwards: what is cleared is nobody's parent any more. */
  lemma ClearedParented(s: State, todo: seq<Task>)
    requires todo != [] && Descending(s.nsxt3, todo) && Parented(s) && Ahead(s, todo)
    ensures Parented(ClearRef(s, todo[0])) && Ahead(ClearRef(s, todo[0]), todo[1..])
  {
    DescendingTail(s.nsxt3, todo);
  }

  lemma ResumeSafe(spec: Spec, r: Run, resp: Resp)
    requires r.Pending? && SafeRun(spec, r)
    ensures SafeRun(spec, Resume(spec, r, resp))
  {
    if r.mode.Recovering? {
      RecoveringSafe(spec, r, resp);
    } else {
      PlanTail(r.s.nsxt3, r.mode, r.todo);
      ClearedParented(r.s, r.todo);
      BeginSafe(spec, Deleting, r.todo[1..], ClearRef(r.s, r.todo[0]));
    }
  }

  lemma {:induction false} FeedSafe(spec: Spec, r: Run, told: seq<Resp>)
    requires SafeRun(spec, r)
    ensures SafeRun(spec, Feed(spec, r, told))
    decreases |told|
  {
    if told != [] && r.Pending? {
      ResumeSafe(spec, r, told[0]);
      FeedSafe(spec, Resume(spec, r, told[0]), told[1..]);
    }
  }

  /** Answers that recover nothing; they lead into a nil dereference, if recovery has one, or else to the deletions. */
  lemma {:induction false} RecoverNothing(spec: Spec, todo: seq<Task>, s: State) returns (told: seq<Resp>)
    ensures var r := Feed(spec, Begin(spec, Recovering, todo, s), told);
            && (r.Panicked? || r == Begin(spec, Deleting, Reverse(Tasks(s.nsxt3)), s))
            && (Tier1 in todo && s.external && spec.externalTier1.None? && Tier1 !in s.refs ==> r.Panicked?)
            && (Switch in todo && Switch !in s.refs && Segment !in s.refs ==> r.Panicked?)
    decreases |todo|
  {
    told := [];
    if todo != [] {
      var t, e := todo[0], Enter(spec, Recovering, todo[0], s);
      assert todo == [t] + todo[1..];
      BeginFollows(spec, Recovering, todo, s);
      if e.Skip? {
        told := RecoverNothing(spec, todo[1..], s);
      } else if e.Ask? {
        BeginPhased(spec, Recovering, todo, s);
        var resp := if t.Switch? && Segment !in s.refs then NotFound else Err;
        var rest := RecoverNothing(spec, todo[1..], s);
        told := [resp] + rest;
        assert told[1..] == rest;
        assert Resume(spec, Pending(Recovering, todo, e.phase, s), resp)
               == if t.Switch? && Segment !in s.refs then Panicked(Recovering) else Begin(spec, Recovering, todo[1..], s);
      }
    }
  }

  /** Answers that lead to the deletion of an object that cannot be reached. */
  lemma {:induction false} DeleteUpTo(spec: Spec, todo: seq<Task>, s: State, t: Task) returns (told: seq<Resp>)
    requires t in todo && t in s.refs && Owned(t) && !IsExternal(t, s) && !Reachable(t, s)
    ensures Feed(spec, Begin(spec, Deleting, todo, s), told).Panicked?
    decreases |todo|
  {
    var u, e := todo[0], Enter(spec, Deleting, todo[0], s);
    assert todo == [u] + todo[1..];
    BeginFollows(spec, Deleting, todo, s);
    told := [];
    if e.Skip? {
      told := DeleteUpTo(spec, todo[1..], s, t);
    } else if e.Ask? {
      BeginPhased(spec, Deleting, todo, s);
      var rest := DeleteUpTo(spec, todo[1..], ClearRef(s, u), t);
      told := [Done] + rest;
      assert told[1..] == rest;
      assert Resume(spec, Pending(Deleting, todo, Erasing, s), Done) == Begin(spec, Deleting, todo[1..], ClearRef(s, u));
    }
  }

  lemma {:induction false} FeedAppend(spec: Spec, r: Run, a: seq<Resp>, b: seq<Resp>)
    ensures Feed(spec, r, a + b) == Feed(spec, Feed(spec, r, a), b)
    decreases |a|
  {
    if a == [] {
      assert a + b == b;
    } else if r.Pending? && WellPhased(spec, r) {
      FeedAppend(spec, Resume(spec, r, a[0]), a[1..], b);
      assert (a + b)[1..] == a[1..] + b;
    }
  }

  lemma UndefinedPanics(spec: Spec, s: State) returns (told: seq<Resp>)
    requires !Defined(spec, s)
    ensures Feed(spec, Begin(spec, Recovering, Tasks(s.nsxt3), s), told).Panicked?
  {
    var start := Begin(spec, Recovering, Tasks(s.nsxt3), s);
    TasksAreOrdered(s.nsxt3);
    told := RecoverNothing(spec, Tasks(s.nsxt3), s);
    if !Feed(spec, start, told).Panicked? {
      var t :| t in s.refs && InPlan(s.nsxt3, t) && Owned(t) && !IsExternal(t, s) && !Reachable(t, s);
      ReverseDescends(s.nsxt3);
      var more := DeleteUpTo(spec, Reverse(Tasks(s.nsxt3)), s, t);
      FeedAppend(spec, start, told, more);
      told := told + more;
    }
  }

  /** Exactly: some answers make a deletion run dereference nil if and only if the recorded state, taken as external
      where the spec names a gateway, lacks one of these. */
  lemma DeletionPanicsIff(spec: Spec, s: State)
    ensures (exists told :: Feed(spec, StartDelete(spec, s), told).Panicked?) <==> !Defined(spec, UpdateExternal(spec, s))
  {
    var s' := UpdateExternal(spec, s);
    if Defined(spec, s') {
      TasksAreOrdered(s'.nsxt3);
      BeginSafe(spec, Recovering, Tasks(s'.nsxt3), s');
      forall told ensures !Feed(spec, StartDelete(spec, s), told).Panicked? { FeedSafe(spec, StartDelete(spec, s), told); }
    } else {
      var told := UndefinedPanics(spec, s');
      assert Feed(spec, StartDelete(spec, s), told).Panicked?;
    }
  }

  // ---- success, when the calls work ----

  /** The tasks whose deletion does not tolerate that the object is gone. */
  predicate Strict(t: Task) {
    t.Tier1? || t.DhcpConfig? || t.Segment? || t.Alloc? || t.Rule?
  }

  predicate Recorded(s: State, t: Task) {
    t in s.refs && InPlan(s.nsxt3, t) && !IsExternal(t, s) && Reachable(t, s)
  }

  /** Every recorded object of a strict task is there. */
  ghost predicate AllThere(st: Store, s: State) {
    forall t :: Strict(t) && Recorded(s, t) ==> KeyOf(t, s) in st.objects
  }

  /** The run has not failed, and nothing makes it fail. */
  ghost predicate Smooth(st: Store, spec: Spec, r: Run) {
    && SafeRun(spec, r)
    && (r.Finished? ==> r.ok)
    && (r.Pending? ==> AllThere(st, r.s))
    && (r.Pending? && r.phase.Checking? ==> KeyOf(r.todo[0], r.s) !in st.objects)
  }

  lemma BeginSmooth(st: Store, spec: Spec, mode: Mode, todo: seq<Task>, s: State)
    requires OnPlan(s.nsxt3, mode, todo) && !mode.Creating? && AllThere(st, s)
    requires mode.Recovering? ==> Defined(spec, s)
    requires mode.Deleting? ==> Parented(s) && Ahead(s, todo)
    ensures Smooth(st, spec, Begin(spec, mode, todo, s))
  {
    BeginSafe(spec, mode, todo, s);
  }

  /** A reference that was not recorded before moves no other. */
  lemma NewRefThere(st: Store, s: State, s': State, t: Task)
    requires Parented(s) && AllThere(st, s) && t !in s.refs
    requires s'.refs.Keys == s.refs.Keys + {t} && (forall u :: u in s.refs ==> s'.refs[u] == s.refs[u])
    requires s'.nsxt3 == s.nsxt3 && s'.external == s.external
    requires Strict(t) && Recorded(s', t) ==> KeyOf(t, s') in st.objects
    ensures AllThere(st, s')
  {
    forall u | Strict(u) && Recorded(s', u) ensures KeyOf(u, s') in st.objects {
      if u != t { assert Recorded(s, u) && KeyOf(u, s') == KeyOf(u, s); }
    }
  }

  /** What recovery finds is there. */
  lemma ListedThere(st: Store, spec: Spec, t: Task, s: State, resp: Resp)
    requires Parented(s) && AllThere(st, s) && Owned(t) && HasParent(t, s) && t !in s.refs
    requires resp.Items? ==> Lists(st, t, ParentId(t, s), resp.items)
    ensures AllThere(st, TryRecover(spec, t, s, resp))
  {
    var s' := TryRecover(spec, t, s, resp);
    if resp.Items? { FirstTaggedListed(resp.items, TagsOf(spec, t)); }
    if s' != s { NewRefThere(st, s, s', t); }
  }

  lemma ListedDefined(spec: Spec, t: Task, s: State, resp: Resp)
    requires Defined(spec, s) && Owned(t) && HasParent(t, s) && t !in s.refs
    ensures Defined(spec, TryRecover(spec, t, s, resp))
  {}

  lemma ListedSmooth(st: Store, spec: Spec, todo: seq<Task>, s: State, resp: Resp)
    requires todo != [] && Upcoming(s.nsxt3, todo) && Defined(spec, s) && AllThere(st, s)
    requires Owned(todo[0]) && HasParent(todo[0], s) && todo[0] !in s.refs
    requires resp.Items? ==> Lists(st, todo[0], ParentId(todo[0], s), resp.items)
    ensures Smooth(st, spec, OnListed(spec, Recovering, todo, s, resp))
  {
    UpcomingTail(s.nsxt3, todo);
    ListedThere(st, spec, todo[0], s, resp);
    ListedDefined(spec, todo[0], s, resp);
    BeginSmooth(st, spec, Recovering, todo[1..], TryRecover(spec, todo[0], s, resp));
  }

  lemma FoundSmooth(st: Store, spec: Spec, todo: seq<Task>, s: State, id: Id)
    requires todo != [] && Upcoming(s.nsxt3, todo) && Defined(spec, s) && AllThere(st, s)
    requires todo[0] !in s.refs && (Owned(todo[0]) ==> IsExternal(todo[0], s))
    ensures Smooth(st, spec, Begin(spec, Recovering, todo[1..], SetRef(s, todo[0], id)))
  {
    UpcomingTail(s.nsxt3, todo);
    NewRefThere(st, s, SetRef(s, todo[0], id), todo[0]);
    BeginSmooth(st, spec, Recovering, todo[1..], SetRef(s, todo[0], id));
  }

  lemma LookedSmooth(st: Store, spec: Spec, todo: seq<Task>, s: State, resp: Resp)
    requires todo != [] && Upcoming(s.nsxt3, todo) && Defined(spec, s) && AllThere(st, s)
    requires todo[0] !in s.refs && (Owned(todo[0]) ==> IsExternal(todo[0], s))
    ensures Smooth(st, spec, OnLooked(spec, Recovering, todo, s, resp))
  {
    UpcomingTail(s.nsxt3, todo);
    BeginSmooth(st, spec, Recovering, todo[1..], s);
    if resp.Found? || resp.Gateway? { FoundSmooth(st, spec, todo, s, resp.id); }
  }

  /** One object is erased, and its reference cleared. */
  lemma ErasedSmooth(st: Store, st': Store, spec: Spec, todo: seq<Task>, s: State)
    requires todo != [] && Descending(s.nsxt3, todo) && Parented(s) && Ahead(s, todo) && AllThere(st, s)
    requires Reachable(todo[0], s) && !IsExternal(todo[0], s) && Owned(todo[0])
    requires forall key :: key in st.objects && key != KeyOf(todo[0], s) ==> key in st'.objects
    ensures Smooth(st', spec, Begin(spec, Deleting, todo[1..], ClearRef(s, todo[0])))
  {
    var t, s' := todo[0], ClearRef(s, todo[0]);
    DescendingTail(s.nsxt3, todo);
    ClearedParented(s, todo);
    forall u | Strict(u) && Recorded(s', u) ensures KeyOf(u, s') in st'.objects {
      assert Recorded(s, u) && KeyOf(u, s') == KeyOf(u, s) && KeyOf(u, s).kind != t;
    }
    BeginSmooth(st', spec, Deleting, todo[1..], s');
  }

  lemma DeletingSmooth(st: Store, w: Shoot, spec: Spec, r: Run, a: Answer)
    requires r.Pending? && Smooth(st, spec, r) && r.mode.Deleting? && InPhase(r.todo[0], r.phase, r.s) && a.fault.Works?
    ensures var op := NextOp(spec, r, a.draw);
            Smooth(After(st, w, op, a), spec, Resume(spec, r, Told(st, op, a)))
  {
    var t, s, key := r.todo[0], r.s, KeyOf(r.todo[0], r.s);
    var op := NextOp(spec, r, a.draw);
    var st' := After(st, w, op, a);
    ErasedSmooth(st, st', spec, r.todo, s);
    if r.phase.Erasing? && key !in st.objects {
      assert !Strict(t) by { if Strict(t) { DescendingTail(s.nsxt3, r.todo); assert Recorded(s, t); } }
    }
  }

  // ---- deletion runs in a system ----

  /** The run of shoot w deletes, and will not dereference nil. */
  ghost predicate DeletingSafely(sys: System, w: Shoot) {
    Isolated(sys) && w in sys.members && sys.members[w].run.Some? && SafeRun(sys.members[w].spec, sys.members[w].run.value)
  }

  ghost predicate DeletingSmoothly(sys: System, w: Shoot) {
    && Isolated(sys) && w in sys.members && sys.members[w].run.Some?
    && Smooth(sys.store, sys.members[w].spec, sys.members[w].run.value)
  }

  lemma StepSafe(sys: System, e: Event, w: Shoot)
    requires DeletingSafely(sys, w) && CanHappen(sys, e) && (e.who == w ==> e.Call?)
    ensures DeletingSafely(Step(sys, e), w)
  {
    StepIsolated(sys, e);
    var m := sys.members[w];
    if e.who == w { ResumeSafe(m.spec, m.run.value, Told(sys.store, PendingOp(m, e.answer), e.answer)); }
  }

  lemma CallSmooth(st: Store, w: Shoot, spec: Spec, r: Run, a: Answer)
    requires r.Pending? && Smooth(st, spec, r) && OwnRun(st, w, spec, r) && a.fault.Works?
    requires Admissible(st, NextOp(spec, r, a.draw), a)
    ensures var op := NextOp(spec, r, a.draw);
            Smooth(After(st, w, op, a), spec, Resume(spec, r, Told(st, op, a)))
  {
    if r.mode.Deleting? {
      DeletingSmooth(st, w, spec, r, a);
    } else if r.phase.Listing? {
      ListedSmooth(st, spec, r.todo, r.s, Items(a.listing));
    } else {
      LookedSmooth(st, spec, r.todo, r.s, Told(st, NextOp(spec, r, a.draw), a));
    }
  }

  lemma SmoothForOthers(st: Store, st': Store, w: Shoot, spec: Spec, r: Run)
    requires SameForShoot(st, st', w) && Smooth(st, spec, r) && OwnRun(st, w, spec, r)
    ensures Smooth(st', spec, r)
  {
    if r.Pending? {
      forall t | Strict(t) && Recorded(r.s, t) ensures KeyOf(t, r.s) in st'.objects { assert Mine(st, w, KeyOf(t, r.s)); }
      if r.phase.Checking? { assert !Mine(st, w, KeyOf(r.todo[0], r.s)); }
    }
  }

  lemma StepSmooth(sys: System, e: Event, w: Shoot)
    requires DeletingSmoothly(sys, w) && CanHappen(sys, e) && (e.who == w ==> e.Call? && e.answer.fault.Works?)
    ensures DeletingSmoothly(Step(sys, e), w)
  {
    StepIsolated(sys, e);
    var m := sys.members[w];
    if e.who == w {
      CallSmooth(sys.store, w, m.spec, m.run.value, e.answer);
    } else {
      OthersDoNotMatter(sys.store, Step(sys, e).store, e.who, w);
      SmoothForOthers(sys.store, Step(sys, e).store, w, m.spec, m.run.value);
    }
  }

  lemma {:induction false} RunsSafe(sys: System, es: seq<Event>, w: Shoot)
    requires DeletingSafely(sys, w) && Possible(sys, es) && OnlyCalls(es, w)
    ensures DeletingSafely(Exec(sys, es), w)
    decreases |es|
  {
    if es != [] {
      RunsSafe(sys, es[..|es| - 1], w);
      StepSafe(Exec(sys, es[..|es| - 1]), es[|es| - 1], w);
    }
  }

  lemma {:induction false} RunsSmooth(sys: System, es: seq<Event>, w: Shoot)
    requires DeletingSmoothly(sys, w) && Possible(sys, es) && Undisturbed(es, w)
    ensures DeletingSmoothly(Exec(sys, es), w)
    decreases |es|
  {
    if es != [] {
      RunsSmooth(sys, es[..|es| - 1], w);
      StepSmooth(Exec(sys, es[..|es| - 1]), es[|es| - 1], w);
    }
  }

  // ---- a strict object that is gone ----

  /** The run will come to delete the object, or has failed to. */
  ghost predicate Heading(r: Run, t: Task, key: Key) {
    match r
    case Pending(mode, todo, phase, s) =>
      && !mode.Creating? && Recorded(s, t) && KeyOf(t, s) == key && todo != []
      && (if mode.Deleting? then t in todo else todo[0] !in s.refs)
    case Finished(mode, ok, s) => !mode.Creating? && !ok && Recorded(s, t) && KeyOf(t, s) == key
    case Panicked(mode) => !mode.Creating?
  }

  /** A recorded strict object of shoot w is gone. */
  ghost predicate Dangling(sys: System, w: Shoot, t: Task, key: Key) {
    && Isolated(sys) && w in sys.members && Strict(t)
    && IssuedTo(sys.store, IssuedId(key), w) && key !in sys.store.objects
    && var m := sys.members[w];
       && m.status.state.Some? && Recorded(m.status.state.value, t) && KeyOf(t, m.status.state.value) == key
       && (m.run.Some? ==> Heading(m.run.value, t, key))
  }

  lemma {:induction false} BeginHeading(spec: Spec, mode: Mode, todo: seq<Task>, s: State, t: Task, key: Key)
    requires Strict(t) && !mode.Creating? && Recorded(s, t) && KeyOf(t, s) == key
    requires mode.Deleting? ==> t in todo
    requires spec.externalTier1.Some? == s.external
    ensures Heading(Begin(spec, mode, todo, s), t, key)
    decreases mode.Recovering?, |todo|
  {
    if todo == [] {
      if mode.Recovering? {
        ReverseDescends(s.nsxt3);
        BeginHeading(spec, Deleting, Reverse(Tasks(s.nsxt3)), s, t, key);
      }
    } else {
      BeginFollows(spec, mode, todo, s);
      assert todo == [todo[0]] + todo[1..];
      if Enter(spec, mode, todo[0], s).Skip? { BeginHeading(spec, mode, todo[1..], s, t, key); }
    }
  }

  lemma ListedHeading(spec: Spec, todo: seq<Task>, s: State, resp: Resp, t: Task, key: Key)
    requires todo != [] && HasParent(todo[0], s) && Heading(Pending(Recovering, todo, Listing, s), t, key)
    requires Strict(t) && spec.externalTier1.Some? == s.external
    ensures Heading(OnListed(spec, Recovering, todo, s, resp), t, key)
  {
    BeginHeading(spec, Recovering, todo[1..], TryRecover(spec, todo[0], s, resp), t, key);
  }

  lemma RecoveringHeading(spec: Spec, r: Run, resp: Resp, t: Task, key: Key)
    requires r.Pending? && WellPhased(spec, r) && InMode(r.mode, r.phase) && r.mode.Recovering?
    requires Strict(t) && Heading(r, t, key) && spec.externalTier1.Some? == r.s.external
    ensures Heading(Resume(spec, r, resp), t, key)
  {
    if r.phase.Listing? {
      ListedHeading(spec, r.todo, r.s, resp, t, key);
    } else {
      BeginHeading(spec, Recovering, r.todo[1..], r.s, t, key);
      if resp.Gateway? || resp.Found? {
        BeginHeading(spec, Recovering, r.todo[1..], SetRef(r.s, r.todo[0], resp.id), t, key);
      }
    }
  }

  lemma ErasingHeading(spec: Spec, todo: seq<Task>, s: State, resp: Resp, t: Task, key: Key)
    requires todo != [] && Descending(s.nsxt3, todo) && Owned(todo[0]) && t in todo
    requires Strict(t) && Recorded(s, t) && KeyOf(t, s) == key && spec.externalTier1.Some? == s.external
    requires todo[0] == t ==> resp.NotFound? || resp.Err?
    ensures Heading(OnErased(spec, Deleting, todo, s, resp), t, key)
    ensures todo[0].Locale? ==> Heading(OnChecked(spec, Deleting, todo, s, resp), t, key)
  {
    DescendingTail(s.nsxt3, todo);
    if todo[0] != t { BeginHeading(spec, Deleting, todo[1..], ClearRef(s, todo[0]), t, key); }
  }

  lemma DeletingHeading(spec: Spec, r: Run, resp: Resp, t: Task, key: Key)
    requires r.Pending? && WellPhased(spec, r) && InMode(r.mode, r.phase) && r.mode.Deleting?
    requires OnPlan(r.s.nsxt3, r.mode, r.todo) && InPhase(r.todo[0], r.phase, r.s)
    requires Strict(t) && Heading(r, t, key) && spec.externalTier1.Some? == r.s.external
    requires r.todo[0] == t ==> resp.NotFound? || resp.Err?
    ensures Heading(Resume(spec, r, resp), t, key)
  {
    ErasingHeading(spec, r.todo, r.s, resp, t, key);
  }

  lemma StepKeepsDangling(sys: System, e: Event, w: Shoot, t: Task, key: Key)
    requires Dangling(sys, w, t, key) && CanHappen(sys, e) && (e.who == w ==> !e.Reconcile?)
    ensures Dangling(Step(sys, e), w, t, key)
  {
    StepIsolated(sys, e);
    var m := sys.members[w];
    if e.who == w {
      match e {
        case Call(_, a) =>
          var resp := Told(sys.store, PendingOp(m, a), a);
          if m.run.value.mode.Recovering? {
            RecoveringHeading(m.spec, m.run.value, resp, t, key);
          } else {
            DeletingHeading(m.spec, m.run.value, resp, t, key);
          }
        case Delete(_, _) =>
          var s := UpdateExternal(m.spec, m.status.state.value);
          BeginHeading(m.spec, Recovering, Tasks(s.nsxt3), s, t, key);
        case _ =>
      }
    }
  }

  /** Once a recorded strict object is gone, no deletion run ever succeeds, whatever fails or works, until a creation run
      puts the record right. */
  lemma {:induction false} DeletionStaysStuck(sys: System, es: seq<Event>, w: Shoot, t: Task, key: Key)
    requires Dangling(sys, w, t, key) && Possible(sys, es) && NoReconcile(es, w)
    ensures Dangling(Exec(sys, es), w, t, key) && !Deleted(Exec(sys, es), w)
    decreases |es|
  {
    if es != [] {
      var n := |es| - 1;
      DeletionStaysStuck(sys, es[..n], w, t, key);
      StepKeepsDangling(Exec(sys, es[..n]), es[n], w, t, key);
    }
  }

  // ---- the results ----

  /** A deletion run of shoot w starts from this recorded state. */
  ghost predicate StartsDeleting(sys: System, start: Event, w: Shoot, s: State) {
    && Isolated(sys) && CanHappen(sys, start) && start.Delete? && start.who == w
    && sys.members[w].status.state == Some(s) && Step(sys, start).members[w].run.Some?
  }

  /** Definedness: from a recorded state that is defined, a deletion run never dereferences nil, under any faults and in
      any interleaving. */
  lemma DeletionNeverPanics(sys: System, start: Event, es: seq<Event>, w: Shoot, s: State)
    requires StartsDeleting(sys, start, w, s) && Defined(sys.members[w].spec, s)
    requires Possible(Step(sys, start), es) && OnlyCalls(es, w)
    ensures var now := Exec(Step(sys, start), es);
            w in now.members && now.members[w].run.Some? && !now.members[w].run.value.Panicked?
  {
    StepIsolated(sys, start);
    TasksAreOrdered(s.nsxt3);
    assert UpdateExternal(sys.members[w].spec, s) == s;
    BeginSafe(sys.members[w].spec, Recovering, Tasks(s.nsxt3), s);
    RunsSafe(Step(sys, start), es, w);
  }

  /** Exactly: a deletion run whose calls work succeeds if and only if no recorded object of a strict task is gone. What
      else is gone, locale services and objects of the advanced API, it gets past. */
  lemma DeletionSucceedsIff(sys: System, start: Event, es: seq<Event>, w: Shoot, s: State)
    requires StartsDeleting(sys, start, w, s) && Defined(sys.members[w].spec, s)
    requires Possible(Step(sys, start), es) && Undisturbed(es, w)
    ensures var now := Exec(Step(sys, start), es);
            && w in now.members && now.members[w].run.Some? && !now.members[w].run.value.Panicked?
            && (now.members[w].run.value.Finished? ==> (now.members[w].run.value.ok <==> AllThere(sys.store, s)))
  {
    var spec := sys.members[w].spec;
    StepIsolated(sys, start);
    TasksAreOrdered(s.nsxt3);
    assert UpdateExternal(spec, s) == s;
    DeletionNeverPanics(sys, start, es, w, s);
    if AllThere(sys.store, s) {
      BeginSmooth(sys.store, spec, Recovering, Tasks(s.nsxt3), s);
      RunsSmooth(Step(sys, start), es, w);
    } else {
      var t :| Strict(t) && Recorded(s, t) && KeyOf(t, s) !in sys.store.objects;
      BeginHeading(spec, Recovering, Tasks(s.nsxt3), s, t, KeyOf(t, s));
      DeletionStaysStuck(Step(sys, start), es, w, t, KeyOf(t, s));
      var now := Exec(Step(sys, start), es);
      assert Heading(now.members[w].run.value, t, KeyOf(t, s));
    }
  }
}
