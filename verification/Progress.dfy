/**
  Runs end, and runs that are not disturbed succeed. A run makes a bounded number of calls whatever they answer, with
  one exception: a locale service that is recorded but gone.
 */
module Progress {
  import opened Basics
  import opened Protocol
  import opened World
  import opened Plan
  import opened Isolation
  import opened Convergence
  import opened Deletion

  // ---- every answer brings a run closer to its end ----

  function Weight(phase: Phase): nat {
    match phase
    case Listing => 3
    case Reading => 2
    case Erasing => 1
    case Looking => 0
    case Writing(_) => 0
    case Making => 0
    case Checking => 0
  }

  /** Four calls at most for each task, and the way back if it is still to come. */
  function Measure(r: Run): nat {
    if r.Pending? then (if r.mode.Recovering? then 64 else 0) + 4 * |r.todo| + Weight(r.phase) else 0
  }

  lemma {:induction false} BeginBounded(spec: Spec, mode: Mode, todo: seq<Task>, s: State)
    ensures Measure(Begin(spec, mode, todo, s)) <= (if mode.Recovering? then 64 else 0) + 4 * |todo| + 3
    decreases mode.Recovering?, |todo|
  {
    if todo == [] {
      if mode.Recovering? {
        ReverseElements(Tasks(s.nsxt3));
        BeginBounded(spec, Deleting, Reverse(Tasks(s.nsxt3)), s);
      }
    } else {
      BeginBounded(spec, mode, todo[1..], s);
    }
  }

  /** The locale service is recorded but gone. */
  predicate LocaleGone(r: Run, resp: Resp) {
    r.Pending? && r.phase.Reading? && r.todo != [] && r.todo[0].Locale? && resp.NotFound?
  }

  lemma ReadingBounded(spec: Spec, mode: Mode, todo: seq<Task>, s: State, resp: Resp)
    requires todo != [] && Owned(todo[0]) && Ready(todo[0], s) && LayoutOk(todo[0], spec) && todo[0] in s.refs
    requires !IsExternal(todo[0], s) && !(todo[0].Locale? && resp.NotFound?)
    ensures Measure(OnRead(spec, mode, todo, s, resp)) < (if mode.Recovering? then 64 else 0) + 4 * |todo| + Weight(Reading)
  {
    BeginBounded(spec, mode, todo[1..], s);
    if resp.NotFound? { NotFoundLeadsToMaking(spec, mode, todo, s); }
  }

  /** A recorded object that is gone is forgotten, and created anew next. */
  lemma NotFoundLeadsToMaking(spec: Spec, mode: Mode, todo: seq<Task>, s: State)
    requires todo != [] && Owned(todo[0]) && Ready(todo[0], s) && LayoutOk(todo[0], spec)
    requires !IsExternal(todo[0], s) && !todo[0].Locale?
    ensures OnRead(spec, mode, todo, s, NotFound)
            == Pending(mode, todo, Making, if todo[0].Alloc? then s else ClearRef(s, todo[0]))
  {}

  lemma ListingBounded(spec: Spec, mode: Mode, todo: seq<Task>, s: State, resp: Resp)
    requires todo != [] && Owned(todo[0]) && HasParent(todo[0], s) && !IsExternal(todo[0], s)
    ensures Measure(OnListed(spec, mode, todo, s, resp)) < (if mode.Recovering? then 64 else 0) + 4 * |todo| + Weight(Listing)
  {
    var s' := TryRecover(spec, todo[0], s, resp);
    BeginBounded(spec, mode, todo[1..], s');
  }

  /** Progress: every answer decreases the measure, except that the locale service, finding itself gone, asks again. */
  lemma EveryAnswerCounts(st: Store, w: Shoot, spec: Spec, r: Run, resp: Resp)
    requires r.Pending? && OwnRun(st, w, spec, r)
    ensures Measure(Resume(spec, r, resp)) < Measure(r) <==> !LocaleGone(r, resp)
    ensures LocaleGone(r, resp) ==> Resume(spec, r, resp) == Pending(r.mode, r.todo, Reading, ClearRef(r.s, Tier1))
  {
    var t, s, rest := r.todo[0], r.s, r.todo[1..];
    BeginBounded(spec, r.mode, rest, s);
    match r.phase {
      case Looking => if resp.Gateway? || resp.Found? { BeginBounded(spec, r.mode, rest, SetRef(s, t, resp.id)); }
      case Listing => ListingBounded(spec, r.mode, r.todo, s, resp);
      case Reading => if !LocaleGone(r, resp) { ReadingBounded(spec, r.mode, r.todo, s, resp); }
      case Writing(_) =>
      case Making => if resp.Made? { BeginBounded(spec, r.mode, rest, WithMade(t, s, resp.id, resp.name)); }
      case Erasing => BeginBounded(spec, r.mode, rest, ClearRef(s, t));
      case Checking => BeginBounded(spec, r.mode, rest, ClearRef(s, t));
    }
  }

  /** The not-found retry ends: the object is created once, and its reference is the new one. */
  lemma NotFoundRetry(st: Store, w: Shoot, spec: Spec, r: Run, id: Id, name: Option<string>)
    requires r.Pending? && r.phase.Reading? && OwnRun(st, w, spec, r) && !r.todo[0].Locale?
    ensures var retry := Resume(spec, r, NotFound);
            && retry.Pending? && retry.phase.Making? && retry.todo == r.todo && WellPhased(spec, retry)
            && (!r.todo[0].Alloc? ==> r.todo[0] !in retry.s.refs)
            && (forall u :: u in r.s.refs && u != r.todo[0] ==> u in retry.s.refs && retry.s.refs[u] == r.s.refs[u])
            && var s' := WithMade(r.todo[0], retry.s, id, name);
               && Resume(spec, retry, Made(id, name)) == Begin(spec, r.mode, r.todo[1..], s')
               && s'.refs[r.todo[0]] == id
  {
    NotFoundLeadsToMaking(spec, r.mode, r.todo, r.s);
    ResumePhased(spec, r, NotFound);
  }

  // ---- a call that works can always be answered ----

  lemma {:induction false} UpperBound(ids: set<Id>) returns (n: Id)
    ensures forall id :: id in ids ==> id < n
  {
    n := 0;
    if ids != {} {
      var id :| id in ids;
      var m := UpperBound(ids - {id});
      n := if id < m then m else id + 1;
      forall x | x in ids ensures x < n { assert x == id || x in ids - {id}; }
    }
  }

  lemma FreshIdExists(st: Store) returns (id: Id)
    ensures IsFresh(st, id)
  {
    var used := st.issued.Keys + st.gateways.Keys
                + (set key | key in st.objects :: IssuedId(key)) + (set key | key in st.objects :: key.id);
    id := UpperBound(used);
    assert id !in used;
    forall key | key in st.objects ensures IssuedId(key) != id && key.id != id {
      assert IssuedId(key) in used && key.id in used;
    }
    assert id !in st.issued && id !in st.gateways;
  }

  /** Some of the objects, as a listing shows them. */
  lemma {:induction false} ListingOf(st: Store, keys: set<Key>, kind: Task, parent: Id) returns (items: seq<Item>)
    requires keys <= st.objects.Keys
    ensures forall i :: 0 <= i < |items| ==>
              Key(kind, parent, items[i].id) in st.objects && st.objects[Key(kind, parent, items[i].id)] == items[i].obj
    ensures forall key :: key in keys && key.kind == kind && key.parent == parent ==> Item(key.id, st.objects[key]) in items
  {
    items := [];
    if keys != {} {
      var key :| key in keys;
      var rest := ListingOf(st, keys - {key}, kind, parent);
      items := if key.kind == kind && key.parent == parent then rest + [Item(key.id, st.objects[key])] else rest;
      forall k | k in keys && k.kind == kind && k.parent == parent ensures Item(k.id, st.objects[k]) in items {
        if k == key { assert items[|items| - 1] == Item(k.id, st.objects[k]); } else { assert Item(k.id, st.objects[k]) in rest; }
      }
    }
  }

  /** Whatever a run asks, the store has an answer that works. */
  lemma AnswerExists(st: Store, spec: Spec, r: Run) returns (a: Answer)
    requires r.Pending? && WellPhased(spec, r)
    ensures a.fault.Works? && Admissible(st, NextOp(spec, r, a.draw), a)
  {
    var id := FreshIdExists(st);
    var items := [];
    if r.phase.Listing? { items := ListingOf(st, st.objects.Keys, r.todo[0], ParentId(r.todo[0], r.s)); }
    a := Answer(Works, items, Draw(id, ""));
  }

  // ---- undisturbed runs end ----

  /** The run of shoot w deletes, or creates and is on track. */
  ghost predicate Progressing(sys: System, w: Shoot) {
    && Isolated(sys) && w in sys.members && sys.members[w].run.Some?
    && (sys.members[w].run.value.mode.Creating? ==> exists was :: OnTrack(sys, was, w))
  }

  lemma CallProgresses(sys: System, w: Shoot, a: Answer)
    requires Progressing(sys, w) && CanHappen(sys, Call(w, a)) && a.fault.Works?
    ensures Measure(Step(sys, Call(w, a)).members[w].run.value) < Measure(sys.members[w].run.value)
  {
    var m := sys.members[w];
    var resp := Told(sys.store, PendingOp(m, a), a);
    EveryAnswerCounts(sys.store, w, m.spec, m.run.value, resp);
    if LocaleGone(m.run.value, resp) {
      var was :| OnTrack(sys, was, w);
      ReadAnswer(sys.store, m.spec, m.run.value, a);
    }
  }

  lemma StepProgresses(sys: System, e: Event, w: Shoot)
    requires Progressing(sys, w) && CanHappen(sys, e) && (e.who == w ==> e.Call? && e.answer.fault.Works?)
    ensures Progressing(Step(sys, e), w)
    ensures e.who != w ==> Step(sys, e).members[w] == sys.members[w]
    ensures e.who == w ==> Measure(Step(sys, e).members[w].run.value) < Measure(sys.members[w].run.value)
  {
    StepIsolated(sys, e);
    var m := sys.members[w];
    if m.run.value.mode.Creating? {
      var was :| OnTrack(sys, was, w);
      StepOnTrack(sys, was, e, w);
    } else if e.who == w {
      ResumeOnCourse(m.spec, m.run.value, Told(sys.store, PendingOp(m, e.answer), e.answer));
    }
    if e.who == w { CallProgresses(sys, w, e.answer); }
  }

  function CallsOf(es: seq<Event>, w: Shoot): nat {
    if es == [] then 0 else CallsOf(es[..|es| - 1], w) + (if es[|es| - 1].who == w then 1 else 0)
  }

  /** A bounded number of calls, whatever the other shoots do in between. */
  lemma {:induction false} CallsAreBounded(sys: System, es: seq<Event>, w: Shoot)
    requires Progressing(sys, w) && Possible(sys, es) && Undisturbed(es, w)
    ensures Progressing(Exec(sys, es), w)
    ensures Measure(Exec(sys, es).members[w].run.value) + CallsOf(es, w) <= Measure(sys.members[w].run.value) <= 131
    decreases |es|
  {
    if es == [] {
      MeasureBounded(sys.store, w, sys.members[w].spec, sys.members[w].run.value);
    } else {
      var n := |es| - 1;
      CallsAreBounded(sys, es[..n], w);
      StepProgresses(Exec(sys, es[..n]), es[n], w);
    }
  }

  /** Tasks of different ranks, of which there are sixteen. */
  lemma {:induction false} TodoBounded(v: bool, todo: seq<Task>, n: nat)
    requires (Upcoming(v, todo) || Descending(v, todo)) && n < |todo|
    ensures Upcoming(v, todo) ==> n <= Rank(todo[n])
    ensures Descending(v, todo) ==> Rank(todo[n]) + n <= 15
  {
    if n > 0 { TodoBounded(v, todo, n - 1); }
  }

  lemma MeasureBounded(st: Store, w: Shoot, spec: Spec, r: Run)
    requires OwnRun(st, w, spec, r)
    ensures Measure(r) <= 131
  {
    if r.Pending? { TodoBounded(r.s.nsxt3, r.todo, |r.todo| - 1); }
  }

  lemma ExecOne(sys: System, e: Event, es: seq<Event>)
    requires CanHappen(sys, e) && Possible(Step(sys, e), es)
    ensures Possible(sys, [e] + es) && Exec(sys, [e] + es) == Exec(Step(sys, e), es)
    decreases |es|
  {
    var all := [e] + es;
    if es == [] {
      assert all[..|all| - 1] == [] && all == [e];
    } else {
      assert all[..|all| - 1] == [e] + es[..|es| - 1];
      ExecOne(sys, e, es[..|es| - 1]);
    }
  }

  /** It never gets stuck: calls that work can always bring it to its end. */
  lemma {:induction false} RunCanEnd(sys: System, w: Shoot) returns (es: seq<Event>)
    requires Progressing(sys, w)
    ensures Possible(sys, es) && Undisturbed(es, w) && (forall e :: e in es ==> e.who == w)
    ensures var now := Exec(sys, es); w in now.members && now.members[w].run.Some? && !now.members[w].run.value.Pending?
    decreases Measure(sys.members[w].run.value)
  {
    es := [];
    var m := sys.members[w];
    if m.run.value.Pending? {
      var a := AnswerExists(sys.store, m.spec, m.run.value);
      var e := Call(w, a);
      StepProgresses(sys, e, w);
      var rest := RunCanEnd(Step(sys, e), w);
      ExecOne(sys, e, rest);
      es := [e] + rest;
    }
  }

  // ---- a locale service that is recorded but gone ----

  /** The run has not got past its locale service. */
  predicate NotPast(r: Run, g: Id) {
    match r
    case Pending(mode, todo, phase, s) =>
      && mode.Creating? && Locale in todo && !s.external && Locale in s.refs && s.refs[Locale] == g
      && (todo[0].Locale? ==> phase.Reading?)
    case Finished(mode, ok, _) => mode.Creating? && !ok
    case Panicked(_) => true
  }

  lemma {:induction false} BeginNotPast(spec: Spec, todo: seq<Task>, s: State, g: Id)
    requires Locale in todo && !s.external && Locale in s.refs && s.refs[Locale] == g
    ensures NotPast(Begin(spec, Creating, todo, s), g)
    decreases |todo|
  {
    BeginFollows(spec, Creating, todo, s);
    assert todo == [todo[0]] + todo[1..];
    if Enter(spec, Creating, todo[0], s).Skip? { BeginNotPast(spec, todo[1..], s, g); }
  }

  lemma ResumeNotPast(spec: Spec, r: Run, resp: Resp, g: Id)
    requires r.Pending? && WellPhased(spec, r) && NotPast(r, g) && InMode(r.mode, r.phase) && InPhase(r.todo[0], r.phase, r.s)
    requires r.todo[0].Locale? ==> resp.NotFound? || resp.Err?
    ensures NotPast(Resume(spec, r, resp), g)
  {
    var t, s, rest := r.todo[0], r.s, r.todo[1..];
    assert r.todo == [t] + rest;
    if !t.Locale? {
      BeginNotPast(spec, rest, s, g);
      match r.phase {
        case Looking => if resp.Gateway? || resp.Found? { BeginNotPast(spec, rest, SetRef(s, t, resp.id), g); }
        case Listing => BeginNotPast(spec, rest, TryRecover(spec, t, s, resp), g);
        case Reading => BeginNotPast(spec, rest, Forget(t, s), g);
        case Writing(_) =>
        case Making => if resp.Made? { BeginNotPast(spec, rest, WithMade(t, s, resp.id, resp.name), g); }
      }
    }
  }

  ghost predicate PastNever(sys: System, w: Shoot, g: Id) {
    && Isolated(sys) && w in sys.members && sys.members[w].run.Some?
    && IssuedTo(sys.store, g, w) && Key(Locale, g, DEFAULT) !in sys.store.objects
    && NotPast(sys.members[w].run.value, g)
  }

  lemma CallPastNever(st: Store, w: Shoot, spec: Spec, r: Run, a: Answer, g: Id)
    requires r.Pending? && OwnRun(st, w, spec, r) && NotPast(r, g) && Key(Locale, g, DEFAULT) !in st.objects
    ensures var op := NextOp(spec, r, a.draw);
            Key(Locale, g, DEFAULT) !in After(st, w, op, a).objects && NotPast(Resume(spec, r, Told(st, op, a)), g)
  {
    ResumeNotPast(spec, r, Told(st, NextOp(spec, r, a.draw), a), g);
  }

  lemma StepPastNever(sys: System, e: Event, w: Shoot, g: Id)
    requires PastNever(sys, w, g) && CanHappen(sys, e) && (e.who == w ==> e.Call?)
    ensures PastNever(Step(sys, e), w, g)
  {
    StepIsolated(sys, e);
    var m := sys.members[w];
    if e.who == w {
      CallPastNever(sys.store, w, m.spec, m.run.value, e.answer, g);
    } else {
      OthersDoNotMatter(sys.store, Step(sys, e).store, e.who, w);
      assert !Mine(sys.store, w, Key(Locale, g, DEFAULT)) && !Mine(Step(sys, e).store, w, Key(Locale, g, DEFAULT));
    }
  }

  lemma {:induction false} RunsPastNever(sys: System, es: seq<Event>, w: Shoot, g: Id)
    requires PastNever(sys, w, g) && Possible(sys, es) && OnlyCalls(es, w)
    ensures PastNever(Exec(sys, es), w, g)
    decreases |es|
  {
    if es != [] {
      RunsPastNever(sys, es[..|es| - 1], w, g);
      StepPastNever(Exec(sys, es[..|es| - 1]), es[|es| - 1], w, g);
    }
  }

  /** A creation run that starts with a locale service recorded but gone never succeeds, whatever its calls answer. */
  lemma GoneLocaleNeverSucceeds(sys: System, start: Event, es: seq<Event>, w: Shoot)
    requires Starts(sys, start, w) && Possible(Step(sys, start), es) && OnlyCalls(es, w)
    requires var s := StartState(sys.members[w]);
             !s.external && Locale in s.refs && KeyOf(Locale, s) !in sys.store.objects
    ensures var now := Exec(Step(sys, start), es);
            w in now.members && now.members[w].run.Some? && (now.members[w].run.value.Finished? ==> !now.members[w].run.value.ok)
  {
    var m, s := sys.members[w], StartState(sys.members[w]);
    StepIsolated(sys, start);
    TasksAreOrdered(s.nsxt3);
    assert OwnRefs(sys.store, w, m.spec, s) && InPlan(s.nsxt3, Locale);
    BeginNotPast(m.spec, Tasks(s.nsxt3), s, s.refs[Locale]);
    RunsPastNever(Step(sys, start), es, w, s.refs[Locale]);
  }

  /** Exactly: a creation run whose calls work, and whose names can be looked up, succeeds if and only if the network is
      large enough for DHCP and a locale service that it has recorded is there. */
  lemma CreationSucceedsIff(sys: System, start: Event, es: seq<Event>, w: Shoot)
    requires Starts(sys, start, w) && Possible(Step(sys, start), es) && Undisturbed(es, w)
    requires Provided(sys.store, sys.members[w].spec)
    ensures var now, m := Exec(Step(sys, start), es), sys.members[w];
            && w in now.members && now.members[w].run.Some? && !now.members[w].run.value.Panicked?
            && (now.members[w].run.value.Finished? ==>
                  (now.members[w].run.value.ok <==> Clear(sys.store, m.spec, StartState(m))))
  {
    var m := sys.members[w];
    var now := Exec(Step(sys, start), es);
    StartUnderway(sys, start, w);
    RunsUnderway(Step(sys, start), sys.store.objects, es, w);
    RunsStayIsolated(Step(sys, start), es);
    assert SpecsOf(now)[w] == m.spec;
    if Clear(sys.store, m.spec, StartState(m)) {
      RunsOnTrack(Step(sys, start), sys.store.objects, es, w);
    } else if m.spec.layout.Some? {
      GoneLocaleNeverSucceeds(sys, start, es, w);
    } else {
      assert now.members[w].run.value.Finished? && now.members[w].run.value.ok ==>
          Good(now.store, sys.store.objects, m.spec, now.members[w].run.value.s, Segment);
    }
  }
}
