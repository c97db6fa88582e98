/**
  The first object to be deleted, without its parent. A deletion run that dies after it has deleted both leaves both on
  record; the next creation run finds the parent gone, forgets it, and is to make it anew. If that is refused, the child
  stays on record alone, and no deletion gets past it.
 */
module Orphans {
  import opened Basics
  import opened Protocol
  import opened World
  import opened Plan
  import opened Isolation
  import opened Convergence
  import opened Deletion
  import opened Anchoring
  import opened Recovery
  import opened Progress

  /** The last task of the plan: its object is the first to be deleted. */
  function LastOf(v: bool): Task {
    if v then Rule else Pool
  }

  /** The task whose object it lies under: the gateway of the rule, the server of the DHCP pool. */
  function ParentOfLast(v: bool): Task {
    if v then Tier1 else Server
  }

  /** A creation run is to make the parent anew, with the child on record. */
  ghost predicate AboutToOrphan(sys: System, w: Shoot) {
    && Isolated(sys) && w in sys.members && sys.members[w].status.started == Some(true) && sys.members[w].run.Some?
    && var r, p := sys.members[w].run.value, ParentOfLast(sys.members[w].spec.nsxt3);
       && r.Pending? && r.mode.Creating? && r.phase.Making? && r.todo != [] && r.todo[0] == p
       && NoneOf(sys.store, w, p) && p !in r.s.refs && LastOf(sys.members[w].spec.nsxt3) in r.s.refs
  }

  // ---- how it comes about ----

  /** The run has the parent's task ahead of it, and the child on record; at the parent's task, it finds it gone. */
  predicate Heads(r: Run) {
    && r.Pending? && r.mode.Creating? && r.todo != []
    && var p := ParentOfLast(r.s.nsxt3);
       && p in r.todo && LastOf(r.s.nsxt3) in r.s.refs && !IsExternal(p, r.s)
       && if p in r.s.refs then (r.todo[0] == p ==> r.phase.Reading?) else r.todo[0] == p && r.phase.Making?
  }

  /** It heads for the parent, or has ended before it. */
  predicate HeadsOrStops(r: Run) {
    if r.Finished? then !r.ok else r.Pending? ==> Heads(r)
  }

  lemma EnterHeads(spec: Spec, todo: seq<Task>, s: State, e: Entry)
    requires todo != [] && Upcoming(s.nsxt3, todo) && ParentOfLast(s.nsxt3) in todo && !IsExternal(ParentOfLast(s.nsxt3), s)
    requires ParentOfLast(s.nsxt3) in s.refs && LastOf(s.nsxt3) in s.refs
    requires e == Enter(spec, Creating, todo[0], s) || (e == EnsureEntry(spec, todo[0], s) && todo[0] != ParentOfLast(s.nsxt3))
    ensures e.Skip? ==> ParentOfLast(s.nsxt3) in todo[1..]
    ensures e.Fail? ==> !s.nsxt3
    ensures e.Ask? ==> Heads(Pending(Creating, todo, e.phase, s))
  {
    UpcomingTail(s.nsxt3, todo);
  }

  lemma {:induction false} BeginHeads(spec: Spec, todo: seq<Task>, s: State)
    requires Upcoming(s.nsxt3, todo) && ParentOfLast(s.nsxt3) in todo && !IsExternal(ParentOfLast(s.nsxt3), s)
    requires ParentOfLast(s.nsxt3) in s.refs && LastOf(s.nsxt3) in s.refs
    ensures HeadsOrStops(Begin(spec, Creating, todo, s))
    ensures s.nsxt3 ==> !Begin(spec, Creating, todo, s).Finished?
    decreases |todo|
  {
    BeginFollows(spec, Creating, todo, s);
    EnterHeads(spec, todo, s, Enter(spec, Creating, todo[0], s));
    if Enter(spec, Creating, todo[0], s).Skip? {
      UpcomingTail(s.nsxt3, todo);
      BeginHeads(spec, todo[1..], s);
    }
  }

  lemma FollowHeads(spec: Spec, todo: seq<Task>, s: State)
    requires todo != [] && Upcoming(s.nsxt3, todo) && ParentOfLast(s.nsxt3) in todo && !IsExternal(ParentOfLast(s.nsxt3), s)
    requires ParentOfLast(s.nsxt3) in s.refs && LastOf(s.nsxt3) in s.refs && todo[0] != ParentOfLast(s.nsxt3)
    ensures HeadsOrStops(Follow(spec, Creating, todo, s, EnsureEntry(spec, todo[0], s)))
  {
    EnterHeads(spec, todo, s, EnsureEntry(spec, todo[0], s));
    if EnsureEntry(spec, todo[0], s).Skip? {
      UpcomingTail(s.nsxt3, todo);
      BeginHeads(spec, todo[1..], s);
    }
  }

  lemma ForgetKeepsLast(s: State, todo: seq<Task>)
    requires todo != [] && Upcoming(s.nsxt3, todo) && ParentOfLast(s.nsxt3) in todo && todo[0] != ParentOfLast(s.nsxt3)
    requires ParentOfLast(s.nsxt3) in s.refs && LastOf(s.nsxt3) in s.refs
    ensures var s' := Forget(todo[0], s); ParentOfLast(s.nsxt3) in s'.refs && LastOf(s.nsxt3) in s'.refs
  {
    UpcomingTail(s.nsxt3, todo);
  }

  /** The way to the parent's task is not at its end. */
  predicate OnTheWay(todo: seq<Task>, s: State) {
    var p := ParentOfLast(s.nsxt3);
    todo != [] && p in todo && todo[0] != p && !IsExternal(p, s) && p in s.refs && LastOf(s.nsxt3) in s.refs
  }

  lemma LookedHeads(spec: Spec, todo: seq<Task>, s: State, resp: Resp)
    requires OnTheWay(todo, s) && Upcoming(s.nsxt3, todo)
    ensures HeadsOrStops(OnLooked(spec, Creating, todo, s, resp))
  {
    UpcomingTail(s.nsxt3, todo);
    if resp.Gateway? || resp.Found? { BeginHeads(spec, todo[1..], SetRef(s, todo[0], resp.id)); }
  }

  lemma ListedHeads(spec: Spec, todo: seq<Task>, s: State, resp: Resp)
    requires OnTheWay(todo, s) && Upcoming(s.nsxt3, todo) && HasParent(todo[0], s)
    ensures HeadsOrStops(OnListed(spec, Creating, todo, s, resp))
  {
    FollowHeads(spec, todo, TryRecover(spec, todo[0], s, resp));
  }

  lemma ReadHeads(spec: Spec, todo: seq<Task>, s: State, resp: Resp)
    requires OnTheWay(todo, s) && Upcoming(s.nsxt3, todo) && Owned(todo[0]) && Ready(todo[0], s) && LayoutOk(todo[0], spec)
    ensures HeadsOrStops(OnRead(spec, Creating, todo, s, resp))
  {
    UpcomingTail(s.nsxt3, todo);
    BeginHeads(spec, todo[1..], s);
    ForgetKeepsLast(s, todo);
    FollowHeads(spec, todo, Forget(todo[0], s));
  }

  lemma MadeHeads(spec: Spec, todo: seq<Task>, s: State, resp: Resp)
    requires OnTheWay(todo, s) && Upcoming(s.nsxt3, todo) && HasParent(todo[0], s)
    ensures HeadsOrStops(OnMade(spec, Creating, todo, s, resp))
  {
    UpcomingTail(s.nsxt3, todo);
    if resp.Made? { BeginHeads(spec, todo[1..], WithMade(todo[0], s, resp.id, resp.name)); }
  }

  /** An answer on the way to the parent's task. */
  lemma ComingHeads(spec: Spec, r: Run, resp: Resp)
    requires Heads(r) && WellPhased(spec, r) && Upcoming(r.s.nsxt3, r.todo) && InMode(r.mode, r.phase)
    requires r.todo[0] != ParentOfLast(r.s.nsxt3)
    ensures HeadsOrStops(Resume(spec, r, resp))
  {
    match r.phase {
      case Looking => LookedHeads(spec, r.todo, r.s, resp);
      case Listing => ListedHeads(spec, r.todo, r.s, resp);
      case Reading => ReadHeads(spec, r.todo, r.s, resp);
      case Writing(_) =>
        UpcomingTail(r.s.nsxt3, r.todo);
        BeginHeads(spec, r.todo[1..], r.s);
      case Making => MadeHeads(spec, r.todo, r.s, resp);
    }
  }

  /** The parent is gone: it is forgotten, and made anew next. */
  lemma GoneIsMade(spec: Spec, r: Run, resp: Resp)
    requires Heads(r) && WellPhased(spec, r) && r.todo[0] == ParentOfLast(r.s.nsxt3) && r.phase.Reading?
    requires resp.NotFound? || resp.Err?
    ensures HeadsOrStops(Resume(spec, r, resp))
    ensures resp.NotFound? ==> Resume(spec, r, resp).Pending? && Resume(spec, r, resp).phase.Making?
  {
    if resp.NotFound? { NotFoundLeadsToMaking(spec, r.mode, r.todo, r.s); }
  }

  lemma {:induction false} BeginGoesOn(spec: Spec, todo: seq<Task>, s: State, t: Task)
    requires t !in todo
    ensures var r := Begin(spec, Creating, todo, s); r.Pending? ==> t !in r.todo
    decreases |todo|
  {
    if todo != [] {
      BeginFollows(spec, Creating, todo, s);
      if Enter(spec, Creating, todo[0], s).Skip? { BeginGoesOn(spec, todo[1..], s, t); }
    }
  }

  /** What is behind a creation run stays behind it. */
  lemma ResumeGoesOn(spec: Spec, r: Run, resp: Resp, t: Task)
    requires r.Pending? && r.mode.Creating? && WellPhased(spec, r) && InMode(r.mode, r.phase) && t !in r.todo[1..]
    requires t in r.todo ==> r.phase.Making?
    ensures var r' := Resume(spec, r, resp); r'.Pending? ==> t !in r'.todo
  {
    var u, s, rest := r.todo[0], r.s, r.todo[1..];
    BeginGoesOn(spec, rest, s, t);
    match r.phase {
      case Looking => if resp.Gateway? || resp.Found? { BeginGoesOn(spec, rest, SetRef(s, u, resp.id), t); }
      case Listing => BeginGoesOn(spec, rest, TryRecover(spec, u, s, resp), t);
      case Reading => BeginGoesOn(spec, rest, Forget(u, s), t);
      case Writing(_) =>
      case Making => if resp.Made? { BeginGoesOn(spec, rest, WithMade(u, s, resp.id, resp.name), t); }
    }
  }

  ghost predicate Heading(sys: System, w: Shoot) {
    && Isolated(sys) && w in sys.members && sys.members[w].status.started == Some(true) && sys.members[w].run.Some?
    && var r, p := sys.members[w].run.value, ParentOfLast(sys.members[w].spec.nsxt3);
       && r.mode.Creating?
       && (r.Pending? && p in r.todo ==> Heads(r) && NoneOf(sys.store, w, p))
  }

  lemma CallMakesNone(st: Store, w: Shoot, spec: Spec, r: Run, a: Answer, p: Task)
    requires r.Pending? && r.mode.Creating? && OwnRun(st, w, spec, r) && NoneOf(st, w, p)
    requires r.phase.Writing? || r.phase.Making? ==> r.todo[0] != p
    requires Confined(st, After(st, w, NextOp(spec, r, a.draw), a), w)
    ensures NoneOf(After(st, w, NextOp(spec, r, a.draw), a), w, p)
  {
    var st' := After(st, w, NextOp(spec, r, a.draw), a);
    forall key: Key ensures key.kind == p && Mine(st', w, key) ==> Mine(st, w, key) {}
  }

  lemma CallHeading(sys: System, w: Shoot, a: Answer)
    requires Heading(sys, w) && CanHappen(sys, Call(w, a))
    ensures Heading(Step(sys, Call(w, a)), w)
  {
    StepIsolated(sys, Call(w, a));
    var m, r := sys.members[w], sys.members[w].run.value;
    var resp, p := Told(sys.store, PendingOp(m, a), a), ParentOfLast(m.spec.nsxt3);
    ResumeOnCourse(m.spec, r, resp);
    UpcomingTail(r.s.nsxt3, r.todo);
    if p !in r.todo || (r.todo[0] == p && r.phase.Making?) {
      ResumeGoesOn(m.spec, r, resp, p);
    } else {
      CallMakesNone(sys.store, w, m.spec, r, a, p);
      if r.todo[0] == p {
        ReadAnswer(sys.store, m.spec, r, a);
        assert !Mine(sys.store, w, KeyOf(p, r.s));
        GoneIsMade(m.spec, r, resp);
      } else {
        ComingHeads(m.spec, r, resp);
      }
    }
  }

  lemma StepHeading(sys: System, e: Event, w: Shoot)
    requires Heading(sys, w) && CanHappen(sys, e) && (e.who == w ==> e.Call?)
    ensures Heading(Step(sys, e), w)
  {
    if e.who == w {
      CallHeading(sys, w, e.answer);
    } else {
      StepIsolated(sys, e);
      OthersDoNotMatter(sys.store, Step(sys, e).store, e.who, w);
    }
  }

  lemma {:induction false} RunsHeading(sys: System, es: seq<Event>, w: Shoot)
    requires Heading(sys, w) && Possible(sys, es) && OnlyCalls(es, w)
    ensures Heading(Exec(sys, es), w) && SpecsOf(Exec(sys, es)) == SpecsOf(sys)
    decreases |es|
  {
    if es != [] {
      var n := |es| - 1;
      RunsHeading(sys, es[..n], w);
      StepHeading(Exec(sys, es[..n]), es[n], w);
      StepIsolated(Exec(sys, es[..n]), es[n]);
    }
  }

  /** A deletion run that has deleted the parent, with the child on record, dies or loses its final status write; and the
      next creation run starts. */
  ghost predicate DiesAndRestarts(sys: System, e: Event, start: Event, w: Shoot) {
    && InGoodOrder(sys, w) && CanHappen(sys, e) && e.who == w && (e.Crash? || (e.Finish? && !e.written))
    && (var m := sys.members[w];
        && m.run.value.mode.Deleting? && m.status.state.Some?
        && Gone(sys.store, m.status.state.value, ParentOfLast(m.spec.nsxt3))
        && LastOf(m.spec.nsxt3) in m.status.state.value.refs)
    && CanHappen(Step(sys, e), start) && start.Reconcile? && start.who == w
    && Step(Step(sys, e), start).members[w].run.Some?
  }

  lemma StartHeads(spec: Spec, s: State)
    requires UpdateExternal(spec, s) == s && !IsExternal(ParentOfLast(s.nsxt3), s)
    requires ParentOfLast(s.nsxt3) in s.refs && LastOf(s.nsxt3) in s.refs
    ensures Heads(StartCreate(spec, s))
  {
    TasksAreOrdered(s.nsxt3);
    assert Tasks(s.nsxt3)[0] == Tier0;
    BeginFollows(spec, Creating, Tasks(s.nsxt3), s);
  }

  lemma RestartHeads(sys: System, e: Event, start: Event, w: Shoot)
    requires DiesAndRestarts(sys, e, start, w)
    ensures var next := Step(Step(sys, e), start);
            && Heading(next, w) && next.store == sys.store && SpecsOf(next) == SpecsOf(sys)
            && Heads(next.members[w].run.value)
  {
    var m, s := sys.members[w], sys.members[w].status.state.value;
    StepIsolated(sys, e);
    StepIsolated(Step(sys, e), start);
    assert OwnRefs(sys.store, w, m.spec, s);
    StartHeads(m.spec, s);
    assert NothingFrom(sys.store, w, ParentOfLast(s.nsxt3));
  }

  predicate ToMakeParent(r: Run) {
    r.Pending? && r.phase.Making? && r.todo != [] && r.todo[0] == ParentOfLast(r.s.nsxt3)
  }

  lemma MakingOrphans(sys: System, w: Shoot)
    requires Heading(sys, w) && ToMakeParent(sys.members[w].run.value)
    ensures AboutToOrphan(sys, w)
  {}

  /** Whatever the calls of that creation run answer, if it comes to make the parent, the child is on record without it. */
  lemma OrphanArises(sys: System, e: Event, start: Event, es: seq<Event>, w: Shoot)
    requires DiesAndRestarts(sys, e, start, w) && Possible(Step(Step(sys, e), start), es) && OnlyCalls(es, w)
    requires var now := Exec(Step(Step(sys, e), start), es);
             && w in now.members && now.members[w].run.Some?
             && var r := now.members[w].run.value;
                r.Pending? && r.phase.Making? && r.todo != [] && r.todo[0] == ParentOfLast(sys.members[w].spec.nsxt3)
    ensures AboutToOrphan(Exec(Step(Step(sys, e), start), es), w)
  {
    RestartHeads(sys, e, start, w);
    var next := Step(Step(sys, e), start);
    RunsHeading(next, es, w);
    assert SpecsOf(Exec(next, es))[w] == SpecsOf(sys)[w];
  }

  /** A creation run on its way, with nothing in it: in version 1 the network is large enough, and the locale service is
      there. */
  ghost predicate FreeToHead(sys: System, was: map<Key, Obj>, w: Shoot) {
    && Heading(sys, w) && Underway(sys, was, w) && Heads(sys.members[w].run.value)
    && Provided(sys.store, sys.members[w].spec) && (sys.members[w].spec.nsxt3 || OnTrack(sys, was, w))
  }

  /** Before the gateway of version 2 there are only lookups. */
  lemma BeforeGateway(todo: seq<Task>)
    requires todo != [] && Upcoming(true, todo) && Tier1 in todo && todo[0] != Tier1
    ensures var t := todo[0]; t.Tier0? || t.TransportZone? || t.EdgeCluster? || t.IpPool?
    ensures Tier1 in todo[1..] && Upcoming(true, todo[1..])
  {
    UpcomingTail(true, todo);
  }

  lemma GatewayAhead(st: Store, w: Shoot, spec: Spec, r: Run, a: Answer)
    requires Heads(r) && OwnRun(st, w, spec, r) && r.s.nsxt3 && r.todo[0] != Tier1 && a.fault.Works? && Provided(st, spec)
    ensures !Resume(spec, r, Told(st, NextOp(spec, r, a.draw), a)).Finished?
  {
    BeforeGateway(r.todo);
    LookupAnswer(st, spec, r, a);
    BeginHeads(spec, r.todo[1..], SetRef(r.s, r.todo[0], Told(st, NextOp(spec, r, a.draw), a).id));
  }

  /** A call that works leads on. */
  lemma CallFreeToHead(sys: System, was: map<Key, Obj>, w: Shoot, a: Answer)
    requires FreeToHead(sys, was, w) && CanHappen(sys, Call(w, a)) && a.fault.Works?
    requires !ToMakeParent(sys.members[w].run.value)
    ensures FreeToHead(Step(sys, Call(w, a)), was, w)
    ensures Measure(Step(sys, Call(w, a)).members[w].run.value) < Measure(sys.members[w].run.value)
  {
    var m, r := sys.members[w], sys.members[w].run.value;
    var resp := Told(sys.store, PendingOp(m, a), a);
    StepIsolated(sys, Call(w, a));
    StepHeading(sys, Call(w, a), w);
    StepUnderway(sys, was, Call(w, a), w);
    EveryAnswerCounts(sys.store, w, m.spec, r, resp);
    if r.todo[0] == ParentOfLast(r.s.nsxt3) {
      ReadAnswer(sys.store, m.spec, r, a);
      assert !Mine(sys.store, w, KeyOf(r.todo[0], r.s));
      GoneIsMade(m.spec, r, resp);
    } else {
      ComingHeads(m.spec, r, resp);
      if m.spec.nsxt3 { GatewayAhead(sys.store, w, m.spec, r, a); }
    }
    if !m.spec.nsxt3 { StepProgresses(sys, Call(w, a), w); }
  }

  lemma NextFreeToHead(sys: System, was: map<Key, Obj>, w: Shoot) returns (e: Event)
    requires FreeToHead(sys, was, w) && !ToMakeParent(sys.members[w].run.value)
    ensures e.who == w && e.Call? && e.answer.fault.Works? && CanHappen(sys, e) && FreeToHead(Step(sys, e), was, w)
    ensures Measure(Step(sys, e).members[w].run.value) < Measure(sys.members[w].run.value)
  {
    var a := AnswerExists(sys.store, sys.members[w].spec, sys.members[w].run.value);
    CallFreeToHead(sys, was, w, a);
    e := Call(w, a);
  }

  lemma OneMore(e: Event, es: seq<Event>, w: Shoot)
    requires Undisturbed(es, w) && e.Call? && e.answer.fault.Works?
    ensures Undisturbed([e] + es, w)
  {}

  lemma {:induction false} ComesToParent(sys: System, was: map<Key, Obj>, w: Shoot) returns (es: seq<Event>, now: System)
    requires FreeToHead(sys, was, w)
    ensures Possible(sys, es) && now == Exec(sys, es) && Undisturbed(es, w)
    ensures FreeToHead(now, was, w) && ToMakeParent(now.members[w].run.value)
    decreases Measure(sys.members[w].run.value)
  {
    es, now := [], sys;
    if !ToMakeParent(sys.members[w].run.value) {
      var e := NextFreeToHead(sys, was, w);
      var rest, last := ComesToParent(Step(sys, e), was, w);
      ExecOne(sys, e, rest);
      OneMore(e, rest, w);
      es, now := [e] + rest, last;
    }
  }

  lemma RestartFree(sys: System, e: Event, start: Event, w: Shoot)
    requires DiesAndRestarts(sys, e, start, w)
    requires var m := sys.members[w]; m.spec.nsxt3 || Clear(sys.store, m.spec, m.status.state.value)
    ensures FreeToHead(Step(Step(sys, e), start), sys.store.objects, w)
  {
    RestartHeads(sys, e, start, w);
    StepIsolated(sys, e);
    StartUnderway(Step(sys, e), start, w);
    assert OwnRefs(sys.store, w, sys.members[w].spec, sys.members[w].status.state.value);
  }

  lemma CanBeRefused(sys: System, w: Shoot) returns (refused: Answer)
    requires AboutToOrphan(sys, w)
    ensures CanHappen(sys, Call(w, refused)) && refused.fault.Refused?
  {
    var a := AnswerExists(sys.store, sys.members[w].spec, sys.members[w].run.value);
    refused := a.(fault := Refused);
  }

  /** And it does come to it, if its calls work: in version 2 always; in version 1 if the network is large enough for DHCP
      and the locale service is still there. Then its creation can be refused. */
  lemma OrphanCanArise(sys: System, e: Event, start: Event, w: Shoot)
    returns (es: seq<Event>, now: System, refused: Answer)
    requires DiesAndRestarts(sys, e, start, w)
    requires var m := sys.members[w]; m.spec.nsxt3 || Clear(sys.store, m.spec, m.status.state.value)
    ensures Possible(Step(Step(sys, e), start), es) && Undisturbed(es, w) && now == Exec(Step(Step(sys, e), start), es)
    ensures AboutToOrphan(now, w) && CanHappen(now, Call(w, refused)) && refused.fault.Refused?
  {
    RestartFree(sys, e, start, w);
    es, now := ComesToParent(Step(Step(sys, e), start), sys.store.objects, w);
    MakingOrphans(now, w);
    refused := CanBeRefused(now, w);
  }

  // ---- deletion runs that find the child without its parent ----

  /** The run has not come to the deletions; it has the last object on record, but not the parent. */
  predicate OrphanRun(r: Run) {
    match r
    case Pending(mode, _, _, s) =>
      mode.Recovering? && LastOf(s.nsxt3) in s.refs && ParentOfLast(s.nsxt3) !in s.refs && !IsExternal(ParentOfLast(s.nsxt3), s)
    case Finished(_, _, _) => false
    case Panicked(mode) => !mode.Creating?
  }

  ghost predicate Orphaned(sys: System, w: Shoot) {
    && Isolated(sys) && w in sys.members && sys.members[w].run.Some?
    && NoneOf(sys.store, w, ParentOfLast(sys.members[w].spec.nsxt3))
    && OrphanRun(sys.members[w].run.value)
  }

  lemma {:induction false} BeginOrphaned(spec: Spec, todo: seq<Task>, s: State)
    requires LastOf(s.nsxt3) in s.refs && ParentOfLast(s.nsxt3) !in s.refs
    ensures var r := Begin(spec, Recovering, todo, s);
            if r.Pending? then r.mode.Recovering? && r.s == s else r.Panicked? && !r.mode.Creating?
    decreases |todo|
  {
    if todo == [] {
      DeletesLastFirst(spec, s);
    } else {
      BeginFollows(spec, Recovering, todo, s);
      EnterNeverFails(spec, todo[0], s);
      if Enter(spec, Recovering, todo[0], s).Skip? { BeginOrphaned(spec, todo[1..], s); }
    }
  }

  lemma EnterNeverFails(spec: Spec, t: Task, s: State)
    ensures !Enter(spec, Recovering, t, s).Fail?
  {}

  lemma DeletesLastFirst(spec: Spec, s: State)
    requires LastOf(s.nsxt3) in s.refs && ParentOfLast(s.nsxt3) !in s.refs
    ensures Begin(spec, Recovering, [], s) == Panicked(Deleting)
  {
    var tasks := Tasks(s.nsxt3);
    ReverseElements(tasks);
    assert tasks[|tasks| - 1] == LastOf(s.nsxt3);
    BeginFollows(spec, Deleting, Reverse(tasks), s);
  }

  lemma ParentNotListed(st: Store, w: Shoot, specs: Specs, t: Task, s: State, resp: Resp, p: Task)
    requires w in specs && TruthfulTags(st, specs) && NoneOf(st, w, p) && Owned(t) && HasParent(t, s)
    requires resp.Items? ==> Lists(st, t, ParentId(t, s), resp.items)
    ensures t == p ==> TryRecover(specs[w], t, s, resp) == s
  {
    if resp.Items? {
      FirstTaggedListed(resp.items, TagsOf(specs[w], t));
      var found := FirstTagged(resp.items, TagsOf(specs[w], t));
      if found.Some? { assert Mine(st, w, Key(t, ParentId(t, s), found.value.id)); }
    }
  }

  lemma ListedOrphaned(spec: Spec, todo: seq<Task>, s: State, resp: Resp)
    requires todo != [] && HasParent(todo[0], s) && LastOf(s.nsxt3) in s.refs && ParentOfLast(s.nsxt3) !in s.refs
    requires todo[0] == ParentOfLast(s.nsxt3) ==> TryRecover(spec, todo[0], s, resp) == s
    ensures var r := OnListed(spec, Recovering, todo, s, resp);
            if r.Pending? then r.mode.Recovering? && r.s == TryRecover(spec, todo[0], s, resp)
            else r.Panicked? && !r.mode.Creating?
  {
    BeginOrphaned(spec, todo[1..], TryRecover(spec, todo[0], s, resp));
  }

  lemma LookedOrphaned(spec: Spec, todo: seq<Task>, s: State, resp: Resp)
    requires todo != [] && LastOf(s.nsxt3) in s.refs && ParentOfLast(s.nsxt3) !in s.refs
    requires todo[0] != ParentOfLast(s.nsxt3)
    ensures var r := OnLooked(spec, Recovering, todo, s, resp);
            if r.Pending? then
              r.mode.Recovering? && LastOf(s.nsxt3) in r.s.refs && ParentOfLast(s.nsxt3) !in r.s.refs
              && r.s.nsxt3 == s.nsxt3 && r.s.external == s.external
            else r.Panicked? && !r.mode.Creating?
  {
    BeginOrphaned(spec, todo[1..], s);
    if resp.Found? || resp.Gateway? { BeginOrphaned(spec, todo[1..], SetRef(s, todo[0], resp.id)); }
  }

  lemma ListingOrphaned(st: Store, w: Shoot, specs: Specs, r: Run, a: Answer)
    requires w in specs && TruthfulTags(st, specs) && OwnRun(st, w, specs[w], r) && OrphanRun(r)
    requires r.Pending? && r.phase.Listing? && NoneOf(st, w, ParentOfLast(r.s.nsxt3))
    requires Admissible(st, NextOp(specs[w], r, a.draw), a)
    ensures OrphanRun(Resume(specs[w], r, Told(st, NextOp(specs[w], r, a.draw), a)))
  {
    var resp := Told(st, NextOp(specs[w], r, a.draw), a);
    ParentNotListed(st, w, specs, r.todo[0], r.s, resp, ParentOfLast(r.s.nsxt3));
    ListedOrphaned(specs[w], r.todo, r.s, resp);
  }

  lemma LookingOrphaned(spec: Spec, r: Run, resp: Resp)
    requires r.Pending? && r.phase.Looking? && WellPhased(spec, r) && InPhase(r.todo[0], r.phase, r.s) && OrphanRun(r)
    ensures OrphanRun(Resume(spec, r, resp))
  {
    LookedOrphaned(spec, r.todo, r.s, resp);
  }

  lemma CallOrphaned(sys: System, w: Shoot, a: Answer)
    requires Orphaned(sys, w) && CanHappen(sys, Call(w, a))
    ensures Orphaned(Step(sys, Call(w, a)), w)
  {
    StepIsolated(sys, Call(w, a));
    var m, r := sys.members[w], sys.members[w].run.value;
    if r.phase.Listing? {
      ListingOrphaned(sys.store, w, SpecsOf(sys), r, a);
    } else {
      LookingOrphaned(m.spec, r, Told(sys.store, PendingOp(m, a), a));
    }
  }

  lemma {:induction false} RunsOrphaned(sys: System, es: seq<Event>, w: Shoot)
    requires Orphaned(sys, w) && Possible(sys, es) && OnlyCalls(es, w)
    ensures Orphaned(Exec(sys, es), w)
    decreases |es|
  {
    if es != [] {
      var n := |es| - 1;
      RunsOrphaned(sys, es[..n], w);
      var before := Exec(sys, es[..n]);
      StepIsolated(before, es[n]);
      if es[n].who == w {
        CallOrphaned(before, w, es[n].answer);
      } else {
        OthersDoNotMatter(before.store, Step(before, es[n]).store, es[n].who, w);
      }
    }
  }

  lemma RefusedIsRecorded(sys: System, refused: Answer, w: Shoot)
    requires AboutToOrphan(sys, w) && CanHappen(sys, Call(w, refused)) && refused.fault.Refused?
    requires CanHappen(Step(sys, Call(w, refused)), Finish(w, true))
    ensures var m, recorded := sys.members[w], Step(Step(sys, Call(w, refused)), Finish(w, true));
            && Isolated(recorded) && recorded.store == sys.store
            && recorded.members[w] == Member(m.spec, Status(Some(true), Some(m.run.value.s)), None)
  {
    var failed := Step(sys, Call(w, refused));
    StepIsolated(sys, Call(w, refused));
    StepIsolated(failed, Finish(w, true));
    assert failed.members[w].run == Some(Finished(Creating, false, sys.members[w].run.value.s));
  }

  /** From there the creation of the parent need only be refused: the child stays on record without it, and every deletion
      run dereferences nil at the latest when it has recovered what there is. It neither succeeds nor fails. */
  lemma OrphanPanics(sys: System, refused: Answer, w: Shoot, start: Event, es: seq<Event>)
    requires AboutToOrphan(sys, w) && CanHappen(sys, Call(w, refused)) && refused.fault.Refused?
    requires CanHappen(Step(sys, Call(w, refused)), Finish(w, true))
    requires var recorded := Step(Step(sys, Call(w, refused)), Finish(w, true));
             && CanHappen(recorded, start) && start.Delete? && start.who == w && start.prepared
             && Possible(Step(recorded, start), es) && OnlyCalls(es, w)
    ensures var now := Exec(Step(Step(Step(sys, Call(w, refused)), Finish(w, true)), start), es);
            && w in now.members && now.members[w].run.Some?
            && (now.members[w].run.value.Panicked?
                || (now.members[w].run.value.Pending? && now.members[w].run.value.mode.Recovering?))
  {
    var m, s := sys.members[w], sys.members[w].run.value.s;
    var recorded := Step(Step(sys, Call(w, refused)), Finish(w, true));
    RefusedIsRecorded(sys, refused, w);
    StepIsolated(recorded, start);
    assert UpdateExternal(m.spec, s) == s;
    BeginOrphaned(m.spec, Tasks(s.nsxt3), s);
    RunsOrphaned(Step(recorded, start), es, w);
  }
}
