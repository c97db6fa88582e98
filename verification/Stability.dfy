/**
  The second run. Once a creation run has succeeded and its state is recorded, further creation runs of the shoot change
  neither the store nor the state, whatever fails, wherever they are cut off, and whatever the other shoots do.
 */
module Stability {
  import opened Basics
  import opened Protocol
  import opened World
  import opened Plan
  import opened Isolation
  import opened Convergence

  /** A run that finds everything as it should be. */
  ghost predicate Idle(st: Store, spec: Spec, s: State, r: Run) {
    match r
    case Pending(mode, todo, phase, s') =>
      && mode.Creating? && s' == s && todo != []
      && (match phase
          case Looking => !Owned(todo[0])
          case Reading => true
          case Writing(want) => WritingFits(st, spec, todo[0], phase, s) && Drifted(todo[0], st.objects[KeyOf(todo[0], s)], Wanted(todo[0], spec, s))
          case _ => false)
    case Finished(mode, _, s') => mode.Creating? && s' == s
    case Panicked(_) => false
  }

  /** With everything in place, a task looks up, reads, or is external. */
  lemma EnterIdle(st: Store, was: map<Key, Obj>, w: Shoot, spec: Spec, t: Task, s: State)
    requires AllGood(st, was, w, spec, s, []) && InPlan(s.nsxt3, t)
    ensures Enter(spec, Creating, t, s)
            == if !Owned(t) then Ask(Looking) else if IsExternal(t, s) then Skip else Ask(Reading)
  {
    assert Good(st, was, spec, s, t);
    if t.Address? { assert Good(st, was, spec, s, Alloc); }
  }

  lemma {:induction false} BeginIdle(st: Store, was: map<Key, Obj>, w: Shoot, spec: Spec, todo: seq<Task>, s: State)
    requires AllGood(st, was, w, spec, s, []) && Upcoming(s.nsxt3, todo)
    ensures Idle(st, spec, s, Begin(spec, Creating, todo, s))
    decreases |todo|
  {
    if todo != [] {
      BeginFollows(spec, Creating, todo, s);
      UpcomingTail(s.nsxt3, todo);
      EnterIdle(st, was, w, spec, todo[0], s);
      if Enter(spec, Creating, todo[0], s).Skip? { BeginIdle(st, was, w, spec, todo[1..], s); }
    }
  }

  lemma IdleLooking(st: Store, was: map<Key, Obj>, w: Shoot, spec: Spec, todo: seq<Task>, s: State, resp: Resp)
    requires AllGood(st, was, w, spec, s, []) && todo != [] && Upcoming(s.nsxt3, todo) && !Owned(todo[0])
    requires resp.Found? ==> todo[0] in s.refs && resp.id == s.refs[todo[0]]
    requires todo[0].Switch? ==> Segment in s.refs
    ensures Idle(st, spec, s, OnLooked(spec, Creating, todo, s, resp))
  {
    UpcomingTail(s.nsxt3, todo);
    if resp.Found? { assert SetRef(s, todo[0], resp.id) == s; }
    BeginIdle(st, was, w, spec, todo[1..], s);
  }

  lemma IdleReading(st: Store, was: map<Key, Obj>, w: Shoot, spec: Spec, todo: seq<Task>, s: State, resp: Resp)
    requires AllGood(st, was, w, spec, s, []) && todo != [] && Upcoming(s.nsxt3, todo)
    requires Owned(todo[0]) && Ready(todo[0], s) && LayoutOk(todo[0], spec) && Reachable(todo[0], s)
    requires resp.Err? || (KeyOf(todo[0], s) in st.objects && resp == One(st.objects[KeyOf(todo[0], s)]))
    ensures Idle(st, spec, s, OnRead(spec, Creating, todo, s, resp))
  {
    UpcomingTail(s.nsxt3, todo);
    BeginIdle(st, was, w, spec, todo[1..], s);
  }

  /** Patching what is as it should be changes nothing. */
  lemma IdleWriting(st: Store, was: map<Key, Obj>, w: Shoot, spec: Spec, todo: seq<Task>, s: State, want: Obj, a: Answer)
    requires AllGood(st, was, w, spec, s, []) && todo != [] && Upcoming(s.nsxt3, todo) && !IsExternal(todo[0], s)
    requires Idle(st, spec, s, Pending(Creating, todo, Writing(want), s))
    ensures var op := Write(KeyOf(todo[0], s), want);
            After(st, w, op, a) == st && Idle(st, spec, s, OnWritten(spec, Creating, todo, s, Told(st, op, a)))
  {
    var t, key := todo[0], KeyOf(todo[0], s);
    UpcomingTail(s.nsxt3, todo);
    assert Good(st, was, spec, s, t);
    var have := st.objects[key];
    assert Overwrite(st.objects, key, want) == Patched(t, have, want) == have;
    assert st.objects[key := have] == st.objects;
    BeginIdle(st, was, w, spec, todo[1..], s);
  }

  /** What a lookup finds is what is recorded. */
  lemma LooksUpTheSame(st: Store, was: map<Key, Obj>, w: Shoot, spec: Spec, r: Run, a: Answer)
    requires r.Pending? && r.phase.Looking? && WellPhased(spec, r) && AllGood(st, was, w, spec, r.s, [])
    requires !Owned(r.todo[0]) && InPlan(r.s.nsxt3, r.todo[0])
    ensures var t, resp := r.todo[0], Told(st, NextOp(spec, r, a.draw), a);
            && t in r.s.refs && (t.Switch? ==> Segment in r.s.refs) && (resp.Found? ==> resp.id == r.s.refs[t])
  {
    assert Good(st, was, spec, r.s, r.todo[0]);
  }

  lemma IdleAnswer(st: Store, was: map<Key, Obj>, w: Shoot, spec: Spec, s: State, r: Run, a: Answer)
    requires AllGood(st, was, w, spec, s, []) && Idle(st, spec, s, r) && r.Pending? && OwnRun(st, w, spec, r)
    ensures var op := NextOp(spec, r, a.draw);
            After(st, w, op, a) == st && Idle(st, spec, s, Resume(spec, r, Told(st, op, a)))
  {
    var todo, resp := r.todo, Told(st, NextOp(spec, r, a.draw), a);
    UpcomingTail(s.nsxt3, todo);
    assert Good(st, was, spec, s, todo[0]);
    match r.phase {
      case Looking =>
        LooksUpTheSame(st, was, w, spec, r, a);
        IdleLooking(st, was, w, spec, todo, s, resp);
      case Reading =>
        ReadAnswer(st, spec, r, a);
        IdleReading(st, was, w, spec, todo, s, resp);
      case Writing(want) => IdleWriting(st, was, w, spec, todo, s, want, a);
    }
  }

  // ---- among other shoots ----

  /** Everything is as the spec of shoot w wants it, and recorded. */
  ghost predicate Settled(sys: System, was: map<Key, Obj>, w: Shoot, s: State) {
    && Isolated(sys) && w in sys.members
    && var m := sys.members[w];
       && AllGood(sys.store, was, w, m.spec, s, [])
       && m.status.state == Some(s)
       && (m.run.Some? ==> Idle(sys.store, m.spec, s, m.run.value))
  }

  lemma IdleForOthers(st: Store, st': Store, w: Shoot, spec: Spec, s: State, r: Run)
    requires SameForShoot(st, st', w) && OwnRun(st, w, spec, r) && Idle(st, spec, s, r)
    ensures Idle(st', spec, s, r)
  {
    if r.Pending? && r.phase.Writing? {
      assert Mine(st, w, KeyOf(r.todo[0], s)) && Mine(st', w, KeyOf(r.todo[0], s));
    }
  }

  lemma StepSettled(sys: System, was: map<Key, Obj>, e: Event, w: Shoot, s: State)
    requires Settled(sys, was, w, s) && CanHappen(sys, e) && (e.who == w ==> !e.Delete?)
    ensures Settled(Step(sys, e), was, w, s)
    ensures e.who == w ==> Step(sys, e).store == sys.store
  {
    StepIsolated(sys, e);
    var m := sys.members[w];
    if e.who != w {
      OthersDoNotMatter(sys.store, Step(sys, e).store, e.who, w);
      AllGoodForOthers(sys.store, Step(sys, e).store, e.who, was, w, m.spec, s, []);
      if m.run.Some? { IdleForOthers(sys.store, Step(sys, e).store, w, m.spec, s, m.run.value); }
    } else if e.Call? {
      IdleAnswer(sys.store, was, w, m.spec, s, m.run.value, e.answer);
    } else if e.Reconcile? {
      TasksAreOrdered(s.nsxt3);
      assert UpdateExternal(m.spec, s) == s;
      BeginIdle(sys.store, was, w, m.spec, Tasks(s.nsxt3), s);
    }
  }

  predicate NoDelete(es: seq<Event>, w: Shoot) {
    forall e :: e in es && e.who == w ==> !e.Delete?
  }

  lemma {:induction false} RunsSettled(sys: System, was: map<Key, Obj>, es: seq<Event>, w: Shoot, s: State)
    requires Settled(sys, was, w, s) && Possible(sys, es) && NoDelete(es, w)
    ensures Settled(Exec(sys, es), was, w, s)
    decreases |es|
  {
    if es != [] {
      RunsSettled(sys, was, es[..|es| - 1], w, s);
      StepSettled(Exec(sys, es[..|es| - 1]), was, es[|es| - 1], w, s);
    }
  }

  /** After a creation run that succeeded and whose state was recorded, the shoot's further reconciles change nothing:
      no event of theirs changes the store, the recorded state stays, and so does the state of their runs. */
  lemma SecondRun(sys: System, start: Event, es: seq<Event>, w: Shoot, s: State, more: seq<Event>, e: Event)
    requires Starts(sys, start, w) && Possible(Step(sys, start), es) && OnlyCalls(es, w)
    requires Succeeded(Exec(Step(sys, start), es), w, s)
    requires CanHappen(Exec(Step(sys, start), es), Finish(w, true))
    requires var recorded := Step(Exec(Step(sys, start), es), Finish(w, true));
             Possible(recorded, more) && NoDelete(more, w) && CanHappen(Exec(recorded, more), e) && e.who == w && !e.Delete?
    ensures var now := Exec(Step(Exec(Step(sys, start), es), Finish(w, true)), more);
            && Step(now, e).store == now.store
            && w in now.members && now.members[w].status.state == Some(s)
            && (now.members[w].run.Some? ==> !now.members[w].run.value.Panicked? && now.members[w].run.value.s == s)
  {
    StartUnderway(sys, start, w);
    RunsUnderway(Step(sys, start), sys.store.objects, es, w);
    var first := Exec(Step(sys, start), es);
    StepIsolated(first, Finish(w, true));
    var recorded := Step(first, Finish(w, true));
    RunsSettled(recorded, sys.store.objects, more, w, s);
    StepSettled(Exec(recorded, more), sys.store.objects, e, w, s);
  }
}
