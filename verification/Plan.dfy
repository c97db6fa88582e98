/**
  The plan: the order of the tasks in getTasks, forwards for creation and backwards for deletion, and the course of a
  run along it.
 */
module Plan {
  import opened Protocol

  // ---- the order of tasks ----

  function Rank(t: Task): nat {
    match t
    case Tier0 => 0
    case TransportZone => 1
    case EdgeCluster => 2
    case IpPool => 3
    case Tier1 => 4
    case Locale => 5
    case DhcpConfig => 6
    case Segment => 7
    case Alloc => 8
    case Address => 9
    case Rule => 10
    case Switch => 11
    case Profile => 12
    case Server => 13
    case Port => 14
    case Pool => 15
  }

  predicate InPlan(v: bool, t: Task) {
    match t
    case DhcpConfig => v
    case Switch => !v
    case Profile => !v
    case Server => !v
    case Port => !v
    case Pool => !v
    case _ => true
  }

  /** What is still to do lies in the plan, in order, and after everything that is done. */
  ghost predicate Upcoming(v: bool, todo: seq<Task>) {
    && (forall t :: t in todo ==> InPlan(v, t))
    && (forall i, j :: 0 <= i < j < |todo| ==> Rank(todo[i]) < Rank(todo[j]))
    && (forall t, u :: InPlan(v, t) && t !in todo && u in todo ==> Rank(t) < Rank(u))
  }

  /** The same for the way back. */
  ghost predicate Descending(v: bool, todo: seq<Task>) {
    && (forall t :: t in todo ==> InPlan(v, t))
    && (forall i, j :: 0 <= i < j < |todo| ==> Rank(todo[i]) > Rank(todo[j]))
    && (forall t, u :: InPlan(v, t) && t !in todo && u in todo ==> Rank(t) > Rank(u))
  }

  /** The position of a task in the list of getTasks. */
  function Position(v: bool, t: Task): nat
    requires InPlan(v, t)
  {
    if v || Rank(t) < 6 then Rank(t) else Rank(t) - 1
  }

  lemma TaskAt(v: bool, i: nat)
    requires i < |Tasks(v)|
    ensures InPlan(v, Tasks(v)[i]) && Position(v, Tasks(v)[i]) == i
  {
    if i < 6 {
      assert Tasks(v)[i] == [Tier0, TransportZone, EdgeCluster, IpPool, Tier1, Locale][i];
    } else if v {
      assert Tasks(v)[i] == [DhcpConfig, Segment, Alloc, Address, Rule][i - 6];
    } else {
      assert Tasks(v)[i] == [Segment, Alloc, Address, Rule, Switch, Profile, Server, Port, Pool][i - 6];
    }
  }

  lemma TaskPosition(v: bool, t: Task)
    requires InPlan(v, t)
    ensures Position(v, t) < |Tasks(v)| && Tasks(v)[Position(v, t)] == t
  {
    var i := Position(v, t);
    if i < 6 {
      assert Tasks(v)[i] == [Tier0, TransportZone, EdgeCluster, IpPool, Tier1, Locale][i];
    } else if v {
      assert Tasks(v)[i] == [DhcpConfig, Segment, Alloc, Address, Rule][i - 6];
    } else {
      assert Tasks(v)[i] == [Segment, Alloc, Address, Rule, Switch, Profile, Server, Port, Pool][i - 6];
    }
  }

  /** The list of getTasks is the plan, in the order of the references between the objects. */
  lemma TasksAreOrdered(v: bool)
    ensures Upcoming(v, Tasks(v))
    ensures forall t :: InPlan(v, t) <==> t in Tasks(v)
  {
    var ts := Tasks(v);
    forall i | 0 <= i < |ts| ensures InPlan(v, ts[i]) && Position(v, ts[i]) == i { TaskAt(v, i); }
    forall t | InPlan(v, t) ensures t in ts { TaskPosition(v, t); }
  }

  lemma {:induction false} ReverseElements(ts: seq<Task>)
    ensures |Reverse(ts)| == |ts|
    ensures forall i :: 0 <= i < |ts| ==> Reverse(ts)[i] == ts[|ts| - 1 - i]
    ensures forall t :: t in Reverse(ts) <==> t in ts
  {
    if ts != [] {
      ReverseElements(ts[1..]);
      assert ts == [ts[0]] + ts[1..];
    }
  }

  lemma ReverseDescends(v: bool)
    ensures Descending(v, Reverse(Tasks(v)))
    ensures forall t :: InPlan(v, t) <==> t in Reverse(Tasks(v))
  {
    TasksAreOrdered(v);
    ReverseElements(Tasks(v));
  }

  lemma UpcomingTail(v: bool, todo: seq<Task>)
    requires todo != [] && Upcoming(v, todo)
    ensures Upcoming(v, todo[1..])
    ensures forall t :: t in todo <==> t == todo[0] || t in todo[1..]
    ensures todo[0] !in todo[1..] && InPlan(v, todo[0])
    ensures forall t :: t in todo[1..] ==> Rank(todo[0]) < Rank(t)
    ensures forall t :: InPlan(v, t) ==> (t !in todo <==> Rank(t) < Rank(todo[0]))
  {
    assert todo == [todo[0]] + todo[1..];
    forall i | 0 <= i < |todo[1..]| ensures Rank(todo[0]) < Rank(todo[1..][i]) { assert todo[1..][i] == todo[i + 1]; }
  }

  lemma DescendingTail(v: bool, todo: seq<Task>)
    requires todo != [] && Descending(v, todo)
    ensures Descending(v, todo[1..])
    ensures forall t :: t in todo <==> t == todo[0] || t in todo[1..]
    ensures todo[0] !in todo[1..] && InPlan(v, todo[0])
    ensures forall t :: t in todo[1..] ==> Rank(t) < Rank(todo[0])
    ensures forall t :: InPlan(v, t) ==> (t !in todo <==> Rank(t) > Rank(todo[0]))
  {
    assert todo == [todo[0]] + todo[1..];
    forall i | 0 <= i < |todo[1..]| ensures Rank(todo[1..][i]) < Rank(todo[0]) { assert todo[1..][i] == todo[i + 1]; }
  }

  /** What is to do lies along the plan, forwards or backwards. */
  ghost predicate OnPlan(v: bool, mode: Mode, todo: seq<Task>) {
    if mode.Deleting? then Descending(v, todo) else Upcoming(v, todo)
  }

  lemma PlanTail(v: bool, mode: Mode, todo: seq<Task>)
    requires todo != [] && OnPlan(v, mode, todo)
    ensures OnPlan(v, mode, todo[1..]) && InPlan(v, todo[0])
  {
    if mode.Deleting? { DescendingTail(v, todo); } else { UpcomingTail(v, todo); }
  }

  // ---- the course of a run ----

  /** The phases of each mode. */
  predicate InMode(mode: Mode, phase: Phase) {
    match phase
    case Looking => !mode.Deleting?
    case Listing => !mode.Deleting?
    case Reading => mode.Creating?
    case Writing(_) => mode.Creating?
    case Making => mode.Creating?
    case Erasing => mode.Deleting?
    case Checking => mode.Deleting?
  }

  /** What a phase says about the task's own reference. */
  predicate InPhase(t: Task, phase: Phase, s: State) {
    match phase
    case Looking => Owned(t) ==> IsExternal(t, s) && t !in s.refs
    case Listing => !IsExternal(t, s) && t !in s.refs
    case Making => !IsExternal(t, s) && (t.Alloc? || t !in s.refs)
    case Checking => !IsExternal(t, s) && t.Locale?
    case _ => !IsExternal(t, s)
  }

  /** Creation stays creation, deletion stays deletion, recovery turns into deletion. */
  predicate SameCourse(m: Mode, m': Mode) {
    m' == m || (m.Recovering? && m'.Deleting?)
  }

  lemma {:induction false} BeginOnCourse(spec: Spec, mode: Mode, todo: seq<Task>, s: State)
    ensures SameCourse(mode, Begin(spec, mode, todo, s).mode)
    decreases mode.Recovering?, |todo|
  {
    if todo == [] {
      if mode.Recovering? { BeginOnCourse(spec, Deleting, Reverse(Tasks(s.nsxt3)), s); }
    } else {
      BeginOnCourse(spec, mode, todo[1..], s);
    }
  }

  lemma ResumeOnCourse(spec: Spec, r: Run, resp: Resp)
    requires r.Pending? && WellPhased(spec, r)
    ensures SameCourse(r.mode, Resume(spec, r, resp).mode)
  {
    var t, s, rest := r.todo[0], r.s, r.todo[1..];
    BeginOnCourse(spec, r.mode, rest, s);
    match r.phase {
      case Looking => if resp.Gateway? || resp.Found? { BeginOnCourse(spec, r.mode, rest, SetRef(s, t, resp.id)); }
      case Listing => BeginOnCourse(spec, r.mode, rest, TryRecover(spec, t, s, resp));
      case Reading => BeginOnCourse(spec, r.mode, rest, Forget(t, s));
      case Making => if resp.Made? { BeginOnCourse(spec, r.mode, rest, WithMade(t, s, resp.id, resp.name)); }
      case Erasing => BeginOnCourse(spec, r.mode, rest, ClearRef(s, t));
      case Checking => BeginOnCourse(spec, r.mode, rest, ClearRef(s, t));
      case _ =>
    }
  }

  /** One task at a time. */
  lemma BeginFollows(spec: Spec, mode: Mode, todo: seq<Task>, s: State)
    requires todo != []
    ensures var e := Enter(spec, mode, todo[0], s);
            Begin(spec, mode, todo, s) == if e.Skip? then Begin(spec, mode, todo[1..], s) else Follow(spec, mode, todo, s, e)
  {}
}
