/**
  The shared NSX-T store, how it answers calls, and a system of many shoots whose actuators drive runs against it.
  Events are at API-call granularity: each call of each run is one event, so sequences of events are all
  interleavings, and a crash may fall between any two calls.
 */
module World {
  import opened Basics
  import opened Tags
  import opened Protocol
  import Authorization

  /** Shoots, as the keys of the system. */
  type Shoot = nat

  /** The store: the objects; what lookups by name answer; the externally managed gateways; and, for the
      specification only, which shoot each issued id was issued to. */
  datatype Store = Store(
    objects: map<Key, Obj>,
    catalog: map<(Task, string), Id>,
    gateways: map<Id, seq<Tag>>,
    issued: map<Id, Shoot>)

  /** A call takes effect and is answered, has no effect and fails, or has its effect while the answer is lost. */
  datatype Fault = Works | Refused | Lost

  /** What is left open about the answer: the fault, the order of a listing, the random draws. */
  datatype Answer = Answer(fault: Fault, listing: seq<Item>, draw: Draw)

  /** A listing shows exactly the objects of the kind under the parent, in any order. */
  ghost predicate Lists(st: Store, kind: Task, parent: Id, items: seq<Item>) {
    && (forall i :: 0 <= i < |items| ==>
          Key(kind, parent, items[i].id) in st.objects && st.objects[Key(kind, parent, items[i].id)] == items[i].obj)
    && (forall key :: key in st.objects && key.kind == kind && key.parent == parent ==>
          Item(key.id, st.objects[key]) in items)
  }

  /** A drawn id has never been used. */
  ghost predicate IsFresh(st: Store, id: Id) {
    && id !in st.issued && id !in st.gateways
    && forall key :: key in st.objects ==> IssuedId(key) != id && key.id != id
  }

  ghost predicate Admissible(st: Store, op: Op, a: Answer) {
    && (op.List? ==> Lists(st, op.kind, op.parent, a.listing))
    && (op.Make? && !op.key.kind.Locale? ==> IsFresh(st, op.key.id))
  }

  /** Writing over an object. The policy API keeps attributes that are not sent, the advanced API replaces all. */
  function Overwrite(objects: map<Key, Obj>, key: Key, o: Obj): Obj {
    if key in objects && !Advanced(key.kind) then Obj(objects[key].attrs + o.attrs, o.tags) else o
  }

  /** The effect of a call, if it has one. */
  function Effect(st: Store, who: Shoot, op: Op): Store {
    match op
    case Write(key, o) =>
      if Advanced(key.kind) && key !in st.objects then st
      else st.(objects := st.objects[key := Overwrite(st.objects, key, o)])
    case Make(key, o) =>
      st.(objects := st.objects[key := Overwrite(st.objects, key, o)], issued := st.issued[IssuedId(key) := who])
    case Erase(key) => st.(objects := st.objects - {key})
    case _ => st
  }

  ghost predicate IsAlloc(st: Store, id: Id) {
    exists p :: Key(Alloc, p, id) in st.objects
  }

  /** The answer to a call that works. */
  ghost function Reply(st: Store, op: Op, a: Answer): Resp {
    match op
    case Lookup(kind, name) => if (kind, name) in st.catalog then Found(st.catalog[(kind, name)]) else NotFound
    case LookupSwitch(segment) =>
      if segment.Some? && Key(Segment, ROOT, segment.value) in st.objects then Found(segment.value) else NotFound
    case Realize(alloc) => if IsAlloc(st, alloc) then Found(alloc) else Err
    case ReadGateway(id) => if id in st.gateways then Gateway(id, st.gateways[id]) else NotFound
    case List(_, _) => Items(a.listing)
    case Read(key) => if key in st.objects then One(st.objects[key]) else NotFound
    case Write(key, _) => if Advanced(key.kind) && key !in st.objects then NotFound else Done
    case Make(key, o) => Made(key.id, NameOf(o))
    case Erase(key) => if key in st.objects then Done else NotFound
  }

  function After(st: Store, who: Shoot, op: Op, a: Answer): Store {
    if a.fault.Refused? then st else Effect(st, who, op)
  }

  ghost function Told(st: Store, op: Op, a: Answer): Resp {
    if a.fault.Works? then Reply(st, op, a) else Err
  }

  /** The names of the spec can be looked up, and its external gateway admits the shoot. */
  predicate Provided(st: Store, spec: Spec) {
    && (forall t: Task :: t.Tier0? || t.TransportZone? || t.EdgeCluster? || t.IpPool? ==> (t, LookupName(spec, t)) in st.catalog)
    && (spec.externalTier1.Some? ==>
          spec.externalTier1.value in st.gateways
          && Authorization.Authorized(spec.gardenID, spec.namespace, TagsToMap(st.gateways[spec.externalTier1.value])))
  }

  // ---- one shoot and its actuator ----

  /** The persisted provider status. */
  datatype Status = Status(started: Option<bool>, state: Option<State>)

  datatype Member = Member(spec: Spec, status: Status, run: Option<Run>)

  datatype System = System(store: Store, members: map<Shoot, Member>)

  datatype Event =
    /** Reconcile starts: whether preparing succeeds, the connection check succeeds, the early status write is kept. */
    | Reconcile(who: Shoot, prepared: bool, connected: bool, written: bool)
    /** Delete starts: whether preparing succeeds. */
    | Delete(who: Shoot, prepared: bool)
    /** The run issues its next call. */
    | Call(who: Shoot, answer: Answer)
    /** The run is over; the final status write is kept or lost. */
    | Finish(who: Shoot, written: bool)
    /** The controller dies; what was not persisted is gone. */
    | Crash(who: Shoot)

  function InitialState(spec: Spec): State {
    State(spec.nsxt3, false, map[], None)
  }

  /** reconcile, up to the first call of EnsureInfrastructure. */
  function StartReconcile(m: Member, prepared: bool, connected: bool, written: bool): Member {
    var gated := m.status.started != Some(true);
    var ok := prepared && connected;
    var status := if gated && written then Status(Some(ok), m.status.state) else m.status;
    if (if gated then ok && written else prepared)
    then Member(m.spec, status, Some(StartCreate(m.spec, status.state.GetOr(InitialState(m.spec)))))
    else Member(m.spec, status, None)
  }

  predicate NothingToDelete(status: Status) {
    status.state.None? || status.started != Some(true)
  }

  /** delete, up to the first call of EnsureInfrastructureDeleted. */
  function StartDeletion(m: Member, prepared: bool): Member {
    if NothingToDelete(m.status) || !prepared then m
    else m.(run := Some(StartDelete(m.spec, m.status.state.value)))
  }

  /** The status write after a run. */
  function Persist(m: Member, written: bool): Member
    requires m.run.Some? && m.run.value.Finished?
  {
    Member(m.spec, if written then Status(Some(true), Some(m.run.value.s)) else m.status, None)
  }

  function PendingOp(m: Member, a: Answer): Op
    requires m.run.Some? && m.run.value.Pending? && WellPhased(m.spec, m.run.value)
  {
    NextOp(m.spec, m.run.value, a.draw)
  }

  ghost predicate CanHappen(sys: System, e: Event) {
    && e.who in sys.members
    && var m := sys.members[e.who];
       match e
       case Reconcile(_, _, _, _) => m.run.None?
       case Delete(_, _) => m.run.None?
       case Call(_, a) =>
         && m.run.Some? && m.run.value.Pending? && WellPhased(m.spec, m.run.value)
         && Admissible(sys.store, PendingOp(m, a), a)
       case Finish(_, _) => m.run.Some? && m.run.value.Finished?
       case Crash(_) => m.run.Some?
  }

  ghost function StepMember(sys: System, e: Event): Member
    requires CanHappen(sys, e)
  {
    var m := sys.members[e.who];
    match e
    case Reconcile(_, prepared, connected, written) => StartReconcile(m, prepared, connected, written)
    case Delete(_, prepared) => StartDeletion(m, prepared)
    case Call(_, a) => m.(run := Some(Resume(m.spec, m.run.value, Told(sys.store, PendingOp(m, a), a))))
    case Finish(_, written) => Persist(m, written)
    case Crash(_) => m.(run := None)
  }

  ghost function StepStore(sys: System, e: Event): Store
    requires CanHappen(sys, e)
  {
    if e.Call? then After(sys.store, e.who, PendingOp(sys.members[e.who], e.answer), e.answer) else sys.store
  }

  ghost function Step(sys: System, e: Event): System
    requires CanHappen(sys, e)
  {
    System(StepStore(sys, e), sys.members[e.who := StepMember(sys, e)])
  }

  /** A sequence of events that can happen one after the other. */
  ghost predicate Possible(sys: System, es: seq<Event>)
    decreases |es|, 0
  {
    es == [] || (Possible(sys, es[..|es| - 1]) && CanHappen(Exec(sys, es[..|es| - 1]), es[|es| - 1]))
  }

  ghost function Exec(sys: System, es: seq<Event>): System
    requires Possible(sys, es)
    decreases |es|, 1
  {
    if es == [] then sys else Step(Exec(sys, es[..|es| - 1]), es[|es| - 1])
  }

  lemma {:induction false} PossiblePrefix(sys: System, es: seq<Event>, n: nat)
    requires Possible(sys, es) && n <= |es|
    ensures Possible(sys, es[..n])
  {
    if n == |es| {
      assert es[..n] == es;
    } else {
      PossiblePrefix(sys, es[..|es| - 1], n);
      assert es[..|es| - 1][..n] == es[..n];
    }
  }

  // ---- kinds of event sequences ----

  /** Shoot w goes on with the run it has. */
  predicate OnlyCalls(es: seq<Event>, w: Shoot) {
    forall e :: e in es && e.who == w ==> e.Call?
  }

  /** And its calls work. */
  predicate Undisturbed(es: seq<Event>, w: Shoot) {
    forall e :: e in es && e.who == w ==> e.Call? && e.answer.fault.Works?
  }

  predicate NoReconcile(es: seq<Event>, w: Shoot) {
    forall e :: e in es && e.who == w ==> !e.Reconcile?
  }

  /** The deletion run of shoot w has succeeded. */
  predicate Deleted(sys: System, w: Shoot) {
    && w in sys.members && sys.members[w].run.Some?
    && sys.members[w].run.value.Finished? && sys.members[w].run.value.mode.Deleting? && sys.members[w].run.value.ok
  }
}
