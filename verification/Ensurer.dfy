/**
  The ensurer in the form of its source: methods that update the infrastructure state and call the API. The API
  carries, for the specification, the machine of Protocol.dfy; every call must be the one the machine issues next, and
  every method ends exactly where the machine does. So whatever is proved of the machine holds of this code.
  Tasks of the source that differ only in the kind of their object share a method.
 */
module Ensurer {
  import opened Basics
  import opened Tags
  import opened Protocol
  import Authorization
  import Plan

  /** A method returns without or with an error, or dereferences nil. */
  datatype Outcome = Success | Failure | Crashed

  const AllTasks: set<Task> :=
    {Tier0, TransportZone, EdgeCluster, IpPool, Tier1, Locale, DhcpConfig, Segment, Alloc, Address, Rule,
     Switch, Profile, Server, Port, Pool}

  lemma Updated(m: map<Task, Id>, m': map<Task, Id>, t: Task, ref: Option<Id>)
    requires forall u :: u in m' <==> if u == t then ref.Some? else u in m
    requires forall u :: u in m' ==> m'[u] == if u == t then ref.value else m[u]
    ensures m' == if ref.Some? then m[t := ref.value] else m - {t}
  {}

  lemma Same(m: map<Task, Id>, m': map<Task, Id>)
    requires forall t :: t in m' <==> t in m
    requires forall t :: t in m' ==> m'[t] == m[t]
    ensures m' == m
  {}

  /** NSXTInfraState, with its nullable references. */
  class InfraState {
    var nsxt3: bool
    var external: bool
    var tier0GatewayRef: Option<Id>
    var transportZoneRef: Option<Id>
    var edgeClusterRef: Option<Id>
    var snatIPPoolRef: Option<Id>
    var tier1GatewayRef: Option<Id>
    var localeServiceRef: Option<Id>
    var dhcpServerConfigRef: Option<Id>
    var segmentRef: Option<Id>
    var segmentName: Option<string>
    var snatIPAddressAllocRef: Option<Id>
    var snatIPAddress: Option<Id>
    var snatRuleRef: Option<Id>
    var logicalSwitchID: Option<Id>
    var profileID: Option<Id>
    var serverID: Option<Id>
    var portID: Option<Id>
    var ipPoolID: Option<Id>

    constructor (s: State)
      ensures View() == s
    {
      nsxt3, external, segmentName := s.nsxt3, s.external, s.segmentName;
      tier0GatewayRef, transportZoneRef := In(s, Tier0), In(s, TransportZone);
      edgeClusterRef, snatIPPoolRef := In(s, EdgeCluster), In(s, IpPool);
      tier1GatewayRef, localeServiceRef := In(s, Tier1), In(s, Locale);
      dhcpServerConfigRef, segmentRef := In(s, DhcpConfig), In(s, Segment);
      snatIPAddressAllocRef, snatIPAddress := In(s, Alloc), In(s, Address);
      snatRuleRef, logicalSwitchID := In(s, Rule), In(s, Switch);
      profileID, serverID, portID, ipPoolID := In(s, Profile), In(s, Server), In(s, Port), In(s, Pool);
      new;
      forall t ensures Ref(t) == In(s, t) {
        match t { case Tier0 => case Tier1 => case _ => }
      }
      Same(s.refs, View().refs);
    }

    static function In(s: State, t: Task): Option<Id> {
      if t in s.refs then Some(s.refs[t]) else None
    }

    /** The reference of a task. */
    function Ref(t: Task): Option<Id>
      reads this
    {
      match t
      case Tier0 => tier0GatewayRef
      case TransportZone => transportZoneRef
      case EdgeCluster => edgeClusterRef
      case IpPool => snatIPPoolRef
      case Tier1 => tier1GatewayRef
      case Locale => localeServiceRef
      case DhcpConfig => dhcpServerConfigRef
      case Segment => segmentRef
      case Alloc => snatIPAddressAllocRef
      case Address => snatIPAddress
      case Rule => snatRuleRef
      case Switch => logicalSwitchID
      case Profile => profileID
      case Server => serverID
      case Port => portID
      case Pool => ipPoolID
    }

    function View(): (s: State)
      reads this
      ensures forall t :: t in s.refs <==> Ref(t).Some?
      ensures forall t :: t in s.refs ==> Ref(t) == Some(s.refs[t])
      ensures s.nsxt3 == nsxt3 && s.external == external && s.segmentName == segmentName
    {
      State(nsxt3, external, map t | t in AllTasks && Ref(t).Some? :: Ref(t).value, segmentName)
    }

    /** Assigns the reference of a task. */
    method Assign(t: Task, ref: Option<Id>)
      modifies this
      ensures View() == old(View()).(refs := if ref.Some? then old(View()).refs[t := ref.value] else old(View()).refs - {t})
    {
      ghost var s := View();
      Store(t, ref);
      Updated(s.refs, View().refs, t, ref);
    }

    method Store(t: Task, ref: Option<Id>)
      modifies this
      ensures forall u :: Ref(u) == if u == t then ref else old(Ref(u))
      ensures nsxt3 == old(nsxt3) && external == old(external) && segmentName == old(segmentName)
    {
      match t {
        case Tier0 => tier0GatewayRef := ref;
        case TransportZone => transportZoneRef := ref;
        case EdgeCluster => edgeClusterRef := ref;
        case IpPool => snatIPPoolRef := ref;
        case Tier1 => tier1GatewayRef := ref;
        case Locale => localeServiceRef := ref;
        case DhcpConfig => dhcpServerConfigRef := ref;
        case Segment => segmentRef := ref;
        case Alloc => snatIPAddressAllocRef := ref;
        case Address => snatIPAddress := ref;
        case Rule => snatRuleRef := ref;
        case Switch => logicalSwitchID := ref;
        case Profile => profileID := ref;
        case Server => serverID := ref;
        case Port => portID := ref;
        case Pool => ipPoolID := ref;
      }
    }

    method Set(t: Task, id: Id)
      modifies this
      ensures View() == SetRef(old(View()), t, id)
    {
      Assign(t, Some(id));
    }

    method SetSegmentName(name: Option<string>)
      modifies this
      ensures View() == old(View()).(segmentName := name)
    {
      ghost var s := View();
      segmentName := name;
      Same(s.refs, View().refs);
    }

    /** Forgets a reference, a segment with its name, an allocation with its address. */
    method Clear(t: Task)
      modifies this
      ensures View() == ClearRef(old(View()), t)
    {
      Assign(t, None);
      if t.Segment? { SetSegmentName(None); }
      if t.Alloc? { Assign(Address, None); }
    }
  }

  /** The machine after a series of answers, if all of them were asked for. */
  ghost function Replay(spec: Spec, start: Run, told: seq<Resp>): Option<Run> {
    if told == [] then Some(start)
    else
      var before := Replay(spec, start, told[..|told| - 1]);
      if before.Some? && before.value.Pending? && WellPhased(spec, before.value)
      then Some(Resume(spec, before.value, told[|told| - 1])) else None
  }

  lemma ReplayStep(spec: Spec, start: Run, told: seq<Resp>, run: Run, resp: Resp)
    requires Replay(spec, start, told) == Some(run) && run.Pending? && WellPhased(spec, run)
    ensures Replay(spec, start, told + [resp]) == Some(Resume(spec, run, resp))
  {
    assert (told + [resp])[..|told + [resp]| - 1] == told;
  }

  /** The API, answering anything at all: the answers and the random draws are given beforehand. When they are used up,
      calls fail. */
  class Api {
    const spec: Spec
    var script: seq<Resp>
    var draws: seq<Draw>
    ghost var start: Run
    ghost var told: seq<Resp>
    ghost var run: Run

    constructor (spec: Spec, script: seq<Resp>, draws: seq<Draw>, ghost start: Run)
      ensures this.spec == spec && this.start == start && this.told == [] && this.run == start
      ensures this.script == script && this.draws == draws
    {
      this.spec, this.script, this.draws, this.start, this.told, this.run := spec, script, draws, start, [], start;
    }

    ghost predicate Valid()
      reads this
    {
      Replay(spec, start, told) == Some(run)
    }

    /** A call, which must be the one the machine issues. */
    method Call(op: Op) returns (resp: Resp)
      requires Valid() && run.Pending? && WellPhased(spec, run)
      requires exists draw :: op == NextOp(spec, run, draw)
      modifies this
      ensures Valid() && start == old(start) && told == old(told) + [resp]
      ensures run == Resume(spec, old(run), resp)
      ensures resp.Err? || |script| < old(|script|)
      ensures |script| <= old(|script|)
    {
      resp := Err;
      if script != [] {
        resp := script[0];
        script := script[1..];
      }
      ReplayStep(spec, start, told, run, resp);
      run := Resume(spec, run, resp);
      told := told + [resp];
    }

    method DrawNext() returns (draw: Draw)
      modifies this`draws
      ensures Valid() == old(Valid())
    {
      draw := Draw(0, "");
      if draws != [] {
        draw := draws[0];
        draws := draws[1..];
      }
    }
  }

  /** getTasks. */
  method GetTasks(state: InfraState) returns (tasks: seq<Task>)
    ensures tasks == Tasks(state.nsxt3)
  {
    tasks := [Tier0, TransportZone, EdgeCluster, IpPool, Tier1, Locale];
    if state.nsxt3 { tasks := tasks + [DhcpConfig]; }
    tasks := tasks + [Segment, Alloc, Address, Rule];
    if !state.nsxt3 { tasks := tasks + [Switch, Profile, Server, Port, Pool]; }
  }

  /** Where the machine is when a method returns. */
  ghost function AfterTask(spec: Spec, mode: Mode, todo: seq<Task>, s: State, outcome: Outcome): Run
    requires todo != []
  {
    match outcome
    case Success => Begin(spec, mode, todo[1..], s)
    case Failure => Failed(spec, mode, todo, s)
    case Crashed => Panicked(mode)
  }

  /** Where the machine is when Ensure is called. A recovery ignores errors. */
  ghost function AtEnsure(spec: Spec, mode: Mode, todo: seq<Task>, s: State): Run
    requires todo != []
  {
    var e := EnsureEntry(spec, todo[0], s);
    Follow(spec, mode, todo, s, if mode.Recovering? && e.Fail? then Skip else e)
  }

  // What the machine asks when a method is called, and what it makes of the answer, task by task.

  lemma AtLookup(spec: Spec, mode: Mode, todo: seq<Task>, s: State, resp: Resp)
    requires todo != [] && (todo[0].Tier0? || todo[0].TransportZone? || todo[0].EdgeCluster? || todo[0].IpPool?)
    ensures var r := AtEnsure(spec, mode, todo, s);
            && r == Pending(mode, todo, Looking, s) && WellPhased(spec, r)
            && NextOp(spec, r, Draw(0, "")) == Lookup(todo[0], LookupName(spec, todo[0]))
            && Resume(spec, r, resp) == if resp.Found? then AfterTask(spec, mode, todo, SetRef(s, todo[0], resp.id), Success)
                                        else AfterTask(spec, mode, todo, s, Failure)
  {}

  lemma AtAddress(spec: Spec, mode: Mode, todo: seq<Task>, s: State, resp: Resp)
    requires todo != [] && todo[0].Address?
    ensures var r := AtEnsure(spec, mode, todo, s);
            if Alloc in s.refs then
              && r == Pending(mode, todo, Looking, s) && WellPhased(spec, r)
              && NextOp(spec, r, Draw(0, "")) == Realize(s.refs[Alloc])
              && Resume(spec, r, resp) == if resp.Found? then AfterTask(spec, mode, todo, SetRef(s, Address, resp.id), Success)
                                          else AfterTask(spec, mode, todo, s, Failure)
            else r == AfterTask(spec, mode, todo, s, Failure)
  {}

  lemma AtSwitch(spec: Spec, mode: Mode, todo: seq<Task>, s: State, resp: Resp)
    requires todo != [] && todo[0].Switch?
    ensures var r := AtEnsure(spec, mode, todo, s);
            && r == Pending(mode, todo, Looking, s) && WellPhased(spec, r)
            && NextOp(spec, r, Draw(0, "")) == LookupSwitch(if Segment in s.refs then Some(s.refs[Segment]) else None)
            && Resume(spec, r, resp)
               == if !resp.Found? && !resp.NotFound? then AfterTask(spec, mode, todo, s, Failure)
                  else if Segment !in s.refs then AfterTask(spec, mode, todo, s, Crashed)
                  else if resp.Found? then AfterTask(spec, mode, todo, SetRef(s, Switch, resp.id), Success)
                  else AfterTask(spec, mode, todo, s, Failure)
  {}

  lemma AtExternal(spec: Spec, mode: Mode, todo: seq<Task>, s: State, resp: Resp)
    requires todo != [] && todo[0].Tier1? && IsExternal(Tier1, s)
    ensures var r := AtEnsure(spec, mode, todo, s);
            if Tier1 in s.refs then r == AfterTask(spec, mode, todo, s, Success)
            else if spec.externalTier1.None? then r == AfterTask(spec, mode, todo, s, Crashed)
            else
              && r == Pending(mode, todo, Looking, s) && WellPhased(spec, r)
              && NextOp(spec, r, Draw(0, "")) == ReadGateway(spec.externalTier1.value)
              && Resume(spec, r, resp)
                 == if resp.Gateway? && Authorization.Authorized(spec.gardenID, spec.namespace, TagsToMap(resp.tags))
                    then AfterTask(spec, mode, todo, SetRef(s, Tier1, resp.id), Success)
                    else AfterTask(spec, mode, todo, s, Failure)
  {}

  /** The tasks that create an object, called for an object of the shoot's own. */
  lemma AtObject(spec: Spec, mode: Mode, todo: seq<Task>, s: State)
    requires todo != [] && Owned(todo[0]) && !IsExternal(todo[0], s)
    ensures var r, t := AtEnsure(spec, mode, todo, s), todo[0];
            if !LayoutOk(t, spec) then r == AfterTask(spec, mode, todo, s, Failure)
            else if !Ready(t, s) then r == AfterTask(spec, mode, todo, s, Crashed)
            else r == Pending(mode, todo, if t in s.refs then Reading else Making, s) && WellPhased(spec, r)
  {}

  lemma AtReading(spec: Spec, mode: Mode, todo: seq<Task>, s: State, resp: Resp)
    requires todo != [] && Owned(todo[0]) && !IsExternal(todo[0], s) && LayoutOk(todo[0], spec) && Ready(todo[0], s)
    requires todo[0] in s.refs
    ensures var r, t := Pending(mode, todo, Reading, s), todo[0];
            && WellPhased(spec, r)
            && NextOp(spec, r, Draw(0, "")) == Read(KeyOf(t, s))
            && Resume(spec, r, resp)
               == if resp.One? then
                    if Drifted(t, resp.obj, Wanted(t, spec, s))
                    then Pending(mode, todo, Writing(Patch(t, spec, s, resp.obj)), s)
                    else AfterTask(spec, mode, todo, s, Success)
                  else if !resp.NotFound? then AfterTask(spec, mode, todo, s, Failure)
                  else if t.Alloc? then Pending(mode, todo, Making, s)
                  else AtEnsure(spec, mode, todo, Forget(t, s))
  {}

  lemma AtWriting(spec: Spec, mode: Mode, todo: seq<Task>, s: State, want: Obj, resp: Resp)
    requires todo != [] && Owned(todo[0]) && Reachable(todo[0], s)
    ensures var r := Pending(mode, todo, Writing(want), s);
            && WellPhased(spec, r)
            && NextOp(spec, r, Draw(0, "")) == Write(KeyOf(todo[0], s), want)
            && Resume(spec, r, resp) == AfterTask(spec, mode, todo, s, if resp.Done? then Success else Failure)
  {}

  lemma AtMaking(spec: Spec, mode: Mode, todo: seq<Task>, s: State, draw: Draw, resp: Resp)
    requires todo != [] && Owned(todo[0]) && !IsExternal(todo[0], s) && LayoutOk(todo[0], spec) && Ready(todo[0], s)
    requires HasParent(todo[0], s)
    ensures var r := Pending(mode, todo, Making, s);
            && WellPhased(spec, r)
            && NextOp(spec, r, draw) == Make(NewKey(todo[0], s, draw.id), Created(todo[0], spec, s, draw.suffix))
            && Resume(spec, r, resp)
               == if resp.Made? then AfterTask(spec, mode, todo, WithMade(todo[0], s, resp.id, resp.name), Success)
                  else AfterTask(spec, mode, todo, s, Failure)
  {}

  lemma AtListing(spec: Spec, mode: Mode, todo: seq<Task>, s: State, resp: Resp)
    requires todo != [] && Owned(todo[0]) && HasParent(todo[0], s)
    ensures var r := Pending(mode, todo, Listing, s);
            var s' := TryRecover(spec, todo[0], s, resp);
            && WellPhased(spec, r)
            && NextOp(spec, r, Draw(0, "")) == List(todo[0], ParentId(todo[0], s))
            && Resume(spec, r, resp) == if mode.Recovering? then Begin(spec, mode, todo[1..], s')
                                        else Follow(spec, mode, todo, s', EnsureEntry(spec, todo[0], s'))
  {}

  lemma AtErasing(spec: Spec, todo: seq<Task>, s: State, resp: Resp)
    requires todo != [] && Owned(todo[0]) && !IsExternal(todo[0], s) && Reachable(todo[0], s)
    ensures var r, t := Begin(spec, Deleting, todo, s), todo[0];
            && r == Pending(Deleting, todo, Erasing, s) && WellPhased(spec, r)
            && NextOp(spec, r, Draw(0, "")) == Erase(KeyOf(t, s))
            && Resume(spec, r, resp)
               == if resp.Done? || (resp.NotFound? && Advanced(t)) then AfterTask(spec, Deleting, todo, ClearRef(s, t), Success)
                  else if t.Locale? then Pending(Deleting, todo, Checking, s)
                  else AfterTask(spec, Deleting, todo, s, Failure)
  {}

  lemma AtChecking(spec: Spec, todo: seq<Task>, s: State, resp: Resp)
    requires todo != [] && Owned(todo[0]) && Reachable(todo[0], s)
    ensures var r, t := Pending(Deleting, todo, Checking, s), todo[0];
            && WellPhased(spec, r)
            && NextOp(spec, r, Draw(0, "")) == Read(KeyOf(t, s))
            && Resume(spec, r, resp) == if resp.NotFound? then AfterTask(spec, Deleting, todo, ClearRef(s, t), Success)
                                        else AfterTask(spec, Deleting, todo, s, Failure)
  {}

  lemma {:induction false} ReverseLast(ts: seq<Task>)
    requires ts != []
    ensures Reverse(ts) == [ts[|ts| - 1]] + Reverse(ts[..|ts| - 1])
  {
    Plan.ReverseElements(ts);
    Plan.ReverseElements(ts[..|ts| - 1]);
  }

  class InfraEnsurer {
    const api: Api

    constructor (api: Api)
      ensures this.api == api
    {
      this.api := api;
    }

    // ---- the lookup tasks ----

    /** The lookups of tier-0 gateway, transport zone, edge cluster and SNAT IP pool. */
    method EnsureLookup(t: Task, state: InfraState, ghost mode: Mode, ghost todo: seq<Task>) returns (outcome: Outcome)
      requires t.Tier0? || t.TransportZone? || t.EdgeCluster? || t.IpPool?
      requires api.Valid() && todo != [] && todo[0] == t && api.run == AtEnsure(api.spec, mode, todo, state.View())
      modifies api, state
      ensures api.Valid() && api.start == old(api.start) && state.nsxt3 == old(state.nsxt3)
      ensures api.run == AfterTask(api.spec, mode, todo, state.View(), outcome)
    {
      AtLookup(api.spec, mode, todo, state.View(), Err);
      var resp := api.Call(Lookup(t, LookupName(api.spec, t)));
      AtLookup(api.spec, mode, todo, state.View(), resp);
      if !resp.Found? { return Failure; }
      state.Set(t, resp.id);
      return Success;
    }

    method EnsureAddress(state: InfraState, ghost mode: Mode, ghost todo: seq<Task>) returns (outcome: Outcome)
      requires api.Valid() && todo != [] && todo[0].Address? && api.run == AtEnsure(api.spec, mode, todo, state.View())
      modifies api, state
      ensures api.Valid() && api.start == old(api.start) && state.nsxt3 == old(state.nsxt3)
      ensures api.run == AfterTask(api.spec, mode, todo, state.View(), outcome)
    {
      AtAddress(api.spec, mode, todo, state.View(), Err);
      if state.snatIPAddressAllocRef.None? { return Failure; }
      var resp := api.Call(Realize(state.snatIPAddressAllocRef.value));
      AtAddress(api.spec, mode, todo, state.View(), resp);
      if !resp.Found? { return Failure; }
      state.Set(Address, resp.id);
      return Success;
    }

    method EnsureLogicalSwitch(state: InfraState, ghost mode: Mode, ghost todo: seq<Task>) returns (outcome: Outcome)
      requires api.Valid() && todo != [] && todo[0].Switch? && api.run == AtEnsure(api.spec, mode, todo, state.View())
      modifies api, state
      ensures api.Valid() && api.start == old(api.start) && state.nsxt3 == old(state.nsxt3)
      ensures api.run == AfterTask(api.spec, mode, todo, state.View(), outcome)
    {
      AtSwitch(api.spec, mode, todo, state.View(), Err);
      var resp := api.Call(LookupSwitch(state.segmentRef));
      AtSwitch(api.spec, mode, todo, state.View(), resp);
      if !resp.Found? && !resp.NotFound? { return Failure; }
      if state.segmentRef.None? { return Crashed; }
      if resp.NotFound? { return Failure; }
      state.Set(Switch, resp.id);
      return Success;
    }

    // ---- the tasks that create objects ----

    method EnsureExternal(state: InfraState, ghost mode: Mode, ghost todo: seq<Task>) returns (outcome: Outcome)
      requires api.Valid() && todo != [] && todo[0].Tier1? && state.external
      requires api.run == AtEnsure(api.spec, mode, todo, state.View())
      modifies api, state
      ensures api.Valid() && api.start == old(api.start) && state.nsxt3 == old(state.nsxt3)
      ensures api.run == AfterTask(api.spec, mode, todo, state.View(), outcome)
    {
      var spec := api.spec;
      AtExternal(spec, mode, todo, state.View(), Err);
      if state.tier1GatewayRef.None? {
        if spec.externalTier1.None? { return Crashed; }
        var resp := api.Call(ReadGateway(spec.externalTier1.value));
        AtExternal(spec, mode, todo, state.View(), resp);
        if !resp.Gateway? { return Failure; }
        var tagmap := TagsToMapLoop(resp.tags);
        var authorized := Authorization.CheckShootAuthorizationByTags(spec.gardenID, spec.namespace, tagmap);
        if !authorized { return Failure; }
        state.Set(Tier1, resp.id);
      }
      return Success;
    }

    method Update(t: Task, have: Obj, state: InfraState, ghost mode: Mode, ghost todo: seq<Task>) returns (outcome: Outcome)
      requires api.Valid() && todo != [] && todo[0] == t
      requires Owned(t) && Reachable(t, state.View()) && Ready(t, state.View()) && LayoutOk(t, api.spec)
      requires api.run == if Drifted(t, have, Wanted(t, api.spec, state.View()))
                          then Pending(mode, todo, Writing(Patch(t, api.spec, state.View(), have)), state.View())
                          else AfterTask(api.spec, mode, todo, state.View(), Success)
      modifies api
      ensures api.Valid() && api.start == old(api.start)
      ensures api.run == AfterTask(api.spec, mode, todo, state.View(), outcome)
    {
      var s := state.View();
      var want := Wanted(t, api.spec, s);
      if !Drifted(t, have, want) { return Success; }
      var tags := MergeTagsLoop(want.tags, have.tags);
      var patch := want.(tags := tags);
      AtWriting(api.spec, mode, todo, s, patch, Err);
      var resp := api.Call(Write(KeyOf(t, s), patch));
      AtWriting(api.spec, mode, todo, s, patch, resp);
      return if resp.Done? then Success else Failure;
    }

    method Create(t: Task, state: InfraState, ghost mode: Mode, ghost todo: seq<Task>) returns (outcome: Outcome)
      requires api.Valid() && todo != [] && todo[0] == t && Owned(t) && !IsExternal(t, state.View())
      requires Ready(t, state.View()) && LayoutOk(t, api.spec) && HasParent(t, state.View())
      requires api.run == Pending(mode, todo, Making, state.View())
      modifies api, state
      ensures api.Valid() && api.start == old(api.start) && state.nsxt3 == old(state.nsxt3)
      ensures api.run == AfterTask(api.spec, mode, todo, state.View(), outcome)
    {
      var s := state.View();
      var draw := api.DrawNext();
      AtMaking(api.spec, mode, todo, s, draw, Err);
      var resp := api.Call(Make(NewKey(t, s, draw.id), Created(t, api.spec, s, draw.suffix)));
      AtMaking(api.spec, mode, todo, s, draw, resp);
      if !resp.Made? { return Failure; }
      state.Set(t, if t.Locale? then ParentId(t, s) else resp.id);
      if t.Segment? { state.SetSegmentName(resp.name); }
      return Success;
    }

    /** Reads the recorded object and updates it; or, if it is gone, forgets it. */
    method EnsureRecorded(t: Task, state: InfraState, ghost mode: Mode, ghost todo: seq<Task>)
      returns (gone: bool, outcome: Outcome)
      requires api.Valid() && todo != [] && todo[0] == t && Owned(t) && !IsExternal(t, state.View())
      requires Ready(t, state.View()) && LayoutOk(t, api.spec) && t in state.View().refs
      requires api.run == Pending(mode, todo, Reading, state.View())
      modifies api, state
      ensures api.Valid() && api.start == old(api.start) && state.nsxt3 == old(state.nsxt3)
      ensures if !gone then api.run == AfterTask(api.spec, mode, todo, state.View(), outcome)
              else |api.script| < old(|api.script|)
                   && if t.Alloc? then state.View() == old(state.View()) && api.run == Pending(mode, todo, Making, state.View())
                      else state.View() == Forget(t, old(state.View())) && api.run == AtEnsure(api.spec, mode, todo, state.View())
    {
      var s := state.View();
      AtReading(api.spec, mode, todo, s, Err);
      var resp := api.Call(Read(KeyOf(t, s)));
      AtReading(api.spec, mode, todo, s, resp);
      if resp.One? {
        outcome := Update(t, resp.obj, state, mode, todo);
        return false, outcome;
      }
      if !resp.NotFound? { return false, Failure; }
      if !t.Alloc? { state.Clear(if t.Locale? then Tier1 else t); }
      return true, Failure;
    }

    /** What a task does before its first call: it computes the layout, if it needs one, and dereferences what other tasks
        have recorded; a locale service that is not recorded is created under the gateway. */
    method Prepare(t: Task, state: InfraState) returns (stop: Option<Outcome>)
      requires Owned(t)
      ensures stop == if !LayoutOk(t, api.spec) then Some(Failure) else if !Ready(t, state.View()) then Some(Crashed) else None
    {
      match t {
        case Tier1 =>
          if state.tier0GatewayRef.None? { return Some(Crashed); }
        case Locale =>
          if state.edgeClusterRef.None? { return Some(Crashed); }
          if state.localeServiceRef.None? && state.tier1GatewayRef.None? { return Some(Crashed); }
        case DhcpConfig =>
          if state.edgeClusterRef.None? { return Some(Crashed); }
        case Segment =>
          if api.spec.layout.None? { return Some(Failure); }
          if state.tier1GatewayRef.None? || state.transportZoneRef.None? { return Some(Crashed); }
        case Alloc =>
          if state.snatIPPoolRef.None? { return Some(Crashed); }
        case Rule =>
          if state.snatIPAddress.None? || state.tier1GatewayRef.None? { return Some(Crashed); }
        case Profile =>
          if state.edgeClusterRef.None? { return Some(Crashed); }
        case Server =>
          if api.spec.layout.None? { return Some(Failure); }
          if state.profileID.None? { return Some(Crashed); }
        case Port =>
          if state.serverID.None? || state.logicalSwitchID.None? { return Some(Crashed); }
        case Pool =>
          if api.spec.layout.None? { return Some(Failure); }
          if state.serverID.None? { return Some(Crashed); }
      }
      return None;
    }

    /** Ensure of a task that creates an object. Not finding the recorded object makes it start over. */
    method EnsureObject(t: Task, state: InfraState, ghost mode: Mode, ghost todo: seq<Task>) returns (outcome: Outcome)
      requires api.Valid() && todo != [] && todo[0] == t && Owned(t) && !IsExternal(t, state.View())
      requires api.run == AtEnsure(api.spec, mode, todo, state.View())
      modifies api, state
      ensures api.Valid() && api.start == old(api.start) && state.nsxt3 == old(state.nsxt3)
      ensures api.run == AfterTask(api.spec, mode, todo, state.View(), outcome)
      decreases |api.script|, 1
    {
      AtObject(api.spec, mode, todo, state.View());
      var stop := Prepare(t, state);
      if stop.Some? { return stop.value; }
      outcome := EnsurePrepared(t, state, mode, todo);
    }

    method EnsurePrepared(t: Task, state: InfraState, ghost mode: Mode, ghost todo: seq<Task>) returns (outcome: Outcome)
      requires api.Valid() && todo != [] && todo[0] == t && Owned(t) && !IsExternal(t, state.View())
      requires LayoutOk(t, api.spec) && Ready(t, state.View())
      requires api.run == Pending(mode, todo, if t in state.View().refs then Reading else Making, state.View())
      modifies api, state
      ensures api.Valid() && api.start == old(api.start) && state.nsxt3 == old(state.nsxt3)
      ensures api.run == AfterTask(api.spec, mode, todo, state.View(), outcome)
      decreases |api.script|, 0
    {
      if state.Ref(t).Some? {
        var gone;
        gone, outcome := EnsureRecorded(t, state, mode, todo);
        if !gone { return; }
        if !t.Alloc? {
          outcome := EnsureObject(t, state, mode, todo);
          return;
        }
      }
      outcome := Create(t, state, mode, todo);
    }

    method Ensure(t: Task, state: InfraState, ghost mode: Mode, ghost todo: seq<Task>) returns (outcome: Outcome)
      requires api.Valid() && todo != [] && todo[0] == t && api.run == AtEnsure(api.spec, mode, todo, state.View())
      modifies api, state
      ensures api.Valid() && api.start == old(api.start) && state.nsxt3 == old(state.nsxt3)
      ensures api.run == AfterTask(api.spec, mode, todo, state.View(), outcome)
    {
      if t.Address? {
        outcome := EnsureAddress(state, mode, todo);
      } else if t.Switch? {
        outcome := EnsureLogicalSwitch(state, mode, todo);
      } else if !Owned(t) {
        outcome := EnsureLookup(t, state, mode, todo);
      } else if t.Tier1? && state.external {
        outcome := EnsureExternal(state, mode, todo);
      } else if t.Locale? && state.external {
        outcome := Success;
      } else {
        outcome := EnsureObject(t, state, mode, todo);
      }
    }

    // ---- recovery ----

    /** ListAll, the scan for the tags, and SetRecoveredReference. */
    method Recover(t: Task, state: InfraState, ghost mode: Mode, ghost todo: seq<Task>)
      requires api.Valid() && todo != [] && todo[0] == t && Owned(t) && HasParent(t, state.View())
      requires api.run == Pending(mode, todo, Listing, state.View())
      modifies api, state
      ensures api.Valid() && api.start == old(api.start) && state.nsxt3 == old(state.nsxt3)
      ensures api.run == if mode.Recovering? then Begin(api.spec, mode, todo[1..], state.View())
                         else Follow(api.spec, mode, todo, state.View(), EnsureEntry(api.spec, t, state.View()))
      ensures IsExternal(t, state.View()) == old(IsExternal(t, state.View()))
    {
      var s := state.View();
      AtListing(api.spec, mode, todo, s, Err);
      var resp := api.Call(List(t, ParentId(t, s)));
      AtListing(api.spec, mode, todo, s, resp);
      if resp.Items? {
        var found := FirstTagged(resp.items, TagsOf(api.spec, t));
        if found.Some? {
          state.Set(t, if t.Locale? then ParentId(t, s) else found.value.id);
          if t.Segment? { state.SetSegmentName(NameOf(found.value.obj)); }
        }
      }
    }

    /** tryRecover before Ensure. */
    method TryRecoverFirst(t: Task, state: InfraState, ghost todo: seq<Task>)
      requires api.Valid() && todo != [] && todo[0] == t && api.run == Begin(api.spec, Creating, todo, state.View())
      modifies api, state
      ensures api.Valid() && api.start == old(api.start) && state.nsxt3 == old(state.nsxt3)
      ensures api.run == AtEnsure(api.spec, Creating, todo, state.View())
    {
      var s := state.View();
      if t !in s.refs && Owned(t) && !IsExternal(t, s) && HasParent(t, s) {
        Recover(t, state, Creating, todo);
      }
    }

    /** tryRecover before a deletion: whatever is not recoverable is looked up. Only a panic is not ignored. */
    method TryRecoverAll(t: Task, state: InfraState, ghost todo: seq<Task>) returns (crashed: bool)
      requires api.Valid() && todo != [] && todo[0] == t && api.run == Begin(api.spec, Recovering, todo, state.View())
      modifies api, state
      ensures api.Valid() && api.start == old(api.start) && state.nsxt3 == old(state.nsxt3)
      ensures api.run == if crashed then Panicked(Recovering) else Begin(api.spec, Recovering, todo[1..], state.View())
    {
      var s := state.View();
      if t !in s.refs {
        if Owned(t) && !IsExternal(t, s) {
          if HasParent(t, s) { Recover(t, state, Recovering, todo); }
        } else {
          var outcome := Ensure(t, state, Recovering, todo);
          return outcome.Crashed?;
        }
      }
      return false;
    }

    // ---- deletion ----

    /** The references through which the object of a task is deleted. */
    method CanErase(t: Task, state: InfraState) returns (ok: bool)
      requires Owned(t) && state.Ref(t).Some?
      ensures ok == Reachable(t, state.View())
    {
      match t {
        case Alloc => return state.snatIPPoolRef.Some?;
        case Rule => return state.tier1GatewayRef.Some?;
        case Pool => return state.serverID.Some?;
        case _ => return true;
      }
    }

    /** The deletion call. The advanced API tolerates that the object is gone, the locale service asks when in doubt. */
    method Erase(t: Task, state: InfraState, ghost todo: seq<Task>) returns (ok: bool)
      requires api.Valid() && todo != [] && todo[0] == t && api.run == Begin(api.spec, Deleting, todo, state.View())
      requires Owned(t) && !IsExternal(t, state.View()) && Reachable(t, state.View())
      modifies api
      ensures api.Valid() && api.start == old(api.start)
      ensures api.run == if ok then AfterTask(api.spec, Deleting, todo, ClearRef(state.View(), t), Success)
                         else AfterTask(api.spec, Deleting, todo, state.View(), Failure)
    {
      var s := state.View();
      AtErasing(api.spec, todo, s, Err);
      var resp := api.Call(Op.Erase(KeyOf(t, s)));
      AtErasing(api.spec, todo, s, resp);
      if resp.Done? || (resp.NotFound? && Advanced(t)) { return true; }
      if !t.Locale? { return false; }
      AtChecking(api.spec, todo, s, Err);
      resp := api.Call(Read(KeyOf(t, s)));
      AtChecking(api.spec, todo, s, resp);
      return resp.NotFound?;
    }

    /** EnsureDeleted. */
    method EnsureDeleted(t: Task, state: InfraState, ghost todo: seq<Task>) returns (outcome: Outcome)
      requires api.Valid() && todo != [] && todo[0] == t && api.run == Begin(api.spec, Deleting, todo, state.View())
      modifies api, state
      ensures api.Valid() && api.start == old(api.start) && state.nsxt3 == old(state.nsxt3)
      ensures api.run == AfterTask(api.spec, Deleting, todo, state.View(), outcome)
    {
      if !Owned(t) || IsExternal(t, state.View()) || state.Ref(t).None? { return Success; }
      var ok := CanErase(t, state);
      if !ok { return Crashed; }
      ok := Erase(t, state, todo);
      if !ok { return Failure; }
      state.Clear(t);
      return Success;
    }

    // ---- the two operations ----

    method UpdateExternalState(state: InfraState)
      modifies state
      ensures state.View() == UpdateExternal(api.spec, old(state.View()))
    {
      ghost var s := state.View();
      if api.spec.externalTier1.Some? { state.external := true; }
      Same(s.refs, state.View().refs);
    }

    /** EnsureInfrastructure does what the machine does, call by call: it ends when the machine ends, in the same way,
        with the same state. */
    method EnsureInfrastructure(state: InfraState) returns (outcome: Outcome)
      requires api.Valid() && api.told == [] && api.run == StartCreate(api.spec, state.View())
      modifies api, state
      ensures Replay(api.spec, StartCreate(api.spec, old(state.View())), api.told)
              == Some(if outcome.Crashed? then Panicked(Creating) else Finished(Creating, outcome.Success?, state.View()))
    {
      UpdateExternalState(state);
      var tasks := GetTasks(state);
      for i := 0 to |tasks|
        invariant api.Valid() && api.start == old(api.start)
        invariant api.run == Begin(api.spec, Creating, tasks[i..], state.View())
      {
        TryRecoverFirst(tasks[i], state, tasks[i..]);
        outcome := Ensure(tasks[i], state, Creating, tasks[i..]);
        if !outcome.Success? { return; }
        assert tasks[i..][1..] == tasks[i + 1..];
      }
      assert tasks[|tasks|..] == [];
      return Success;
    }

    /** EnsureInfrastructureDeleted does what the machine does: recovery in the order of creation, then deletion. */
    method EnsureInfrastructureDeleted(state: InfraState) returns (outcome: Outcome)
      requires api.Valid() && api.told == [] && api.run == StartDelete(api.spec, state.View())
      modifies api, state
      ensures Replay(api.spec, StartDelete(api.spec, old(state.View())), api.told)
              == Some(if outcome.Crashed? then Panicked(api.run.mode) else Finished(Deleting, outcome.Success?, state.View()))
    {
      var tasks := GetTasks(state);
      UpdateExternalState(state);
      var crashed := RecoverTasks(tasks, state);
      if crashed { return Crashed; }
      outcome := DeleteTasks(tasks, state);
    }

    /** Its first loop: errors are ignored. */
    method RecoverTasks(tasks: seq<Task>, state: InfraState) returns (crashed: bool)
      requires api.Valid() && api.run == Begin(api.spec, Recovering, tasks, state.View())
      modifies api, state
      ensures api.Valid() && api.start == old(api.start) && state.nsxt3 == old(state.nsxt3)
      ensures api.run == if crashed then Panicked(Recovering) else Begin(api.spec, Recovering, [], state.View())
    {
      for i := 0 to |tasks|
        invariant api.Valid() && api.start == old(api.start) && state.nsxt3 == old(state.nsxt3)
        invariant api.run == Begin(api.spec, Recovering, tasks[i..], state.View())
      {
        crashed := TryRecoverAll(tasks[i], state, tasks[i..]);
        if crashed { return; }
        assert tasks[i..][1..] == tasks[i + 1..];
      }
      return false;
    }

    /** Its second loop: backwards, up to the first error. */
    method DeleteTasks(tasks: seq<Task>, state: InfraState) returns (outcome: Outcome)
      requires api.Valid() && api.run == Begin(api.spec, Deleting, Reverse(tasks), state.View())
      modifies api, state
      ensures api.Valid() && api.start == old(api.start)
      ensures api.run == if outcome.Crashed? then Panicked(Deleting) else Finished(Deleting, outcome.Success?, state.View())
    {
      var i := |tasks|;
      assert tasks[..|tasks|] == tasks;
      while i > 0
        invariant 0 <= i <= |tasks|
        invariant api.Valid() && api.start == old(api.start)
        invariant api.run == Begin(api.spec, Deleting, Reverse(tasks[..i]), state.View())
      {
        i := i - 1;
        ReverseLast(tasks[..i + 1]);
        assert tasks[..i + 1][..i] == tasks[..i];
        outcome := EnsureDeleted(tasks[i], state, Reverse(tasks[..i + 1]));
        if !outcome.Success? { return; }
      }
      return Success;
    }
  }
}
