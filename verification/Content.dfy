/**
  What is in the objects. What a creation run sends, and what it leaves when it succeeds, is said here attribute by
  attribute, by what the store, the catalog and the spec have; tags of others survive, and nothing is patched without need.
 */
module Content {
  import opened Basics
  import opened Tags
  import opened Protocol
  import opened World
  import opened Plan
  import opened Isolation
  import opened References
  import opened Convergence
  import opened Integrity
  import opened Stability
  import opened Anchoring
  import opened Recovery

  // ---- what the spec asks for ----

  predicate Has(attrs: map<Attr, Value>, a: Attr, v: Value) {
    a in attrs && attrs[a] == v
  }

  /** The path of what the catalog lists under a name. */
  predicate HasListed(st: Store, attrs: map<Attr, Value>, a: Attr, kind: Task, name: string) {
    (kind, name) in st.catalog && Has(attrs, a, PathTo(Key(kind, ROOT, st.catalog[(kind, name)])))
  }

  /** The path of an object of the shoot. */
  ghost predicate HasOwn(st: Store, w: Shoot, attrs: map<Attr, Value>, a: Attr, kind: Task) {
    && a in attrs && attrs[a].PathTo?
    && attrs[a].key.kind == kind && attrs[a].key.parent == ROOT && Mine(st, w, attrs[a].key)
  }

  /** The gateway: the external one, or the shoot's. */
  ghost predicate IsGateway(st: Store, w: Shoot, spec: Spec, id: Id) {
    if spec.externalTier1.Some? then id == spec.externalTier1.value else Mine(st, w, Key(Tier1, ROOT, id))
  }

  ghost predicate HasGateway(st: Store, w: Shoot, spec: Spec, attrs: map<Attr, Value>, a: Attr) {
    && a in attrs && attrs[a].PathTo?
    && attrs[a].key.kind.Tier1? && attrs[a].key.parent == ROOT && IsGateway(st, w, spec, attrs[a].key.id)
  }

  /** The allocation, in the pool that the catalog lists. */
  ghost predicate HasAllocation(st: Store, w: Shoot, spec: Spec, attrs: map<Attr, Value>, a: Attr) {
    && a in attrs && attrs[a].AddressOf? && (IpPool, spec.ipPool) in st.catalog
    && Mine(st, w, Key(Alloc, st.catalog[(IpPool, spec.ipPool)], attrs[a].alloc))
  }

  /** The port is on the switch of the shoot's segment. */
  ghost predicate HasSwitch(st: Store, w: Shoot, attrs: map<Attr, Value>, a: Attr) {
    && a in attrs && attrs[a].PathTo?
    && attrs[a].key.kind.Switch? && attrs[a].key.parent == ROOT && Mine(st, w, Key(Segment, ROOT, attrs[a].key.id))
  }

  const Advertised := ["TIER1_STATIC_ROUTES", "TIER1_NAT", "TIER1_LB_VIP", "TIER1_LB_SNAT"]

  /** The route advertisements. The comparison looks at their number, and at each of those that are there; so they are the
      wanted ones in some order if none is repeated. */
  predicate Advertises(attrs: map<Attr, Value>) {
    && RouteAds in attrs && attrs[RouteAds].Texts?
    && var texts := attrs[RouteAds].texts;
       && |texts| == 4 && (forall text :: text in texts ==> text in Advertised)
       && ((forall i, j :: 0 <= i < j < |texts| ==> texts[i] != texts[j]) ==> multiset(texts) == multiset(Advertised))
  }

  lemma EqualAdvertises(have: map<Attr, Value>, texts: seq<string>)
    requires Has(have, RouteAds, Texts(texts)) && EqualStrings(texts, Advertised)
    ensures Advertises(have)
  {
    if forall i, j :: 0 <= i < j < |texts| ==> texts[i] != texts[j] { EqualIsPermutation(texts, Advertised); }
  }

  /** The name of most objects. */
  predicate HasName(spec: Spec, attrs: map<Attr, Value>) {
    Has(attrs, DisplayName, Text(spec.gardenName + "--" + spec.cluster))
  }

  /** The attributes of an object, kind by kind. The name of a segment has a random end, and allocations are never updated;
      their names are treated with their creation. */
  ghost predicate Specified(st: Store, w: Shoot, spec: Spec, kind: Task, attrs: map<Attr, Value>) {
    match kind
    case Tier1 =>
      && HasName(spec, attrs) && Has(attrs, FailoverMode, Text("PREEMPTIVE")) && Advertises(attrs)
      && HasListed(st, attrs, Tier0Path, Tier0, spec.tier0)
    case Locale => HasName(spec, attrs) && HasListed(st, attrs, EdgeClusterPath, EdgeCluster, spec.edgeCluster)
    case DhcpConfig => HasName(spec, attrs) && HasListed(st, attrs, EdgeClusterPath, EdgeCluster, spec.edgeCluster)
    case Segment =>
      && HasGateway(st, w, spec, attrs, ConnectivityPath)
      && HasListed(st, attrs, TransportZonePath, TransportZone, spec.transportZone)
      && spec.layout.Some?
      && if spec.nsxt3 then
           && HasOwn(st, w, attrs, DhcpConfigPath, DhcpConfig)
           && Has(attrs, Subnets, Net(spec.layout.value, spec.network, spec.dns, spec.options, true))
         else Has(attrs, Subnets, Net(spec.layout.value, spec.network, [], map[], false))
    case Rule =>
      && HasName(spec, attrs) && Has(attrs, Action, Text("SNAT"))
      && Has(attrs, Enabled, Flag(true)) && Has(attrs, Logging, Flag(true)) && Has(attrs, SequenceNumber, Number(100))
      && Has(attrs, SourceNetwork, Text(spec.network)) && HasAllocation(st, w, spec, attrs, TranslatedNetwork)
    case Profile => HasName(spec, attrs) && HasListed(st, attrs, EdgeClusterPath, EdgeCluster, spec.edgeCluster)
    case Server =>
      && HasName(spec, attrs) && HasOwn(st, w, attrs, ProfilePath, Profile)
      && spec.layout.Some?
      && Has(attrs, DhcpServer, Net(spec.layout.value, spec.network, spec.dns, spec.options, true))
    case Port =>
      && HasName(spec, attrs) && HasSwitch(st, w, attrs, SwitchPath) && HasOwn(st, w, attrs, AttachmentPath, Server)
      && Has(attrs, AdminState, Text("UP")) && Has(attrs, AttachmentType, Text("DHCP_SERVICE"))
    case Pool =>
      && HasName(spec, attrs) && spec.layout.Some?
      && Has(attrs, GatewayIp, Number(spec.layout.value.gateway))
      && Has(attrs, Ranges, Span(spec.layout.value.start, spec.layout.value.end))
      && Has(attrs, LeaseTime, Number(spec.layout.value.leaseTime))
      && Has(attrs, ErrorThreshold, Number(98)) && Has(attrs, WarningThreshold, Number(70))
    case _ => true
  }

  /** Where an object lies. */
  ghost predicate Placed(st: Store, w: Shoot, spec: Spec, key: Key) {
    match key.kind
    case Locale => key.id == DEFAULT && Mine(st, w, Key(Tier1, ROOT, key.parent))
    case Rule => IsGateway(st, w, spec, key.parent)
    case Alloc => (IpPool, spec.ipPool) in st.catalog && key.parent == st.catalog[(IpPool, spec.ipPool)]
    case Pool => Mine(st, w, Key(Server, ROOT, key.parent))
    case _ => key.parent == ROOT
  }

  /** The tags of the shoot: its cluster, and its garden, by id in the policy API, by name in the Advanced API. */
  predicate CarriesTags(spec: Spec, kind: Task, tags: seq<Tag>) {
    && First(tags, "garden") == Some(if Advanced(kind) then spec.gardenName else spec.gardenID)
    && First(tags, "shoot") == Some(spec.cluster)
  }

  // ---- what is known on entering a task ----

  /** What has been looked up is what the catalog lists. */
  predicate IsListed(st: Store, s: State, u: Task, name: string) {
    (u, name) in st.catalog && u in s.refs && s.refs[u] == st.catalog[(u, name)]
  }

  predicate LookedUp(st: Store, spec: Spec, s: State, t: Task) {
    && (Rank(Tier0) < Rank(t) ==> IsListed(st, s, Tier0, spec.tier0))
    && (Rank(TransportZone) < Rank(t) ==> IsListed(st, s, TransportZone, spec.transportZone))
    && (Rank(EdgeCluster) < Rank(t) ==> IsListed(st, s, EdgeCluster, spec.edgeCluster))
    && (Rank(IpPool) < Rank(t) ==> IsListed(st, s, IpPool, spec.ipPool))
  }

  /** The DHCP configuration belongs to version 2. */
  predicate Versioned(spec: Spec, s: State, t: Task) {
    s.nsxt3 == spec.nsxt3 && (t.Segment? ==> (DhcpConfig in s.refs <==> s.nsxt3))
  }

  ghost predicate Known(st: Store, w: Shoot, spec: Spec, s: State, t: Task) {
    Grounded(st, w, spec, s, t) && LookedUp(st, spec, s, t) && Versioned(spec, s, t)
  }

  lemma GatewayKnown(st: Store, w: Shoot, spec: Spec, s: State, t: Task)
    requires Known(st, w, spec, s, t) && Tier1 in s.refs && Rank(Tier1) < Rank(t)
    ensures IsGateway(st, w, spec, s.refs[Tier1])
  {
    if !IsExternal(Tier1, s) { assert Mine(st, w, KeyOf(Tier1, s)); }
  }

  lemma OwnKnown(st: Store, w: Shoot, spec: Spec, s: State, t: Task, u: Task)
    requires Known(st, w, spec, s, t) && u in s.refs && Rank(u) < Rank(t) && Owned(u) && !IsExternal(u, s)
    ensures Reachable(u, s) && Mine(st, w, KeyOf(u, s))
  {}

  lemma SegmentSpecified(st: Store, w: Shoot, spec: Spec, s: State, name: Option<string>)
    requires Known(st, w, spec, s, Segment) && Ready(Segment, s) && LayoutOk(Segment, spec)
    ensures Specified(st, w, spec, Segment, WantedAttrs(Segment, spec, s, name))
  {
    GatewayKnown(st, w, spec, s, Segment);
    if DhcpConfig in s.refs { OwnKnown(st, w, spec, s, Segment, DhcpConfig); }
  }

  lemma RuleSpecified(st: Store, w: Shoot, spec: Spec, s: State)
    requires Known(st, w, spec, s, Rule) && Ready(Rule, s)
    ensures Specified(st, w, spec, Rule, WantedAttrs(Rule, spec, s, None))
  {
    OwnKnown(st, w, spec, s, Rule, Alloc);
  }

  lemma PortSpecified(st: Store, w: Shoot, spec: Spec, s: State)
    requires Known(st, w, spec, s, Port) && Ready(Port, s)
    ensures Specified(st, w, spec, Port, WantedAttrs(Port, spec, s, None))
  {
    OwnKnown(st, w, spec, s, Port, Server);
    OwnKnown(st, w, spec, s, Port, Segment);
  }

  lemma GatewaySpecified(st: Store, w: Shoot, spec: Spec, s: State)
    requires Known(st, w, spec, s, Tier1) && Ready(Tier1, s)
    ensures Specified(st, w, spec, Tier1, WantedAttrs(Tier1, spec, s, None))
  {
    var attrs := WantedAttrs(Tier1, spec, s, None);
    EqualToSelf(Advertised);
    EqualAdvertises(attrs, Advertised);
  }

  lemma PlainSpecified(st: Store, w: Shoot, spec: Spec, t: Task, s: State)
    requires Known(st, w, spec, s, t) && Ready(t, s) && LayoutOk(t, spec)
    requires t.Locale? || t.DhcpConfig? || t.Alloc? || t.Profile? || t.Server? || t.Pool?
    ensures Specified(st, w, spec, t, WantedAttrs(t, spec, s, None))
  {
    if t.Server? { OwnKnown(st, w, spec, s, t, Profile); }
  }

  /** What a task wants is what the spec asks for. */
  lemma WantedIsSpecified(st: Store, w: Shoot, spec: Spec, t: Task, s: State, name: Option<string>)
    requires Known(st, w, spec, s, t) && Owned(t) && Ready(t, s) && LayoutOk(t, spec)
    ensures Specified(st, w, spec, t, WantedAttrs(t, spec, s, name))
  {
    if t.Segment? {
      SegmentSpecified(st, w, spec, s, name);
    } else {
      assert WantedAttrs(t, spec, s, name) == WantedAttrs(t, spec, s, None);
      if t.Rule? { RuleSpecified(st, w, spec, s); }
      else if t.Port? { PortSpecified(st, w, spec, s); }
      else if t.Tier1? { GatewaySpecified(st, w, spec, s); }
      else { PlainSpecified(st, w, spec, t, s); }
    }
  }

  lemma PlaceIsRight(st: Store, w: Shoot, spec: Spec, t: Task, s: State, id: Id)
    requires Known(st, w, spec, s, t) && Owned(t) && HasParent(t, s) && !IsExternal(t, s)
    ensures Placed(st, w, spec, NewKey(t, s, id))
  {
    if t.Locale? || t.Rule? { GatewayKnown(st, w, spec, s, t); }
    if t.Pool? { OwnKnown(st, w, spec, s, t, Server); }
  }

  lemma LookupListed(st: Store, was: map<Key, Obj>, w: Shoot, spec: Spec, todo: seq<Task>, s: State, u: Task, name: string)
    requires todo != [] && AllGood(st, was, w, spec, s, todo) && Rank(u) < Rank(todo[0])
    requires (u == Tier0 && name == spec.tier0) || (u == TransportZone && name == spec.transportZone)
             || (u == EdgeCluster && name == spec.edgeCluster) || (u == IpPool && name == spec.ipPool)
    ensures IsListed(st, s, u, name)
  {
    EarlierLookup(st, was, w, spec, todo, s, u);
  }

  lemma LookupsKnown(st: Store, was: map<Key, Obj>, w: Shoot, spec: Spec, todo: seq<Task>, s: State)
    requires todo != [] && AllGood(st, was, w, spec, s, todo)
    ensures LookedUp(st, spec, s, todo[0])
  {
    var n := Rank(todo[0]);
    if Rank(Tier0) < n { LookupListed(st, was, w, spec, todo, s, Tier0, spec.tier0); }
    if Rank(TransportZone) < n { LookupListed(st, was, w, spec, todo, s, TransportZone, spec.transportZone); }
    if Rank(EdgeCluster) < n { LookupListed(st, was, w, spec, todo, s, EdgeCluster, spec.edgeCluster); }
    if Rank(IpPool) < n { LookupListed(st, was, w, spec, todo, s, IpPool, spec.ipPool); }
  }

  lemma KnownHere(st: Store, was: map<Key, Obj>, w: Shoot, spec: Spec, todo: seq<Task>, s: State)
    requires todo != [] && AllGood(st, was, w, spec, s, todo) && OwnRefs(st, w, spec, s)
    ensures Known(st, w, spec, s, todo[0])
  {
    GroundedHere(st, was, w, spec, todo, s);
    LookupsKnown(st, was, w, spec, todo, s);
    EarlierIsSet(st, was, w, spec, todo, s);
    assert todo[0].Segment? && s.nsxt3 ==> InPlan(s.nsxt3, DhcpConfig) && Rank(DhcpConfig) < Rank(Segment);
  }

  // ---- what a creation run sends ----

  /** What is sent to the store is what the spec asks for, and carries the shoot's tags. */
  ghost predicate SentRight(st: Store, w: Shoot, spec: Spec, key: Key, o: Obj) {
    && Specified(st, w, spec, key.kind, o.attrs) && CarriesTags(spec, key.kind, o.tags)
    && (key.kind.Tier1? ==> Has(o.attrs, RouteAds, Texts(Advertised)))
  }

  lemma TagsCarried(spec: Spec, t: Task, tags: seq<Tag>)
    ensures CarriesTags(spec, t, tags) <==> ContainsTags(tags, TagsOf(spec, t))
  {
    var want := TagsOf(spec, t);
    assert |want| == 2 && want[0].scope == "garden" && want[1].scope == "shoot";
  }

  lemma PatchIsRight(st: Store, was: map<Key, Obj>, w: Shoot, spec: Spec, todo: seq<Task>, s: State, want: Obj)
    requires todo != [] && AllGood(st, was, w, spec, s, todo) && OwnRefs(st, w, spec, s)
    requires WritingFits(st, spec, todo[0], Writing(want), s)
    ensures SentRight(st, w, spec, KeyOf(todo[0], s), want)
  {
    KnownHere(st, was, w, spec, todo, s);
    WantedIsSpecified(st, w, spec, todo[0], s, s.segmentName);
    PatchOwn(todo[0], spec, s, st.objects[KeyOf(todo[0], s)]);
    TagsCarried(spec, todo[0], want.tags);
  }

  /** Nothing but the two tags, and the names that are given at creation. */
  predicate FreshlyNamed(spec: Spec, kind: Task, suffix: string, o: Obj) {
    && o.tags == [Tag("garden", if Advanced(kind) then spec.gardenName else spec.gardenID), Tag("shoot", spec.cluster)]
    && (kind.Segment? ==> Has(o.attrs, DisplayName, Text(spec.gardenName + "--" + spec.cluster + "-" + suffix)))
    && (kind.Alloc? ==> Has(o.attrs, DisplayName, Text(spec.gardenName + "--" + spec.cluster + "_SNAT")))
  }

  lemma CreatedIsRight(st: Store, was: map<Key, Obj>, w: Shoot, spec: Spec, todo: seq<Task>, s: State, draw: Draw)
    requires todo != [] && AllGood(st, was, w, spec, s, todo) && OwnRefs(st, w, spec, s) && !IsExternal(todo[0], s)
    requires Owned(todo[0]) && Ready(todo[0], s) && LayoutOk(todo[0], spec) && HasParent(todo[0], s)
    ensures var key, o := NewKey(todo[0], s, draw.id), Created(todo[0], spec, s, draw.suffix);
            SentRight(st, w, spec, key, o) && Placed(st, w, spec, key) && FreshlyNamed(spec, todo[0], draw.suffix, o)
  {
    var t, o := todo[0], Created(todo[0], spec, s, draw.suffix);
    KnownHere(st, was, w, spec, todo, s);
    WantedIsSpecified(st, w, spec, t, s, Some(FullName(spec) + "-" + draw.suffix));
    PlaceIsRight(st, w, spec, t, s, draw.id);
    assert o.tags[0].scope == "garden" && o.tags[1].scope == "shoot";
    assert First(o.tags, "garden") == Some(o.tags[0].tag) && First(o.tags[1..], "shoot") == Some(o.tags[1].tag);
  }

  /** At every moment of a creation run, whatever has failed before and whatever others do: what it is about to create or
      patch has the attributes and the tags that the spec asks for; and what it creates lies in the right place, and has
      its name. */
  lemma WhatIsSent(sys: System, start: Event, es: seq<Event>, w: Shoot, a: Answer)
    requires Starts(sys, start, w) && Possible(Step(sys, start), es) && OnlyCalls(es, w)
    requires CanHappen(Exec(Step(sys, start), es), Call(w, a))
    ensures var now, spec := Exec(Step(sys, start), es), sys.members[w].spec;
            var op := PendingOp(now.members[w], a);
            && (op.Write? || op.Make? ==> SentRight(now.store, w, spec, op.key, op.obj))
            && (op.Make? ==> Placed(now.store, w, spec, op.key) && FreshlyNamed(spec, op.key.kind, a.draw.suffix, op.obj))
            && !op.Erase?
  {
    StartUnderway(sys, start, w);
    RunsUnderway(Step(sys, start), sys.store.objects, es, w);
    RunsStayIsolated(Step(sys, start), es);
    var now, spec := Exec(Step(sys, start), es), sys.members[w].spec;
    assert SpecsOf(now)[w] == spec;
    RunSendsRight(now.store, sys.store.objects, w, spec, now.members[w].run.value, a);
  }

  ghost predicate RightOp(st: Store, w: Shoot, spec: Spec, op: Op, suffix: string) {
    && (op.Write? || op.Make? ==> SentRight(st, w, spec, op.key, op.obj))
    && (op.Make? ==> Placed(st, w, spec, op.key) && FreshlyNamed(spec, op.key.kind, suffix, op.obj))
    && !op.Erase?
  }

  lemma RunSendsRight(st: Store, was: map<Key, Obj>, w: Shoot, spec: Spec, r: Run, a: Answer)
    requires r.Pending? && OwnRun(st, w, spec, r) && WellUnderWay(st, was, w, spec, r)
    ensures RightOp(st, w, spec, NextOp(spec, r, a.draw), a.draw.suffix)
  {
    if r.phase.Writing? {
      PatchIsRight(st, was, w, spec, r.todo, r.s, r.phase.want);
    } else if r.phase.Making? {
      CreatedIsRight(st, was, w, spec, r.todo, r.s, a.draw);
    }
  }

  // ---- what a creation run leaves ----

  lemma EndLookup(st: Store, was: map<Key, Obj>, w: Shoot, spec: Spec, s: State, u: Task)
    requires AllGood(st, was, w, spec, s, []) && InPlan(s.nsxt3, u) && !Owned(u)
    ensures GoodLookup(st, spec, s, u)
  {
    assert Good(st, was, spec, s, u);
  }

  lemma EndListed(st: Store, was: map<Key, Obj>, w: Shoot, spec: Spec, s: State, u: Task, name: string)
    requires AllGood(st, was, w, spec, s, [])
    requires (u == Tier0 && name == spec.tier0) || (u == TransportZone && name == spec.transportZone)
             || (u == EdgeCluster && name == spec.edgeCluster) || (u == IpPool && name == spec.ipPool)
    ensures IsListed(st, s, u, name)
  {
    EndLookup(st, was, w, spec, s, u);
  }

  lemma EndObjects(st: Store, was: map<Key, Obj>, w: Shoot, spec: Spec, s: State)
    requires AllGood(st, was, w, spec, s, []) && OwnRefs(st, w, spec, s)
    ensures forall u :: u in s.refs && Owned(u) ==>
              if IsExternal(u, s) then u.Tier1? && s.refs[u] == spec.externalTier1.value
              else Reachable(u, s) && Mine(st, w, KeyOf(u, s))
  {
    forall u | u in s.refs && Owned(u) && !IsExternal(u, s) ensures Reachable(u, s) && Mine(st, w, KeyOf(u, s)) {
      assert Good(st, was, spec, s, u);
    }
  }

  lemma EndLookedUp(st: Store, was: map<Key, Obj>, w: Shoot, spec: Spec, s: State, t: Task)
    requires AllGood(st, was, w, spec, s, [])
    ensures LookedUp(st, spec, s, t)
  {
    EndListed(st, was, w, spec, s, Tier0, spec.tier0);
    EndListed(st, was, w, spec, s, TransportZone, spec.transportZone);
    EndListed(st, was, w, spec, s, EdgeCluster, spec.edgeCluster);
    EndListed(st, was, w, spec, s, IpPool, spec.ipPool);
  }

  lemma EndAddress(st: Store, was: map<Key, Obj>, w: Shoot, spec: Spec, s: State)
    requires AllGood(st, was, w, spec, s, [])
    ensures Alloc in s.refs && Address in s.refs && s.refs[Address] == s.refs[Alloc]
  {
    EndLookup(st, was, w, spec, s, Address);
  }

  lemma EndSwitch(st: Store, was: map<Key, Obj>, w: Shoot, spec: Spec, s: State)
    requires AllGood(st, was, w, spec, s, []) && InPlan(s.nsxt3, Switch)
    ensures Switch in s.refs && Segment in s.refs && s.refs[Switch] == s.refs[Segment]
  {
    EndLookup(st, was, w, spec, s, Switch);
  }

  lemma EndVersion(st: Store, was: map<Key, Obj>, w: Shoot, spec: Spec, s: State, t: Task)
    requires AllGood(st, was, w, spec, s, []) && OwnRefs(st, w, spec, s)
    ensures Versioned(spec, s, t)
  {
    if s.nsxt3 { assert Good(st, was, spec, s, DhcpConfig); }
  }

  lemma EndKnown(st: Store, was: map<Key, Obj>, w: Shoot, spec: Spec, s: State, t: Task)
    requires AllGood(st, was, w, spec, s, []) && OwnRefs(st, w, spec, s) && InPlan(s.nsxt3, t)
    ensures Known(st, w, spec, s, t)
  {
    EndLookedUp(st, was, w, spec, s, t);
    EndAddress(st, was, w, spec, s);
    if t.Port? { EndSwitch(st, was, w, spec, s); }
    EndObjects(st, was, w, spec, s);
    EndVersion(st, was, w, spec, s, t);
  }

  /** An object that has what was wanted of it is as specified. */
  lemma MetIsSpecified(st: Store, w: Shoot, spec: Spec, t: Task, want: map<Attr, Value>, have: map<Attr, Value>)
    requires Specified(st, w, spec, t, want) && (forall a :: a in want ==> SameAttr(a, have, want))
    requires t.Tier1? ==> Has(want, RouteAds, Texts(Advertised))
    ensures Specified(st, w, spec, t, have)
  {
    forall a | a in want && !a.RouteAds? ensures Has(have, a, want[a]) { assert SameAttr(a, have, want); }
    if t.Tier1? { AdsAreMet(want, have); }
  }

  lemma AdsAreMet(want: map<Attr, Value>, have: map<Attr, Value>)
    requires Has(want, RouteAds, Texts(Advertised)) && SameAttr(RouteAds, have, want)
    ensures Advertises(have)
  {
    EqualToSelf(Advertised);
    EqualAdvertises(have, have[RouteAds].texts);
  }

  /** An object of the shoot as the spec asks for it. Allocations are taken as they are; and a locale service that is
      recorded is read where it is, under the present gateway or another. */
  ghost predicate Right(st: Store, w: Shoot, spec: Spec, key: Key) {
    && Mine(st, w, key) && (if key.kind.Locale? then key.id == DEFAULT else Placed(st, w, spec, key))
    && (!key.kind.Alloc? ==> Specified(st, w, spec, key.kind, st.objects[key].attrs)
                             && CarriesTags(spec, key.kind, st.objects[key].tags))
  }

  lemma GoodIsRight(st: Store, was: map<Key, Obj>, w: Shoot, spec: Spec, s: State, t: Task)
    requires AllGood(st, was, w, spec, s, []) && OwnRefs(st, w, spec, s)
    requires InPlan(s.nsxt3, t) && Owned(t) && !IsExternal(t, s)
    ensures Reachable(t, s) && Right(st, w, spec, KeyOf(t, s))
  {
    assert Good(st, was, spec, s, t);
    EndKnown(st, was, w, spec, s, t);
    var key := KeyOf(t, s);
    if !t.Locale? { PlaceIsRight(st, w, spec, t, s, key.id); }
    if !t.Alloc? {
      WantedIsSpecified(st, w, spec, t, s, s.segmentName);
      MetIsSpecified(st, w, spec, t, Wanted(t, spec, s).attrs, st.objects[key].attrs);
      TagsCarried(spec, t, st.objects[key].tags);
    }
  }

  /** The name that a segment has been given is its display name, if it is recorded. */
  predicate NameLeft(st: Store, s: State) {
    s.segmentName.Some? && Segment in s.refs && Key(Segment, ROOT, s.refs[Segment]) in st.objects ==>
      Has(st.objects[Key(Segment, ROOT, s.refs[Segment])].attrs, DisplayName, Text(s.segmentName.value))
  }

  /** When a creation run succeeds, among any other shoots, from any recorded state and whatever its objects were like, every
      recorded object of the shoot's own is there, in the right place, and as the spec asks for it. */
  lemma WhatIsLeft(sys: System, start: Event, es: seq<Event>, w: Shoot, s: State, t: Task)
    requires Starts(sys, start, w) && Possible(Step(sys, start), es) && OnlyCalls(es, w)
    requires Succeeded(Exec(Step(sys, start), es), w, s) && InPlan(s.nsxt3, t) && Owned(t) && !IsExternal(t, s)
    ensures var now := Exec(Step(sys, start), es);
            Reachable(t, s) && Right(now.store, w, sys.members[w].spec, KeyOf(t, s)) && NameLeft(now.store, s)
  {
    SuccessIsGood(sys, start, es, w, s);
    var now := Exec(Step(sys, start), es);
    GoodIsRight(now.store, sys.store.objects, w, sys.members[w].spec, s, t);
    NameIsLeft(now.store, sys.store.objects, w, sys.members[w].spec, s);
  }

  lemma NameIsLeft(st: Store, was: map<Key, Obj>, w: Shoot, spec: Spec, s: State)
    requires AllGood(st, was, w, spec, s, [])
    ensures NameLeft(st, s)
  {
    assert Good(st, was, spec, s, Segment);
    if s.segmentName.Some? {
      assert SameAttr(DisplayName, st.objects[KeyOf(Segment, s)].attrs, Wanted(Segment, spec, s).attrs);
    }
  }

  lemma SuccessIsGood(sys: System, start: Event, es: seq<Event>, w: Shoot, s: State)
    requires Starts(sys, start, w) && Possible(Step(sys, start), es) && OnlyCalls(es, w)
    requires Succeeded(Exec(Step(sys, start), es), w, s)
    ensures var now, spec := Exec(Step(sys, start), es), sys.members[w].spec;
            && AllGood(now.store, sys.store.objects, w, spec, s, []) && OwnRefs(now.store, w, spec, s)
            && now.members[w].spec == spec && Isolated(now)
  {
    StartUnderway(sys, start, w);
    RunsUnderway(Step(sys, start), sys.store.objects, es, w);
    RunsStayIsolated(Step(sys, start), es);
    assert SpecsOf(Exec(Step(sys, start), es))[w] == sys.members[w].spec;
  }

  /** In good order, there are no other objects: whatever the shoot owns when a creation run has succeeded is as the spec
      asks for it, each object in its place. */
  lemma EveryObjectIsRight(sys: System, start: Event, es: seq<Event>, w: Shoot, s: State, key: Key)
    requires InGoodOrder(sys, w) && Starts(sys, start, w) && Possible(Step(sys, start), es) && OnlyCalls(es, w)
    requires OrderlyFor(Step(sys, start), es, w) && Succeeded(Exec(Step(sys, start), es), w, s)
    requires Mine(Exec(Step(sys, start), es).store, w, key)
    ensures var now, spec := Exec(Step(sys, start), es), sys.members[w].spec;
            Right(now.store, w, spec, key) && Placed(now.store, w, spec, key)
  {
    var now, spec, t := Exec(Step(sys, start), es), sys.members[w].spec, key.kind;
    StepInGoodOrder(sys, start, w);
    RunsStayInGoodOrder(Step(sys, start), es, w);
    SuccessIsGood(sys, start, es, w, s);
    assert NoDuplicates(now.store, w, spec) && InPlan(s.nsxt3, t) && Owned(t) && !IsExternal(t, s);
    GoodIsRight(now.store, sys.store.objects, w, spec, s, t);
    assert Mine(now.store, w, KeyOf(t, s)) && KeyOf(t, s) == key;
    if t.Locale? { LocalePlaced(now.store, w, spec, key); }
  }

  lemma LocalePlaced(st: Store, w: Shoot, spec: Spec, key: Key)
    requires Referential(st, w, spec) && NoDuplicates(st, w, spec) && Mine(st, w, key) && key.kind.Locale?
    ensures Placed(st, w, spec, key)
  {
    assert DependsOn(st, spec, key, st.objects[key], Key(Tier1, ROOT, key.parent));
  }

  // ---- tags of others ----

  /** The tags that are not the shoot's: those of other scopes, in order. */
  function OthersTags(tags: seq<Tag>): seq<Tag> {
    if tags == [] then []
    else (if tags[0].scope == "garden" || tags[0].scope == "shoot" then [] else [tags[0]]) + OthersTags(tags[1..])
  }

  lemma {:induction false} OthersOfConcat(a: seq<Tag>, b: seq<Tag>)
    ensures OthersTags(a + b) == OthersTags(a) + OthersTags(b)
  {
    if a == [] {
      assert a + b == b;
    } else {
      OthersOfConcat(a[1..], b);
      assert (a + b)[0] == a[0] && (a + b)[1..] == a[1..] + b;
      var kept := if a[0].scope == "garden" || a[0].scope == "shoot" then [] else [a[0]];
      assert kept + (OthersTags(a[1..]) + OthersTags(b)) == (kept + OthersTags(a[1..])) + OthersTags(b);
    }
  }

  lemma {:induction false} OthersOfForeign(garden: string, shoot: string, b: seq<Tag>)
    ensures OthersTags(Foreign(ShootTags(garden, shoot), b)) == OthersTags(b)
  {
    if b != [] {
      OthersOfForeign(garden, shoot, b[1..]);
      var a := ShootTags(garden, shoot);
      assert a[0].scope == "garden" && a[1].scope == "shoot" && a == [a[0]] + [a[1]];
      FirstIsFirst(a, b[0].scope);
      assert First(a, b[0].scope).None? <==> a[0].scope != b[0].scope && a[1].scope != b[0].scope;
      OthersOfConcat(if First(a, b[0].scope).None? then [b[0]] else [], Foreign(a, b[1..]));
    }
  }

  /** A patch has the tags of others that the object had. */
  lemma PatchKeepsOthers(spec: Spec, t: Task, have: seq<Tag>)
    ensures OthersTags(MergeTags(TagsOf(spec, t), have)) == OthersTags(have)
  {
    var a := TagsOf(spec, t);
    assert a == ShootTags(a[0].tag, a[1].tag) && a[0].scope == "garden" && a[1].scope == "shoot";
    OthersOfForeign(a[0].tag, a[1].tag, have);
    OthersOfConcat(a, Foreign(a, have));
    OthersOfConcat([a[0]], [a[1]]);
    assert a == [a[0]] + [a[1]];
  }

  /** The creation of a locale service that was there, but not found by its tags, replaces its tags. */
  ghost predicate RemakesLocale(sys: System, e: Event, key: Key)
    requires CanHappen(sys, e)
  {
    e.Call? && key.kind.Locale? && var op := PendingOp(sys.members[e.who], e.answer); op.Make? && op.key == key
  }

  lemma CallKeepsOthers(st: Store, was: map<Key, Obj>, w: Shoot, spec: Spec, r: Run, a: Answer, key: Key)
    requires r.Pending? && OwnRun(st, w, spec, r) && (r.mode.Creating? ==> WellUnderWay(st, was, w, spec, r))
    requires var op := NextOp(spec, r, a.draw);
             Admissible(st, op, a) && key in st.objects && key in After(st, w, op, a).objects
             && !(op.Make? && key.kind.Locale? && op.key == key)
    ensures OthersTags(After(st, w, NextOp(spec, r, a.draw), a).objects[key].tags) == OthersTags(st.objects[key].tags)
  {
    var op := NextOp(spec, r, a.draw);
    if op.Write? && op.key == key { PatchKeepsOthers(spec, r.todo[0], st.objects[key].tags); }
  }

  /** Tags of others survive: over all events of all shoots, an object that stays keeps every tag of another scope, in order;
      but for a locale service that is created over. */
  lemma OthersTagsSurvive(sys: System, es: seq<Event>, e: Event, w: Shoot, key: Key)
    requires Isolated(sys) && CreatesWell(sys, w) && Possible(sys, es) && CanHappen(Exec(sys, es), e) && e.who == w
    requires key in Exec(sys, es).store.objects && key in Step(Exec(sys, es), e).store.objects
    requires !RemakesLocale(Exec(sys, es), e, key)
    ensures OthersTags(Step(Exec(sys, es), e).store.objects[key].tags) == OthersTags(Exec(sys, es).store.objects[key].tags)
  {
    RunsCreateWell(sys, es, w);
    var now := Exec(sys, es);
    if e.Call? {
      var m := now.members[w];
      var was := map[];
      if m.run.value.mode.Creating? { was :| Underway(now, was, w); }
      CallKeepsOthers(now.store, was, w, m.spec, m.run.value, e.answer, key);
    }
  }

  lemma {:induction false} RunsCreateWell(sys: System, es: seq<Event>, w: Shoot)
    requires Isolated(sys) && CreatesWell(sys, w) && Possible(sys, es)
    ensures Isolated(Exec(sys, es)) && CreatesWell(Exec(sys, es), w)
    decreases |es|
  {
    if es != [] {
      var n := |es| - 1;
      RunsCreateWell(sys, es[..n], w);
      StepIsolated(Exec(sys, es[..n]), es[n]);
      StepCreatesWell(Exec(sys, es[..n]), es[n], w);
    }
  }

  // ---- patches ----

  /** What is patched again after a creation run that succeeded: the rule; and a segment that has an attribute that is
      compared, but not sent. */
  ghost predicate PatchedAgain(was: map<Key, Obj>, s: State, t: Task) {
    || t.Rule?
    || (t.Segment? && Segment in s.refs
        && var key := Key(Segment, ROOT, s.refs[Segment]);
           key in was && ((!s.nsxt3 && DhcpConfigPath in was[key].attrs)
                          || (s.segmentName.None? && DisplayName in was[key].attrs)))
  }

  lemma PatchNeedsStray(st: Store, was: map<Key, Obj>, w: Shoot, spec: Spec, s: State, t: Task)
    requires AllGood(st, was, w, spec, s, []) && OwnRefs(st, w, spec, s) && InPlan(s.nsxt3, t) && Owned(t) && !IsExternal(t, s)
    ensures Reachable(t, s) && Ready(t, s) && LayoutOk(t, spec) && KeyOf(t, s) in st.objects
    ensures Drifted(t, st.objects[KeyOf(t, s)], Wanted(t, spec, s)) ==> PatchedAgain(was, s, t)
  {
    assert Good(st, was, spec, s, t);
    var key := KeyOf(t, s);
    if !t.Alloc? && !t.Rule? && Drifted(t, st.objects[key], Wanted(t, spec, s)) {
      SentIsCompared(t, spec, s, s.segmentName);
      MeetsIsAgreeing(t, st.objects[key], Wanted(t, spec, s));
      var a :| a in Compared(t) && a !in Wanted(t, spec, s).attrs && a in st.objects[key].attrs;
      ComparedButNotSent(t, spec, s, a);
      EndVersion(st, was, w, spec, s, Segment);
    }
  }

  /** Once a creation run has succeeded and its state is recorded, further creation runs patch nothing else; they patch
      the rule whenever they read it. */
  lemma OnlyThesePatches(sys: System, start: Event, es: seq<Event>, w: Shoot, s: State, more: seq<Event>)
    requires Starts(sys, start, w) && Possible(Step(sys, start), es) && OnlyCalls(es, w)
    requires Succeeded(Exec(Step(sys, start), es), w, s) && CanHappen(Exec(Step(sys, start), es), Finish(w, true))
    requires var recorded := Step(Exec(Step(sys, start), es), Finish(w, true));
             Possible(recorded, more) && NoDelete(more, w)
    ensures var now := Exec(Step(Exec(Step(sys, start), es), Finish(w, true)), more);
            && w in now.members
            && (now.members[w].run.Some? && now.members[w].run.value.Pending? && now.members[w].run.value.phase.Writing? ==>
                  now.members[w].run.value.todo != [] && PatchedAgain(sys.store.objects, s, now.members[w].run.value.todo[0]))
  {
    SuccessIsGood(sys, start, es, w, s);
    var first := Exec(Step(sys, start), es);
    StepIsolated(first, Finish(w, true));
    var recorded := Step(first, Finish(w, true));
    RunsSettled(recorded, sys.store.objects, more, w, s);
    var now := Exec(recorded, more);
    if now.members[w].run.Some? { IdlePatches(now.store, sys.store.objects, w, now.members[w].spec, s, now.members[w].run.value); }
  }

  lemma IdlePatches(st: Store, was: map<Key, Obj>, w: Shoot, spec: Spec, s: State, r: Run)
    requires AllGood(st, was, w, spec, s, []) && OwnRun(st, w, spec, r) && Idle(st, spec, s, r)
    ensures r.Pending? && r.phase.Writing? ==> r.todo != [] && PatchedAgain(was, s, r.todo[0])
  {
    if r.Pending? && r.phase.Writing? {
      PlanTail(s.nsxt3, r.mode, r.todo);
      PatchNeedsStray(st, was, w, spec, s, r.todo[0]);
    }
  }

  /** A rule that is found is patched, whatever it is like. */
  lemma RuleIsPatched(spec: Spec, r: Run, o: Obj)
    requires r.Pending? && WellPhased(spec, r) && r.phase.Reading? && r.todo[0].Rule?
    ensures Resume(spec, r, One(o)).Pending? && Resume(spec, r, One(o)).phase.Writing?
  {}

  /** Of the route advertisements of a gateway, repetitions go unnoticed: four times the same one is left as it is. */
  lemma RepeatedAdsAreLeft(spec: Spec, r: Run, o: Obj, text: string)
    requires r.Pending? && WellPhased(spec, r) && r.phase.Reading? && r.mode.Creating? && r.todo[0].Tier1? && text in Advertised
    requires !Drifted(Tier1, o, Wanted(Tier1, spec, r.s))
    ensures var repeated := o.(attrs := o.attrs[RouteAds := Texts([text, text, text, text])]);
            Resume(spec, r, One(repeated)) == Resume(spec, r, One(o))
  {
    var want := Wanted(Tier1, spec, r.s);
    var repeated := o.(attrs := o.attrs[RouteAds := Texts([text, text, text, text])]);
    forall a | a in Compared(Tier1) ensures SameAttr(a, repeated.attrs, want.attrs) {
      assert SameAttr(a, o.attrs, want.attrs);
      if a.RouteAds? { assert want.attrs[a] == Texts(Advertised); }
    }
  }
}
