/**
  The ensurer as a reactive machine. A run of EnsureInfrastructure or EnsureInfrastructureDeleted is a value of
  type Run; NextOp is the API call it issues next and Resume is what it does with the answer. Everything between
  two API calls is silent. Splitting the code at its API calls is what makes crashes and interleavings expressible.
  The imperative form of the same code, task by task, is in Ensurer.dfy and is proved to follow this machine.
 */
module Protocol {
  import opened Basics
  import opened Tags
  import Addressing
  import Authorization

  // ---- names, keys, objects ----

  /** Identifiers of NSX-T objects. */
  type Id = nat

  /** The parent of a top-level object, and the fixed id of the one locale service of a gateway. */
  const ROOT: Id := 0
  const DEFAULT: Id := 0

  /** The tasks; all but Address also name the kind of object the task looks up, creates and deletes. */
  datatype Task =
    | Tier0 | TransportZone | EdgeCluster | IpPool
    | Tier1 | Locale | DhcpConfig | Segment | Alloc | Address | Rule
    | Switch | Profile | Server | Port | Pool

  /** The tasks of the Advanced API. */
  predicate Advanced(t: Task) {
    t.Profile? || t.Server? || t.Port? || t.Pool?
  }

  /** The recoverable tasks: those that create, and delete, an object of their own. */
  predicate Owned(t: Task) {
    || t.Tier1? || t.Locale? || t.DhcpConfig? || t.Segment? || t.Alloc? || t.Rule?
    || Advanced(t)
  }

  /** The task list of getTasks. */
  function Tasks(nsxt3: bool): seq<Task> {
    [Tier0, TransportZone, EdgeCluster, IpPool, Tier1, Locale]
    + (if nsxt3 then [DhcpConfig] else [])
    + [Segment, Alloc, Address, Rule]
    + (if !nsxt3 then [Switch, Profile, Server, Port, Pool] else [])
  }

  /** The path of an object. Locale services are addressed by their gateway. */
  datatype Key = Key(kind: Task, parent: Id, id: Id)

  /** The id that was issued when the object was created. */
  function IssuedId(k: Key): Id {
    if k.kind.Locale? then k.parent else k.id
  }

  datatype Attr =
    | DisplayName | FailoverMode | RouteAds | Tier0Path | EdgeClusterPath | ConnectivityPath | TransportZonePath
    | DhcpConfigPath | Subnets | Action | Enabled | Logging | SequenceNumber | SourceNetwork | TranslatedNetwork
    | DestinationNetwork | ProfilePath | DhcpServer | SwitchPath | AdminState | AttachmentType | AttachmentPath
    | GatewayIp | LeaseTime | ErrorThreshold | WarningThreshold | Ranges

  /** Attribute values; references to other objects are kept as their paths. */
  datatype Value =
    | Text(text: string)
    | Texts(texts: seq<string>)
    | Number(number: int)
    | Flag(flag: bool)
    | PathTo(key: Key)
    | AddressOf(alloc: Id)
    | Span(start: nat, end: nat)
    | Net(layout: Addressing.DhcpConfig, network: string, dns: seq<string>, options: map<nat, seq<string>>, dhcp: bool)

  datatype Obj = Obj(attrs: map<Attr, Value>, tags: seq<Tag>)

  function NameOf(o: Obj): Option<string> {
    if DisplayName in o.attrs && o.attrs[DisplayName].Text? then Some(o.attrs[DisplayName].text) else None
  }

  // ---- specification and state ----

  /** The infrastructure spec of a shoot. The layout is what newDHCPConfig makes of the workers network. */
  datatype Spec = Spec(
    edgeCluster: string, transportZone: string, tier0: string, ipPool: string,
    gardenID: string, gardenName: string, cluster: string, namespace: string,
    network: string, layout: Option<Addressing.DhcpConfig>, dns: seq<string>, options: map<nat, seq<string>>,
    externalTier1: Option<Id>, nsxt3: bool)

  function FullName(spec: Spec): string {
    spec.gardenName + "--" + spec.cluster
  }

  /** The tags a shoot puts on its objects: by garden id in the policy API, by garden name in the advanced one. */
  function TagsOf(spec: Spec, t: Task): seq<Tag> {
    ShootTags(if Advanced(t) then spec.gardenName else spec.gardenID, spec.cluster)
  }

  /** The infrastructure state: the references that are set, by task. */
  datatype State = State(nsxt3: bool, external: bool, refs: map<Task, Id>, segmentName: Option<string>)

  function SetRef(s: State, t: Task, id: Id): State {
    s.(refs := s.refs[t := id])
  }

  /** Forgets a reference; an allocation takes its address along, a segment its name. */
  function ClearRef(s: State, t: Task): State {
    State(s.nsxt3, s.external, s.refs - (if t.Alloc? then {Alloc, Address} else {t}),
          if t.Segment? then None else s.segmentName)
  }

  predicate IsExternal(t: Task, s: State) {
    s.external && (t.Tier1? || t.Locale?)
  }

  function UpdateExternal(spec: Spec, s: State): State {
    if spec.externalTier1.Some? then s.(external := true) else s
  }

  /** The task whose object is the parent of the objects of t. */
  function ParentTask(t: Task): Option<Task> {
    match t
    case Locale => Some(Tier1)
    case Rule => Some(Tier1)
    case Alloc => Some(IpPool)
    case Pool => Some(Server)
    case _ => None
  }

  predicate HasParent(t: Task, s: State) {
    ParentTask(t).Some? ==> ParentTask(t).value in s.refs
  }

  function ParentId(t: Task, s: State): Id
    requires HasParent(t, s)
  {
    if ParentTask(t).None? then ROOT else s.refs[ParentTask(t).value]
  }

  /** A reference leads to an object without dereferencing a missing parent reference. */
  predicate Reachable(t: Task, s: State) {
    t in s.refs && (t.Locale? || HasParent(t, s))
  }

  /** The object a reference leads to; the locale reference holds the id of its gateway. */
  function KeyOf(t: Task, s: State): Key
    requires Reachable(t, s)
  {
    if t.Locale? then Key(Locale, s.refs[Locale], DEFAULT) else Key(t, ParentId(t, s), s.refs[t])
  }

  /** Where a new object goes. */
  function NewKey(t: Task, s: State, id: Id): Key
    requires HasParent(t, s)
  {
    Key(t, ParentId(t, s), if t.Locale? then DEFAULT else id)
  }

  // ---- what a task wants ----

  /** The references a task dereferences whatever it finds. */
  predicate Ready(t: Task, s: State) {
    match t
    case Tier1 => Tier0 in s.refs
    case Locale => EdgeCluster in s.refs && (Locale in s.refs || Tier1 in s.refs)
    case DhcpConfig => EdgeCluster in s.refs
    case Segment => Tier1 in s.refs && TransportZone in s.refs
    case Alloc => IpPool in s.refs
    case Rule => Tier1 in s.refs && Address in s.refs
    case Profile => EdgeCluster in s.refs
    case Server => Profile in s.refs
    case Port => Server in s.refs && Switch in s.refs
    case Pool => Server in s.refs
    case _ => true
  }

  /** The tasks that compute the DHCP layout first, and fail without one. */
  predicate LayoutOk(t: Task, spec: Spec) {
    t.Segment? || t.Server? || t.Pool? ==> spec.layout.Some?
  }

  function TopPath(t: Task, s: State): Value
    requires t in s.refs
  {
    PathTo(Key(t, ROOT, s.refs[t]))
  }

  /** The attributes a task wants its object to have; the name of a segment is given separately. */
  function WantedAttrs(t: Task, spec: Spec, s: State, segmentName: Option<string>): map<Attr, Value>
    requires Owned(t) && Ready(t, s) && LayoutOk(t, spec)
  {
    var name := Text(FullName(spec));
    match t
    case Tier1 => map[DisplayName := name, FailoverMode := Text("PREEMPTIVE"), Tier0Path := TopPath(Tier0, s),
                      RouteAds := Texts(["TIER1_STATIC_ROUTES", "TIER1_NAT", "TIER1_LB_VIP", "TIER1_LB_SNAT"])]
    case Locale => map[DisplayName := name, EdgeClusterPath := TopPath(EdgeCluster, s)]
    case DhcpConfig => map[DisplayName := name, EdgeClusterPath := TopPath(EdgeCluster, s)]
    case Segment =>
      map[ConnectivityPath := TopPath(Tier1, s), TransportZonePath := TopPath(TransportZone, s)]
      + (if DhcpConfig in s.refs then
           map[DhcpConfigPath := TopPath(DhcpConfig, s),
               Subnets := Net(spec.layout.value, spec.network, spec.dns, spec.options, true)]
         else map[Subnets := Net(spec.layout.value, spec.network, [], map[], false)])
      + (if segmentName.Some? then map[DisplayName := Text(segmentName.value)] else map[])
    case Alloc => map[DisplayName := Text(FullName(spec) + "_SNAT")]
    case Rule => map[DisplayName := name, Action := Text("SNAT"), Enabled := Flag(true), Logging := Flag(true),
                     SequenceNumber := Number(100), SourceNetwork := Text(spec.network),
                     TranslatedNetwork := AddressOf(s.refs[Address])]
    case Profile => map[DisplayName := name, EdgeClusterPath := TopPath(EdgeCluster, s)]
    case Server => map[DisplayName := name, ProfilePath := TopPath(Profile, s),
                       DhcpServer := Net(spec.layout.value, spec.network, spec.dns, spec.options, true)]
    case Port => map[DisplayName := name, SwitchPath := TopPath(Switch, s), AdminState := Text("UP"),
                     AttachmentType := Text("DHCP_SERVICE"), AttachmentPath := TopPath(Server, s)]
    case Pool => map[DisplayName := name, GatewayIp := Number(spec.layout.value.gateway),
                     LeaseTime := Number(spec.layout.value.leaseTime), ErrorThreshold := Number(98),
                     WarningThreshold := Number(70), Ranges := Span(spec.layout.value.start, spec.layout.value.end)]
  }

  /** The object a task wants when it checks the one it has. */
  function Wanted(t: Task, spec: Spec, s: State): Obj
    requires Owned(t) && Ready(t, s) && LayoutOk(t, spec)
  {
    Obj(WantedAttrs(t, spec, s, s.segmentName), TagsOf(spec, t))
  }

  /** The object a task creates; a segment gets a random suffix. */
  function Created(t: Task, spec: Spec, s: State, suffix: string): Obj
    requires Owned(t) && Ready(t, s) && LayoutOk(t, spec)
  {
    Obj(WantedAttrs(t, spec, s, Some(FullName(spec) + "-" + suffix)), TagsOf(spec, t))
  }

  /** The attributes a task compares. */
  function Compared(t: Task): set<Attr> {
    match t
    case Tier1 => {DisplayName, FailoverMode, Tier0Path, RouteAds}
    case Locale => {DisplayName, EdgeClusterPath}
    case DhcpConfig => {DisplayName, EdgeClusterPath}
    case Segment => {DisplayName, ConnectivityPath, TransportZonePath, DhcpConfigPath, Subnets}
    case Rule => {DisplayName, Action, Enabled, Logging, SequenceNumber, SourceNetwork, TranslatedNetwork,
                  DestinationNetwork}
    case Profile => {DisplayName, EdgeClusterPath}
    case Server => {DisplayName, ProfilePath, DhcpServer}
    case Port => {DisplayName, SwitchPath, AdminState, AttachmentType, AttachmentPath}
    case Pool => {DisplayName, GatewayIp, LeaseTime, ErrorThreshold, WarningThreshold, Ranges}
    case _ => {}
  }

  /** The comparison of one attribute; route advertisements are compared without regard to order. */
  predicate SameAttr(a: Attr, x: map<Attr, Value>, y: map<Attr, Value>) {
    if a in x && a in y then
      if a.RouteAds? && x[a].Texts? && y[a].Texts? then EqualStrings(x[a].texts, y[a].texts) else x[a] == y[a]
    else a !in x && a !in y
  }

  predicate Agrees(t: Task, have: Obj, want: Obj) {
    (forall a :: a in Compared(t) ==> SameAttr(a, have.attrs, want.attrs)) && ContainsTags(have.tags, want.tags)
  }

  /** Whether a task patches the object it read. Allocations are never updated; the action of a rule is compared
      by address, so a rule always is. */
  predicate Drifted(t: Task, have: Obj, want: Obj) {
    !t.Alloc? && (t.Rule? || !Agrees(t, have, want))
  }

  // ---- calls and answers ----

  datatype Item = Item(id: Id, obj: Obj)

  datatype Op =
    | Lookup(kind: Task, name: string)
    | LookupSwitch(segment: Option<Id>)
    | Realize(alloc: Id)
    | ReadGateway(gateway: Id)
    | List(kind: Task, parent: Id)
    | Read(key: Key)
    | Write(key: Key, obj: Obj)
    | Make(key: Key, obj: Obj)
    | Erase(key: Key)

  datatype Resp =
    | Found(id: Id)
    | Gateway(id: Id, tags: seq<Tag>)
    | Items(items: seq<Item>)
    | One(obj: Obj)
    | Made(id: Id, name: Option<string>)
    | Done
    | NotFound
    | Err

  /** What is drawn at random for a creation: the id and the suffix of a segment name. */
  datatype Draw = Draw(id: Id, suffix: string)

  // ---- runs ----

  datatype Mode = Creating | Recovering | Deleting

  datatype Phase =
    | Looking                 // a lookup, a realization or a read of the external gateway is pending
    | Listing                 // the listing of tryRecover is pending
    | Reading                 // the read of the recorded object is pending
    | Writing(want: Obj)      // its patch is pending
    | Making                  // the creation is pending
    | Erasing                 // the deletion is pending
    | Checking                // the read after a failed deletion is pending

  datatype Run =
    | Pending(mode: Mode, todo: seq<Task>, phase: Phase, s: State)
    | Finished(mode: Mode, ok: bool, s: State)
    | Panicked(mode: Mode)    // nil dereference

  /** What happens on entering a task, up to its first call. */
  datatype Entry = Ask(phase: Phase) | Skip | Fail | Panic

  predicate MustList(t: Task, s: State) {
    t !in s.refs && Owned(t) && !IsExternal(t, s) && HasParent(t, s)
  }

  /** Ensure, up to its first call. */
  function EnsureEntry(spec: Spec, t: Task, s: State): Entry {
    if t.Address? then (if Alloc in s.refs then Ask(Looking) else Fail)
    else if !Owned(t) then Ask(Looking)
    else if IsExternal(t, s) then
      if t.Locale? || Tier1 in s.refs then Skip
      else if spec.externalTier1.None? then Panic
      else Ask(Looking)
    else if !LayoutOk(t, spec) then Fail
    else if !Ready(t, s) then Panic
    else Ask(if t in s.refs then Reading else Making)
  }

  function Enter(spec: Spec, mode: Mode, t: Task, s: State): Entry {
    match mode
    case Creating => if MustList(t, s) then Ask(Listing) else EnsureEntry(spec, t, s)
    case Recovering =>
      if t in s.refs then Skip
      else if Owned(t) && !IsExternal(t, s) then (if HasParent(t, s) then Ask(Listing) else Skip)
      else if EnsureEntry(spec, t, s).Fail? then Skip
      else EnsureEntry(spec, t, s)
    case Deleting =>
      if !Owned(t) || IsExternal(t, s) || t !in s.refs then Skip
      else if !Reachable(t, s) then Panic
      else Ask(Erasing)
  }

  function Reverse(ts: seq<Task>): seq<Task> {
    if ts == [] then [] else Reverse(ts[1..]) + [ts[0]]
  }

  /** Works on the remaining tasks up to the next API call. Deletion recovers in creation order, then deletes in reverse. */
  function Begin(spec: Spec, mode: Mode, todo: seq<Task>, s: State): Run
    decreases mode.Recovering?, |todo|, 1
  {
    if todo == [] then
      if mode.Recovering? then Begin(spec, Deleting, Reverse(Tasks(s.nsxt3)), s) else Finished(mode, true, s)
    else
      Follow(spec, mode, todo, s, Enter(spec, mode, todo[0], s))
  }

  function Follow(spec: Spec, mode: Mode, todo: seq<Task>, s: State, e: Entry): Run
    requires todo != []
    decreases mode.Recovering?, |todo|, 0
  {
    match e
    case Ask(phase) => Pending(mode, todo, phase, s)
    case Skip => Begin(spec, mode, todo[1..], s)
    case Fail => Finished(mode, false, s)
    case Panic => Panicked(mode)
  }

  function StartCreate(spec: Spec, s: State): Run {
    Begin(spec, Creating, Tasks(s.nsxt3), UpdateExternal(spec, s))
  }

  function StartDelete(spec: Spec, s: State): Run {
    Begin(spec, Recovering, Tasks(s.nsxt3), UpdateExternal(spec, s))
  }

  /** The phases in which a run may wait on a task. */
  predicate WellPhased(spec: Spec, r: Run) {
    r.Pending? ==>
      && r.todo != []
      && var t, s := r.todo[0], r.s;
         match r.phase
         case Looking => if t.Address? then Alloc in s.refs else (Owned(t) ==> t.Tier1? && spec.externalTier1.Some?)
         case Listing => Owned(t) && HasParent(t, s)
         case Reading => Owned(t) && Ready(t, s) && LayoutOk(t, spec) && Reachable(t, s)
         case Writing(_) => Owned(t) && Reachable(t, s)
         case Making => Owned(t) && Ready(t, s) && LayoutOk(t, spec) && HasParent(t, s)
         case Erasing => Owned(t) && Reachable(t, s)
         case Checking => Owned(t) && Reachable(t, s)
  }

  /** The call a waiting run issues. */
  function NextOp(spec: Spec, r: Run, draw: Draw): Op
    requires r.Pending? && WellPhased(spec, r)
  {
    var t, s := r.todo[0], r.s;
    match r.phase
    case Looking =>
      if t.Address? then Realize(s.refs[Alloc])
      else if t.Switch? then LookupSwitch(if Segment in s.refs then Some(s.refs[Segment]) else None)
      else if t.Tier1? then ReadGateway(spec.externalTier1.value)
      else Lookup(t, LookupName(spec, t))
    case Listing => List(t, ParentId(t, s))
    case Reading => Read(KeyOf(t, s))
    case Writing(want) => Write(KeyOf(t, s), want)
    case Making => Make(NewKey(t, s, draw.id), Created(t, spec, s, draw.suffix))
    case Erasing => Erase(KeyOf(t, s))
    case Checking => Read(KeyOf(t, s))
  }

  function LookupName(spec: Spec, t: Task): string {
    match t
    case Tier0 => spec.tier0
    case TransportZone => spec.transportZone
    case EdgeCluster => spec.edgeCluster
    case _ => spec.ipPool
  }

  /** The first listed item that carries the tags: the scan of tryRecover. */
  function FirstTagged(items: seq<Item>, tags: seq<Tag>): Option<Item> {
    if items == [] then None
    else if ContainsTags(items[0].obj.tags, tags) then Some(items[0])
    else FirstTagged(items[1..], tags)
  }

  /** SetRecoveredReference. The locale service takes the id of the gateway, whatever was listed. */
  function Recovered(t: Task, s: State, item: Item): State
    requires HasParent(t, s)
  {
    var s' := SetRef(s, t, if t.Locale? then ParentId(t, s) else item.id);
    if t.Segment? then s'.(segmentName := NameOf(item.obj)) else s'
  }

  /** The task failed: fatal when creating and deleting, ignored when recovering. */
  function Failed(spec: Spec, mode: Mode, todo: seq<Task>, s: State): Run
    requires todo != []
  {
    if mode.Recovering? then Begin(spec, mode, todo[1..], s) else Finished(mode, false, s)
  }

  function OnLooked(spec: Spec, mode: Mode, todo: seq<Task>, s: State, resp: Resp): Run
    requires todo != []
  {
    var t := todo[0];
    if t.Tier1? then
      if resp.Gateway? && Authorization.Authorized(spec.gardenID, spec.namespace, TagsToMap(resp.tags))
      then Begin(spec, mode, todo[1..], SetRef(s, t, resp.id)) else Failed(spec, mode, todo, s)
    else if t.Switch? && (resp.Found? || resp.NotFound?) && Segment !in s.refs then Panicked(mode)
    else if resp.Found? then Begin(spec, mode, todo[1..], SetRef(s, t, resp.id))
    else Failed(spec, mode, todo, s)
  }

  /** The state after the listing of tryRecover. */
  function TryRecover(spec: Spec, t: Task, s: State, resp: Resp): State
    requires HasParent(t, s)
  {
    var found := if resp.Items? then FirstTagged(resp.items, TagsOf(spec, t)) else None;
    if found.Some? then Recovered(t, s, found.value) else s
  }

  function OnListed(spec: Spec, mode: Mode, todo: seq<Task>, s: State, resp: Resp): Run
    requires todo != [] && HasParent(todo[0], s)
  {
    var s' := TryRecover(spec, todo[0], s, resp);
    if mode.Recovering? then Begin(spec, mode, todo[1..], s')
    else Follow(spec, mode, todo, s', EnsureEntry(spec, todo[0], s'))
  }

  /** The patch keeps the tags of others. */
  function Patch(t: Task, spec: Spec, s: State, have: Obj): Obj
    requires Owned(t) && Ready(t, s) && LayoutOk(t, spec)
  {
    Obj(WantedAttrs(t, spec, s, s.segmentName), MergeTags(TagsOf(spec, t), have.tags))
  }

  /** What not finding the recorded object makes a task forget. The locale service forgets its gateway. */
  function Forget(t: Task, s: State): State {
    ClearRef(s, if t.Locale? then Tier1 else t)
  }

  function OnRead(spec: Spec, mode: Mode, todo: seq<Task>, s: State, resp: Resp): Run
    requires todo != [] && Owned(todo[0]) && Ready(todo[0], s) && LayoutOk(todo[0], spec)
  {
    var t := todo[0];
    if resp.One? then
      if Drifted(t, resp.obj, Wanted(t, spec, s))
      then Pending(mode, todo, Writing(Patch(t, spec, s, resp.obj)), s)
      else Begin(spec, mode, todo[1..], s)
    else if resp.NotFound? then
      if t.Alloc? then Pending(mode, todo, Making, s)
      else Follow(spec, mode, todo, Forget(t, s), EnsureEntry(spec, t, Forget(t, s)))
    else Failed(spec, mode, todo, s)
  }

  function OnWritten(spec: Spec, mode: Mode, todo: seq<Task>, s: State, resp: Resp): Run
    requires todo != []
  {
    if resp.Done? then Begin(spec, mode, todo[1..], s) else Failed(spec, mode, todo, s)
  }

  /** The state after a creation: the reference, and for a segment its name. */
  function WithMade(t: Task, s: State, id: Id, name: Option<string>): State
    requires HasParent(t, s)
  {
    var s' := SetRef(s, t, if t.Locale? then ParentId(t, s) else id);
    if t.Segment? then s'.(segmentName := name) else s'
  }

  function OnMade(spec: Spec, mode: Mode, todo: seq<Task>, s: State, resp: Resp): Run
    requires todo != [] && HasParent(todo[0], s)
  {
    if resp.Made? then Begin(spec, mode, todo[1..], WithMade(todo[0], s, resp.id, resp.name))
    else Failed(spec, mode, todo, s)
  }

  function OnErased(spec: Spec, mode: Mode, todo: seq<Task>, s: State, resp: Resp): Run
    requires todo != []
  {
    var t := todo[0];
    if resp.Done? || (resp.NotFound? && Advanced(t)) then Begin(spec, mode, todo[1..], ClearRef(s, t))
    else if t.Locale? then Pending(mode, todo, Checking, s)
    else Failed(spec, mode, todo, s)
  }

  function OnChecked(spec: Spec, mode: Mode, todo: seq<Task>, s: State, resp: Resp): Run
    requires todo != []
  {
    if resp.NotFound? then Begin(spec, mode, todo[1..], ClearRef(s, todo[0])) else Failed(spec, mode, todo, s)
  }

  /** What a run does with the answer to its call. */
  function Resume(spec: Spec, r: Run, resp: Resp): Run
    requires r.Pending? && WellPhased(spec, r)
  {
    match r.phase
    case Looking => OnLooked(spec, r.mode, r.todo, r.s, resp)
    case Listing => OnListed(spec, r.mode, r.todo, r.s, resp)
    case Reading => OnRead(spec, r.mode, r.todo, r.s, resp)
    case Writing(_) => OnWritten(spec, r.mode, r.todo, r.s, resp)
    case Making => OnMade(spec, r.mode, r.todo, r.s, resp)
    case Erasing => OnErased(spec, r.mode, r.todo, r.s, resp)
    case Checking => OnChecked(spec, r.mode, r.todo, r.s, resp)
  }

  // ---- every run waits in a proper phase ----

  lemma {:induction false} BeginPhased(spec: Spec, mode: Mode, todo: seq<Task>, s: State)
    ensures WellPhased(spec, Begin(spec, mode, todo, s))
    decreases mode.Recovering?, |todo|
  {
    if todo == [] {
      if mode.Recovering? { BeginPhased(spec, Deleting, Reverse(Tasks(s.nsxt3)), s); }
    } else {
      BeginPhased(spec, mode, todo[1..], s);
    }
  }

  lemma EnsurePhased(spec: Spec, mode: Mode, todo: seq<Task>, s: State)
    requires todo != []
    ensures WellPhased(spec, Follow(spec, mode, todo, s, EnsureEntry(spec, todo[0], s)))
  {
    BeginPhased(spec, mode, todo[1..], s);
  }

  lemma ResumePhased(spec: Spec, r: Run, resp: Resp)
    requires r.Pending? && WellPhased(spec, r)
    ensures WellPhased(spec, Resume(spec, r, resp))
  {
    var t, s, rest := r.todo[0], r.s, r.todo[1..];
    BeginPhased(spec, r.mode, rest, s);
    match r.phase {
      case Looking =>
        if resp.Gateway? || resp.Found? { BeginPhased(spec, r.mode, rest, SetRef(s, t, resp.id)); }
      case Listing =>
        BeginPhased(spec, r.mode, rest, TryRecover(spec, t, s, resp));
        EnsurePhased(spec, r.mode, r.todo, TryRecover(spec, t, s, resp));
      case Reading => EnsurePhased(spec, r.mode, r.todo, Forget(t, s));
      case Making => if resp.Made? { BeginPhased(spec, r.mode, rest, WithMade(t, s, resp.id, resp.name)); }
      case Erasing => BeginPhased(spec, r.mode, rest, ClearRef(s, t));
      case Checking => BeginPhased(spec, r.mode, rest, ClearRef(s, t));
      case Writing(_) =>
    }
  }
}
