/**
  References between objects: what an object depends on, and why what a task writes depends only on what the shoot
  has already got.
 */
module References {
  import opened Basics
  import opened Protocol
  import opened World
  import opened Plan
  import opened Isolation

  /** The SNAT pool the spec names. */
  function PoolId(st: Store, spec: Spec): Id {
    if (IpPool, spec.ipPool) in st.catalog then st.catalog[(IpPool, spec.ipPool)] else ROOT
  }

  /** The shoot's own object that an attribute value refers to, if any. A logical switch stands for its segment. */
  function Target(st: Store, spec: Spec, v: Value): Option<Key> {
    match v
    case PathTo(k) =>
      if k.kind.Switch? then Some(Key(Segment, ROOT, k.id))
      else if Owned(k.kind) && !(k.kind.Tier1? && spec.externalTier1.Some?) then Some(k)
      else None
    case AddressOf(a) => Some(Key(Alloc, PoolId(st, spec), a))
    case _ => None
  }

  /** An object depends on its parent and on the objects its attributes name. */
  ghost predicate DependsOn(st: Store, spec: Spec, key: Key, o: Obj, dep: Key) {
    || (ParentTask(key.kind).Some? && Owned(ParentTask(key.kind).value)
        && !(ParentTask(key.kind).value.Tier1? && spec.externalTier1.Some?)
        && dep == Key(ParentTask(key.kind).value, ROOT, key.parent))
    || (exists a :: a in o.attrs && Target(st, spec, o.attrs[a]) == Some(dep))
  }

  /** Every object of the shoot finds the objects it depends on, and these come earlier in the plan. */
  ghost predicate Referential(st: Store, w: Shoot, spec: Spec) {
    forall key, dep :: Mine(st, w, key) && DependsOn(st, spec, key, st.objects[key], dep) ==>
      Mine(st, w, dep) && Rank(dep.kind) < Rank(key.kind)
  }

  lemma TargetKept(st: Store, st': Store, spec: Spec)
    requires st'.catalog == st.catalog
    ensures forall v :: Target(st', spec, v) == Target(st, spec, v)
  {}

  lemma DepsKept(st: Store, st': Store, spec: Spec, key: Key, o: Obj, dep: Key)
    requires st'.catalog == st.catalog
    ensures DependsOn(st', spec, key, o, dep) <==> DependsOn(st, spec, key, o, dep)
  {
    TargetKept(st, st', spec);
  }

  /** The shoot owns what it owned. */
  ghost predicate Grown(st: Store, st': Store, w: Shoot) {
    st'.catalog == st.catalog && st'.gateways == st.gateways && forall key :: Mine(st, w, key) ==> Mine(st', w, key)
  }

  // ---- what a task writes ----

  /** Whatever is recorded before task t leads to objects of the shoot, and is what it should be. */
  ghost predicate Grounded(st: Store, w: Shoot, spec: Spec, s: State, t: Task) {
    && s.external == spec.externalTier1.Some?
    && (forall u :: u in s.refs && Rank(u) < Rank(t) && Owned(u) ==>
          if IsExternal(u, s) then u.Tier1? && s.refs[u] == spec.externalTier1.value
          else Reachable(u, s) && Mine(st, w, KeyOf(u, s)))
    && (IpPool in s.refs && Rank(IpPool) < Rank(t) ==> s.refs[IpPool] == PoolId(st, spec))
    && (Address in s.refs && Rank(Address) < Rank(t) ==> Alloc in s.refs && s.refs[Address] == s.refs[Alloc])
    && (t.Port? ==> Switch in s.refs && Segment in s.refs && s.refs[Switch] == s.refs[Segment])
  }

  /** The dependencies of attributes that are about to be written. */
  ghost predicate Resolved(st: Store, w: Shoot, spec: Spec, t: Task, attrs: map<Attr, Value>) {
    forall a :: a in attrs ==> ResolvedValue(st, w, spec, t, attrs[a])
  }

  ghost predicate ResolvedValue(st: Store, w: Shoot, spec: Spec, t: Task, v: Value) {
    var dep := Target(st, spec, v);
    dep.Some? ==> Mine(st, w, dep.value) && Rank(dep.value.kind) < Rank(t)
  }

  lemma RefResolved(st: Store, w: Shoot, spec: Spec, s: State, u: Task, t: Task)
    requires Grounded(st, w, spec, s, t) && u in s.refs && ParentTask(u).None? && !u.Switch? && Rank(u) < Rank(t)
    ensures ResolvedValue(st, w, spec, t, TopPath(u, s))
  {
    if Owned(u) && !IsExternal(u, s) { assert Mine(st, w, KeyOf(u, s)); }
  }

  lemma WantedSegment(st: Store, w: Shoot, spec: Spec, s: State, name: Option<string>)
    requires Grounded(st, w, spec, s, Segment) && Ready(Segment, s) && LayoutOk(Segment, spec)
    ensures Resolved(st, w, spec, Segment, WantedAttrs(Segment, spec, s, name))
  {
    RefResolved(st, w, spec, s, Tier1, Segment);
    RefResolved(st, w, spec, s, TransportZone, Segment);
    if DhcpConfig in s.refs { RefResolved(st, w, spec, s, DhcpConfig, Segment); }
  }

  lemma WantedRule(st: Store, w: Shoot, spec: Spec, s: State)
    requires Grounded(st, w, spec, s, Rule) && Ready(Rule, s)
    ensures Resolved(st, w, spec, Rule, WantedAttrs(Rule, spec, s, None))
  {
    assert Mine(st, w, KeyOf(Alloc, s));
  }

  lemma WantedPort(st: Store, w: Shoot, spec: Spec, s: State)
    requires Grounded(st, w, spec, s, Port) && Ready(Port, s)
    ensures Resolved(st, w, spec, Port, WantedAttrs(Port, spec, s, None))
  {
    RefResolved(st, w, spec, s, Server, Port);
    assert Mine(st, w, KeyOf(Segment, s));
  }

  lemma WantedPlain(st: Store, w: Shoot, spec: Spec, t: Task, s: State)
    requires Grounded(st, w, spec, s, t) && Ready(t, s) && LayoutOk(t, spec)
    requires t.Tier1? || t.Locale? || t.DhcpConfig? || t.Alloc? || t.Profile? || t.Server? || t.Pool?
    ensures Resolved(st, w, spec, t, WantedAttrs(t, spec, s, None))
  {
    if t.Tier1? { RefResolved(st, w, spec, s, Tier0, t); }
    if t.Locale? || t.DhcpConfig? || t.Profile? { RefResolved(st, w, spec, s, EdgeCluster, t); }
    if t.Server? { RefResolved(st, w, spec, s, Profile, t); }
  }

  /** What a task is about to write refers only to objects the shoot owns, all earlier in the plan. */
  lemma WantedResolved(st: Store, w: Shoot, spec: Spec, t: Task, s: State, name: Option<string>)
    requires Grounded(st, w, spec, s, t) && Owned(t) && Ready(t, s) && LayoutOk(t, spec)
    ensures Resolved(st, w, spec, t, WantedAttrs(t, spec, s, name))
  {
    if t.Segment? {
      WantedSegment(st, w, spec, s, name);
    } else {
      assert WantedAttrs(t, spec, s, name) == WantedAttrs(t, spec, s, None);
      if t.Rule? { WantedRule(st, w, spec, s); }
      else if t.Port? { WantedPort(st, w, spec, s); }
      else { WantedPlain(st, w, spec, t, s); }
    }
  }

  /** What a task is about to create depends only on objects the shoot owns. */
  lemma CreatedResolved(st: Store, w: Shoot, spec: Spec, t: Task, s: State, draw: Draw)
    requires Grounded(st, w, spec, s, t) && Owned(t) && !IsExternal(t, s) && Ready(t, s) && LayoutOk(t, spec) && HasParent(t, s)
    ensures forall dep :: DependsOn(st, spec, NewKey(t, s, draw.id), Created(t, spec, s, draw.suffix), dep) ==>
              Mine(st, w, dep) && Rank(dep.kind) < Rank(t)
  {
    WantedResolved(st, w, spec, t, s, Some(FullName(spec) + "-" + draw.suffix));
    if ParentTask(t).Some? && Owned(ParentTask(t).value) && !IsExternal(ParentTask(t).value, s) {
      assert Mine(st, w, KeyOf(ParentTask(t).value, s));
    }
  }

  // ---- changes of the store ----

  /** One object was written or added, and it refers to objects of the shoot only. */
  lemma StillReferential(st: Store, st': Store, w: Shoot, spec: Spec, key: Key)
    requires Referential(st, w, spec) && Grown(st, st', w)
    requires forall k :: Mine(st', w, k) && k != key ==> Mine(st, w, k) && st'.objects[k] == st.objects[k]
    requires Mine(st', w, key) ==>
               forall dep :: DependsOn(st, spec, key, st'.objects[key], dep) ==>
                 Mine(st, w, dep) && Rank(dep.kind) < Rank(key.kind)
    ensures Referential(st', w, spec)
  {
    forall k, dep | Mine(st', w, k) && DependsOn(st', spec, k, st'.objects[k], dep)
      ensures Mine(st', w, dep) && Rank(dep.kind) < Rank(k.kind)
    {
      DepsKept(st, st', spec, k, st'.objects[k], dep);
    }
  }

  /** Overwriting attributes adds no dependency but those of the new attributes. */
  lemma OverwrittenDeps(st: Store, w: Shoot, spec: Spec, key: Key, have: Obj, want: Obj, o: Obj)
    requires forall dep :: DependsOn(st, spec, key, have, dep) ==> Mine(st, w, dep) && Rank(dep.kind) < Rank(key.kind)
    requires Resolved(st, w, spec, key.kind, want.attrs)
    requires o.attrs == have.attrs + want.attrs || o.attrs == want.attrs
    ensures forall dep :: DependsOn(st, spec, key, o, dep) ==> Mine(st, w, dep) && Rank(dep.kind) < Rank(key.kind)
  {
    forall dep | DependsOn(st, spec, key, o, dep) ensures Mine(st, w, dep) && Rank(dep.kind) < Rank(key.kind) {
      if !DependsOn(st, spec, key, have, dep) {
        var b :| b in o.attrs && Target(st, spec, o.attrs[b]) == Some(dep);
        assert b in want.attrs && o.attrs[b] == want.attrs[b];
      }
    }
  }

  lemma WrittenReferential(st: Store, w: Shoot, spec: Spec, key: Key, want: Obj, a: Answer)
    requires Referential(st, w, spec) && Mine(st, w, key) && Resolved(st, w, spec, key.kind, want.attrs)
    ensures var st' := After(st, w, Write(key, want), a); Referential(st', w, spec) && Grown(st, st', w)
  {
    var st' := After(st, w, Write(key, want), a);
    if st' != st {
      OverwrittenDeps(st, w, spec, key, st.objects[key], want, st'.objects[key]);
      StillReferential(st, st', w, spec, key);
    }
  }

  /** Creating over an own object, or anew. */
  lemma MadeReferential(st: Store, w: Shoot, spec: Spec, key: Key, o: Obj, a: Answer)
    requires Referential(st, w, spec)
    requires IsFresh(st, IssuedId(key)) || IssuedTo(st, IssuedId(key), w)
    requires forall dep :: DependsOn(st, spec, key, o, dep) ==> Mine(st, w, dep) && Rank(dep.kind) < Rank(key.kind)
    ensures var st' := After(st, w, Make(key, o), a); Referential(st', w, spec) && Grown(st, st', w)
  {
    var st' := After(st, w, Make(key, o), a);
    if !a.fault.Refused? {
      forall k | Mine(st', w, k) && k != key ensures Mine(st, w, k) && st'.objects[k] == st.objects[k] {}
      if key in st.objects {
        assert Mine(st, w, key);
        assert Resolved(st, w, spec, key.kind, o.attrs) by {
          forall b | b in o.attrs ensures ResolvedValue(st, w, spec, key.kind, o.attrs[b]) {
            var dep := Target(st, spec, o.attrs[b]);
            assert dep.Some? ==> DependsOn(st, spec, key, o, dep.value);
          }
        }
        OverwrittenDeps(st, w, spec, key, st.objects[key], o, st'.objects[key]);
      }
      StillReferential(st, st', w, spec, key);
    }
  }
}
