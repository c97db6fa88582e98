/**
  Load balancer classes: a shoot's classes laid over those of the cloud profile, and the validation of updates, which
  sees no cloud profile and must answer for all of them.
 */
module LoadBalancer {
  import opened Basics

  /** A class, of the profile or of the shoot. */
  datatype Class = Class(name: string, ipPool: Option<string>, tcp: Option<string>, udp: Option<string>)

  datatype Overwritten =
    | Classes(defaultClass: Class, classes: seq<Class>)
    | NoClasses              // the profile defines no class
    | Denied                 // the check refused a pool
    | NoPool                 // the default class ends without a pool

  const DEFAULT := "default"

  predicate IsEmpty(s: Option<string>) {
    s.GetOr("") == ""
  }

  // ---- what the overlay means ----

  /** The class that counts as default: the last one of that name, or else the first one. */
  function DefaultOf(classes: seq<Class>): Option<Class> {
    if LastNamed(classes, DEFAULT).Some? then LastNamed(classes, DEFAULT)
    else if classes != [] then Some(classes[0]) else None
  }

  function LastNamed(classes: seq<Class>, name: string): Option<Class> {
    if classes == [] then None
    else if classes[|classes| - 1].name == name then Some(classes[|classes| - 1])
    else LastNamed(classes[..|classes| - 1], name)
  }

  function FirstNamed(classes: seq<Class>, name: string): Option<Class> {
    if classes == [] then None else if classes[0].name == name then Some(classes[0]) else FirstNamed(classes[1..], name)
  }

  /** A value of the shoot, or else the profile's, or else none. */
  function Over(own: Option<string>, base: Option<string>): Option<string> {
    if !IsEmpty(own) then own else if !IsEmpty(base) then base else None
  }

  function Merged(classes: seq<Class>, c: Class): Class {
    var base := FirstNamed(classes, c.name).GetOr(Class(c.name, None, None, None));
    Class(c.name, Over(c.ipPool, base.ipPool), Over(c.tcp, base.tcp), Over(c.udp, base.udp))
  }

  function MergedAll(classes: seq<Class>, own: seq<Class>): seq<Class> {
    seq(|own|, i requires 0 <= i < |own| => Merged(classes, own[i]))
  }

  predicate PoolAllowed(c: Class, check: Option<string -> bool>) {
    check.Some? && !IsEmpty(c.ipPool) ==> check.value(c.ipPool.value)
  }

  predicate Allowed(own: seq<Class>, check: Option<string -> bool>) {
    forall c :: c in own ==> PoolAllowed(c, check)
  }

  /** A shoot without classes has the default class. */
  function WithDefault(own: seq<Class>): seq<Class> {
    if own == [] then [Class(DEFAULT, None, None, None)] else own
  }

  /** The default class of the profile, or the last class of the shoot of that name. */
  function DefaultAfter(classes: seq<Class>, own: seq<Class>, base: Class): Class {
    var last := LastNamed(own, base.name);
    if last.Some? then Merged(classes, last.value) else base
  }

  lemma DefaultStep(classes: seq<Class>, own: seq<Class>, base: Class, i: nat)
    requires i < |own|
    ensures DefaultAfter(classes, own[..i + 1], base)
            == if own[i].name == base.name then Merged(classes, own[i]) else DefaultAfter(classes, own[..i], base)
  {
    assert own[..i + 1][..i] == own[..i];
  }

  function Overwrite(classes: seq<Class>, own: seq<Class>, check: Option<string -> bool>): Overwritten {
    var base := DefaultOf(classes);
    if base.None? then NoClasses
    else if !Allowed(own, check) then Denied
    else
      var d := DefaultAfter(classes, own, base.value);
      if IsEmpty(d.ipPool) then NoPool else Classes(d, MergedAll(classes, own))
  }

  // ---- the overlay, value by value ----

  /** A value comes from the shoot, else from the profile, else it is unset; empty counts as unset. */
  predicate IsLaid(got: Option<string>, own: Option<string>, base: Option<string>) {
    if own.GetOr("") != "" then got == own else if base.GetOr("") != "" then got == base else got == None
  }

  predicate IsLaidOver(got: Class, own: Class, base: Class) {
    IsLaid(got.ipPool, own.ipPool, base.ipPool) && IsLaid(got.tcp, own.tcp, base.tcp) && IsLaid(got.udp, own.udp, base.udp)
  }

  /** One class of the result: laid over the profile's class of that name, the first one, or over nothing. */
  ghost predicate IsMerged(classes: seq<Class>, own: Class, got: Class) {
    && got.name == own.name
    && (forall j :: 0 <= j < |classes| && classes[j].name == own.name && (forall k :: 0 <= k < j ==> classes[k].name != own.name)
          ==> IsLaidOver(got, own, classes[j]))
    && ((forall j :: 0 <= j < |classes| ==> classes[j].name != own.name)
          ==> IsLaidOver(got, own, Class(own.name, None, None, None)))
  }

  /** The position of the profile's default class: the last one named default, or else the first of all. */
  ghost predicate IsDefaultAt(classes: seq<Class>, j: int) {
    && 0 <= j < |classes|
    && if classes[j].name == "default" then forall k :: j < k < |classes| ==> classes[k].name != "default"
       else j == 0 && forall k :: 0 <= k < |classes| ==> classes[k].name != "default"
  }

  /** The default class: the profile's, or what became of the shoot's last class of that name. */
  ghost predicate IsDefaultAfter(classes: seq<Class>, own: seq<Class>, base: Class, d: Class) {
    && (forall i :: 0 <= i < |own| && own[i].name == base.name && (forall k :: i < k < |own| ==> own[k].name != base.name)
          ==> IsMerged(classes, own[i], d))
    && ((forall i :: 0 <= i < |own| ==> own[i].name != base.name) ==> d == base)
  }

  /** Some class of the shoot names a pool that the check refuses. */
  ghost predicate IsRefused(own: seq<Class>, check: Option<string -> bool>) {
    check.Some? && exists i :: 0 <= i < |own| && own[i].ipPool.GetOr("") != "" && !check.value(own[i].ipPool.GetOr(""))
  }

  ghost predicate IsOverlay(classes: seq<Class>, own: seq<Class>, check: Option<string -> bool>, r: Overwritten) {
    && (r.NoClasses? <==> classes == [])
    && (r.Denied? <==> classes != [] && IsRefused(own, check))
    && (r.NoPool? ==>
          exists j, d :: IsDefaultAt(classes, j) && IsDefaultAfter(classes, own, classes[j], d) && d.ipPool.GetOr("") == "")
    && (r.Classes? ==>
          && (exists j :: IsDefaultAt(classes, j) && IsDefaultAfter(classes, own, classes[j], r.defaultClass))
          && r.defaultClass.ipPool.GetOr("") != ""
          && |r.classes| == |own| && forall i :: 0 <= i < |own| ==> IsMerged(classes, own[i], r.classes[i]))
  }

  lemma {:induction false} FirstAt(classes: seq<Class>, name: string)
    ensures FirstNamed(classes, name).None? ==> forall k :: 0 <= k < |classes| ==> classes[k].name != name
    ensures FirstNamed(classes, name).Some? ==>
              exists j :: 0 <= j < |classes| && FirstNamed(classes, name) == Some(classes[j]) && classes[j].name == name
                          && forall k :: 0 <= k < j ==> classes[k].name != name
  {
    if classes != [] && classes[0].name != name {
      FirstAt(classes[1..], name);
      if FirstNamed(classes[1..], name).Some? {
        var j :| 0 <= j < |classes[1..]| && FirstNamed(classes[1..], name) == Some(classes[1..][j]) && classes[1..][j].name == name
                 && forall k :: 0 <= k < j ==> classes[1..][k].name != name;
        assert classes[j + 1] == classes[1..][j];
        forall k | 0 <= k < j + 1 ensures classes[k].name != name { if k > 0 { assert classes[k] == classes[1..][k - 1]; } }
      } else {
        forall k | 0 <= k < |classes| ensures classes[k].name != name { if k > 0 { assert classes[k] == classes[1..][k - 1]; } }
      }
    }
  }

  lemma {:induction false} LastAt(classes: seq<Class>, name: string)
    ensures LastNamed(classes, name).None? ==> forall k :: 0 <= k < |classes| ==> classes[k].name != name
    ensures LastNamed(classes, name).Some? ==>
              exists j :: 0 <= j < |classes| && LastNamed(classes, name) == Some(classes[j]) && classes[j].name == name
                          && forall k :: j < k < |classes| ==> classes[k].name != name
  {
    if classes != [] {
      var n := |classes| - 1;
      if classes[n].name != name {
        LastAt(classes[..n], name);
        forall k | 0 <= k < n ensures classes[k] == classes[..n][k] {}
      }
    }
  }

  lemma MergedIsMerged(classes: seq<Class>, own: Class)
    ensures IsMerged(classes, own, Merged(classes, own))
  {
    FirstAt(classes, own.name);
  }

  lemma DefaultIsAt(classes: seq<Class>) returns (j: int)
    requires classes != []
    ensures IsDefaultAt(classes, j) && DefaultOf(classes) == Some(classes[j])
  {
    LastAt(classes, DEFAULT);
    j := 0;
    if LastNamed(classes, DEFAULT).Some? {
      j :| 0 <= j < |classes| && LastNamed(classes, DEFAULT) == Some(classes[j]) && classes[j].name == DEFAULT
           && forall k :: j < k < |classes| ==> classes[k].name != DEFAULT;
    }
  }

  lemma DefaultIsAfter(classes: seq<Class>, own: seq<Class>, base: Class)
    ensures IsDefaultAfter(classes, own, base, DefaultAfter(classes, own, base))
  {
    LastAt(own, base.name);
    var last := LastNamed(own, base.name);
    if last.Some? { MergedIsMerged(classes, last.value); }
  }

  lemma AllowedIsNotRefused(own: seq<Class>, check: Option<string -> bool>)
    ensures Allowed(own, check) <==> !IsRefused(own, check)
  {
    if !Allowed(own, check) {
      var c :| c in own && !PoolAllowed(c, check);
      var i :| 0 <= i < |own| && own[i] == c;
      assert own[i].ipPool.GetOr("") != "";
    } else if check.Some? {
      forall i | 0 <= i < |own| && own[i].ipPool.GetOr("") != "" ensures check.value(own[i].ipPool.GetOr("")) {
        assert own[i] in own && PoolAllowed(own[i], check);
      }
    }
  }

  /** The overlay, for any profile, any classes and any check: whose value counts, class by class; which class is the
      default; and exactly when a pool is refused. */
  lemma OverwriteIsOverlay(classes: seq<Class>, own: seq<Class>, check: Option<string -> bool>)
    ensures IsOverlay(classes, own, check, Overwrite(classes, own, check))
  {
    AllowedIsNotRefused(own, check);
    var r := Overwrite(classes, own, check);
    if r.Classes? || r.NoPool? {
      var j := DefaultIsAt(classes);
      DefaultIsAfter(classes, own, classes[j]);
    }
    if r.Classes? {
      forall i | 0 <= i < |own| ensures IsMerged(classes, own[i], r.classes[i]) { MergedIsMerged(classes, own[i]); }
    }
  }

  class ControlPlaneConfig {
    var loadBalancerClasses: seq<Class>
    var loadBalancerSize: Option<string>

    constructor (classes: seq<Class>, size: Option<string>)
      ensures loadBalancerClasses == classes && loadBalancerSize == size
    {
      loadBalancerClasses, loadBalancerSize := classes, size;
    }
  }

  method FindDefault(classes: seq<Class>) returns (r: Option<Class>)
    ensures r == DefaultOf(classes)
  {
    r := None;
    for i := 0 to |classes|
      invariant r == DefaultOf(classes[..i])
    {
      assert classes[..i + 1][..i] == classes[..i];
      if i == 0 || classes[i].name == DEFAULT { r := Some(classes[i]); }
    }
    assert classes[..|classes|] == classes;
  }

  method FindClass(classes: seq<Class>, name: string) returns (r: Option<Class>)
    ensures r == FirstNamed(classes, name)
  {
    for i := 0 to |classes|
      invariant FirstNamed(classes, name) == FirstNamed(classes[i..], name)
    {
      if classes[i].name == name { return Some(classes[i]); }
    }
    return None;
  }

  /** One class of the shoot, with what the profile's class of that name adds. */
  method MergeClass(classes: seq<Class>, c: Class) returns (lbClass: Class)
    ensures lbClass == Merged(classes, c)
  {
    lbClass := Class(c.name, None, None, None);
    var constraint := FindClass(classes, c.name);
    if !IsEmpty(c.ipPool) {
      lbClass := lbClass.(ipPool := c.ipPool);
    } else if constraint.Some? && !IsEmpty(constraint.value.ipPool) {
      lbClass := lbClass.(ipPool := constraint.value.ipPool);
    }
    if !IsEmpty(c.tcp) {
      lbClass := lbClass.(tcp := c.tcp);
    } else if constraint.Some? && !IsEmpty(constraint.value.tcp) {
      lbClass := lbClass.(tcp := constraint.value.tcp);
    }
    if !IsEmpty(c.udp) {
      lbClass := lbClass.(udp := c.udp);
    } else if constraint.Some? && !IsEmpty(constraint.value.udp) {
      lbClass := lbClass.(udp := constraint.value.udp);
    }
  }

  /** The classes of the shoot one by one; the default class follows the last one of its name. */
  method MergeClasses(classes: seq<Class>, own: seq<Class>, base: Class, check: Option<string -> bool>) returns (r: Overwritten)
    requires DefaultOf(classes) == Some(base)
    ensures r == Overwrite(classes, own, check)
  {
    var defaultClass := base;
    var result := [];
    for i := 0 to |own|
      invariant |result| == i && forall k :: 0 <= k < i ==> result[k] == Merged(classes, own[k])
      invariant forall k :: 0 <= k < i ==> PoolAllowed(own[k], check)
      invariant defaultClass.name == base.name
      invariant defaultClass == DefaultAfter(classes, own[..i], base)
    {
      DefaultStep(classes, own, base, i);
      var c := own[i];
      if !IsEmpty(c.ipPool) && check.Some? && !check.value(c.ipPool.value) {
        assert own[i] in own && !PoolAllowed(own[i], check);
        return Denied;
      }
      var lbClass := MergeClass(classes, c);
      result := result + [lbClass];
      if lbClass.name == defaultClass.name { defaultClass := lbClass; }
    }
    assert own[..|own|] == own;
    if IsEmpty(defaultClass.ipPool) { return NoPool; }
    assert result == MergedAll(classes, own);
    return Classes(defaultClass, result);
  }

  /** OverwriteLoadBalancerClasses; it gives a config without classes the default class. */
  method OverwriteLoadBalancerClasses(classes: seq<Class>, config: ControlPlaneConfig, check: Option<string -> bool>)
    returns (r: Overwritten)
    modifies config`loadBalancerClasses
    ensures config.loadBalancerClasses
            == if old(config.loadBalancerClasses) == [] then [Class("default", None, None, None)] else old(config.loadBalancerClasses)
    ensures r == Overwrite(classes, config.loadBalancerClasses, check)
    ensures IsOverlay(classes, config.loadBalancerClasses, check, r)
  {
    OverwriteIsOverlay(classes, WithDefault(config.loadBalancerClasses), check);
    if config.loadBalancerClasses == [] { config.loadBalancerClasses := [Class(DEFAULT, None, None, None)]; }
    var base := FindDefault(classes);
    if base.None? { return NoClasses; }
    r := MergeClasses(classes, config.loadBalancerClasses, base.value, check);
  }

  // ---- updates ----

  /** The profile the validation assumes. */
  const Dummy: seq<Class> := [Class(DEFAULT, Some("dummy"), None, None)]

  /** Two classes are the same when nil and the empty string are. */
  predicate Same(c: Class, d: Class) {
    c.ipPool.GetOr("") == d.ipPool.GetOr("") && c.tcp.GetOr("") == d.tcp.GetOr("") && c.udp.GetOr("") == d.udp.GetOr("")
  }

  /** The default class a config has under the assumed profile. */
  function Assumed(own: seq<Class>): Class {
    var last := LastNamed(own, DEFAULT);
    if last.Some? then Merged(Dummy, last.value) else Dummy[0]
  }

  /** Under the assumed profile the overlay never fails. */
  lemma AssumedIsDefault(own: seq<Class>)
    ensures Overwrite(Dummy, own, None) == Classes(Assumed(own), MergedAll(Dummy, own))
  {
    assert LastNamed(Dummy, DEFAULT) == Some(Dummy[0]);
    LastIsFound(own, DEFAULT);
  }

  predicate AcceptsClasses(old_: seq<Class>, new_: seq<Class>) {
    Same(Assumed(WithDefault(old_)), Assumed(WithDefault(new_)))
  }

  /** ValidateControlPlaneConfigUpdate, reduced to whether it finds no error. */
  method ValidateControlPlaneConfigUpdate(oldConfig: ControlPlaneConfig, newConfig: ControlPlaneConfig) returns (ok: bool)
    modifies oldConfig`loadBalancerClasses, newConfig`loadBalancerClasses
    ensures ok <==> oldConfig.loadBalancerSize.GetOr("") == newConfig.loadBalancerSize.GetOr("")
                    && AcceptsClasses(old(oldConfig.loadBalancerClasses), old(newConfig.loadBalancerClasses))
    ensures oldConfig.loadBalancerClasses == WithDefault(old(oldConfig.loadBalancerClasses))
    ensures newConfig.loadBalancerClasses == WithDefault(old(newConfig.loadBalancerClasses))
  {
    var a, b := oldConfig.loadBalancerSize, newConfig.loadBalancerSize;
    ok := true;
    if !IsEmpty(a) != !IsEmpty(b) || (!IsEmpty(a) && a.value != b.value) { ok := false; }
    var oldDefault := OverwriteLoadBalancerClasses(Dummy, oldConfig, None);
    var newDefault := OverwriteLoadBalancerClasses(Dummy, newConfig, None);
    AssumedIsDefault(oldConfig.loadBalancerClasses);
    AssumedIsDefault(newConfig.loadBalancerClasses);
    var c, d := oldDefault.defaultClass, newDefault.defaultClass;
    if c.ipPool.GetOr("") != d.ipPool.GetOr("") { ok := false; }
    if c.tcp.GetOr("") != d.tcp.GetOr("") { ok := false; }
    if c.udp.GetOr("") != d.udp.GetOr("") { ok := false; }
  }

  /** HasRelevantControlPlaneConfigUpdates. */
  method HasRelevantControlPlaneConfigUpdates(oldConfig: ControlPlaneConfig, newConfig: ControlPlaneConfig)
    returns (relevant: bool)
    modifies oldConfig`loadBalancerClasses, newConfig`loadBalancerClasses
    ensures relevant <==> Assumed(WithDefault(old(oldConfig.loadBalancerClasses)))
                          != Assumed(WithDefault(old(newConfig.loadBalancerClasses)))
  {
    var oldDefault := OverwriteLoadBalancerClasses(Dummy, oldConfig, None);
    var newDefault := OverwriteLoadBalancerClasses(Dummy, newConfig, None);
    AssumedIsDefault(oldConfig.loadBalancerClasses);
    AssumedIsDefault(newConfig.loadBalancerClasses);
    relevant := oldDefault.defaultClass != newDefault.defaultClass;
  }

  // ---- what the validation promises ----

  ghost predicate DistinctNames(classes: seq<Class>) {
    forall i, j :: 0 <= i < j < |classes| ==> classes[i].name != classes[j].name
  }

  /** Distinct names, one of them the default. */
  ghost predicate Proper(classes: seq<Class>) {
    DistinctNames(classes) && exists i :: 0 <= i < |classes| && classes[i].name == DEFAULT
  }

  lemma {:induction false} LastIsFound(classes: seq<Class>, name: string)
    ensures LastNamed(classes, name).Some? <==> exists i :: 0 <= i < |classes| && classes[i].name == name
    ensures LastNamed(classes, name).Some? ==> LastNamed(classes, name).value in classes && LastNamed(classes, name).value.name == name
  {
    if classes != [] {
      var n := |classes| - 1;
      LastIsFound(classes[..n], name);
      if LastNamed(classes, name).Some? && classes[n].name != name {
        var i :| 0 <= i < |classes[..n]| && classes[..n][i].name == name;
        assert classes[i].name == name;
      }
      if i :| 0 <= i < |classes| && classes[i].name == name && classes[n].name != name {
        assert classes[..n][i].name == name;
      }
    }
  }

  lemma {:induction false} FirstIsFound(classes: seq<Class>, name: string)
    ensures FirstNamed(classes, name).Some? <==> exists i :: 0 <= i < |classes| && classes[i].name == name
    ensures FirstNamed(classes, name).Some? ==> FirstNamed(classes, name).value in classes && FirstNamed(classes, name).value.name == name
  {
    if classes != [] {
      FirstIsFound(classes[1..], name);
      if FirstNamed(classes, name).Some? && classes[0].name != name {
        var i :| 0 <= i < |classes[1..]| && classes[1..][i].name == name;
        assert classes[i + 1].name == name;
      }
      if i :| 0 <= i < |classes| && classes[i].name == name && classes[0].name != name {
        assert classes[1..][i - 1].name == name;
      }
    }
  }

  /** With distinct names, one of them the default, there is one default class, and it is the one the overlay uses. */
  lemma OneDefault(classes: seq<Class>)
    requires Proper(classes)
    ensures FirstNamed(classes, DEFAULT).Some? && DefaultOf(classes) == FirstNamed(classes, DEFAULT)
    ensures DefaultOf(classes).value.name == DEFAULT
  {
    LastIsFound(classes, DEFAULT);
    FirstIsFound(classes, DEFAULT);
  }

  /** What a config lays over the class of a name, nil and empty alike. */
  function LaidOver(own: seq<Class>, name: string): Class {
    LastNamed(own, name).GetOr(Class(name, None, None, None))
  }

  function Laid(own: seq<Class>): Class {
    LaidOver(own, DEFAULT)
  }

  lemma OnlyOneNamed(classes: seq<Class>, c: Class)
    requires DistinctNames(classes) && c in classes
    ensures FirstNamed(classes, c.name) == Some(c)
  {
    FirstIsFound(classes, c.name);
    var i :| 0 <= i < |classes| && classes[i] == c;
    assert classes[i].name == c.name;
  }

  /** Under every non-empty profile with distinct names, the effective default class is the profile's default class with
      what the shoot lays over that name. */
  lemma EffectiveDefault(classes: seq<Class>, own: seq<Class>)
    requires classes != [] && DistinctNames(classes)
    ensures var base := DefaultOf(classes).value;
            var laid := LaidOver(own, base.name);
            var r := Overwrite(classes, own, None);
            && (r.NoPool? <==> IsEmpty(laid.ipPool) && IsEmpty(base.ipPool))
            && (!r.NoPool? ==>
                  && r.Classes?
                  && Same(r.defaultClass, Class(base.name, Over(laid.ipPool, base.ipPool), Over(laid.tcp, base.tcp),
                                                Over(laid.udp, base.udp))))
  {
    LastIsFound(classes, DEFAULT);
    var base := DefaultOf(classes).value;
    OnlyOneNamed(classes, base);
    LastIsFound(own, base.name);
  }

  lemma AssumedIsLaid(own: seq<Class>)
    ensures var laid := Laid(own);
            Assumed(own) == Class(DEFAULT, Over(laid.ipPool, Some("dummy")), Over(laid.tcp, None), Over(laid.udp, None))
  {
    LastIsFound(own, DEFAULT);
    AssumedIsDefault(own);
    assert FirstNamed(Dummy, DEFAULT) == Some(Dummy[0]);
  }

  /** Under every profile both configs fail, or both get the same default class. */
  ghost predicate SameForEveryProfile(old_: seq<Class>, new_: seq<Class>) {
    forall classes: seq<Class> | Proper(classes) ::
      SameOutcome(Overwrite(classes, WithDefault(old_), None), Overwrite(classes, WithDefault(new_), None))
  }

  predicate SameOutcome(r: Overwritten, q: Overwritten) {
    if r.Classes? then q.Classes? && Same(r.defaultClass, q.defaultClass) else q == r
  }

  /** One config lays the pool "dummy" over the default class, the other lays none. */
  predicate NamesDummy(old_: seq<Class>, new_: seq<Class>) {
    var a, b := Laid(WithDefault(old_)).ipPool, Laid(WithDefault(new_)).ipPool;
    (a == Some("dummy") && IsEmpty(b)) || (b == Some("dummy") && IsEmpty(a))
  }

  /** Soundness for every cloud profile: what the validation accepts, having seen only its own profile, changes the
      default class under no profile, except in one case: one of the configs names the pool "dummy". */
  lemma AcceptedIsSound(old_: seq<Class>, new_: seq<Class>)
    requires AcceptsClasses(old_, new_)
    ensures SameForEveryProfile(old_, new_) <==> !NamesDummy(old_, new_)
  {
    var o, n := WithDefault(old_), WithDefault(new_);
    AssumedIsLaid(o);
    AssumedIsLaid(n);
    if NamesDummy(old_, new_) {
      DummyDiffers(old_, new_);
    } else {
      forall classes: seq<Class> | Proper(classes)
        ensures SameOutcome(Overwrite(classes, o, None), Overwrite(classes, n, None))
      {
        OneDefault(classes);
        EffectiveDefault(classes, o);
        EffectiveDefault(classes, n);
      }
    }
  }

  lemma DummyDiffers(old_: seq<Class>, new_: seq<Class>)
    requires NamesDummy(old_, new_)
    ensures !SameForEveryProfile(old_, new_)
  {
    var o, n := WithDefault(old_), WithDefault(new_);
    var classes := [Class(DEFAULT, Some("pool"), None, None)];
    assert classes[0].name == DEFAULT;
    EffectiveDefault(classes, o);
    EffectiveDefault(classes, n);
    assert LastNamed(classes, DEFAULT) == Some(classes[0]);
    assert !SameOutcome(Overwrite(classes, o, None), Overwrite(classes, n, None));
  }

  /** The other way: what changes the default class under no profile is accepted. */
  lemma RefusedIsNeeded(old_: seq<Class>, new_: seq<Class>)
    requires SameForEveryProfile(old_, new_)
    ensures AcceptsClasses(old_, new_)
  {
    var o, n := WithDefault(old_), WithDefault(new_);
    AssumedIsDefault(o);
    AssumedIsDefault(n);
    assert DistinctNames(Dummy) && Dummy[0].name == DEFAULT;
    assert SameOutcome(Overwrite(Dummy, o, None), Overwrite(Dummy, n, None));
  }

  /** Updates of the classes are relevant exactly when the validation refuses them. */
  lemma RelevantIsRefused(old_: seq<Class>, new_: seq<Class>)
    ensures Assumed(WithDefault(old_)) != Assumed(WithDefault(new_)) <==> !AcceptsClasses(old_, new_)
  {
    AssumedIsLaid(WithDefault(old_));
    AssumedIsLaid(WithDefault(new_));
  }

  // ---- profiles without a class named default ----

  /** Cloud profiles need not name a class default: then the first one counts. */
  ghost predicate SameForAllProfiles(old_: seq<Class>, new_: seq<Class>) {
    forall classes: seq<Class> | classes != [] && DistinctNames(classes) ::
      SameOutcome(Overwrite(classes, WithDefault(old_), None), Overwrite(classes, WithDefault(new_), None))
  }

  /** A profile under which two configs that lay different values over a name differ. */
  lemma DifferentLaidDiffers(old_: seq<Class>, new_: seq<Class>, name: string)
    requires !Same(LaidOver(WithDefault(old_), name), LaidOver(WithDefault(new_), name))
    ensures !SameForAllProfiles(old_, new_)
  {
    var a, b := LaidOver(WithDefault(old_), name), LaidOver(WithDefault(new_), name);
    var pool := a.ipPool.GetOr("") + b.ipPool.GetOr("") + "x";
    var classes := [Class(name, Some(pool), None, None)];
    EffectiveDefault(classes, WithDefault(old_));
    EffectiveDefault(classes, WithDefault(new_));
    LastIsFound(classes, DEFAULT);
    assert DefaultOf(classes) == Some(classes[0]);
    assert pool != "" && pool != a.ipPool.GetOr("") && pool != b.ipPool.GetOr("") by {
      assert |pool| > |a.ipPool.GetOr("")| && |pool| > |b.ipPool.GetOr("")|;
    }
    assert !SameOutcome(Overwrite(classes, WithDefault(old_), None), Overwrite(classes, WithDefault(new_), None));
  }

  /** An update leaves the default class alone under every profile, named default or not, exactly if both configs lay
      the same values over the class of every name. The validation asks for the name default only. */
  lemma SoundForAllIff(old_: seq<Class>, new_: seq<Class>)
    ensures SameForAllProfiles(old_, new_)
            <==> forall name :: Same(LaidOver(WithDefault(old_), name), LaidOver(WithDefault(new_), name))
    ensures SameForAllProfiles(old_, new_) ==> AcceptsClasses(old_, new_)
  {
    if name :| !Same(LaidOver(WithDefault(old_), name), LaidOver(WithDefault(new_), name)) {
      DifferentLaidDiffers(old_, new_, name);
    } else {
      forall classes: seq<Class> | classes != [] && DistinctNames(classes)
        ensures SameOutcome(Overwrite(classes, WithDefault(old_), None), Overwrite(classes, WithDefault(new_), None))
      {
        EffectiveDefault(classes, WithDefault(old_));
        EffectiveDefault(classes, WithDefault(new_));
        assert Same(LaidOver(WithDefault(old_), DefaultOf(classes).value.name),
                    LaidOver(WithDefault(new_), DefaultOf(classes).value.name));
      }
    }
    if SameForAllProfiles(old_, new_) {
      assert SameForEveryProfile(old_, new_) by {
        forall classes: seq<Class> | Proper(classes)
          ensures SameOutcome(Overwrite(classes, WithDefault(old_), None), Overwrite(classes, WithDefault(new_), None))
        {}
      }
      RefusedIsNeeded(old_, new_);
    }
  }

  /** Its verdict does not depend on another name: it accepts any pool for a class that is not named default, and
      there are profiles where this changes the default class. */
  lemma AcceptedUnseen(old_: seq<Class>, name: string, pool: string)
    requires name != DEFAULT && pool != "" && LaidOver(WithDefault(old_), name).ipPool.GetOr("") != pool
    ensures AcceptsClasses(old_, WithDefault(old_) + [Class(name, Some(pool), None, None)])
    ensures !SameForAllProfiles(old_, WithDefault(old_) + [Class(name, Some(pool), None, None)])
  {
    var more := WithDefault(old_) + [Class(name, Some(pool), None, None)];
    assert more[..|more| - 1] == WithDefault(old_);
    assert LastNamed(more, DEFAULT) == LastNamed(WithDefault(old_), DEFAULT);
    assert LaidOver(more, name).ipPool == Some(pool);
    DifferentLaidDiffers(old_, more, name);
  }
}
