/**
  Machine images of worker pools: where an image is looked up, what is written to the worker status, and why images
  that are in use stay resolvable after they disappear from the cloud profile.
 */
module MachineImages {
  import opened Basics

  datatype Version = Version(version: string, path: string, guestID: Option<string>)
  datatype ProfileImage = ProfileImage(name: string, versions: seq<Version>)
  datatype RegionSpec = RegionSpec(name: string, images: seq<ProfileImage>)
  datatype CloudProfile = CloudProfile(regions: seq<RegionSpec>, images: seq<ProfileImage>)

  /** An entry of the worker status. */
  datatype MachineImage = MachineImage(name: string, version: string, path: string, guestID: string)

  datatype ProviderStatus = Absent | Undecodable | Stored(images: seq<MachineImage>)

  /** What a pool asks for. */
  datatype Wanted = Wanted(name: string, version: string)

  datatype Lookup = Found(path: string, guestID: string) | NotFound | Failed | Panicked

  // ---- the searches ----

  function FirstVersion(versions: seq<Version>, version: string): Option<Version> {
    if versions == [] then None
    else if versions[0].version == version then Some(versions[0]) else FirstVersion(versions[1..], version)
  }

  /** The first version listed under any entry of the name. */
  function InProfile(images: seq<ProfileImage>, want: Wanted): Option<Version> {
    if images == [] then None
    else if images[0].name == want.name && FirstVersion(images[0].versions, want.version).Some?
    then FirstVersion(images[0].versions, want.version)
    else InProfile(images[1..], want)
  }

  function InStatus(images: seq<MachineImage>, want: Wanted): Option<MachineImage> {
    if images == [] then None
    else if images[0].name == want.name && images[0].version == want.version then Some(images[0])
    else InStatus(images[1..], want)
  }

  function Region(regions: seq<RegionSpec>, name: string): Option<RegionSpec> {
    if regions == [] then None else if regions[0].name == name then Some(regions[0]) else Region(regions[1..], name)
  }

  /** FindMachineImage. */
  method FindMachineImage(images: seq<MachineImage>, want: Wanted) returns (r: Option<MachineImage>)
    ensures r == InStatus(images, want)
  {
    for i := 0 to |images|
      invariant InStatus(images, want) == InStatus(images[i..], want)
    {
      if images[i].name == want.name && images[i].version == want.version { return Some(images[i]); }
    }
    return None;
  }

  /** FindImage. */
  method FindImage(images: seq<ProfileImage>, want: Wanted) returns (r: Lookup)
    ensures r == AsLookup(InProfile(images, want))
  {
    for i := 0 to |images|
      invariant InProfile(images, want) == InProfile(images[i..], want)
    {
      if images[i].name == want.name {
        var versions := images[i].versions;
        for j := 0 to |versions|
          invariant FirstVersion(versions, want.version) == FirstVersion(versions[j..], want.version)
        {
          if versions[j].version == want.version {
            var guestID := "";
            if versions[j].guestID.Some? { guestID := versions[j].guestID.value; }
            return Found(versions[j].path, guestID);
          }
        }
      }
    }
    return NotFound;
  }

  function AsLookup(v: Option<Version>): Lookup {
    if v.None? then NotFound else Found(v.value.path, v.value.guestID.GetOr(""))
  }

  /** FindRegion. */
  method FindRegion(regions: seq<RegionSpec>, name: string) returns (r: Option<RegionSpec>)
    ensures r == Region(regions, name)
  {
    for i := 0 to |regions|
      invariant Region(regions, name) == Region(regions[i..], name)
    {
      if regions[i].name == name { return Some(regions[i]); }
    }
    return None;
  }

  /** What the profile says: the region's own images come first. */
  function FromProfile(profile: CloudProfile, region: string, want: Wanted): Lookup {
    var r := Region(profile.regions, region);
    if r.Some? && InProfile(r.value.images, want).Some? then AsLookup(InProfile(r.value.images, want))
    else AsLookup(InProfile(profile.images, want))
  }

  /** The profile first, the status as a last resort. A missing profile is dereferenced before it is tested. */
  function Resolve(profile: Option<CloudProfile>, region: string, status: ProviderStatus, want: Wanted): Lookup {
    if profile.None? then Panicked
    else if FromProfile(profile.value, region, want).Found? then FromProfile(profile.value, region, want)
    else match status
         case Absent => NotFound
         case Undecodable => Failed
         case Stored(images) =>
           var entry := InStatus(images, want);
           if entry.Some? then Found(entry.value.path, entry.value.guestID) else NotFound
  }

  class WorkerDelegate {
    const region: string
    var cloudProfile: Option<CloudProfile>
    var status: ProviderStatus
    var machineImages: Option<seq<MachineImage>>

    constructor (region: string, cloudProfile: Option<CloudProfile>, status: ProviderStatus)
      ensures this.region == region && this.cloudProfile == cloudProfile && this.status == status && machineImages.None?
    {
      this.region, this.cloudProfile, this.status, machineImages := region, cloudProfile, status, None;
    }

    /** findMachineImage. */
    method FindWorkerImage(want: Wanted) returns (r: Lookup)
      ensures r == Resolve(cloudProfile, region, status, want)
    {
      if cloudProfile.None? { return Panicked; }
      var spec := FindRegion(cloudProfile.value.regions, region);
      if spec.Some? && |spec.value.images| != 0 {
        r := FindImage(spec.value.images, want);
        if r.Found? { return; }
      }
      r := FindImage(cloudProfile.value.images, want);
      if r.Found? { return; }
      match status {
        case Absent => return NotFound;
        case Undecodable => return Failed;
        case Stored(images) =>
          var entry := FindMachineImage(images, want);
          if entry.None? { return NotFound; }
          return Found(entry.value.path, entry.value.guestID);
      }
    }

    /** The loop of generateMachineConfig that resolves the images of the pools; it stops at the first failure. */
    method CollectImages(pools: seq<Wanted>) returns (ok: bool)
      modifies this`machineImages
      ensures ok <==> forall i :: 0 <= i < |pools| ==> Resolve(cloudProfile, region, status, pools[i]).Found?
      ensures machineImages == if ok then Some(Collected(cloudProfile, region, status, pools)) else old(machineImages)
    {
      var images := [];
      for i := 0 to |pools|
        invariant forall k :: 0 <= k < i ==> Resolve(cloudProfile, region, status, pools[k]).Found?
        invariant images == Collected(cloudProfile, region, status, pools[..i])
        invariant machineImages == old(machineImages)
      {
        var r := FindWorkerImage(pools[i]);
        if !r.Found? { return false; }
        CollectedStep(cloudProfile, region, status, pools, i);
        images := AppendMachineImage(images, MachineImage(pools[i].name, pools[i].version, r.path, r.guestID));
      }
      assert pools[..|pools|] == pools;
      machineImages := Some(images);
      return true;
    }

    /** UpdateMachineImagesStatus: the images are collected once, and replace what the status holds. */
    method UpdateMachineImagesStatus(pools: seq<Wanted>, written: bool) returns (ok: bool)
      modifies this`machineImages, this`status
      ensures machineImages.Some? <==>
                old(machineImages).Some? || forall i :: 0 <= i < |pools| ==> old(Resolve(cloudProfile, region, status, pools[i])).Found?
      ensures machineImages.Some? && old(machineImages).None? ==>
                machineImages.value == Collected(cloudProfile, region, old(status), pools)
      ensures ok <==> machineImages.Some? && !old(status).Undecodable? && written
      ensures status == if ok then Stored(machineImages.value) else old(status)
    {
      if machineImages.None? {
        var collected := CollectImages(pools);
        if !collected { return false; }
      }
      if status.Undecodable? || !written { return false; }
      status := Stored(machineImages.value);
      return true;
    }
  }

  method AppendMachineImage(images: seq<MachineImage>, image: MachineImage) returns (r: seq<MachineImage>)
    ensures r == Appended(images, image)
  {
    var known := FindMachineImage(images, Wanted(image.name, image.version));
    if known.None? { return images + [image]; }
    return images;
  }

  function Appended(images: seq<MachineImage>, image: MachineImage): seq<MachineImage> {
    if InStatus(images, Wanted(image.name, image.version)).None? then images + [image] else images
  }

  /** The images of the pools that resolve, each once. */
  function Collected(profile: Option<CloudProfile>, region: string, status: ProviderStatus, pools: seq<Wanted>)
    : seq<MachineImage>
  {
    if pools == [] then []
    else
      var before := Collected(profile, region, status, pools[..|pools| - 1]);
      var want := pools[|pools| - 1];
      var r := Resolve(profile, region, status, want);
      if r.Found? then Appended(before, MachineImage(want.name, want.version, r.path, r.guestID)) else before
  }

  lemma CollectedStep(profile: Option<CloudProfile>, region: string, status: ProviderStatus, pools: seq<Wanted>, i: nat)
    requires i < |pools| && Resolve(profile, region, status, pools[i]).Found?
    ensures var r := Resolve(profile, region, status, pools[i]);
            Collected(profile, region, status, pools[..i + 1])
            == Appended(Collected(profile, region, status, pools[..i]), MachineImage(pools[i].name, pools[i].version, r.path, r.guestID))
  {
    assert pools[..i + 1][..i] == pools[..i];
  }

  // ---- which source counts ----

  /** A version of the image is listed here, at place i, j. */
  predicate ListedAt(images: seq<ProfileImage>, want: Wanted, i: int, j: int) {
    && 0 <= i < |images| && images[i].name == want.name
    && 0 <= j < |images[i].versions| && images[i].versions[j].version == want.version
  }

  ghost predicate Listed(images: seq<ProfileImage>, want: Wanted) {
    exists i, j :: ListedAt(images, want, i, j)
  }

  /** The first place where it is listed; with distinct names and versions there is no other. */
  ghost predicate FirstListedAt(images: seq<ProfileImage>, want: Wanted, i: int, j: int) {
    ListedAt(images, want, i, j) && forall k, l :: ListedAt(images, want, k, l) ==> i < k || (i == k && j <= l)
  }

  /** The answer gives the path of this version, and its guest id if it has one. */
  predicate IsAnswer(r: Lookup, v: Version) {
    r.Found? && r.path == v.path && (if v.guestID.Some? then r.guestID == v.guestID.value else r.guestID == "")
  }

  lemma {:induction false} FirstVersionAt(versions: seq<Version>, version: string)
    ensures FirstVersion(versions, version).None? ==> forall j :: 0 <= j < |versions| ==> versions[j].version != version
    ensures FirstVersion(versions, version).Some? ==>
              exists j :: 0 <= j < |versions| && FirstVersion(versions, version) == Some(versions[j]) && versions[j].version == version
                          && forall k :: 0 <= k < j ==> versions[k].version != version
  {
    if versions != [] && versions[0].version != version {
      FirstVersionAt(versions[1..], version);
      forall k | 0 < k < |versions| ensures versions[k] == versions[1..][k - 1] {}
      if FirstVersion(versions[1..], version).Some? {
        var j :| 0 <= j < |versions[1..]| && FirstVersion(versions[1..], version) == Some(versions[1..][j])
                 && versions[1..][j].version == version && forall k :: 0 <= k < j ==> versions[1..][k].version != version;
        assert versions[j + 1] == versions[1..][j];
        forall k | 0 <= k < j + 1 ensures versions[k].version != version { if k > 0 { assert versions[k] == versions[1..][k - 1]; } }
      }
    }
  }

  lemma {:induction false} InProfileAt(images: seq<ProfileImage>, want: Wanted)
    ensures InProfile(images, want).None? ==> !Listed(images, want)
    ensures InProfile(images, want).Some? ==>
              exists i, j :: FirstListedAt(images, want, i, j) && InProfile(images, want) == Some(images[i].versions[j])
  {
    if images != [] {
      FirstVersionAt(images[0].versions, want.version);
      InProfileAt(images[1..], want);
      forall i, j ensures ListedAt(images[1..], want, i, j) <==> i >= 0 && ListedAt(images, want, i + 1, j) {}
      if images[0].name == want.name && FirstVersion(images[0].versions, want.version).Some? {
        var j :| 0 <= j < |images[0].versions| && InProfile(images, want) == Some(images[0].versions[j])
                 && images[0].versions[j].version == want.version
                 && forall k :: 0 <= k < j ==> images[0].versions[k].version != want.version;
        assert FirstListedAt(images, want, 0, j);
      } else {
        forall i, j | ListedAt(images, want, i, j) ensures i > 0 && ListedAt(images[1..], want, i - 1, j) {}
        if InProfile(images[1..], want).Some? {
          var i, j :| FirstListedAt(images[1..], want, i, j) && InProfile(images[1..], want) == Some(images[1..][i].versions[j]);
          assert ListedAt(images, want, i + 1, j);
          assert FirstListedAt(images, want, i + 1, j);
        }
      }
    }
  }

  lemma FirstListedOnce(images: seq<ProfileImage>, want: Wanted, i: int, j: int, k: int, l: int)
    requires FirstListedAt(images, want, i, j) && FirstListedAt(images, want, k, l)
    ensures i == k && j == l
  {}

  /** The region of the worker: the first one of its name. */
  ghost predicate IsRegion(profile: CloudProfile, region: string, i: int) {
    0 <= i < |profile.regions| && profile.regions[i].name == region
    && forall k :: 0 <= k < i ==> profile.regions[k].name != region
  }

  lemma {:induction false} RegionAt(regions: seq<RegionSpec>, name: string)
    ensures Region(regions, name).None? ==> forall k :: 0 <= k < |regions| ==> regions[k].name != name
    ensures Region(regions, name).Some? ==>
              exists i :: 0 <= i < |regions| && Region(regions, name) == Some(regions[i]) && regions[i].name == name
                          && forall k :: 0 <= k < i ==> regions[k].name != name
  {
    if regions != [] && regions[0].name != name {
      RegionAt(regions[1..], name);
      forall k | 0 < k < |regions| ensures regions[k] == regions[1..][k - 1] {}
      if Region(regions[1..], name).Some? {
        var i :| 0 <= i < |regions[1..]| && Region(regions[1..], name) == Some(regions[1..][i]) && regions[1..][i].name == name
                 && forall k :: 0 <= k < i ==> regions[1..][k].name != name;
        assert regions[i + 1] == regions[1..][i];
        forall k | 0 <= k < i + 1 ensures regions[k].name != name { if k > 0 { assert regions[k] == regions[1..][k - 1]; } }
      }
    }
  }

  /** The region does not list the image, or there is no such region. */
  ghost predicate NotInRegion(profile: CloudProfile, region: string, want: Wanted) {
    forall i :: IsRegion(profile, region, i) ==> !Listed(profile.regions[i].images, want)
  }

  lemma RegionOnce(profile: CloudProfile, region: string, n: int)
    requires IsRegion(profile, region, n)
    ensures Region(profile.regions, region) == Some(profile.regions[n])
  {
    RegionAt(profile.regions, region);
  }

  /** What the worker's region lists comes first: that path and guest id, whatever the global list and the status hold. */
  lemma RegionComesFirst(profile: CloudProfile, region: string, status: ProviderStatus, want: Wanted, n: int, i: int, j: int)
    requires IsRegion(profile, region, n) && FirstListedAt(profile.regions[n].images, want, i, j)
    ensures IsAnswer(Resolve(Some(profile), region, status, want), profile.regions[n].images[i].versions[j])
  {
    RegionOnce(profile, region, n);
    InProfileAt(profile.regions[n].images, want);
    var k, l :| FirstListedAt(profile.regions[n].images, want, k, l)
                && InProfile(profile.regions[n].images, want) == Some(profile.regions[n].images[k].versions[l]);
    FirstListedOnce(profile.regions[n].images, want, i, j, k, l);
  }

  lemma NothingFromRegion(profile: CloudProfile, region: string, want: Wanted)
    requires NotInRegion(profile, region, want)
    ensures FromProfile(profile, region, want) == AsLookup(InProfile(profile.images, want))
  {
    RegionAt(profile.regions, region);
    if Region(profile.regions, region).Some? {
      var n :| 0 <= n < |profile.regions| && Region(profile.regions, region) == Some(profile.regions[n])
               && IsRegion(profile, region, n);
      InProfileAt(profile.regions[n].images, want);
    }
  }

  /** What only the global list has comes next, whatever the status holds. */
  lemma GlobalComesNext(profile: CloudProfile, region: string, status: ProviderStatus, want: Wanted, i: int, j: int)
    requires NotInRegion(profile, region, want) && FirstListedAt(profile.images, want, i, j)
    ensures IsAnswer(Resolve(Some(profile), region, status, want), profile.images[i].versions[j])
  {
    NothingFromRegion(profile, region, want);
    InProfileAt(profile.images, want);
    var k, l :| FirstListedAt(profile.images, want, k, l) && InProfile(profile.images, want) == Some(profile.images[k].versions[l]);
    FirstListedOnce(profile.images, want, i, j, k, l);
  }

  /** Neither the worker's region nor the global list has it. */
  ghost predicate Unlisted(profile: CloudProfile, region: string, want: Wanted) {
    NotInRegion(profile, region, want) && !Listed(profile.images, want)
  }

  /** This entry of the status is for the image, and is the first such entry. */
  ghost predicate StoredAt(status: ProviderStatus, want: Wanted, i: int) {
    && status.Stored? && 0 <= i < |status.images| && status.images[i].name == want.name && status.images[i].version == want.version
    && forall k :: 0 <= k < i ==> status.images[k].name != want.name || status.images[k].version != want.version
  }

  lemma {:induction false} InStatusAt(images: seq<MachineImage>, want: Wanted, i: int)
    requires StoredAt(Stored(images), want, i)
    ensures InStatus(images, want) == Some(images[i])
  {
    if i > 0 {
      assert images[0].name != want.name || images[0].version != want.version;
      forall k | 0 <= k < |images[1..]| ensures images[1..][k] == images[k + 1] {}
      InStatusAt(images[1..], want, i - 1);
    }
  }

  /** What the profile does not list comes from the status: the stored path and guest id. Without an entry, or without a
      status, it is not found; a status that cannot be decoded is a failure. */
  lemma StatusComesLast(profile: CloudProfile, region: string, status: ProviderStatus, want: Wanted)
    requires Unlisted(profile, region, want)
    ensures forall i :: StoredAt(status, want, i) ==>
              Resolve(Some(profile), region, status, want) == Found(status.images[i].path, status.images[i].guestID)
    ensures status.Absent? || (status.Stored? && forall i :: !StoredAt(status, want, i)) ==>
              Resolve(Some(profile), region, status, want) == NotFound
    ensures status.Undecodable? ==> Resolve(Some(profile), region, status, want) == Failed
  {
    NothingFromRegion(profile, region, want);
    InProfileAt(profile.images, want);
    forall i | StoredAt(status, want, i) ensures InStatus(status.images, want) == Some(status.images[i]) {
      InStatusAt(status.images, want, i);
    }
    if status.Stored? && InStatus(status.images, want).Some? {
      var i := FirstStored(status.images, want);
      assert StoredAt(status, want, i);
    }
  }

  lemma {:induction false} FirstStored(images: seq<MachineImage>, want: Wanted) returns (i: int)
    requires InStatus(images, want).Some?
    ensures StoredAt(Stored(images), want, i)
  {
    i := 0;
    if images[0].name != want.name || images[0].version != want.version {
      var k := FirstStored(images[1..], want);
      i := k + 1;
      forall l | 0 <= l < i ensures images[l].name != want.name || images[l].version != want.version {
        if l > 0 { assert images[l] == images[1..][l - 1]; }
      }
    }
  }

  // ---- what is stored ----

  function KeyOf(image: MachineImage): Wanted {
    Wanted(image.name, image.version)
  }

  lemma {:induction false} InStatusFinds(images: seq<MachineImage>, want: Wanted)
    ensures InStatus(images, want).Some? <==> exists i :: 0 <= i < |images| && KeyOf(images[i]) == want
    ensures InStatus(images, want).Some? ==> InStatus(images, want).value in images && KeyOf(InStatus(images, want).value) == want
  {
    if images != [] {
      InStatusFinds(images[1..], want);
      if InStatus(images[1..], want).Some? {
        var i :| 0 <= i < |images[1..]| && KeyOf(images[1..][i]) == want;
        assert KeyOf(images[i + 1]) == want;
      }
      if i :| 0 <= i < |images| && KeyOf(images[i]) == want && KeyOf(images[0]) != want {
        assert KeyOf(images[1..][i - 1]) == want;
      }
    }
  }

  lemma {:induction false} InStatusOfAppended(images: seq<MachineImage>, image: MachineImage, want: Wanted)
    ensures InStatus(images + [image], want)
            == if InStatus(images, want).Some? then InStatus(images, want) else if KeyOf(image) == want then Some(image) else None
  {
    if images == [] {
      assert images + [image] == [image];
    } else {
      InStatusOfAppended(images[1..], image, want);
      assert (images + [image])[1..] == images[1..] + [image];
    }
  }

  /** The entries tell what their images resolve to, and no two are for the same image. */
  ghost predicate Entries(images: seq<MachineImage>, profile: Option<CloudProfile>, region: string, status: ProviderStatus,
                          pools: seq<Wanted>) {
    && (forall i, j :: 0 <= i < j < |images| ==> KeyOf(images[i]) != KeyOf(images[j]))
    && (forall image :: image in images ==>
          KeyOf(image) in pools && Resolve(profile, region, status, KeyOf(image)) == Found(image.path, image.guestID))
  }

  /** Exactly one entry for each image in use that resolves, with what it resolved to, and no other entry. */
  lemma {:induction false} CollectedOnce(profile: Option<CloudProfile>, region: string, status: ProviderStatus, pools: seq<Wanted>)
    ensures Entries(Collected(profile, region, status, pools), profile, region, status, pools)
    ensures forall want :: want in pools && Resolve(profile, region, status, want).Found? ==>
              InStatus(Collected(profile, region, status, pools), want).Some?
  {
    if pools != [] {
      var n := |pools| - 1;
      CollectedOnce(profile, region, status, pools[..n]);
      assert pools == pools[..n] + [pools[n]];
      var before := Collected(profile, region, status, pools[..n]);
      var r := Resolve(profile, region, status, pools[n]);
      InStatusFinds(before, pools[n]);
      if r.Found? {
        var image := MachineImage(pools[n].name, pools[n].version, r.path, r.guestID);
        forall want ensures InStatus(before, want).Some? ==> InStatus(Appended(before, image), want).Some? {
          InStatusOfAppended(before, image, want);
        }
        InStatusOfAppended(before, image, pools[n]);
      }
    }
  }

  // ---- over many reconciles ----

  /** One reconcile of the worker: the profile of that moment, the pools, and whether the status write is kept. */
  datatype Reconcile = Reconcile(profile: CloudProfile, pools: seq<Wanted>, written: bool)

  predicate Resolves(profile: CloudProfile, region: string, status: ProviderStatus, pools: seq<Wanted>) {
    forall i :: 0 <= i < |pools| ==> Resolve(Some(profile), region, status, pools[i]).Found?
  }

  /** The status after it. */
  function After(region: string, status: ProviderStatus, r: Reconcile): ProviderStatus {
    if Resolves(r.profile, region, status, r.pools) && !status.Undecodable? && r.written
    then Stored(Collected(Some(r.profile), region, status, r.pools)) else status
  }

  function AfterAll(region: string, status: ProviderStatus, rs: seq<Reconcile>): ProviderStatus {
    if rs == [] then status else After(region, AfterAll(region, status, rs[..|rs| - 1]), rs[|rs| - 1])
  }

  /** A reconcile is a delegate of its own that updates the status. */
  method ReconcileOnce(region: string, status: ProviderStatus, r: Reconcile) returns (later: ProviderStatus)
    ensures later == After(region, status, r)
  {
    var w := new WorkerDelegate(region, Some(r.profile), status);
    var ok := w.UpdateMachineImagesStatus(r.pools, r.written);
    return w.status;
  }

  /** The status remembers every image in the list. */
  predicate Remembers(status: ProviderStatus, uses: seq<Wanted>) {
    status.Stored? && forall want :: want in uses ==> InStatus(status.images, want).Some?
  }

  lemma RemembersAfter(region: string, status: ProviderStatus, r: Reconcile, uses: seq<Wanted>)
    requires forall want :: want in uses ==> want in r.pools
    requires Remembers(status, uses)
             || (Resolves(r.profile, region, status, r.pools) && !status.Undecodable? && r.written)
    ensures Remembers(After(region, status, r), uses)
  {
    CollectedOnce(Some(r.profile), region, status, r.pools);
    forall want | want in uses && Resolves(r.profile, region, status, r.pools)
      ensures Resolve(Some(r.profile), region, status, want).Found?
    {
      var i :| 0 <= i < |r.pools| && r.pools[i] == want;
    }
  }

  lemma {:induction false} RemembersAll(region: string, status: ProviderStatus, rs: seq<Reconcile>, uses: seq<Wanted>)
    requires Remembers(status, uses)
    requires forall r, want :: r in rs && want in uses ==> want in r.pools
    ensures Remembers(AfterAll(region, status, rs), uses)
  {
    if rs != [] {
      RemembersAll(region, status, rs[..|rs| - 1], uses);
      RemembersAfter(region, AfterAll(region, status, rs[..|rs| - 1]), rs[|rs| - 1], uses);
    }
  }

  /** After any reconciles that still use an image, but find it in no profile or lose their write, the status has the entry
      it had. */
  lemma {:induction false} EntryStays(region: string, status: ProviderStatus, rs: seq<Reconcile>, want: Wanted)
    requires Remembers(status, [want])
    requires forall r :: r in rs ==> want in r.pools && (r.written ==> Unlisted(r.profile, region, want))
    ensures Remembers(AfterAll(region, status, rs), [want])
    ensures InStatus(AfterAll(region, status, rs).images, want).value.path == InStatus(status.images, want).value.path
    ensures InStatus(AfterAll(region, status, rs).images, want).value.guestID == InStatus(status.images, want).value.guestID
  {
    if rs != [] {
      var n := |rs| - 1;
      EntryStays(region, status, rs[..n], want);
      EntryStaysOnce(region, AfterAll(region, status, rs[..n]), rs[n], want);
    }
  }

  lemma EntryStaysOnce(region: string, status: ProviderStatus, r: Reconcile, want: Wanted)
    requires Remembers(status, [want]) && want in r.pools && (r.written ==> Unlisted(r.profile, region, want))
    ensures Remembers(After(region, status, r), [want])
    ensures InStatus(After(region, status, r).images, want).value.path == InStatus(status.images, want).value.path
    ensures InStatus(After(region, status, r).images, want).value.guestID == InStatus(status.images, want).value.guestID
  {
    assert InStatus(status.images, want).Some? by { assert want in [want]; }
    RemembersAfter(region, status, r, [want]);
    if After(region, status, r) != status {
      assert InStatus(After(region, status, r).images, want).Some? by { assert want in [want]; }
      UnlistedFromStatus(r.profile, region, status, want);
      StoredResolves(region, status, r, want);
    }
  }

  lemma UnlistedFromStatus(profile: CloudProfile, region: string, status: ProviderStatus, want: Wanted)
    requires Unlisted(profile, region, want) && status.Stored? && InStatus(status.images, want).Some?
    ensures var entry := InStatus(status.images, want).value;
            Resolve(Some(profile), region, status, want) == Found(entry.path, entry.guestID)
  {
    NothingFromRegion(profile, region, want);
    InProfileAt(profile.images, want);
  }

  /** The new entry has what the image resolved to. */
  lemma StoredResolves(region: string, status: ProviderStatus, r: Reconcile, want: Wanted)
    requires Resolves(r.profile, region, status, r.pools) && !status.Undecodable? && r.written && want in r.pools
    ensures var later := After(region, status, r);
            && later.Stored? && InStatus(later.images, want).Some?
            && var entry := InStatus(later.images, want).value;
               Resolve(Some(r.profile), region, status, want) == Found(entry.path, entry.guestID)
  {
    CollectedOnce(Some(r.profile), region, status, r.pools);
    var i :| 0 <= i < |r.pools| && r.pools[i] == want;
    InStatusFinds(Collected(Some(r.profile), region, status, r.pools), want);
  }

  /** Images in use stay resolvable: once a reconcile has resolved them and its write was kept, then after any number
      of reconciles that still use them (among others), failed or not, each under a profile of its own, they resolve
      under any profile at all, even an empty one. An image that is in no later profile resolves to the same path and
      guest id as then. */
  lemma UsedImagesStayResolvable(region: string, status: ProviderStatus, first: Reconcile, rs: seq<Reconcile>,
                                 later: CloudProfile)
    requires Resolves(first.profile, region, status, first.pools) && !status.Undecodable? && first.written
    requires forall r, want :: r in rs && want in first.pools ==> want in r.pools
    ensures Resolves(later, region, AfterAll(region, After(region, status, first), rs), first.pools)
    ensures forall want | want in first.pools && Unlisted(later, region, want)
                          && (forall r :: r in rs && r.written ==> Unlisted(r.profile, region, want)) ::
              Resolve(Some(later), region, AfterAll(region, After(region, status, first), rs), want)
              == Resolve(Some(first.profile), region, status, want)
  {
    var stored := After(region, status, first);
    RemembersAfter(region, status, first, first.pools);
    RemembersAll(region, stored, rs, first.pools);
    forall want | want in first.pools && Unlisted(later, region, want)
                  && (forall r :: r in rs && r.written ==> Unlisted(r.profile, region, want))
      ensures Resolve(Some(later), region, AfterAll(region, stored, rs), want)
              == Resolve(Some(first.profile), region, status, want)
    {
      StoredResolves(region, status, first, want);
      EntryStays(region, stored, rs, want);
      assert InStatus(AfterAll(region, stored, rs).images, want).Some?;
      UnlistedFromStatus(later, region, AfterAll(region, stored, rs), want);
    }
  }

  /** Exactly the images in use survive: after a reconcile that resolved its images and kept its write, an image resolves
      under an empty profile if and only if a pool used it. */
  lemma RememberedIff(region: string, status: ProviderStatus, r: Reconcile, want: Wanted)
    requires Resolves(r.profile, region, status, r.pools) && !status.Undecodable? && r.written
    ensures Resolve(Some(CloudProfile([], [])), region, After(region, status, r), want).Found? <==> want in r.pools
  {
    var images := Collected(Some(r.profile), region, status, r.pools);
    CollectedOnce(Some(r.profile), region, status, r.pools);
    InStatusFinds(images, want);
    if want in r.pools { RemembersAfter(region, status, r, r.pools); }
  }
}
