/** Turning a workload's pod into a development pod: one container is rewritten in place, through a
    pointer into the container slice, a sidecar is appended, and volumes are added for both. */
module PodSpec {
  import opened Common

  datatype Mount = Mount(name: string, path: string)
  datatype Source = EmptyDir | Claim(claim: string) | SecretSource(secret: string) | OtherSource
  datatype Volume = Volume(name: string, source: Source)
  datatype Probes = Probes(liveness: Option<string>, readiness: Option<string>, startup: Option<string>)
  datatype Env = Env(name: string, value: string)

  datatype Container = Container(
    name: string, image: string, command: seq<string>, workingDir: string, pullPolicy: string,
    env: seq<Env>, mounts: seq<Mount>, resources: string, probes: Probes)

  const SHARED_VOLUME := "nocalhost-shared-volume"
  const SYNC_VOLUME := "nocalhost-syncthing"
  const SYNC_SECRET_VOLUME := "nocalhost-syncthing-secret"
  const SYNC_HOME := "/var/syncthing"
  const SYNC_SECRET_HOME := "/var/syncthing/secret"
  const SIDECAR := "nocalhost-sidecar"
  const SIDECAR_RESOURCES := "1Gi,1;50Mi,100m"

  /** What the cluster answers for a persistent directory. */
  datatype Pvc = LookupFailed | TooMany | Found(claim: string) | Created(claim: string) | CreateFailed

  datatype PersistDir = PersistDir(path: string, pvc: Pvc)

  datatype Config = Config(
    workDir: string, image: string, containerName: string, sidecarImage: string, pullPolicy: string,
    env: seq<Env>, resources: Option<string>, syncSecret: string, dirs: seq<PersistDir>)

  // ---------------------------------------------------------------- the work dir and persistent dirs

  function Digits(n: nat): string {
    if n < 10 then ["0123456789"[n]] else Digits(n / 10) + ["0123456789"[n % 10]]
  }

  function PersistName(n: nat): string {
    "persist-volume-" + Digits(n)
  }

  predicate Usable(d: PersistDir) {
    d.path != "" && (d.pvc.Found? || d.pvc.Created?)
  }

  /** Creating the claim failed for a directory that has a path. */
  predicate Fatal(d: PersistDir) {
    d.path != "" && d.pvc.CreateFailed?
  }

  /** Volumes and mounts of the directories mounted on their own. */
  function DirVolumes(dirs: seq<PersistDir>, workDir: string): seq<Volume> {
    if dirs == [] then []
    else
      var n := |dirs| - 1;
      var rest := DirVolumes(dirs[..n], workDir);
      if Usable(dirs[n]) && dirs[n].path != workDir
      then rest + [Volume(PersistName(n), Claim(dirs[n].pvc.claim))] else rest
  }

  function DirMounts(dirs: seq<PersistDir>, workDir: string): seq<Mount> {
    if dirs == [] then []
    else
      var n := |dirs| - 1;
      var rest := DirMounts(dirs[..n], workDir);
      if Usable(dirs[n]) && dirs[n].path != workDir then rest + [Mount(PersistName(n), dirs[n].path)] else rest
  }

  /** The claim for the work dir itself: the last directory that names it. */
  function WorkClaim(dirs: seq<PersistDir>, workDir: string): Option<string> {
    if dirs == [] then None
    else
      var n := |dirs| - 1;
      if Usable(dirs[n]) && dirs[n].path == workDir then Some(dirs[n].pvc.claim) else WorkClaim(dirs[..n], workDir)
  }

  /** The work dir's text begins with the text of a directory seen before any that is the work dir. */
  function Resides(dirs: seq<PersistDir>, workDir: string): bool {
    if dirs == [] then false
    else
      var n := |dirs| - 1;
      Resides(dirs[..n], workDir) ||
      (Usable(dirs[n]) && dirs[n].path != workDir && dirs[n].path <= workDir && WorkClaim(dirs[..n], workDir).None?)
  }

  predicate MountsWorkDir(dirs: seq<PersistDir>, workDir: string, ignore: bool) {
    (WorkClaim(dirs, workDir).Some? || !Resides(dirs, workDir)) && !ignore
  }

  function WorkVolume(claim: Option<string>): Volume {
    Volume(SHARED_VOLUME, if claim.Some? then Claim(claim.value) else EmptyDir)
  }

  datatype Generated = Failed | Ok(volumes: seq<Volume>, mounts: seq<Mount>)

  function WorkDirSpec(dirs: seq<PersistDir>, workDir: string, ignore: bool): Generated {
    if exists i :: 0 <= i < |dirs| && Fatal(dirs[i]) then Failed
    else if MountsWorkDir(dirs, workDir, ignore) then
      Ok(DirVolumes(dirs, workDir) + [WorkVolume(WorkClaim(dirs, workDir))],
         DirMounts(dirs, workDir) + [Mount(SHARED_VOLUME, workDir)])
    else Ok(DirVolumes(dirs, workDir), DirMounts(dirs, workDir))
  }

  // What one more directory contributes.

  ghost predicate SameMounts(was: seq<PersistDir>, now: seq<PersistDir>, workDir: string) {
    && DirVolumes(now, workDir) == DirVolumes(was, workDir) && DirMounts(now, workDir) == DirMounts(was, workDir)
    && Resides(now, workDir) == Resides(was, workDir)
  }

  lemma DirSkipped(dirs: seq<PersistDir>, n: nat, workDir: string)
    requires n < |dirs| && !Usable(dirs[n])
    ensures SameMounts(dirs[..n], dirs[..n + 1], workDir)
    ensures WorkClaim(dirs[..n + 1], workDir) == WorkClaim(dirs[..n], workDir)
  {
    assert dirs[..n + 1][..n] == dirs[..n];
  }

  lemma DirIsWorkDir(dirs: seq<PersistDir>, n: nat, workDir: string)
    requires n < |dirs| && Usable(dirs[n]) && dirs[n].path == workDir
    ensures SameMounts(dirs[..n], dirs[..n + 1], workDir)
    ensures WorkClaim(dirs[..n + 1], workDir) == Some(dirs[n].pvc.claim)
  {
    assert dirs[..n + 1][..n] == dirs[..n];
  }

  lemma DirIsOwn(dirs: seq<PersistDir>, n: nat, workDir: string)
    requires n < |dirs| && Usable(dirs[n]) && dirs[n].path != workDir
    ensures var was, now, d := dirs[..n], dirs[..n + 1], dirs[n];
            && DirVolumes(now, workDir) == DirVolumes(was, workDir) + [Volume(PersistName(n), Claim(d.pvc.claim))]
            && DirMounts(now, workDir) == DirMounts(was, workDir) + [Mount(PersistName(n), d.path)]
            && WorkClaim(now, workDir) == WorkClaim(was, workDir)
            && Resides(now, workDir) == (Resides(was, workDir) || (d.path <= workDir && WorkClaim(was, workDir).None?))
  {
    assert dirs[..n + 1][..n] == dirs[..n];
  }

  method GenWorkDirAndPVAndMounts(dirs: seq<PersistDir>, workDir: string, ignore: bool) returns (r: Generated)
    ensures r == WorkDirSpec(dirs, workDir, ignore)
  {
    var volumes: seq<Volume>, mounts: seq<Mount> := [], [];
    var workVolume := Volume(SHARED_VOLUME, EmptyDir);
    var defined, resides := false, false;
    for n := 0 to |dirs|
      invariant forall i :: 0 <= i < n ==> !Fatal(dirs[i])
      invariant volumes == DirVolumes(dirs[..n], workDir) && mounts == DirMounts(dirs[..n], workDir)
      invariant defined == WorkClaim(dirs[..n], workDir).Some?
      invariant resides == Resides(dirs[..n], workDir)
      invariant workVolume == WorkVolume(WorkClaim(dirs[..n], workDir))
    {
      var d := dirs[n];
      if d.path == "" || d.pvc.LookupFailed? || d.pvc.TooMany? {
        DirSkipped(dirs, n, workDir);
        continue;
      }
      if d.pvc.CreateFailed? {
        return Failed;
      }
      if d.path == workDir {
        DirIsWorkDir(dirs, n, workDir);
        defined := true;
        workVolume := workVolume.(source := Claim(d.pvc.claim));
        continue;
      } else if d.path <= workDir && !defined {
        resides := true;
      }
      DirIsOwn(dirs, n, workDir);
      volumes := volumes + [Volume(PersistName(n), Claim(d.pvc.claim))];
      mounts := mounts + [Mount(PersistName(n), d.path)];
    }
    assert dirs[..|dirs|] == dirs;
    if (defined || !resides) && !ignore {
      mounts := mounts + [Mount(workVolume.name, workDir)];
      volumes := volumes + [workVolume];
    }
    return Ok(volumes, mounts);
  }

  // ---------------------------------------------------------------- containers

  /** The last mount at a path, as the loop over the mounts leaves it. */
  function LastMountAt(mounts: seq<Mount>, path: string): Option<Mount> {
    if mounts == [] then None
    else if mounts[|mounts| - 1].path == path then Some(mounts[|mounts| - 1])
    else LastMountAt(mounts[..|mounts| - 1], path)
  }

  method FindMountAt(mounts: seq<Mount>, path: string) returns (r: Option<Mount>)
    ensures r == LastMountAt(mounts, path)
  {
    r := None;
    for i := 0 to |mounts|
      invariant r == LastMountAt(mounts[..i], path)
    {
      assert mounts[..i + 1][..i] == mounts[..i];
      if mounts[i].path == path {
        r := Some(mounts[i]);
      }
    }
    assert mounts[..|mounts|] == mounts;
  }

  function SyncVolumes(cfg: Config): seq<Volume> {
    [Volume(SYNC_VOLUME, EmptyDir), Volume(SYNC_SECRET_VOLUME, SecretSource(cfg.syncSecret))]
  }

  function SyncMounts(): seq<Mount> {
    [Mount(SYNC_VOLUME, SYNC_HOME), Mount(SYNC_SECRET_VOLUME, SYNC_SECRET_HOME)]
  }

  function DevVersion(c: Container, cfg: Config, devImage: string, mounts: seq<Mount>): Container {
    c.(image := if devImage == "" then cfg.image else devImage,
       name := cfg.containerName,
       command := ["/bin/sh", "-c", "tail -f /dev/null"],
       workingDir := cfg.workDir,
       pullPolicy := cfg.pullPolicy,
       env := c.env + cfg.env,
       mounts := c.mounts + mounts,
       resources := if cfg.resources.Some? then cfg.resources.value else c.resources)
  }

  function SidecarOf(cfg: Config, mounts: seq<Mount>, work: Option<Mount>): Container {
    Container(SIDECAR, cfg.sidecarImage, ["/bin/sh", "-c"], cfg.workDir, cfg.pullPolicy, [],
              mounts + (if work.Some? then [work.value] else []), SIDECAR_RESOURCES, Probes(None, None, None))
  }

  class Pod {
    var containers: array<Container>
    var volumes: seq<Volume>

    constructor (containers: array<Container>, volumes: seq<Volume>)
      ensures this.containers == containers && this.volumes == volumes
    {
      this.containers, this.volumes := containers, volumes;
    }
  }

  /** The first container that bears a name. */
  function FirstNamed(cs: seq<Container>, name: string): (i: nat)
    ensures i <= |cs|
    ensures i < |cs| ==> cs[i].name == name
    ensures forall j :: 0 <= j < i ==> cs[j].name != name
  {
    if cs == [] || cs[0].name == name then 0 else 1 + FirstNamed(cs[1..], name)
  }

  lemma FirstNamedIs(cs: seq<Container>, name: string, i: nat)
    requires i <= |cs| && forall j :: 0 <= j < i ==> cs[j].name != name
    requires i < |cs| ==> cs[i].name == name
    ensures FirstNamed(cs, name) == i
  {
  }

  /** The container to develop in: the first of the given name, or the only one. */
  function DevIndex(cs: seq<Container>, name: string): (r: Option<nat>)
    ensures r.Some? ==> r.value < |cs|
  {
    if name == "" then (if |cs| == 1 then Some(0) else None)
    else
      var i := FirstNamed(cs, name);
      if i < |cs| then Some(i) else None
  }

  method FindDevContainer(cs: array<Container>, name: string) returns (r: Option<nat>)
    ensures r == DevIndex(cs[..], name)
  {
    if name == "" {
      return if cs.Length == 1 then Some(0) else None;
    }
    for i := 0 to cs.Length
      invariant forall j :: 0 <= j < i ==> cs[j].name != name
    {
      if cs[i].name == name {
        FirstNamedIs(cs[..], name, i);
        return Some(i);
      }
    }
    FirstNamedIs(cs[..], name, cs.Length);
    return None;
  }

  datatype DevParts = NoParts | Parts(dev: nat, sidecar: Container, volumes: seq<Volume>, mounts: seq<Mount>)

  /** What the dev container and the sidecar both mount, or nothing if generating it fails. */
  function DevMounts(c: Container, cfg: Config): Generated {
    match WorkDirSpec(cfg.dirs, cfg.workDir, LastMountAt(c.mounts, cfg.workDir).Some?)
    case Failed => Failed
    case Ok(volumes, mounts) => Ok(SyncVolumes(cfg) + volumes, SyncMounts() + mounts)
  }

  function PartsSpec(cs: seq<Container>, name: string, cfg: Config): (r: DevParts)
    ensures r.Parts? ==> r.dev < |cs|
  {
    match DevIndex(cs, name)
    case None => NoParts
    case Some(dev) =>
      match DevMounts(cs[dev], cfg)
      case Failed => NoParts
      case Ok(volumes, mounts) =>
        Parts(dev, SidecarOf(cfg, mounts, LastMountAt(cs[dev].mounts, cfg.workDir)), volumes, mounts)
  }

  /** The containers once the dev container has been rewritten through its pointer. */
  function Rewritten(cs: seq<Container>, parts: DevParts, cfg: Config, devImage: string): seq<Container>
    requires parts.Parts? ==> parts.dev < |cs|
  {
    if parts.NoParts? then cs
    else cs[parts.dev := DevVersion(cs[parts.dev], cfg, devImage, parts.mounts)]
  }

  /** Rewrite the dev container in place and describe the sidecar and the volumes. */
  method GenContainersAndVolumes(cs: array<Container>, name: string, devImage: string, cfg: Config)
    returns (r: DevParts)
    modifies cs
    ensures r == PartsSpec(old(cs[..]), name, cfg)
    ensures cs[..] == Rewritten(old(cs[..]), r, cfg, devImage)
  {
    var found := FindDevContainer(cs, name);
    if found.None? {
      return NoParts;
    }
    var dev := found.value;
    var work := FindMountAt(cs[dev].mounts, cfg.workDir);
    var generated := GenWorkDirAndPVAndMounts(cfg.dirs, cfg.workDir, work.Some?);
    if generated.Failed? {
      return NoParts;
    }
    var volumes := SyncVolumes(cfg) + generated.volumes;
    var mounts := SyncMounts() + generated.mounts;
    cs[dev] := DevVersion(cs[dev], cfg, devImage, mounts);
    return Parts(dev, SidecarOf(cfg, mounts, work), volumes, mounts);
  }

  function Unprobed(c: Container): Container {
    c.(probes := Probes(None, None, None))
  }

  /** The containers after the patch: the named one is replaced by what the pointer `dev` points to,
      probes are cleared, and the sidecar is appended. */
  function Patched(cs: seq<Container>, name: string, dev: nat, sidecar: Container): (r: seq<Container>)
    requires dev < |cs|
    ensures |r| == |cs| + 1
  {
    var at := if name == "" then 0 else FirstNamed(cs, name);
    var replaced := if at < |cs| then cs[at := cs[dev]] else cs;
    seq(|cs|, i requires 0 <= i < |cs| => Unprobed(replaced[i])) + [sidecar]
  }

  method ReplaceNamed(cs: array<Container>, name: string, dev: nat)
    requires dev < cs.Length
    modifies cs
    ensures var at := if name == "" then 0 else FirstNamed(old(cs[..]), name);
            cs[..] == if at < cs.Length then old(cs[..])[at := old(cs[dev])] else old(cs[..])
  {
    if name == "" {
      cs[0] := cs[dev];
      return;
    }
    ghost var was := cs[..];
    for i := 0 to cs.Length
      invariant cs[..] == was
      invariant forall j :: 0 <= j < i ==> was[j].name != name
    {
      if cs[i].name == name {
        FirstNamedIs(was, name, i);
        cs[i] := cs[dev];
        return;
      }
    }
    FirstNamedIs(was, name, cs.Length);
  }

  method PatchDevContainer(pod: Pod, name: string, dev: nat, sidecar: Container, volumes: seq<Volume>)
    requires dev < pod.containers.Length
    modifies pod, pod.containers
    ensures pod.volumes == old(pod.volumes) + volumes
    ensures pod.containers[..] == Patched(old(pod.containers[..]), name, dev, sidecar)
  {
    var cs := pod.containers;
    ReplaceNamed(cs, name, dev);
    ghost var replaced := cs[..];
    pod.volumes := pod.volumes + volumes;
    for i := 0 to cs.Length
      modifies cs
      invariant forall j :: 0 <= j < cs.Length ==> cs[j] == if j < i then Unprobed(replaced[j]) else replaced[j]
    {
      cs[i] := Unprobed(cs[i]);
    }
    var list := cs[..] + [sidecar];
    assert list == Patched(old(pod.containers[..]), name, dev, sidecar);
    var all := new Container[|list|](j requires 0 <= j < |list| => list[j]);
    assert all[..] == list;
    pod.containers := all;
  }

  /** Entering dev mode: generate, then patch.  On failure the pod is unchanged. */
  method EnterDevMode(pod: Pod, name: string, devImage: string, cfg: Config) returns (ok: bool)
    modifies pod, pod.containers
    ensures ok == PartsSpec(old(pod.containers[..]), name, cfg).Parts?
    ensures pod.containers[..] == DevContainers(old(pod.containers[..]), name, devImage, cfg)
    ensures pod.volumes == DevVolumes(old(pod.containers[..]), old(pod.volumes), name, cfg)
  {
    var parts := GenContainersAndVolumes(pod.containers, name, devImage, cfg);
    if parts.NoParts? {
      return false;
    }
    PatchDevContainer(pod, name, parts.dev, parts.sidecar, parts.volumes);
    return true;
  }

  function DevContainers(cs: seq<Container>, name: string, devImage: string, cfg: Config): seq<Container> {
    var parts := PartsSpec(cs, name, cfg);
    if parts.NoParts? then cs
    else Patched(Rewritten(cs, parts, cfg, devImage), name, parts.dev, parts.sidecar)
  }

  function DevVolumes(cs: seq<Container>, volumes: seq<Volume>, name: string, cfg: Config): seq<Volume> {
    var parts := PartsSpec(cs, name, cfg);
    if parts.NoParts? then volumes else volumes + parts.volumes
  }

  // ---------------------------------------------------------------- what the rewriting keeps

  ghost predicate Declared(mounts: seq<Mount>, volumes: seq<Volume>) {
    forall m :: m in mounts ==> exists v :: v in volumes && v.name == m.name
  }

  /** Every mount names a declared volume. */
  ghost predicate WellFormed(cs: seq<Container>, volumes: seq<Volume>) {
    forall i :: 0 <= i < |cs| ==> Declared(cs[i].mounts, volumes)
  }

  lemma {:induction false} DirsDeclared(dirs: seq<PersistDir>, workDir: string)
    ensures Declared(DirMounts(dirs, workDir), DirVolumes(dirs, workDir))
  {
    if dirs != [] {
      var n := |dirs| - 1;
      DirsDeclared(dirs[..n], workDir);
      DeclaredMore(DirMounts(dirs[..n], workDir), DirVolumes(dirs[..n], workDir),
                   Volume(PersistName(n), if Usable(dirs[n]) then Claim(dirs[n].pvc.claim) else EmptyDir),
                   dirs[n].path);
    }
  }

  lemma DeclaredMore(mounts: seq<Mount>, volumes: seq<Volume>, v: Volume, path: string)
    requires Declared(mounts, volumes)
    ensures Declared(mounts + [Mount(v.name, path)], volumes + [v])
  {
    assert v in volumes + [v];
  }

  lemma DevMountsDeclared(c: Container, cfg: Config)
    ensures DevMounts(c, cfg).Ok? ==> Declared(DevMounts(c, cfg).mounts, DevMounts(c, cfg).volumes)
  {
    var dirs, workDir := cfg.dirs, cfg.workDir;
    DirsDeclared(dirs, workDir);
    DeclaredMore(DirMounts(dirs, workDir), DirVolumes(dirs, workDir), WorkVolume(WorkClaim(dirs, workDir)), workDir);
    var sync := SyncVolumes(cfg);
    assert sync[0] in sync && sync[1] in sync;
    assert Declared(SyncMounts(), sync);
  }

  lemma {:induction false} LastMountIsMount(mounts: seq<Mount>, path: string)
    ensures LastMountAt(mounts, path).Some? ==>
              LastMountAt(mounts, path).value in mounts && LastMountAt(mounts, path).value.path == path
    ensures LastMountAt(mounts, path).None? ==> forall m :: m in mounts ==> m.path != path
  {
    if mounts != [] {
      LastMountIsMount(mounts[..|mounts| - 1], path);
      assert mounts == mounts[..|mounts| - 1] + [mounts[|mounts| - 1]];
    }
  }

  /** At patch time the named container is the one already rewritten, unless a second container has
      the same name. */
  ghost predicate Unclashed(cs: seq<Container>, name: string, dev: nat, cfg: Config) {
    name == "" || cfg.containerName == name || forall j :: 0 <= j < |cs| && j != dev ==> cs[j].name != name
  }

  /** Exactly one of the original containers is rewritten, apart from cleared probes, and one sidecar
      is appended, if and only if no second container bears the name asked for. */
  lemma OnlyDevContainerChanges(cs: seq<Container>, name: string, devImage: string, cfg: Config)
    requires PartsSpec(cs, name, cfg).Parts?
    ensures var parts := PartsSpec(cs, name, cfg);
            var after := DevContainers(cs, name, devImage, cfg);
            && |after| == |cs| + 1 && after[|cs|] == parts.sidecar
            && after[parts.dev] == Unprobed(DevVersion(cs[parts.dev], cfg, devImage, parts.mounts))
            && (Unclashed(cs, name, parts.dev, cfg) <==>
                forall i :: 0 <= i < |cs| && i != parts.dev ==> after[i] == Unprobed(cs[i]))
  {
    var parts := PartsSpec(cs, name, cfg);
    var mid := Rewritten(cs, parts, cfg, devImage);
    var after := DevContainers(cs, name, devImage, cfg);
    var at := if name == "" then 0 else FirstNamed(mid, name);
    if at < |cs| && at != parts.dev {
      assert after[at] == Unprobed(mid[parts.dev]) && mid[at].name == name;
      assert !Unclashed(cs, name, parts.dev, cfg);
    } else if name != "" && cfg.containerName != name {
      forall j | 0 <= j < |cs| && j != parts.dev ensures cs[j].name != name {
        assert mid[j] == cs[j] && mid[parts.dev].name != name;
      }
    }
  }

  /** Two containers of one name: renaming the first makes the second the one found by name, and it is
      overwritten. */
  lemma NamesakeIsOverwritten(a: Container, b: Container, cfg: Config)
    requires a.name == b.name == "web" && cfg.containerName == "nocalhost-dev" && cfg.dirs == []
    ensures PartsSpec([a, b], "web", cfg).Parts?
    ensures DevContainers([a, b], "web", "", cfg)[1] ==
            Unprobed(DevVersion(a, cfg, "", PartsSpec([a, b], "web", cfg).mounts))
  {
    var cs := [a, b];
    var mid := Rewritten(cs, PartsSpec(cs, "web", cfg), cfg, "");
    assert mid[0].name != "web" && mid[1].name == "web";
    assert mid[1..][0] == mid[1];
    FirstNamedIs(mid, "web", 1);
  }

  lemma PatchedDeclared(cs: seq<Container>, name: string, dev: nat, sidecar: Container, volumes: seq<Volume>)
    requires dev < |cs| && WellFormed(cs, volumes) && Declared(sidecar.mounts, volumes)
    ensures WellFormed(Patched(cs, name, dev, sidecar), volumes)
  {
    var after := Patched(cs, name, dev, sidecar);
    var at := if name == "" then 0 else FirstNamed(cs, name);
    var replaced := if at < |cs| then cs[at := cs[dev]] else cs;
    forall i | 0 <= i < |after| ensures Declared(after[i].mounts, volumes) {
      assert Declared(cs[dev].mounts, volumes);
      if i < |cs| {
        assert Declared(cs[i].mounts, volumes);
        assert after[i] == Unprobed(replaced[i]) && replaced[i] in [cs[i], cs[dev]];
      }
    }
  }

  lemma DeclaredIn(mounts: seq<Mount>, more: seq<Mount>, volumes: seq<Volume>, extra: seq<Volume>)
    requires Declared(mounts, volumes) && Declared(more, extra)
    ensures Declared(mounts, volumes + extra) && Declared(mounts + more, volumes + extra)
  {
    forall m | m in mounts + more ensures exists v :: v in volumes + extra && v.name == m.name {
      if m in mounts {
        var v :| v in volumes && v.name == m.name;
        assert v in volumes + extra;
      } else {
        var v :| v in extra && v.name == m.name;
        assert v in volumes + extra;
      }
    }
    assert forall m :: m in mounts ==> m in mounts + more;
  }

  /** Every mount still names a declared volume. */
  lemma StaysWellFormed(cs: seq<Container>, volumes: seq<Volume>, name: string, devImage: string, cfg: Config)
    requires WellFormed(cs, volumes)
    ensures WellFormed(DevContainers(cs, name, devImage, cfg), DevVolumes(cs, volumes, name, cfg))
  {
    var parts := PartsSpec(cs, name, cfg);
    if parts.Parts? {
      var c := cs[parts.dev];
      var all := volumes + parts.volumes;
      DevMountsDeclared(c, cfg);
      LastMountIsMount(c.mounts, cfg.workDir);
      DeclaredIn(c.mounts, parts.mounts, volumes, parts.volumes);
      assert Declared(parts.sidecar.mounts, all) by {
        assert forall m :: m in parts.sidecar.mounts ==> m in c.mounts + parts.mounts;
      }
      var mid := Rewritten(cs, parts, cfg, devImage);
      forall i | 0 <= i < |cs| ensures Declared(mid[i].mounts, all) {
        DeclaredIn(cs[i].mounts, parts.mounts, volumes, parts.volumes);
      }
      PatchedDeclared(mid, name, parts.dev, parts.sidecar, all);
    }
  }

  // ---------------------------------------------------------------- from pod to pod

  /** Which container is found: the first of the name, or, without a name, the only one. */
  ghost predicate IsFound(cs: seq<Container>, name: string, i: int) {
    && 0 <= i < |cs|
    && if name == "" then |cs| == 1 else cs[i].name == name && forall j :: 0 <= j < i ==> cs[j].name != name
  }

  /** Dev mode is entered if and only if a container is found and no claim that is needed fails to be
      created. */
  lemma EntersExactly(cs: seq<Container>, name: string, cfg: Config)
    ensures PartsSpec(cs, name, cfg).Parts? <==>
            && (exists i :: IsFound(cs, name, i))
            && forall n :: 0 <= n < |cfg.dirs| ==> cfg.dirs[n].path == "" || !cfg.dirs[n].pvc.CreateFailed?
    ensures PartsSpec(cs, name, cfg).Parts? ==> IsFound(cs, name, PartsSpec(cs, name, cfg).dev)
  {
    if name == "" && |cs| == 1 {
      assert IsFound(cs, name, 0);
    }
    if name != "" && FirstNamed(cs, name) < |cs| {
      assert IsFound(cs, name, FirstNamed(cs, name));
    }
    if exists n :: 0 <= n < |cfg.dirs| && cfg.dirs[n].path != "" && cfg.dirs[n].pvc.CreateFailed? {
      var n :| 0 <= n < |cfg.dirs| && cfg.dirs[n].path != "" && cfg.dirs[n].pvc.CreateFailed?;
      assert Fatal(cfg.dirs[n]);
    }
  }

  /** The last of the mounts that are at a path. */
  ghost predicate IsLastAt(mounts: seq<Mount>, path: string, m: Mount) {
    exists i :: 0 <= i < |mounts| && mounts[i] == m && m.path == path &&
      forall j :: i < j < |mounts| ==> mounts[j].path != path
  }

  lemma {:induction false} LastMountIndex(mounts: seq<Mount>, path: string) returns (i: nat)
    requires LastMountAt(mounts, path).Some?
    ensures i < |mounts| && mounts[i] == LastMountAt(mounts, path).value && mounts[i].path == path
    ensures forall j :: i < j < |mounts| ==> mounts[j].path != path
  {
    var n := |mounts| - 1;
    if mounts[n].path == path {
      i := n;
    } else {
      i := LastMountIndex(mounts[..n], path);
      assert forall j :: 0 <= j < n ==> mounts[..n][j] == mounts[j];
    }
  }

  /** The dev container: the asked image or else the configured one, the configured name, work dir and pull
      policy, an idle command and no probes; its own env and mounts before the added ones, and its own
      resources unless some are configured. */
  ghost predicate IsDevContainer(d: Container, c: Container, devImage: string, cfg: Config, added: seq<Mount>) {
    && d.image == (if devImage == "" then cfg.image else devImage)
    && d.name == cfg.containerName && d.workingDir == cfg.workDir && d.pullPolicy == cfg.pullPolicy
    && d.command == ["/bin/sh", "-c", "tail -f /dev/null"]
    && d.env == c.env + cfg.env && d.mounts == c.mounts + added
    && d.resources == (if cfg.resources.Some? then cfg.resources.value else c.resources)
    && d.probes.liveness.None? && d.probes.readiness.None? && d.probes.startup.None?
  }

  /** The sidecar: its own image and resources, the same work dir and pull policy, the added mounts and, if
      the container had mounted the work dir before, that mount. */
  ghost predicate IsSidecar(s: Container, c: Container, cfg: Config, added: seq<Mount>) {
    && s.name == "nocalhost-sidecar" && s.image == cfg.sidecarImage && s.workingDir == cfg.workDir
    && s.pullPolicy == cfg.pullPolicy && s.env == [] && s.resources == "1Gi,1;50Mi,100m"
    && s.command == ["/bin/sh", "-c"]
    && s.probes.liveness.None? && s.probes.readiness.None? && s.probes.startup.None?
    && if exists m :: m in c.mounts && m.path == cfg.workDir
       then exists m :: IsLastAt(c.mounts, cfg.workDir, m) && s.mounts == added + [m]
       else s.mounts == added
  }

  /** The pod in dev mode: the found container is a dev container, a sidecar is appended, both have the same
      added mounts, syncthing's first, and, unless another container bears the name, all others keep
      everything but their probes. */
  lemma DevPodIs(cs: seq<Container>, name: string, devImage: string, cfg: Config, dev: nat) returns (added: seq<Mount>)
    requires PartsSpec(cs, name, cfg).Parts? && IsFound(cs, name, dev)
    ensures var after := DevContainers(cs, name, devImage, cfg);
            && |after| == |cs| + 1
            && IsDevContainer(after[dev], cs[dev], devImage, cfg, added)
            && IsSidecar(after[|cs|], cs[dev], cfg, added)
            && [Mount("nocalhost-syncthing", "/var/syncthing"),
                Mount("nocalhost-syncthing-secret", "/var/syncthing/secret")] <= added
            && ((forall j :: 0 <= j < |cs| && j != dev ==> cs[j].name != name) || cfg.containerName == name ==>
                forall i :: 0 <= i < |cs| && i != dev ==> after[i] == cs[i].(probes := Probes(None, None, None)))
  {
    EntersExactly(cs, name, cfg);
    var parts, after := PartsSpec(cs, name, cfg), DevContainers(cs, name, devImage, cfg);
    assert parts.dev == dev;
    OnlyDevContainerChanges(cs, name, devImage, cfg);
    LastMountIsMount(cs[dev].mounts, cfg.workDir);
    if LastMountAt(cs[dev].mounts, cfg.workDir).Some? {
      var i := LastMountIndex(cs[dev].mounts, cfg.workDir);
      assert IsLastAt(cs[dev].mounts, cfg.workDir, cs[dev].mounts[i]);
    }
    added := parts.mounts;
    assert SyncMounts() <= added;
  }

  // ---------------------------------------------------------------- what backs the directories

  /** The claim of the work dir is that of the last directory of its path that could be had. */
  lemma {:induction false} WorkClaimIs(dirs: seq<PersistDir>, workDir: string, i: nat)
    requires i < |dirs| && Usable(dirs[i]) && dirs[i].path == workDir
    requires forall j :: i < j < |dirs| ==> !(Usable(dirs[j]) && dirs[j].path == workDir)
    ensures WorkClaim(dirs, workDir) == Some(dirs[i].pvc.claim)
  {
    if i < |dirs| - 1 {
      WorkClaimIs(dirs[..|dirs| - 1], workDir, i);
    }
  }

  lemma {:induction false} NoWorkClaim(dirs: seq<PersistDir>, workDir: string)
    requires forall j :: 0 <= j < |dirs| ==> !(Usable(dirs[j]) && dirs[j].path == workDir)
    ensures WorkClaim(dirs, workDir).None?
  {
    if dirs != [] {
      NoWorkClaim(dirs[..|dirs| - 1], workDir);
    }
  }

  lemma {:induction false} DirIsBacked(dirs: seq<PersistDir>, workDir: string, i: nat)
    requires i < |dirs| && Mounted(dirs[i], workDir)
    ensures Volume(PersistName(i), Claim(dirs[i].pvc.claim)) in DirVolumes(dirs, workDir)
    ensures Mount(PersistName(i), dirs[i].path) in DirMounts(dirs, workDir)
  {
    DirIsMounted(dirs, workDir, i);
    if i < |dirs| - 1 {
      DirIsBacked(dirs[..|dirs| - 1], workDir, i);
    }
  }

  /** Which directories are mounted on their own: those with a path, other than the work dir, whose claim was
      found or created. */
  lemma DirsMountedExactly(dirs: seq<PersistDir>, workDir: string, path: string)
    ensures (exists m :: m in DirMounts(dirs, workDir) && m.path == path) <==>
            && path != "" && path != workDir
            && exists i :: 0 <= i < |dirs| && dirs[i].path == path && (dirs[i].pvc.Found? || dirs[i].pvc.Created?)
  {
    DirMountsAt(dirs, workDir, path);
    if path != "" && path != workDir {
      if i :| 0 <= i < |dirs| && dirs[i].path == path && (dirs[i].pvc.Found? || dirs[i].pvc.Created?) {
        assert Mounted(dirs[i], workDir) && dirs[i].path == path;
      }
    }
  }

  /** Whether the work dir's text begins with the text of a persistent directory that counts: one that could be
      had before any of the work dir's own. */
  lemma {:induction false} ResidesExactly(dirs: seq<PersistDir>, workDir: string)
    ensures Resides(dirs, workDir) <==>
            exists i :: 0 <= i < |dirs| && Mounted(dirs[i], workDir) && dirs[i].path <= workDir &&
              forall j :: 0 <= j < i ==> !(Usable(dirs[j]) && dirs[j].path == workDir)
  {
    if dirs != [] {
      var n, front := |dirs| - 1, dirs[..|dirs| - 1];
      ResidesExactly(front, workDir);
      assert forall i :: 0 <= i < n ==> front[i] == dirs[i];
      ClaimedBefore(front, workDir);
    }
  }

  lemma ClaimedBefore(dirs: seq<PersistDir>, workDir: string)
    ensures WorkClaim(dirs, workDir).None? <==>
            forall j :: 0 <= j < |dirs| ==> !(Usable(dirs[j]) && dirs[j].path == workDir)
  {
    if forall j :: 0 <= j < |dirs| ==> !(Usable(dirs[j]) && dirs[j].path == workDir) {
      NoWorkClaim(dirs, workDir);
    } else {
      SomeWorkClaim(dirs, workDir);
    }
  }

  lemma {:induction false} SomeWorkClaim(dirs: seq<PersistDir>, workDir: string)
    requires exists j :: 0 <= j < |dirs| && Usable(dirs[j]) && dirs[j].path == workDir
    ensures WorkClaim(dirs, workDir).Some?
  {
    var j :| 0 <= j < |dirs| && Usable(dirs[j]) && dirs[j].path == workDir;
    var n := |dirs| - 1;
    if j < n && !(Usable(dirs[n]) && dirs[n].path == workDir) {
      assert dirs[..n][j] == dirs[j];
      SomeWorkClaim(dirs[..n], workDir);
    }
  }

  /** Every mount that is added is backed as configured: syncthing's by an empty directory and its secret, a
      persistent directory by its claim, the work dir by the claim of its path or else an empty directory. */
  lemma VolumesAre(cs: seq<Container>, volumes: seq<Volume>, name: string, cfg: Config, i: nat)
    requires PartsSpec(cs, name, cfg).Parts?
    ensures var after := DevVolumes(cs, volumes, name, cfg);
            var own := LastMountAt(cs[PartsSpec(cs, name, cfg).dev].mounts, cfg.workDir);
            && volumes <= after
            && Volume("nocalhost-syncthing", EmptyDir) in after
            && Volume("nocalhost-syncthing-secret", SecretSource(cfg.syncSecret)) in after
            && (i < |cfg.dirs| && Mounted(cfg.dirs[i], cfg.workDir) ==>
                  Volume(PersistName(i), Claim(cfg.dirs[i].pvc.claim)) in after)
            && (MountsWorkDir(cfg.dirs, cfg.workDir, own.Some?) ==>
                  if WorkClaim(cfg.dirs, cfg.workDir).Some?
                  then Volume("nocalhost-shared-volume", Claim(WorkClaim(cfg.dirs, cfg.workDir).value)) in after
                  else Volume("nocalhost-shared-volume", EmptyDir) in after)
  {
    var added := PartsSpec(cs, name, cfg).volumes;
    if i < |cfg.dirs| && Mounted(cfg.dirs[i], cfg.workDir) {
      DirIsBacked(cfg.dirs, cfg.workDir, i);
    }
    assert SyncVolumes(cfg)[0] in added && SyncVolumes(cfg)[1] in added;
    assert forall v :: v in added ==> v in volumes + added;
  }

  // ---------------------------------------------------------------- container names and mount paths

  ghost predicate DistinctContainers(cs: seq<Container>) {
    forall i, j :: 0 <= i < j < |cs| ==> cs[i].name != cs[j].name
  }

  /** Container names stay distinct if and only if none of the other containers has the dev container's new
      name or the sidecar's, and these two differ. */
  lemma ContainersStayDistinct(cs: seq<Container>, name: string, devImage: string, cfg: Config)
    requires PartsSpec(cs, name, cfg).Parts? && DistinctContainers(cs)
    ensures DistinctContainers(DevContainers(cs, name, devImage, cfg)) <==>
            && cfg.containerName != SIDECAR
            && forall i :: 0 <= i < |cs| && i != PartsSpec(cs, name, cfg).dev ==>
                 cs[i].name != cfg.containerName && cs[i].name != SIDECAR
  {
    var dev, after := PartsSpec(cs, name, cfg).dev, DevContainers(cs, name, devImage, cfg);
    DistinctIsUnclashed(cs, name, cfg);
    OnlyDevContainerChanges(cs, name, devImage, cfg);
    assert after[dev].name == cfg.containerName && after[|cs|].name == SIDECAR;
    assert forall i :: 0 <= i < |cs| && i != dev ==> after[i].name == cs[i].name;
    if DistinctContainers(after) {
      forall i | 0 <= i < |cs| && i != dev ensures cs[i].name != cfg.containerName && cs[i].name != SIDECAR {
        assert after[i].name != after[|cs|].name;
        assert if i < dev then after[i].name != after[dev].name else after[dev].name != after[i].name;
      }
      assert after[dev].name != after[|cs|].name;
    }
  }

  lemma DistinctIsUnclashed(cs: seq<Container>, name: string, cfg: Config)
    requires PartsSpec(cs, name, cfg).Parts? && DistinctContainers(cs)
    ensures Unclashed(cs, name, PartsSpec(cs, name, cfg).dev, cfg)
  {
    var dev := PartsSpec(cs, name, cfg).dev;
    if name != "" {
      assert cs[dev].name == name;
      forall j | 0 <= j < |cs| && j != dev ensures cs[j].name != name {
        assert if j < dev then cs[j].name != cs[dev].name else cs[dev].name != cs[j].name;
      }
    }
  }

  ghost predicate DistinctPaths(mounts: seq<Mount>) {
    forall i, j :: 0 <= i < j < |mounts| ==> mounts[i].path != mounts[j].path
  }

  ghost predicate PathsApart(mounts: seq<Mount>, more: seq<Mount>) {
    forall m, n :: m in mounts && n in more ==> m.path != n.path
  }

  lemma DistinctPathsConcat(mounts: seq<Mount>, more: seq<Mount>)
    ensures DistinctPaths(mounts + more) <==>
            DistinctPaths(mounts) && DistinctPaths(more) && PathsApart(mounts, more)
  {
    var all := mounts + more;
    if DistinctPaths(all) {
      assert forall i :: 0 <= i < |mounts| ==> all[i] == mounts[i];
      forall i, j | 0 <= i < j < |more| ensures more[i].path != more[j].path {
        assert all[|mounts| + i] == more[i] && all[|mounts| + j] == more[j];
      }
      forall m, n | m in mounts && n in more ensures m.path != n.path {
        var i :| 0 <= i < |mounts| && mounts[i] == m;
        var j :| 0 <= j < |more| && more[j] == n;
        assert all[i] == m && all[|mounts| + j] == n;
      }
    }
  }

  /** A directory that is mounted on its own. */
  predicate Mounted(d: PersistDir, workDir: string) {
    Usable(d) && d.path != workDir
  }

  lemma {:induction false} MountHasDir(dirs: seq<PersistDir>, workDir: string, m: Mount)
    requires m in DirMounts(dirs, workDir)
    ensures exists i :: 0 <= i < |dirs| && Mounted(dirs[i], workDir) && dirs[i].path == m.path
  {
    var n, front := |dirs| - 1, dirs[..|dirs| - 1];
    if m in DirMounts(front, workDir) {
      MountHasDir(front, workDir, m);
      var i :| 0 <= i < |front| && Mounted(front[i], workDir) && front[i].path == m.path;
      assert dirs[i] == front[i];
    } else {
      assert Mounted(dirs[n], workDir) && dirs[n].path == m.path;
    }
  }

  lemma {:induction false} DirIsMounted(dirs: seq<PersistDir>, workDir: string, i: nat)
    requires i < |dirs| && Mounted(dirs[i], workDir)
    ensures Mount(PersistName(i), dirs[i].path) in DirMounts(dirs, workDir)
  {
    var n := |dirs| - 1;
    if i < n {
      DirIsMounted(dirs[..n], workDir, i);
    }
  }

  lemma DirMountsAt(dirs: seq<PersistDir>, workDir: string, path: string)
    ensures (exists m :: m in DirMounts(dirs, workDir) && m.path == path) <==>
            exists i :: 0 <= i < |dirs| && Mounted(dirs[i], workDir) && dirs[i].path == path
  {
    if m :| m in DirMounts(dirs, workDir) && m.path == path {
      MountHasDir(dirs, workDir, m);
    }
    if i :| 0 <= i < |dirs| && Mounted(dirs[i], workDir) && dirs[i].path == path {
      DirIsMounted(dirs, workDir, i);
    }
  }

  /** The persistent directories that are mounted have different paths. */
  ghost predicate DistinctDirs(dirs: seq<PersistDir>, workDir: string) {
    forall i, j :: 0 <= i < j < |dirs| && Mounted(dirs[i], workDir) && Mounted(dirs[j], workDir) ==>
      dirs[i].path != dirs[j].path
  }

  lemma {:induction false} DirPathsDistinct(dirs: seq<PersistDir>, workDir: string)
    ensures DistinctPaths(DirMounts(dirs, workDir)) <==> DistinctDirs(dirs, workDir)
  {
    if dirs != [] {
      var n, front := |dirs| - 1, dirs[..|dirs| - 1];
      DirPathsDistinct(front, workDir);
      var rest, own := DirMounts(front, workDir), [Mount(PersistName(n), dirs[n].path)];
      DistinctPathsConcat(rest, own);
      DirMountsAt(front, workDir, dirs[n].path);
      DirsSplit(dirs, workDir);
      if Mounted(dirs[n], workDir) {
        assert DirMounts(dirs, workDir) == rest + own;
        assert PathsApart(rest, own) <==> !exists m :: m in rest && m.path == dirs[n].path;
      }
    }
  }

  lemma DirsSplit(dirs: seq<PersistDir>, workDir: string)
    requires dirs != []
    ensures var n, front := |dirs| - 1, dirs[..|dirs| - 1];
            DistinctDirs(dirs, workDir) <==>
            && DistinctDirs(front, workDir)
            && !(Mounted(dirs[n], workDir) &&
                 exists i :: 0 <= i < |front| && Mounted(front[i], workDir) && front[i].path == dirs[n].path)
  {
    var n, front := |dirs| - 1, dirs[..|dirs| - 1];
    assert forall i :: 0 <= i < n ==> front[i] == dirs[i];
    if DistinctDirs(dirs, workDir) {
      assert DistinctDirs(front, workDir);
    }
  }

  /** The common mounts have different paths if and only if the persistent directories have, and none is
      mounted where syncthing mounts. */
  lemma CommonPathsDistinct(cfg: Config)
    ensures DistinctPaths(CommonMounts(cfg)) <==>
            && DistinctDirs(cfg.dirs, cfg.workDir)
            && forall i :: 0 <= i < |cfg.dirs| && Mounted(cfg.dirs[i], cfg.workDir) ==>
                 cfg.dirs[i].path != SYNC_HOME && cfg.dirs[i].path != SYNC_SECRET_HOME
  {
    var dirs := DirMounts(cfg.dirs, cfg.workDir);
    DirPathsDistinct(cfg.dirs, cfg.workDir);
    DistinctPathsConcat(SyncMounts(), dirs);
    assert |SYNC_HOME| != |SYNC_SECRET_HOME|;
    DirMountsAt(cfg.dirs, cfg.workDir, SYNC_HOME);
    DirMountsAt(cfg.dirs, cfg.workDir, SYNC_SECRET_HOME);
    assert SyncMounts()[0] in SyncMounts() && SyncMounts()[1] in SyncMounts();
    assert forall m :: m in SyncMounts() ==> m.path == SYNC_HOME || m.path == SYNC_SECRET_HOME;
    assert PathsApart(SyncMounts(), dirs) <==>
           !(exists m :: m in dirs && m.path == SYNC_HOME) && !(exists m :: m in dirs && m.path == SYNC_SECRET_HOME);
  }

  /** Mount paths of the dev container and of the sidecar are distinct if and only if the container's own
      were, the common ones are, none of its own is at a common path, and syncthing does not mount at a
      work dir that is mounted. */
  lemma MountPathsStayDistinct(cs: seq<Container>, name: string, devImage: string, cfg: Config)
    requires PartsSpec(cs, name, cfg).Parts?
    ensures var parts := PartsSpec(cs, name, cfg);
            var c := cs[parts.dev];
            var mounted := LastMountAt(c.mounts, cfg.workDir).Some? || MountsWorkDir(cfg.dirs, cfg.workDir, false);
            DistinctPaths(DevVersion(c, cfg, devImage, parts.mounts).mounts) && DistinctPaths(parts.sidecar.mounts) <==>
            && DistinctPaths(c.mounts) && DistinctPaths(CommonMounts(cfg)) && PathsApart(c.mounts, CommonMounts(cfg))
            && (mounted ==> cfg.workDir != SYNC_HOME && cfg.workDir != SYNC_SECRET_HOME)
  {
    var parts := PartsSpec(cs, name, cfg);
    var c, common, work := cs[parts.dev], CommonMounts(cfg), LastMountAt(cs[parts.dev].mounts, cfg.workDir);
    LastMountIsMount(c.mounts, cfg.workDir);
    DistinctPathsConcat(c.mounts, parts.mounts);
    AtCommonPath(cfg);
    if work.Some? {
      assert parts.mounts == common && parts.sidecar.mounts == common + [work.value];
      DistinctPathsConcat(common, [work.value]);
    } else if MountsWorkDir(cfg.dirs, cfg.workDir, false) {
      var own := [Mount(SHARED_VOLUME, cfg.workDir)];
      assert parts.mounts == common + own && parts.sidecar.mounts == parts.mounts;
      DistinctPathsConcat(common, own);
      ApartMore(c.mounts, common, own[0]);
    } else {
      assert parts.mounts == common && parts.sidecar.mounts == common;
    }
  }

  lemma ApartMore(mounts: seq<Mount>, more: seq<Mount>, m: Mount)
    requires forall x :: x in mounts ==> x.path != m.path
    ensures PathsApart(mounts, more + [m]) <==> PathsApart(mounts, more)
  {
    assert forall x :: x in more ==> x in more + [m];
  }

  /** A common mount is at the work dir itself only if it is syncthing's. */
  lemma AtCommonPath(cfg: Config)
    ensures (exists m :: m in CommonMounts(cfg) && m.path == cfg.workDir) <==>
            cfg.workDir == SYNC_HOME || cfg.workDir == SYNC_SECRET_HOME
  {
    DirsElsewhere(cfg.dirs, cfg.workDir);
    assert SyncMounts()[0] in CommonMounts(cfg) && SyncMounts()[1] in CommonMounts(cfg);
  }

  // ---------------------------------------------------------------- volume names

  ghost predicate DistinctNames(vs: seq<Volume>) {
    forall i, j :: 0 <= i < j < |vs| ==> vs[i].name != vs[j].name
  }

  ghost predicate NamesApart(vs: seq<Volume>, more: seq<Volume>) {
    forall i, j :: 0 <= i < |vs| && 0 <= j < |more| ==> vs[i].name != more[j].name
  }

  lemma DistinctConcat(vs: seq<Volume>, more: seq<Volume>)
    ensures DistinctNames(vs + more) <==> DistinctNames(vs) && DistinctNames(more) && NamesApart(vs, more)
  {
    var all := vs + more;
    if DistinctNames(all) {
      assert forall i :: 0 <= i < |vs| ==> all[i] == vs[i];
      forall i, j | 0 <= i < |vs| && 0 <= j < |more| ensures vs[i].name != more[j].name {
        assert all[i] == vs[i] && all[|vs| + j] == more[j];
      }
      forall i, j | 0 <= i < j < |more| ensures more[i].name != more[j].name {
        assert all[|vs| + i] == more[i] && all[|vs| + j] == more[j];
      }
    }
  }

  lemma DigitInjective(a: nat, b: nat)
    requires a < 10 && b < 10 && "0123456789"[a] == "0123456789"[b]
    ensures a == b
  {
  }

  lemma {:induction false} DigitsInjective(n: nat, m: nat)
    requires Digits(n) == Digits(m)
    ensures n == m
  {
    var a, b := Digits(n), Digits(m);
    assert |Digits(n / 10)| > 0 && |Digits(m / 10)| > 0;
    assert a[|a| - 1] == "0123456789"[n % 10] && b[|b| - 1] == "0123456789"[m % 10];
    DigitInjective(n % 10, m % 10);
    if n >= 10 && m >= 10 {
      assert a[..|a| - 1] == Digits(n / 10) && b[..|b| - 1] == Digits(m / 10);
      DigitsInjective(n / 10, m / 10);
    }
  }

  lemma PersistNamesDiffer(n: nat, m: nat)
    ensures PersistName(n) == PersistName(m) ==> n == m
  {
    if PersistName(n) == PersistName(m) {
      assert Digits(n) == PersistName(n)[15..] && Digits(m) == PersistName(m)[15..];
      DigitsInjective(n, m);
    }
  }

  lemma {:induction false} DirVolumesDistinct(dirs: seq<PersistDir>, workDir: string)
    ensures DistinctNames(DirVolumes(dirs, workDir))
    ensures forall v :: v in DirVolumes(dirs, workDir) ==> exists i :: 0 <= i < |dirs| && v.name == PersistName(i)
  {
    if dirs != [] {
      var n := |dirs| - 1;
      DirVolumesDistinct(dirs[..n], workDir);
      forall i | 0 <= i < n ensures PersistName(i) != PersistName(n) {
        PersistNamesDiffer(i, n);
      }
    }
  }

  lemma GeneratedDistinct(c: Container, cfg: Config)
    ensures DevMounts(c, cfg).Ok? ==> DistinctNames(DevMounts(c, cfg).volumes)
  {
    var dirs, work := DirVolumes(cfg.dirs, cfg.workDir), [WorkVolume(WorkClaim(cfg.dirs, cfg.workDir))];
    DirVolumesDistinct(cfg.dirs, cfg.workDir);
    forall i | 0 <= i < |dirs| ensures dirs[i].name[0] == 'p' {
      assert dirs[i] in dirs;
    }
    DistinctConcat(dirs, work);
    DistinctConcat(SyncVolumes(cfg), dirs);
    DistinctConcat(SyncVolumes(cfg), dirs + work);
    assert SYNC_VOLUME[0] == SYNC_SECRET_VOLUME[0] == SHARED_VOLUME[0] == 'n';
    assert |SYNC_VOLUME| != |SYNC_SECRET_VOLUME| && |SHARED_VOLUME| == 23 && SHARED_VOLUME != SYNC_SECRET_VOLUME;
    assert |SYNC_VOLUME| == 19;
  }

  /** Volume names stay distinct if and only if they were and the pod had none of the generated ones. */
  lemma VolumesStayDistinct(cs: seq<Container>, volumes: seq<Volume>, name: string, cfg: Config)
    requires PartsSpec(cs, name, cfg).Parts?
    ensures DistinctNames(DevVolumes(cs, volumes, name, cfg)) <==>
            DistinctNames(volumes) && NamesApart(volumes, PartsSpec(cs, name, cfg).volumes)
  {
    var parts := PartsSpec(cs, name, cfg);
    GeneratedDistinct(cs[parts.dev], cfg);
    DistinctConcat(volumes, parts.volumes);
  }

  // ---------------------------------------------------------------- the shared work dir

  /** A directory that contains another, as file systems see it. */
  predicate Covers(dir: string, path: string) {
    dir == path || (dir <= path && dir != "" && (dir[|dir| - 1] == '/' || path[|dir|] == '/'))
  }

  /** The mount through which a container sees a path: the deepest that covers it, the last of those that
      are equally deep. */
  function SeenAt(mounts: seq<Mount>, path: string): Option<Mount> {
    if mounts == [] then None
    else
      var rest, m := SeenAt(mounts[..|mounts| - 1], path), mounts[|mounts| - 1];
      if Covers(m.path, path) && (rest.None? || |rest.value.path| <= |m.path|) then Some(m) else rest
  }

  /** The dev container and the sidecar see the work dir through the same mount. */
  predicate WorkDirShared(dev: Container, sidecar: Container, workDir: string) {
    SeenAt(dev.mounts, workDir).Some? && SeenAt(dev.mounts, workDir) == SeenAt(sidecar.mounts, workDir)
  }

  lemma {:induction false} SeenIsDeepest(mounts: seq<Mount>, path: string)
    ensures var seen := SeenAt(mounts, path);
            seen.Some? ==> seen.value in mounts && Covers(seen.value.path, path)
    ensures forall m :: m in mounts && Covers(m.path, path) ==>
              SeenAt(mounts, path).Some? && |m.path| <= |SeenAt(mounts, path).value.path|
  {
    if mounts != [] {
      var front, last := mounts[..|mounts| - 1], mounts[|mounts| - 1];
      SeenIsDeepest(front, path);
      assert mounts == front + [last];
    }
  }

  /** Mounts added later hide those that are not deeper. */
  lemma {:induction false} SeenConcat(a: seq<Mount>, b: seq<Mount>, path: string)
    ensures var first, second := SeenAt(a, path), SeenAt(b, path);
            SeenAt(a + b, path) ==
            if second.Some? && (first.None? || |first.value.path| <= |second.value.path|) then second else first
  {
    if b == [] {
      assert a + b == a;
    } else {
      var front, last := b[..|b| - 1], b[|b| - 1];
      SeenConcat(a, front, path);
      assert (a + b)[..|a + b| - 1] == a + front;
    }
  }

  lemma SeenSingle(m: Mount, path: string)
    ensures SeenAt([m], path) == if Covers(m.path, path) then Some(m) else None
  {
    assert SeenAt([m][..0], path) == None;
  }

  lemma CoversShorter(dir: string, path: string)
    requires Covers(dir, path)
    ensures |dir| <= |path| && (|dir| == |path| ==> dir == path)
  {
    assert |dir| == |path| ==> dir == path[..|dir|];
  }

  lemma {:induction false} SeenAtItself(mounts: seq<Mount>, path: string)
    ensures LastMountAt(mounts, path).Some? ==> SeenAt(mounts, path) == LastMountAt(mounts, path)
  {
    if mounts != [] {
      var front, last := mounts[..|mounts| - 1], mounts[|mounts| - 1];
      SeenAtItself(front, path);
      SeenIsDeepest(front, path);
      LastMountIsMount(front, path);
      if SeenAt(front, path).Some? {
        CoversShorter(SeenAt(front, path).value.path, path);
      }
      if Covers(last.path, path) {
        CoversShorter(last.path, path);
      }
    }
  }

  /** The mounts that both containers get in any case. */
  function CommonMounts(cfg: Config): seq<Mount> {
    SyncMounts() + DirMounts(cfg.dirs, cfg.workDir)
  }

  /** Exactly when the two containers see the work dir through the same mount.  If the container mounted
      it before: unless syncthing's own mount is at the very same path.  Otherwise: if it is mounted now,
      or a common mount really contains it and no mount of the container itself is deeper. */
  lemma WorkDirSharedExactly(cs: seq<Container>, name: string, devImage: string, cfg: Config)
    requires PartsSpec(cs, name, cfg).Parts?
    ensures var parts := PartsSpec(cs, name, cfg);
            var c := cs[parts.dev];
            var work := LastMountAt(c.mounts, cfg.workDir);
            WorkDirShared(DevVersion(c, cfg, devImage, parts.mounts), parts.sidecar, cfg.workDir) <==>
              if work.Some? then forall m :: m in SyncMounts() && m.path == cfg.workDir ==> m == work.value
              else
                || WorkClaim(cfg.dirs, cfg.workDir).Some? || !Resides(cfg.dirs, cfg.workDir)
                || exists m :: m in CommonMounts(cfg) && Covers(m.path, cfg.workDir) &&
                     forall own :: own in c.mounts && Covers(own.path, cfg.workDir) ==> |own.path| <= |m.path|
  {
    var parts := PartsSpec(cs, name, cfg);
    var c := cs[parts.dev];
    if LastMountAt(c.mounts, cfg.workDir).Some? {
      SharedMounted(c, cfg, devImage);
    } else if MountsWorkDir(cfg.dirs, cfg.workDir, false) {
      SharedNow(c, cfg, parts.mounts);
    } else {
      assert parts.mounts == CommonMounts(cfg);
      SharedThroughParent(c, cfg);
    }
  }

  lemma {:induction false} DirsElsewhere(dirs: seq<PersistDir>, workDir: string)
    ensures forall m :: m in DirMounts(dirs, workDir) ==> m.path != workDir
  {
    if dirs != [] {
      DirsElsewhere(dirs[..|dirs| - 1], workDir);
    }
  }

  lemma SharedMounted(c: Container, cfg: Config, devImage: string)
    requires LastMountAt(c.mounts, cfg.workDir).Some? && DevMounts(c, cfg).Ok?
    ensures var work := LastMountAt(c.mounts, cfg.workDir);
            var mounts := DevMounts(c, cfg).mounts;
            WorkDirShared(DevVersion(c, cfg, devImage, mounts), SidecarOf(cfg, mounts, work), cfg.workDir) <==>
            forall m :: m in SyncMounts() && m.path == cfg.workDir ==> m == work.value
  {
    var path, work, mounts := cfg.workDir, LastMountAt(c.mounts, cfg.workDir), DevMounts(c, cfg).mounts;
    assert mounts == CommonMounts(cfg);
    LastMountIsMount(c.mounts, path);
    SeenAtItself(c.mounts, path);
    SeenConcat(c.mounts, mounts, path);
    SeenConcat(mounts, [work.value], path);
    SeenSingle(work.value, path);
    SeenIsDeepest(mounts, path);
    assert SeenAt(SidecarOf(cfg, mounts, work).mounts, path) == work;
    CommonAtItself(cfg);
  }

  /** Of the common mounts only syncthing's can be at the work dir itself. */
  lemma CommonAtItself(cfg: Config)
    ensures var seen := SeenAt(CommonMounts(cfg), cfg.workDir);
            && (seen.Some? && seen.value.path == cfg.workDir ==> seen.value in SyncMounts())
            && (forall m :: m in SyncMounts() && m.path == cfg.workDir ==> seen == Some(m))
  {
    var path := cfg.workDir;
    DirsElsewhere(cfg.dirs, path);
    SeenIsDeepest(CommonMounts(cfg), path);
    forall m | m in SyncMounts() && m.path == path ensures SeenAt(CommonMounts(cfg), path) == Some(m) {
      assert m in CommonMounts(cfg);
      assert SYNC_HOME != SYNC_SECRET_HOME;
    }
  }

  /** A work dir mounted anew is the last and deepest mount of both. */
  lemma SharedNow(c: Container, cfg: Config, mounts: seq<Mount>)
    requires DevMounts(c, cfg).Ok? && mounts == DevMounts(c, cfg).mounts
    requires LastMountAt(c.mounts, cfg.workDir).None? && MountsWorkDir(cfg.dirs, cfg.workDir, false)
    ensures SeenAt(mounts, cfg.workDir) == Some(Mount(SHARED_VOLUME, cfg.workDir))
    ensures SeenAt(c.mounts + mounts, cfg.workDir) == SeenAt(mounts, cfg.workDir)
    ensures SidecarOf(cfg, mounts, None).mounts == mounts
  {
    var path, shared := cfg.workDir, Mount(SHARED_VOLUME, cfg.workDir);
    assert mounts == CommonMounts(cfg) + [shared];
    SeenConcat(CommonMounts(cfg), [shared], path);
    SeenSingle(shared, path);
    SeenIsDeepest(CommonMounts(cfg), path);
    SeenConcat(c.mounts, mounts, path);
    SeenIsDeepest(c.mounts, path);
  }

  /** Otherwise the common mounts decide, unless the container has a deeper one of its own. */
  lemma SharedThroughParent(c: Container, cfg: Config)
    ensures SidecarOf(cfg, CommonMounts(cfg), None).mounts == CommonMounts(cfg)
    ensures SeenAt(c.mounts + CommonMounts(cfg), cfg.workDir).Some? &&
            SeenAt(c.mounts + CommonMounts(cfg), cfg.workDir) == SeenAt(CommonMounts(cfg), cfg.workDir) <==>
            exists m :: m in CommonMounts(cfg) && Covers(m.path, cfg.workDir) &&
              forall own :: own in c.mounts && Covers(own.path, cfg.workDir) ==> |own.path| <= |m.path|
  {
    var path, mounts := cfg.workDir, CommonMounts(cfg);
    SeenConcat(c.mounts, mounts, path);
    SeenIsDeepest(c.mounts, path);
    SeenIsDeepest(mounts, path);
  }

  /** A persistent directory whose name merely begins the work dir's name takes away its volume: the
      source compares texts, not directories. */
  lemma PrefixIsNotParent(c: Container, cfg: Config)
    requires c.mounts == [] && cfg.workDir == "/home/nocalhost-dev"
    requires cfg.dirs == [PersistDir("/home/noc", Found("claim"))]
    ensures PartsSpec([c], "", cfg).Parts?
    ensures !WorkDirShared(DevVersion(c, cfg, "", PartsSpec([c], "", cfg).mounts),
                           PartsSpec([c], "", cfg).sidecar, cfg.workDir)
  {
    assert cfg.workDir[9] == 'a';
    OneDir(c, cfg, "/home/noc");
    WorkDirSharedExactly([c], "", "", cfg);
  }

  lemma OneDir(c: Container, cfg: Config, path: string)
    requires cfg.dirs == [PersistDir(path, Found("claim"))] && path != "" && path < cfg.workDir && "/home" <= path
    requires LastMountAt(c.mounts, cfg.workDir).None?
    ensures PartsSpec([c], "", cfg).Parts? && PartsSpec([c], "", cfg).dev == 0
    ensures Resides(cfg.dirs, cfg.workDir) && WorkClaim(cfg.dirs, cfg.workDir).None?
    ensures forall m :: m in CommonMounts(cfg) && Covers(m.path, cfg.workDir) ==> m.path == path
  {
    var d := cfg.dirs[0];
    assert cfg.dirs[..0] == [];
    assert DirMounts(cfg.dirs, cfg.workDir) == [Mount(PersistName(0), path)];
    assert cfg.workDir[1] == 'h' && SYNC_HOME[1] == SYNC_SECRET_HOME[1] == 'v';
  }

  /** A mount of the container itself between the persistent directory and the work dir hides the
      directory from the container, and the sidecar does not have it. */
  lemma OwnMountHidesParent(c: Container, cfg: Config)
    requires c.mounts == [Mount("x", "/home/dev")] && cfg.workDir == "/home/dev/app"
    requires cfg.dirs == [PersistDir("/home", Found("claim"))]
    ensures PartsSpec([c], "", cfg).Parts?
    ensures !WorkDirShared(DevVersion(c, cfg, "", PartsSpec([c], "", cfg).mounts),
                           PartsSpec([c], "", cfg).sidecar, cfg.workDir)
  {
    assert c.mounts[..0] == [] && c.mounts[0].path != cfg.workDir;
    OneDir(c, cfg, "/home");
    assert cfg.workDir[9] == '/' && c.mounts[0] in c.mounts && Covers(c.mounts[0].path, cfg.workDir);
    WorkDirSharedExactly([c], "", "", cfg);
  }
}
