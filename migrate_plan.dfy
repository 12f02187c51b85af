/**
 * What the Apps V1 (Nomad) to Apps V2 (machines) migrator computes when it is
 * constructed, before anything remote is changed: the pre-flight validation,
 * the VM size translation, the primary region, one launch input per legacy
 * allocation, and the per-process-group VM counts that a rollback restores.
 */
module MigratePlan {
  import opened Common

  // ----- The snapshot taken at construction -----

  /** A legacy (Nomad) allocation: `api.AllocationStatus`, reduced to what the migration reads. */
  datatype Alloc = Alloc(id: string, idShort: string, region: string, taskName: string, attachedVolumes: seq<string>)

  /** One `[processes]` entry of the app configuration. */
  datatype ProcessConfig = ProcessConfig(cmd: seq<string>, services: seq<string>, checks: map<string, string>)

  datatype Static = Static(guestPath: string, urlPrefix: string)
  datatype Metrics = Metrics(port: int, path: string)
  datatype Mounts = Mounts(source: string, destination: string)

  /** The parts of `appconfig.Config` that the migration reads or writes. */
  datatype AppConfig = AppConfig(
    appName: string,
    env: map<string, string>,
    primaryRegion: string,
    metrics: Option<Metrics>,
    statics: seq<Static>,
    mounts: Option<Mounts>)

  datatype VmSize = VmSize(name: string, memoryMB: int)
  datatype Guest = Guest(cpuKind: string, cpus: int, memoryMB: int)

  /** Everything `NewV2PlatformMigrator` fetched from the API before it starts deciding. */
  datatype Snapshot = Snapshot(
    appName: string,
    orgId: string,
    isPostgres: bool,
    platformVersion: string,
    config: AppConfig,
    configInvalid: Option<string>,   // the error of ValidateForMachinesPlatform, if any
    processConfigs: map<string, ProcessConfig>,
    autoscaleEnabled: bool,
    img: string,
    allocs: seq<Alloc>,
    vmSize: VmSize,
    volumeDestination: string)

  // ----- Launch inputs -----

  datatype MachineMount = MachineMount(path: string, volume: string)

  datatype MachineConfig = MachineConfig(
    guest: Guest,
    metadata: map<string, string>,
    image: string,
    env: map<string, string>,
    metrics: Option<Metrics>,
    statics: seq<Static>,
    mounts: seq<MachineMount>,
    services: seq<string>,
    checks: map<string, string>,
    initCmd: Option<seq<string>>)   // None is Go's nil command

  datatype LaunchInput = LaunchInput(appId: string, orgSlug: string, region: string, config: MachineConfig)

  // Metadata keys and values of the machines API.
  const MetaPlatformVersion := "fly_platform_version"
  const MetaReleaseId := "fly_release_id"
  const MetaReleaseVersion := "fly_release_version"
  const MetaProcessGroup := "fly_process_group"
  const MetaManagedPostgres := "fly-managed-postgres"
  const PlatformV2 := "v2"
  const ProcessGroupApp := "app"
  const PrimaryRegionEnv := "PRIMARY_REGION"

  // ----- Validation -----

  /** The first allocation with an attached volume, if any. */
  function FirstWithVolume(allocs: seq<Alloc>): (r: Option<nat>)
    ensures r.Some? ==> r.value < |allocs| && |allocs[r.value].attachedVolumes| > 0
    ensures r.Some? ==> forall j :: 0 <= j < r.value ==> |allocs[j].attachedVolumes| == 0
    ensures r.None? ==> forall j :: 0 <= j < |allocs| ==> |allocs[j].attachedVolumes| == 0
  {
    if |allocs| == 0 then None
    else if |allocs[0].attachedVolumes| > 0 then Some(0)
    else match FirstWithVolume(allocs[1..])
      case None => None
      case Some(k) => Some(k + 1)
  }

  /** The first allocation whose process group has no `[processes]` entry, if any. */
  function FirstUnknownGroup(allocs: seq<Alloc>, groups: map<string, ProcessConfig>): (r: Option<nat>)
    ensures r.Some? ==> r.value < |allocs| && allocs[r.value].taskName !in groups
    ensures r.Some? ==> forall j :: 0 <= j < r.value ==> allocs[j].taskName in groups
    ensures r.None? ==> forall j :: 0 <= j < |allocs| ==> allocs[j].taskName in groups
  {
    if |allocs| == 0 then None
    else if allocs[0].taskName !in groups then Some(0)
    else match FirstUnknownGroup(allocs[1..], groups)
      case None => None
      case Some(k) => Some(k + 1)
  }

  /** `validateVolumes` */
  function ValidateVolumes(snap: Snapshot): Option<string>
  {
    if snap.config.mounts.Some? then
      Some("cannot migrate app " + snap.appName + " with [mounts] configuration, yet")
    else match FirstWithVolume(snap.allocs)
      case Some(k) => Some("cannot migrate app " + snap.appName + " because alloc " + snap.allocs[k].idShort + " has a volume attached")
      case None => None
  }

  /** `validateProcessGroupsOnAllocs` */
  function ValidateProcessGroups(snap: Snapshot): Option<string>
  {
    match FirstUnknownGroup(snap.allocs, snap.processConfigs)
    case Some(k) => Some("alloc " + snap.allocs[k].idShort + " has process group '" + snap.allocs[k].taskName
                         + "' that is not present in app configuration fly.toml")
    case None => None
  }

  /**
   * `validate`. When autoscaling is enabled, `validateScaling` fails and
   * `validate` returns nil, skipping the volume and process-group checks.
   */
  function Validate(snap: Snapshot): Option<string>
  {
    if snap.configInvalid.Some? then
      Some("failed to validate config for Apps V2 platform: " + snap.configInvalid.value)
    else if snap.autoscaleEnabled then None
    else if ValidateVolumes(snap).Some? then ValidateVolumes(snap)
    else ValidateProcessGroups(snap)
  }

  /** What `validate` rejects, both ways round. */
  lemma ValidateRejects(snap: Snapshot)
    ensures Validate(snap).Some? <==>
      || snap.configInvalid.Some?
      || (!snap.autoscaleEnabled &&
          (|| snap.config.mounts.Some?
           || (exists j :: 0 <= j < |snap.allocs| && |snap.allocs[j].attachedVolumes| > 0)
           || (exists j :: 0 <= j < |snap.allocs| && snap.allocs[j].taskName !in snap.processConfigs)))
  {
    var v := FirstWithVolume(snap.allocs);
    var u := FirstUnknownGroup(snap.allocs, snap.processConfigs);
    if v.Some? { assert |snap.allocs[v.value].attachedVolumes| > 0; }
    if u.Some? { assert snap.allocs[u.value].taskName !in snap.processConfigs; }
  }

  /** Enabled autoscaling makes `validate` succeed whatever the volumes and process groups are. */
  lemma AutoscalingSkipsChecks(snap: Snapshot)
    requires snap.autoscaleEnabled && snap.configInvalid.None?
    ensures Validate(snap).None?
  {
  }

  // ----- VM size -----

  /**
   * `determineVmSpecs`: the first "dedicated-cpu" in the Nomad size name
   * becomes "performance", the result is looked up among the machine presets
   * (`guest.SetSize`, given here as a table), and the Nomad memory is kept.
   */
  function DetermineVmSpecs(vmSize: VmSize, presets: map<string, Guest>): (r: Result<Guest>)
    ensures r.Ok? ==> r.value.memoryMB == vmSize.memoryMB
    ensures r.Ok? <==> ReplaceFirst(vmSize.name, "dedicated-cpu", "performance") in presets
  {
    var preset := ReplaceFirst(vmSize.name, "dedicated-cpu", "performance");
    if preset in presets then Ok(presets[preset].(memoryMB := vmSize.memoryMB))
    else Err("nomad VM definition incompatible with machines API: unknown size " + preset)
  }

  /** A Nomad "dedicated-cpu-..." size maps onto the machines "performance-..." preset of the same suffix. */
  lemma DedicatedCpuBecomesPerformance(vmSize: VmSize, presets: map<string, Guest>)
    requires HasPrefix(vmSize.name, "dedicated-cpu")
    requires "performance" + vmSize.name[13..] in presets
    ensures DetermineVmSpecs(vmSize, presets) == Ok(presets["performance" + vmSize.name[13..]].(memoryMB := vmSize.memoryMB))
  {
    ReplaceFirstAtStart(vmSize.name, "dedicated-cpu", "performance");
  }

  /** Any other size name is looked up unchanged. */
  lemma OtherSizesUnchanged(vmSize: VmSize, presets: map<string, Guest>)
    requires !Contains(vmSize.name, "dedicated-cpu")
    ensures DetermineVmSpecs(vmSize, presets).Ok? <==> vmSize.name in presets
  {
    ReplaceFirstAbsent(vmSize.name, "dedicated-cpu", "performance");
  }

  // ----- Primary region -----

  /**
   * `determinePrimaryRegion`: PRIMARY_REGION from the environment when it is
   * present (even empty), otherwise the region the operator picks; the prompt
   * is an input here (an error, no region, or a region code).
   */
  function DeterminePrimaryRegion(config: AppConfig, prompted: Result<Option<string>>): (r: Result<AppConfig>)
    ensures r.Ok? ==> r.value == config.(primaryRegion := r.value.primaryRegion)
    ensures PrimaryRegionEnv in config.env ==> r == Ok(config.(primaryRegion := config.env[PrimaryRegionEnv]))
    ensures PrimaryRegionEnv !in config.env ==>
      (r.Ok? <==> prompted.Ok? && prompted.value.Some?)
  {
    if PrimaryRegionEnv in config.env then Ok(config.(primaryRegion := config.env[PrimaryRegionEnv]))
    else match prompted
      case Err(e) => Err(e)
      case Ok(None) => Err("no region provided")
      case Ok(Some(code)) => Ok(config.(primaryRegion := code))
  }

  // ----- Launch inputs -----

  /** `defaultMachineMetadata` */
  function DefaultMachineMetadata(releaseId: string, releaseVersion: int, isPostgres: bool): (r: map<string, string>)
    ensures MetaPlatformVersion in r && r[MetaPlatformVersion] == PlatformV2
    ensures MetaProcessGroup in r && r[MetaProcessGroup] == ProcessGroupApp
    ensures MetaReleaseId in r && r[MetaReleaseId] == releaseId
    ensures MetaReleaseVersion in r && r[MetaReleaseVersion] == Itoa(releaseVersion)
    ensures MetaManagedPostgres in r <==> isPostgres
    ensures isPostgres ==> r[MetaManagedPostgres] == "true"
    ensures r.Keys == {MetaPlatformVersion, MetaReleaseId, MetaReleaseVersion, MetaProcessGroup}
                      + (if isPostgres then {MetaManagedPostgres} else {})
  {
    var base := map[MetaPlatformVersion := PlatformV2, MetaReleaseId := releaseId,
                    MetaReleaseVersion := Itoa(releaseVersion), MetaProcessGroup := ProcessGroupApp];
    if isPostgres then base[MetaManagedPostgres := "true"] else base
  }

  /** The migrator fields that `resolveMachineFromAlloc` reads. */
  datatype PlanContext = PlanContext(
    appName: string,
    orgId: string,
    isPostgres: bool,
    releaseId: string,
    releaseVersion: int,
    guest: Guest,
    img: string,
    config: AppConfig,
    volumeDestination: string,
    processConfigs: map<string, ProcessConfig>)

  /** The environment of every new machine: the app's env, plus PRIMARY_REGION when one is set. */
  function MachineEnv(config: AppConfig): map<string, string>
  {
    if config.primaryRegion != "" then config.env[PrimaryRegionEnv := config.primaryRegion] else config.env
  }

  /**
   * `resolveMachineFromAlloc`. An allocation whose process group has no
   * `[processes]` entry makes the Go code dereference a nil process config;
   * that panic is the error here.
   */
  function ResolveMachineFromAlloc(pc: PlanContext, alloc: Alloc): Result<LaunchInput>
  {
    if alloc.taskName !in pc.processConfigs then
      Err("panic: nil process config for group " + alloc.taskName)
    else
      var proc := pc.processConfigs[alloc.taskName];
      var meta := DefaultMachineMetadata(pc.releaseId, pc.releaseVersion, pc.isPostgres);
      Ok(LaunchInput(
        pc.appName, pc.orgId, alloc.region,
        MachineConfig(
          pc.guest,
          meta[MetaProcessGroup := alloc.taskName],
          pc.img,
          MachineEnv(pc.config),
          pc.config.metrics,
          pc.config.statics,
          if |alloc.attachedVolumes| == 1 then [MachineMount(pc.volumeDestination, alloc.attachedVolumes[0])] else [],
          proc.services,
          proc.checks,
          if |proc.cmd| > 0 then Some(proc.cmd) else None)))
  }

  /** What one launch input holds, field by field. */
  ghost predicate IsLaunchFor(pc: PlanContext, alloc: Alloc, li: LaunchInput)
  {
    && alloc.taskName in pc.processConfigs
    && li.appId == pc.appName && li.orgSlug == pc.orgId
    && li.region == alloc.region
    && li.config.image == pc.img
    && li.config.guest == pc.guest
    && MetaProcessGroup in li.config.metadata && li.config.metadata[MetaProcessGroup] == alloc.taskName
    && MetaReleaseId in li.config.metadata && li.config.metadata[MetaReleaseId] == pc.releaseId
    && MetaReleaseVersion in li.config.metadata && li.config.metadata[MetaReleaseVersion] == Itoa(pc.releaseVersion)
    && MetaPlatformVersion in li.config.metadata && li.config.metadata[MetaPlatformVersion] == PlatformV2
    && (MetaManagedPostgres in li.config.metadata <==> pc.isPostgres)
    && (pc.isPostgres ==> li.config.metadata[MetaManagedPostgres] == "true")
    && li.config.metadata.Keys == {MetaPlatformVersion, MetaReleaseId, MetaReleaseVersion, MetaProcessGroup}
                                  + (if pc.isPostgres then {MetaManagedPostgres} else {})
    && (PrimaryRegionEnv in li.config.env <==> pc.config.primaryRegion != "" || PrimaryRegionEnv in pc.config.env)
    && (pc.config.primaryRegion != "" ==> li.config.env[PrimaryRegionEnv] == pc.config.primaryRegion)
    && (forall k :: k in pc.config.env && k != PrimaryRegionEnv ==> k in li.config.env && li.config.env[k] == pc.config.env[k])
    && li.config.env.Keys == pc.config.env.Keys + (if pc.config.primaryRegion != "" then {PrimaryRegionEnv} else {})
    && li.config.metrics == pc.config.metrics
    && li.config.statics == pc.config.statics
    && (|li.config.mounts| == 1 <==> |alloc.attachedVolumes| == 1)
    && (|li.config.mounts| == 1 ==> li.config.mounts[0] == MachineMount(pc.volumeDestination, alloc.attachedVolumes[0]))
    && li.config.services == pc.processConfigs[alloc.taskName].services
    && li.config.checks == pc.processConfigs[alloc.taskName].checks
    && (li.config.initCmd.None? <==> |pc.processConfigs[alloc.taskName].cmd| == 0)
    && (li.config.initCmd.Some? ==> li.config.initCmd.value == pc.processConfigs[alloc.taskName].cmd)
  }

  lemma ResolveMachineFromAllocFields(pc: PlanContext, alloc: Alloc)
    ensures ResolveMachineFromAlloc(pc, alloc).Ok? <==> alloc.taskName in pc.processConfigs
    ensures ResolveMachineFromAlloc(pc, alloc).Ok? ==> IsLaunchFor(pc, alloc, ResolveMachineFromAlloc(pc, alloc).value)
  {
  }

  /** `resolveMachinesFromAllocs` as a specification: one launch input per allocation, in order. */
  function Plan(pc: PlanContext, allocs: seq<Alloc>): Result<seq<LaunchInput>>
  {
    if |allocs| == 0 then Ok([])
    else match ResolveMachineFromAlloc(pc, allocs[0])
      case Err(e) => Err(e)
      case Ok(li) =>
        match Plan(pc, allocs[1..])
        case Err(e) => Err(e)
        case Ok(rest) => Ok([li] + rest)
  }

  /** The plan exists iff every allocation's group is known, and then it is 1:1 with the allocations. */
  lemma {:induction false} PlanShape(pc: PlanContext, allocs: seq<Alloc>)
    ensures Plan(pc, allocs).Ok? <==> forall j :: 0 <= j < |allocs| ==> allocs[j].taskName in pc.processConfigs
    ensures Plan(pc, allocs).Ok? ==>
      && |Plan(pc, allocs).value| == |allocs|
      && forall j :: 0 <= j < |allocs| ==> Plan(pc, allocs).value[j] == ResolveMachineFromAlloc(pc, allocs[j]).value
  {
    if |allocs| > 0 {
      PlanShape(pc, allocs[1..]);
      assert forall j :: 1 <= j < |allocs| ==> allocs[j] == allocs[1..][j - 1];
    }
  }

  /** `xs` in front of a successful plan; an error stays as it is. */
  function Prepend(xs: seq<LaunchInput>, r: Result<seq<LaunchInput>>): Result<seq<LaunchInput>>
  {
    match r
    case Err(e) => Err(e)
    case Ok(rest) => Ok(xs + rest)
  }

  /** One step of the planning loop: the first unresolved allocation either fails the plan or extends its prefix. */
  lemma PlanStep(pc: PlanContext, allocs: seq<Alloc>, i: nat, res: seq<LaunchInput>)
    requires i < |allocs|
    ensures ResolveMachineFromAlloc(pc, allocs[i]).Err? ==>
      Prepend(res, Plan(pc, allocs[i..])) == Err(ResolveMachineFromAlloc(pc, allocs[i]).msg)
    ensures ResolveMachineFromAlloc(pc, allocs[i]).Ok? ==>
      Prepend(res, Plan(pc, allocs[i..])) == Prepend(res + [ResolveMachineFromAlloc(pc, allocs[i]).value], Plan(pc, allocs[i + 1..]))
  {
    assert allocs[i..][0] == allocs[i];
    assert allocs[i..][1..] == allocs[i + 1..];
    var mach := ResolveMachineFromAlloc(pc, allocs[i]);
    if mach.Ok? && Plan(pc, allocs[i + 1..]).Ok? {
      var rest := Plan(pc, allocs[i + 1..]).value;
      assert res + ([mach.value] + rest) == (res + [mach.value]) + rest;
    }
  }

  /**
   * `resolveMachinesFromAllocs`: the loop that appends one launch input per
   * allocation and stops at the first one that cannot be resolved.
   */
  method ResolveMachinesFromAllocs(pc: PlanContext, allocs: seq<Alloc>) returns (r: Result<seq<LaunchInput>>)
    ensures r == Plan(pc, allocs)
  {
    var res: seq<LaunchInput> := [];
    var i := 0;
    assert allocs[0..] == allocs;
    if Plan(pc, allocs).Ok? {
      assert [] + Plan(pc, allocs).value == Plan(pc, allocs).value;
    }
    while i < |allocs|
      invariant 0 <= i <= |allocs|
      invariant Plan(pc, allocs) == Prepend(res, Plan(pc, allocs[i..]))
    {
      var mach := ResolveMachineFromAlloc(pc, allocs[i]);
      PlanStep(pc, allocs, i, res);
      if mach.Err? {
        return Err(mach.msg);
      }
      res := res + [mach.value];
      i := i + 1;
    }
    assert allocs[i..] == [];
    assert res + [] == res;
    return Ok(res);
  }

  // ----- Per-process-group counts -----

  /** How many allocations run in process group `g`. */
  function CountOf(allocs: seq<Alloc>, g: string): (n: nat)
    ensures n <= |allocs|
  {
    if |allocs| == 0 then 0
    else CountOf(allocs[..|allocs| - 1], g) + (if allocs[|allocs| - 1].taskName == g then 1 else 0)
  }

  function TaskNames(allocs: seq<Alloc>): set<string>
  {
    set a | a in allocs :: a.taskName
  }

  /** `oldVmCounts` as a specification, built as the allocations are listed. */
  function VmCounts(allocs: seq<Alloc>): map<string, int>
  {
    if |allocs| == 0 then map[]
    else
      var m := VmCounts(allocs[..|allocs| - 1]);
      var t := allocs[|allocs| - 1].taskName;
      m[t := (if t in m then m[t] else 0) + 1]
  }

  /** `oldVmCounts` holds exactly the groups that have allocations, each with its number of allocations. */
  lemma {:induction false} VmCountsMeaning(allocs: seq<Alloc>)
    ensures VmCounts(allocs).Keys == TaskNames(allocs)
    ensures forall g :: g in VmCounts(allocs) ==> VmCounts(allocs)[g] == CountOf(allocs, g)
  {
    if |allocs| > 0 {
      var init := allocs[..|allocs| - 1];
      var a := allocs[|allocs| - 1];
      VmCountsMeaning(init);
      assert allocs == init + [a];
      TaskNamesSnoc(init, a);
      if a.taskName !in TaskNames(init) {
        CountOfAbsent(init, a.taskName);
      }
    }
  }

  lemma TaskNamesSnoc(xs: seq<Alloc>, a: Alloc)
    ensures TaskNames(xs + [a]) == TaskNames(xs) + {a.taskName}
  {
    var ys := xs + [a];
    forall n | n in TaskNames(ys) ensures n in TaskNames(xs) + {a.taskName} {
      var b :| b in ys && b.taskName == n;
      if b != a { assert b in xs; }
    }
    forall n | n in TaskNames(xs) ensures n in TaskNames(ys) {
      var b :| b in xs && b.taskName == n;
      assert b in ys;
    }
    assert a in ys;
  }

  /** `resolveProcessGroups`: one increment per allocation. */
  method ResolveProcessGroups(allocs: seq<Alloc>) returns (counts: map<string, int>)
    ensures counts == VmCounts(allocs)
  {
    counts := map[];
    var i := 0;
    while i < |allocs|
      invariant 0 <= i <= |allocs|
      invariant counts == VmCounts(allocs[..i])
    {
      var t := allocs[i].taskName;
      assert allocs[..i + 1][..i] == allocs[..i];
      counts := counts[t := (if t in counts then counts[t] else 0) + 1];
      i := i + 1;
    }
    assert allocs[..i] == allocs;
  }

  lemma {:induction false} CountOfAbsent(allocs: seq<Alloc>, g: string)
    requires g !in TaskNames(allocs)
    ensures CountOf(allocs, g) == 0
  {
    if |allocs| > 0 {
      var init := allocs[..|allocs| - 1];
      assert TaskNames(init) <= TaskNames(allocs) by {
        forall t | t in TaskNames(init) ensures t in TaskNames(allocs) {
          var a :| a in init && a.taskName == t;
          assert a in allocs;
        }
      }
      assert allocs[|allocs| - 1] in allocs;
      CountOfAbsent(init, g);
    }
  }

  lemma {:induction false} CountOfPositive(allocs: seq<Alloc>, g: string)
    requires g in TaskNames(allocs)
    ensures CountOf(allocs, g) >= 1
  {
    var init := allocs[..|allocs| - 1];
    if allocs[|allocs| - 1].taskName != g {
      var a :| a in allocs && a.taskName == g;
      var k :| 0 <= k < |allocs| && allocs[k] == a;
      assert init[k] == a;
      CountOfPositive(init, g);
    }
  }

  /** The sum of a map's values. */
  ghost function SumValues(m: map<string, int>): int
    decreases |m|
  {
    if |m| == 0 then 0
    else var k := Pick(m); m[k] + SumValues(m - {k})
  }

  ghost function Pick(m: map<string, int>): (k: string)
    requires |m| > 0
    ensures k in m
  {
    var k :| k in m; k
  }

  lemma {:induction false} SumValuesRemove(m: map<string, int>, k: string)
    requires k in m
    ensures SumValues(m) == m[k] + SumValues(m - {k})
    decreases |m|
  {
    var k' := Pick(m);
    assert (m - {k'}).Keys == m.Keys - {k'};
    if k' != k {
      assert (m - {k'}) - {k} == (m - {k}) - {k'};
      assert (m - {k}).Keys == m.Keys - {k};
      SumValuesRemove(m - {k'}, k);
      SumValuesRemove(m - {k}, k');
    }
  }

  /** Every group in `oldVmCounts` has at least one allocation. */
  lemma VmCountsPositive(allocs: seq<Alloc>)
    ensures forall g :: g in VmCounts(allocs) ==> VmCounts(allocs)[g] >= 1
  {
    VmCountsMeaning(allocs);
    forall g | g in VmCounts(allocs) ensures VmCounts(allocs)[g] >= 1 {
      CountOfPositive(allocs, g);
    }
  }

  /** The counts in `oldVmCounts` add up to the number of allocations. */
  lemma {:induction false} VmCountsTotal(allocs: seq<Alloc>)
    ensures SumValues(VmCounts(allocs)) == |allocs|
  {
    if |allocs| > 0 {
      var init := allocs[..|allocs| - 1];
      var a := allocs[|allocs| - 1];
      VmCountsTotal(init);
      SumValuesUpdate(VmCounts(init), a.taskName);
    }
  }

  /** Adding one to a key's value (0 when absent) adds one to the sum. */
  lemma SumValuesUpdate(m: map<string, int>, t: string)
    ensures SumValues(m[t := (if t in m then m[t] else 0) + 1]) == SumValues(m) + 1
  {
    var v := (if t in m then m[t] else 0) + 1;
    SumValuesSet(m, t, v);
    if t in m {
      SumValuesRemove(m, t);
    } else {
      assert m - {t} == m;
    }
  }

  lemma SumValuesSet(m: map<string, int>, t: string, v: int)
    ensures SumValues(m[t := v]) == v + SumValues(m - {t})
  {
    var m' := m[t := v];
    assert m' - {t} == m - {t};
    SumValuesRemove(m', t);
  }

  // ----- Construction -----

  /** The migrator as construction leaves it: the fields the migration reads and never changes. */
  datatype Setup = Setup(
    appName: string,           // appCompact.Name / appFull.Name
    configAppName: string,     // appConfig.AppName, the AppId of the GraphQL mutations
    img: string,
    config: AppConfig,
    oldAllocs: seq<Alloc>,
    oldVmCounts: map<string, int>,
    launchInputs: seq<LaunchInput>,
    canAvoidDowntime: bool,
    configPath: string,
    initialPlatform: string,
    pollBudget: nat)           // how many allocation polls fit in the one-hour wait

  /** The launch-input context at construction: no release exists yet, so the release fields are still zero. */
  function PlanContextOf(snap: Snapshot, guest: Guest, config: AppConfig): PlanContext
  {
    PlanContext(snap.appName, snap.orgId, snap.isPostgres, "", 0, guest, snap.img, config,
                snap.volumeDestination, snap.processConfigs)
  }

  /**
   * `NewV2PlatformMigrator` after its fetches: refuse an app already on
   * machines, translate the VM size, validate, choose the primary region,
   * derive the launch inputs, resolve the config path and count the groups.
   */
  function NewSetup(snap: Snapshot, presets: map<string, Guest>, prompted: Result<Option<string>>,
                    configPath: Result<string>, pollBudget: nat): Result<Setup>
  {
    if snap.platformVersion == "machines" then
      Err("the app '" + snap.appName + "' is already on the apps v2 platform")
    else match DetermineVmSpecs(snap.vmSize, presets)
      case Err(e) => Err(e)
      case Ok(guest) =>
        if Validate(snap).Some? then Err(Validate(snap).value)
        else match DeterminePrimaryRegion(snap.config, prompted)
          case Err(e) => Err(e)
          case Ok(config) =>
            match Plan(PlanContextOf(snap, guest, config), snap.allocs)
            case Err(e) => Err(e)
            case Ok(inputs) =>
              match configPath
              case Err(e) => Err(e)
              case Ok(path) =>
                Ok(Setup(snap.appName, snap.config.appName, snap.img, config, snap.allocs,
                         VmCounts(snap.allocs), inputs, true, path, snap.platformVersion, pollBudget))
  }

  /**
   * A constructed migrator: not already on machines, one launch input per
   * allocation with the allocation's region and group, counts per group,
   * and the plan's release metadata still empty ("" and "0").
   */
  lemma NewSetupProperties(snap: Snapshot, presets: map<string, Guest>, prompted: Result<Option<string>>,
                           configPath: Result<string>, pollBudget: nat)
    requires NewSetup(snap, presets, prompted, configPath, pollBudget).Ok?
    ensures var su := NewSetup(snap, presets, prompted, configPath, pollBudget).value;
      && snap.platformVersion != "machines"
      && su.oldAllocs == snap.allocs
      && su.oldVmCounts == VmCounts(snap.allocs)
      && |su.launchInputs| == |snap.allocs|
      && (forall j :: 0 <= j < |snap.allocs| ==>
            && su.launchInputs[j].region == snap.allocs[j].region
            && MetaProcessGroup in su.launchInputs[j].config.metadata
            && MetaReleaseId in su.launchInputs[j].config.metadata
            && MetaReleaseVersion in su.launchInputs[j].config.metadata
            && su.launchInputs[j].config.metadata[MetaProcessGroup] == snap.allocs[j].taskName
            && su.launchInputs[j].config.metadata[MetaReleaseId] == ""
            && su.launchInputs[j].config.metadata[MetaReleaseVersion] == "0")
  {
    var guest := DetermineVmSpecs(snap.vmSize, presets).value;
    var config := DeterminePrimaryRegion(snap.config, prompted).value;
    var pc := PlanContextOf(snap, guest, config);
    assert NewSetup(snap, presets, prompted, configPath, pollBudget).value.launchInputs == Plan(pc, snap.allocs).value;
    PlanBeforeRelease(pc, snap.allocs);
  }

  /** A plan made before any release exists carries an empty release id and release version "0". */
  lemma PlanBeforeRelease(pc: PlanContext, allocs: seq<Alloc>)
    requires pc.releaseId == "" && pc.releaseVersion == 0
    requires Plan(pc, allocs).Ok?
    ensures |Plan(pc, allocs).value| == |allocs|
    ensures forall j :: 0 <= j < |allocs| ==>
      var md := Plan(pc, allocs).value[j].config.metadata;
      && Plan(pc, allocs).value[j].region == allocs[j].region
      && MetaProcessGroup in md && MetaReleaseId in md && MetaReleaseVersion in md
      && md[MetaProcessGroup] == allocs[j].taskName && md[MetaReleaseId] == "" && md[MetaReleaseVersion] == "0"
  {
    PlanShape(pc, allocs);
    assert Itoa(0) == "0";
    forall j | 0 <= j < |allocs| ensures IsLaunchFor(pc, allocs[j], Plan(pc, allocs).value[j]) {
      ResolveMachineFromAllocFields(pc, allocs[j]);
    }
  }

  /**
   * With autoscaling disabled, a snapshot that passes validation always has a
   * plan: the nil process-config panic is only reachable with autoscaling on.
   */
  lemma ValidatedPlanExists(snap: Snapshot, guest: Guest, config: AppConfig)
    requires !snap.autoscaleEnabled && Validate(snap).None?
    ensures Plan(PlanContextOf(snap, guest, config), snap.allocs).Ok?
  {
    ValidateRejects(snap);
    PlanShape(PlanContextOf(snap, guest, config), snap.allocs);
  }

  /** With autoscaling on, an allocation in an unknown group passes validation and then panics in planning. */
  lemma AutoscalingUnknownGroupPanics(snap: Snapshot, guest: Guest, config: AppConfig, j: nat)
    requires snap.autoscaleEnabled && snap.configInvalid.None?
    requires j < |snap.allocs| && snap.allocs[j].taskName !in snap.processConfigs
    ensures Validate(snap).None?
    ensures Plan(PlanContextOf(snap, guest, config), snap.allocs).Err?
  {
    PlanShape(PlanContextOf(snap, guest, config), snap.allocs);
  }
}
