/**
 * The migration itself: a fixed sequence of remote steps against a locked
 * app, with abort checkpoints between them, a recovery ledger written only
 * after a step succeeds, and a rollback driven by that ledger.
 *
 * Every remote call goes through a `World`: the reply to a call is a
 * function of the calls issued before it and of the call itself. The calls
 * issued so far are part of the state, so "what was asked of the platform"
 * can be stated and proved.
 */
module MigrateToV2 {
  import opened Common
  import opened MigratePlan

  datatype Machine = Machine(id: string)

  /** The remote calls the migration issues (GraphQL mutations, machines API, deployment, disk). */
  datatype Call =
    | LockApp(appId: string)
    | SetNomadVmCount(appId: string, counts: map<string, int>, lockId: string)
    | GetAllocations(appName: string)
    | SetPlatformVersion(appId: string, version: string, lockId: string)
    | CreateRelease(appId: string, platform: string, image: string, definition: AppConfig)
    | Launch(input: LaunchInput)
    | ListActive(appName: string)
    | AcquireLeases(machineIds: seq<string>)
    | StartLeaseRefresh(machineIds: seq<string>)
    | ReleaseLeases(machineIds: seq<string>)
    | UnlockApp(appId: string, lockId: string)
    | NewMachineDeployment(appName: string)
    | DeployMachinesApp(appName: string)
    | WriteConfig(path: string)
    | Destroy(appId: string, machineId: string, kill: bool)
    | ResumeApp(appName: string)

  /** A reply: success with an id and a number (lock id, release id and version, machine id, allocation count), or an error. */
  datatype Reply = Done(id: string, n: int) | Refused(msg: string)

  type World = (seq<Call>, Call) -> Reply

  datatype MigErr = Aborted | Failure(msg: string)

  /** The text an error prints as. */
  function ErrText(e: MigErr): string
  {
    match e
    case Aborted => AbortedMsg
    case Failure(m) => m
  }

  const AbortedMsg := "migration aborted by user"
  const TimeoutMsg := "nomad allocs never reached zero, timed out"

  /** `recoveryState` */
  datatype Recovery = Recovery(
    machinesCreated: seq<Machine>,
    appLocked: bool,
    scaledToZero: bool,
    platformVersion: string,
    onlyPromptToConfigSave: bool)

  /** The migrator's mutable fields, the calls issued so far, and the lines written to the error stream. */
  datatype MState = MState(
    appLock: string,
    releaseId: string,
    releaseVersion: int,
    newMachines: seq<Machine>,
    recovery: Recovery,
    calls: seq<Call>,
    errOut: seq<string>)

  datatype Outcome = Outcome(s: MState, err: Option<MigErr>)

  /** The state `NewV2PlatformMigrator` leaves: nothing locked, created or scaled. */
  function Initial(su: Setup): MState
  {
    MState("", "", 0, [], Recovery([], false, false, su.initialPlatform, false), [], [])
  }

  function Log(s: MState, c: Call): MState
  {
    s.(calls := s.calls + [c])
  }

  /** The ids of the machines, in order. */
  function Ids(ms: seq<Machine>): (r: seq<string>)
    ensures |r| == |ms|
  {
    seq(|ms|, i requires 0 <= i < |ms| => ms[i].id)
  }

  // ----- One function per remote step -----

  /** A call whose only effect on the migrator is its error. */
  function Simple(w: World, s: MState, c: Call): Outcome
  {
    var r := w(s.calls, c);
    if r.Refused? then Outcome(Log(s, c), Some(Failure(r.msg))) else Outcome(Log(s, c), None)
  }

  /** `lockAppForMigration`: the lock is recorded only once the mutation succeeded. */
  function Lock(su: Setup, w: World, s: MState): Outcome
  {
    var c := LockApp(su.configAppName);
    var r := w(s.calls, c);
    if r.Refused? then Outcome(Log(s, c), Some(Failure(r.msg)))
    else Outcome(Log(s, c).(appLock := r.id, recovery := s.recovery.(appLocked := true)), None)
  }

  /** `unlockApp` */
  function Unlock(su: Setup, w: World, s: MState): Outcome
  {
    var c := UnlockApp(su.configAppName, s.appLock);
    var r := w(s.calls, c);
    if r.Refused? then Outcome(Log(s, c), Some(Failure(r.msg)))
    else Outcome(Log(s, c).(recovery := s.recovery.(appLocked := false)), None)
  }

  /** `updateAppPlatformVersion` */
  function SetPlatform(su: Setup, w: World, s: MState, v: string): Outcome
  {
    var c := SetPlatformVersion(su.configAppName, v, s.appLock);
    var r := w(s.calls, c);
    if r.Refused? then Outcome(Log(s, c), Some(Failure(r.msg)))
    else Outcome(Log(s, c).(recovery := s.recovery.(platformVersion := v)), None)
  }

  /** `createRelease`: a release on the "machines" platform with the current image. */
  function MakeRelease(su: Setup, w: World, s: MState): Outcome
  {
    var c := CreateRelease(su.configAppName, "machines", su.img, su.config);
    var r := w(s.calls, c);
    if r.Refused? then Outcome(Log(s, c), Some(Failure(r.msg)))
    else Outcome(Log(s, c).(releaseId := r.id, releaseVersion := r.n), None)
  }

  /** The scale-down request: every process group of `oldVmCounts`, with count zero. */
  function ZeroCounts(counts: map<string, int>): (r: map<string, int>)
    ensures r.Keys == counts.Keys
    ensures forall g :: g in r ==> r[g] == 0
  {
    map g | g in counts :: 0
  }

  /**
   * `waitForAllocsZero`: poll the allocations until there are none. The hour
   * the source waits is `budget` polls here; when it is spent, the wait
   * times out.
   */
  function AwaitZero(su: Setup, w: World, s: MState, budget: nat): (r: Outcome)
    decreases budget
  {
    if budget == 0 then Outcome(s, Some(Failure(TimeoutMsg)))
    else
      var c := GetAllocations(su.appName);
      var r := w(s.calls, c);
      if r.Refused? then Outcome(Log(s, c), Some(Failure(r.msg)))
      else if r.n == 0 then Outcome(Log(s, c), None)
      else
        AwaitZero(su, w, Log(s, c), budget - 1)
  }

  function Polls(appName: string, n: nat): (r: seq<Call>)
    ensures |r| == n
  {
    if n == 0 then [] else [GetAllocations(appName)] + Polls(appName, n - 1)
  }

  /**
   * `scaleNomadToZero`: ask for zero VMs in every group (only when there are
   * groups), wait for the allocations to drain, and only then record it.
   */
  function ScaleDown(su: Setup, w: World, s: MState): Outcome
  {
    var o := if |su.oldVmCounts| > 0
             then Simple(w, s, SetNomadVmCount(su.configAppName, ZeroCounts(su.oldVmCounts), s.appLock))
             else Outcome(s, None);
    if o.err.Some? then o
    else
      var o2 := AwaitZero(su, w, o.s, su.pollBudget);
      if o2.err.Some? then o2
      else Outcome(o2.s.(recovery := o2.s.recovery.(scaledToZero := true)), None)
  }

  /** A launch per input, each followed by the listing of the active machines. */
  function LaunchCalls(appName: string, inputs: seq<LaunchInput>): (r: seq<Call>)
    ensures |r| == 2 * |inputs|
  {
    if |inputs| == 0 then [] else [Launch(inputs[0]), ListActive(appName)] + LaunchCalls(appName, inputs[1..])
  }

  /**
   * `createMachines` from input `i` on, with the machines already created in
   * `created`: one launch per input, in order, stopping at the first failure.
   * Every launch, failed or not, is followed by a listing of the active
   * machines, whose answer is only printed.
   * The machines created so far are recorded whether or not a launch failed;
   * `newMachines` is set only when all of them were created.
   */
  function LaunchFrom(su: Setup, w: World, s: MState, i: nat, created: seq<Machine>): (r: Outcome)
    requires i <= |su.launchInputs|
    decreases |su.launchInputs| - i
  {
    if i == |su.launchInputs| then
      Outcome(s.(newMachines := created, recovery := s.recovery.(machinesCreated := created)), None)
    else
      var inp := su.launchInputs[i];
      var c := Launch(inp);
      var r := w(s.calls, c);
      var s' := Log(Log(s, c), ListActive(su.appName));
      if r.Refused? then
        Outcome(s'.(recovery := s.recovery.(machinesCreated := created)),
                Some(Failure("failed creating a machine in region " + inp.region + ": " + r.msg)))
      else
        LaunchFrom(su, w, s', i + 1, created + [Machine(r.id)])
  }

  /** `deployApp`: a failure to set up the deployment is an error; a failed deployment is not. */
  function Deploy(su: Setup, w: World, s: MState): Outcome
  {
    var c := NewMachineDeployment(su.appName);
    var r := w(s.calls, c);
    if r.Refused? then Outcome(Log(s, c), Some(Failure(r.msg)))
    else Outcome(Log(Log(s, c), DeployMachinesApp(su.appName)), None)
  }

  // ----- The forward path -----

  /** The points at which `Migrate` reads the abort flag. */
  datatype Checkpoint =
    AfterLock | AfterEarlyScale | AfterDetach | AfterRelease | AfterCreate | AfterLeases | AfterUnlock | AfterDeploy | AfterLateScale

  datatype Op =
    | OpLock | OpScaleDown | OpDetach | OpRelease | OpCreate | OpAcquireLeases | OpRefreshLeases
    | OpUnlock | OpReleaseLeases | OpDeploy | OpSwitch | OpNoReturn | OpWriteConfig
    | OpCheckpoint(cp: Checkpoint)

  /** Before the machines are created. Without the zero-downtime path, Nomad is scaled down first. */
  function Front(canAvoidDowntime: bool): seq<Op>
  {
    LockSteps(canAvoidDowntime) + DetachSteps
  }

  /** Lock the app; without a zero-downtime path, scale Nomad down right away. */
  function LockSteps(canAvoidDowntime: bool): seq<Op>
  {
    [OpLock, OpCheckpoint(AfterLock)]
    + (if canAvoidDowntime then [] else [OpScaleDown])
    + [OpCheckpoint(AfterEarlyScale)]
  }

  const DetachSteps: seq<Op> := [OpDetach, OpCheckpoint(AfterDetach), OpRelease, OpCheckpoint(AfterRelease)]

  /** After the machines are created, up to the platform switch. On the zero-downtime path Nomad is scaled down last. */
  function Back(canAvoidDowntime: bool): seq<Op>
  {
    LeaseSteps + UnlockSteps + DeploySteps + LateSteps(canAvoidDowntime)
  }

  const LeaseSteps: seq<Op> := [OpCheckpoint(AfterCreate), OpAcquireLeases, OpCheckpoint(AfterLeases), OpRefreshLeases]

  const UnlockSteps: seq<Op> := [OpUnlock, OpCheckpoint(AfterUnlock), OpReleaseLeases]

  const DeploySteps: seq<Op> := [OpDeploy, OpCheckpoint(AfterDeploy)]

  function LateSteps(canAvoidDowntime: bool): seq<Op>
  {
    if canAvoidDowntime then [OpScaleDown, OpCheckpoint(AfterLateScale)] else []
  }

  /** Switch the platform to "machines", pass the point of no return, save the configuration. */
  const Tail: seq<Op> := [OpSwitch, OpNoReturn, OpWriteConfig]

  /** The steps of `Migrate`, in the order the source takes them. */
  function Script(canAvoidDowntime: bool): seq<Op>
  {
    Front(canAvoidDowntime) + [OpCreate] + Back(canAvoidDowntime) + Tail
  }

  function Exec(su: Setup, w: World, aborts: set<Checkpoint>, op: Op, s: MState): Outcome
  {
    match op
    case OpLock => Lock(su, w, s)
    case OpScaleDown => ScaleDown(su, w, s)
    case OpDetach => SetPlatform(su, w, s, "detached")
    case OpRelease => MakeRelease(su, w, s)
    case OpCreate => LaunchFrom(su, w, s, 0, [])
    case OpAcquireLeases => Simple(w, s, AcquireLeases(Ids(s.newMachines)))
    case OpRefreshLeases => Outcome(Log(s, StartLeaseRefresh(Ids(s.newMachines))), None)
    case OpUnlock => Unlock(su, w, s)
    case OpReleaseLeases => Outcome(Log(s, ReleaseLeases(Ids(s.newMachines))), None)
    case OpDeploy => Deploy(su, w, s)
    case OpSwitch => SetPlatform(su, w, s, "machines")
    case OpNoReturn => Outcome(s.(recovery := s.recovery.(onlyPromptToConfigSave := true)), None)
    case OpWriteConfig => Simple(w, s, WriteConfig(su.configPath))
    case OpCheckpoint(cp) => Outcome(s, if cp in aborts then Some(Aborted) else None)
  }

  /** The state a run of steps ends in, its error, and whether the deferred lease release was registered. */
  datatype RunOutcome = RunOutcome(s: MState, err: Option<MigErr>, leasesDeferred: bool)

  /** Take the steps in order and stop at the first error. */
  function Run(su: Setup, w: World, aborts: set<Checkpoint>, ops: seq<Op>, s: MState, deferred: bool): RunOutcome
    decreases |ops|
  {
    if |ops| == 0 then RunOutcome(s, None, deferred)
    else
      var o := Exec(su, w, aborts, ops[0], s);
      var d := deferred || ops[0] == OpAcquireLeases;
      if o.err.Some? then RunOutcome(o.s, o.err, d) else Run(su, w, aborts, ops[1..], o.s, d)
  }

  /** The deferred lease release: its error is only reported. */
  function DeferredRelease(w: World, s: MState): MState
  {
    var c := ReleaseLeases(Ids(s.newMachines));
    var r := w(s.calls, c);
    if r.Refused? then Log(s, c).(errOut := s.errOut + ["error releasing leases on machines: " + r.msg]) else Log(s, c)
  }

  /** A run of `[op] + rest` takes `op`, then `rest` unless `op` failed. */
  lemma RunCons(su: Setup, w: World, aborts: set<Checkpoint>, op: Op, rest: seq<Op>, s: MState, d: bool)
    ensures var o := Exec(su, w, aborts, op, s); var d' := d || op == OpAcquireLeases;
      Run(su, w, aborts, [op] + rest, s, d) ==
        if o.err.Some? then RunOutcome(o.s, o.err, d') else Run(su, w, aborts, rest, o.s, d')
  {
    assert ([op] + rest)[0] == op && ([op] + rest)[1..] == rest;
  }

  /** The rest of a run: the steps `ops`, unless the run so far stopped on an error. */
  function Then(su: Setup, w: World, aborts: set<Checkpoint>, ro: RunOutcome, ops: seq<Op>): RunOutcome
  {
    if ro.err.Some? then ro else Run(su, w, aborts, ops, ro.s, ro.leasesDeferred)
  }

  /** Running `a + b` is running `a`, then `b` unless `a` stopped on an error. */
  lemma {:induction false} RunAppend(su: Setup, w: World, aborts: set<Checkpoint>, a: seq<Op>, b: seq<Op>, s: MState, d: bool)
    ensures Run(su, w, aborts, a + b, s, d) == Then(su, w, aborts, Run(su, w, aborts, a, s, d), b)
    decreases |a|
  {
    if |a| == 0 {
      assert a + b == b;
    } else {
      assert (a + b)[0] == a[0];
      assert (a + b)[1..] == a[1..] + b;
      var o := Exec(su, w, aborts, a[0], s);
      if o.err.None? {
        RunAppend(su, w, aborts, a[1..], b, o.s, d || a[0] == OpAcquireLeases);
      }
    }
  }

  /** The forward path, phase by phase. */
  lemma ForwardPhases(su: Setup, w: World, aborts: set<Checkpoint>, s0: MState)
    ensures var c := su.canAvoidDowntime;
      Forward(su, w, aborts, s0) ==
        Then(su, w, aborts, Then(su, w, aborts, Then(su, w, aborts, Then(su, w, aborts, Then(su, w, aborts, Then(su, w, aborts,
          Then(su, w, aborts, Run(su, w, aborts, LockSteps(c), Started(su, s0), false), DetachSteps),
          [OpCreate]), LeaseSteps), UnlockSteps), DeploySteps), LateSteps(c)), Tail)
  {
    var c := su.canAvoidDowntime;
    var st := Started(su, s0);
    RunAppend(su, w, aborts, LockSteps(c), DetachSteps, st, false);
    var p1 := Front(c) + [OpCreate];
    var p2 := p1 + LeaseSteps;
    var p3 := p2 + UnlockSteps;
    var p4 := p3 + DeploySteps;
    var p5 := p4 + LateSteps(c);
    assert Script(c) == p5 + Tail;
    RunAppend(su, w, aborts, p5, Tail, st, false);
    RunAppend(su, w, aborts, p4, LateSteps(c), st, false);
    RunAppend(su, w, aborts, p3, DeploySteps, st, false);
    RunAppend(su, w, aborts, p2, UnlockSteps, st, false);
    RunAppend(su, w, aborts, p1, LeaseSteps, st, false);
    RunAppend(su, w, aborts, Front(c), [OpCreate], st, false);
  }

  // ----- Rollback -----

  function DestroyCalls(appName: string, ms: seq<Machine>): (r: seq<Call>)
    ensures |r| == |ms|
  {
    if |ms| == 0 then [] else [Destroy(appName, ms[0].id, true)] + DestroyCalls(appName, ms[1..])
  }

  /** Destroy the created machines from `i` on, in order, stopping at the first failure. */
  function DestroyFrom(su: Setup, w: World, s: MState, ms: seq<Machine>, i: nat): (r: Outcome)
    requires i <= |ms|
    decreases |ms| - i
  {
    if i == |ms| then Outcome(s, None)
    else
      var c := Destroy(su.appName, ms[i].id, true);
      var r := w(s.calls, c);
      if r.Refused? then Outcome(Log(s, c), Some(Failure(r.msg)))
      else
        DestroyFrom(su, w, Log(s, c), ms, i + 1)
  }

  /** Restore the Nomad VM counts, with the lock id only while the app is still locked. */
  function Restore(su: Setup, w: World, s: MState): Outcome
  {
    Simple(w, s, SetNomadVmCount(su.configAppName, su.oldVmCounts, if s.recovery.appLocked then s.appLock else ""))
  }

  /** After the machines are gone: set the platform back to "nomad" unless it is, then restore Nomad if it was scaled down. */
  function RestoreNomad(su: Setup, w: World, s: MState): Outcome
  {
    var p := if s.recovery.platformVersion != "nomad" then SetPlatform(su, w, s, "nomad") else Outcome(s, None);
    if p.err.Some? then p
    else if p.s.recovery.scaledToZero && |su.oldAllocs| > 0 then Restore(su, w, p.s)
    else p
  }

  /** The body of `rollback`: destroy, set the platform back to "nomad", restore Nomad; the first failure stops it. */
  function RevertBody(su: Setup, w: World, s: MState): Outcome
  {
    var d := DestroyFrom(su, w, s, s.recovery.machinesCreated, 0);
    if d.err.Some? then d else RestoreNomad(su, w, d.s)
  }

  /** The deferred part of `rollback`: unlock if still locked, then resume the app; errors are only reported. */
  function RevertFinish(su: Setup, w: World, s: MState): MState
  {
    var s1 :=
      if s.recovery.appLocked then
        var u := Unlock(su, w, s);
        if u.err.Some? then u.s.(errOut := u.s.errOut + ["failed to unlock app: " + u.err.value.msg]) else u.s
      else s;
    var c := ResumeApp(su.appName);
    var r := w(s1.calls, c);
    if r.Refused? && !Contains(r.msg, "not suspended")
    then Log(s1, c).(errOut := s1.errOut + ["failed to unsuspend app: " + r.msg])
    else Log(s1, c)
  }

  /** `rollback` */
  function Revert(su: Setup, w: World, s: MState): Outcome
  {
    var b := RevertBody(su, w, s);
    Outcome(RevertFinish(su, w, b.s), b.err)
  }

  /** The calls of a rollback's body when every one of them succeeds. */
  function BodyPlan(su: Setup, s: MState): seq<Call>
  {
    DestroyCalls(su.appName, s.recovery.machinesCreated) + UnswitchPlan(su, s) + RestorePlan(su, s)
  }

  function UnswitchPlan(su: Setup, s: MState): seq<Call>
  {
    if s.recovery.platformVersion != "nomad" then [SetPlatformVersion(su.configAppName, "nomad", s.appLock)] else []
  }

  function RestorePlan(su: Setup, s: MState): seq<Call>
  {
    if s.recovery.scaledToZero && |su.oldAllocs| > 0
    then [SetNomadVmCount(su.configAppName, su.oldVmCounts, if s.recovery.appLocked then s.appLock else "")]
    else []
  }

  /** The calls of a rollback's deferred part. */
  function FinishPlan(su: Setup, s: MState): seq<Call>
  {
    (if s.recovery.appLocked then [UnlockApp(su.configAppName, s.appLock)] else []) + [ResumeApp(su.appName)]
  }

  // ----- Migrate -----

  const AbortHeader := "(!) Received abort signal, restoring application to stable state..."
  const ErrorHeader := "(!) An error has occurred. Attempting to rollback changes..."
  const SaveHint := ["Failed to save application config to disk, but migration was successful.",
                     "Please run `fly config save` before further interacting with your app via flyctl."]

  function Started(su: Setup, s0: MState): MState
  {
    s0.(recovery := s0.recovery.(platformVersion := su.initialPlatform))
  }

  function Forward(su: Setup, w: World, aborts: set<Checkpoint>, s0: MState): RunOutcome
  {
    Run(su, w, aborts, Script(su.canAvoidDowntime), Started(su, s0), false)
  }

  /** The state after the deferred lease release, when it was registered. */
  function AfterLeaseDefer(w: World, ro: RunOutcome): MState
  {
    if ro.leasesDeferred then DeferredRelease(w, ro.s) else ro.s
  }

  /** The deferred handler of `Migrate`: on an error, roll back unless the platform switch already happened. */
  function Recover(su: Setup, w: World, s: MState, err: MigErr): MState
  {
    if s.recovery.onlyPromptToConfigSave then s.(errOut := s.errOut + SaveHint)
    else
      var s1 := s.(errOut := s.errOut + [if err.Aborted? then AbortHeader else ErrorHeader]);
      var rb := Revert(su, w, s1);
      if rb.err.Some? then rb.s.(errOut := rb.s.errOut + ["failed while rolling back application: " + ErrText(rb.err.value)])
      else rb.s
  }

  /** `Migrate` */
  function MigrateSpec(su: Setup, w: World, aborts: set<Checkpoint>, s0: MState): Outcome
  {
    var ro := Forward(su, w, aborts, s0);
    var s1 := AfterLeaseDefer(w, ro);
    if ro.err.None? then Outcome(s1, None) else Outcome(Recover(su, w, s1, ro.err.value), ro.err)
  }

  // ----- The migrator object -----

  /**
   * `v2PlatformMigrator`: the fields the migration updates in place. The
   * platform it talks to is `world`; `calls` is what it has asked of it so far
   * and `errOut` what it has written to the error stream.
   */
  class Migrator {
    const setup: Setup
    const world: World
    var appLock: string
    var releaseId: string
    var releaseVersion: int
    var newMachines: seq<Machine>
    var recovery: Recovery
    var calls: seq<Call>
    var errOut: seq<string>

    function State(): MState
      reads this
    {
      MState(appLock, releaseId, releaseVersion, newMachines, recovery, calls, errOut)
    }

    /** What `NewV2PlatformMigrator` leaves once its inputs are resolved. */
    constructor (su: Setup, w: World)
      ensures setup == su && world == w
      ensures State() == Initial(su)
    {
      setup, world := su, w;
      appLock, releaseId, releaseVersion, newMachines := "", "", 0, [];
      recovery := Recovery([], false, false, su.initialPlatform, false);
      calls, errOut := [], [];
    }

    /** Issue one call to the platform. */
    method Request(c: Call) returns (r: Reply)
      modifies this
      ensures r == world(old(calls), c)
      ensures State() == Log(old(State()), c)
    {
      r := world(calls, c);
      calls := calls + [c];
    }

    /** Issue a call whose result the migration ignores. */
    method Notify(c: Call)
      modifies this
      ensures State() == Log(old(State()), c)
    {
      calls := calls + [c];
    }

    method LockAppForMigration() returns (err: Option<MigErr>)
      modifies this
      ensures Outcome(State(), err) == Lock(setup, world, old(State()))
    {
      var r := Request(LockApp(setup.configAppName));
      if r.Refused? {
        return Some(Failure(r.msg));
      }
      appLock := r.id;
      recovery := recovery.(appLocked := true);
      err := None;
    }

    method CreateRelease() returns (err: Option<MigErr>)
      modifies this
      ensures Outcome(State(), err) == MakeRelease(setup, world, old(State()))
    {
      var r := Request(Call.CreateRelease(setup.configAppName, "machines", setup.img, setup.config));
      if r.Refused? {
        return Some(Failure(r.msg));
      }
      releaseId, releaseVersion := r.id, r.n;
      err := None;
    }

    method ScaleNomadToZero() returns (err: Option<MigErr>)
      modifies this
      ensures Outcome(State(), err) == ScaleDown(setup, world, old(State()))
    {
      if |setup.oldVmCounts| > 0 {
        var r := Request(SetNomadVmCount(setup.configAppName, ZeroCounts(setup.oldVmCounts), appLock));
        if r.Refused? {
          return Some(Failure(r.msg));
        }
      }
      err := WaitForAllocsZero();
      if err.Some? {
        return;
      }
      recovery := recovery.(scaledToZero := true);
    }

    /** Poll until no allocation is left; `setup.pollBudget` polls stand for the hour the source waits. */
    method WaitForAllocsZero() returns (err: Option<MigErr>)
      modifies this
      ensures Outcome(State(), err) == AwaitZero(setup, world, old(State()), setup.pollBudget)
    {
      var budget := setup.pollBudget;
      while true
        invariant AwaitZero(setup, world, State(), budget) == AwaitZero(setup, world, old(State()), setup.pollBudget)
        decreases budget
      {
        if budget == 0 {
          return Some(Failure(TimeoutMsg));
        }
        var r := Request(GetAllocations(setup.appName));
        if r.Refused? {
          return Some(Failure(r.msg));
        }
        if r.n == 0 {
          return None;
        }
        budget := budget - 1;
      }
    }

    method UpdateAppPlatformVersion(platform: string) returns (err: Option<MigErr>)
      modifies this
      ensures Outcome(State(), err) == SetPlatform(setup, world, old(State()), platform)
    {
      var r := Request(SetPlatformVersion(setup.configAppName, platform, appLock));
      if r.Refused? {
        return Some(Failure(r.msg));
      }
      recovery := recovery.(platformVersion := platform);
      err := None;
    }

    /** Launch one machine per input; the machines created so far are recorded on every exit. */
    method CreateMachines() returns (err: Option<MigErr>)
      modifies this
      ensures Outcome(State(), err) == LaunchFrom(setup, world, old(State()), 0, [])
    {
      var created: seq<Machine> := [];
      var i := 0;
      while i < |setup.launchInputs|
        invariant i <= |setup.launchInputs|
        invariant LaunchFrom(setup, world, State(), i, created) == LaunchFrom(setup, world, old(State()), 0, [])
      {
        var input := setup.launchInputs[i];
        var r := Request(Launch(input));
        var listed := Request(ListActive(setup.appName));
        if r.Refused? {
          recovery := recovery.(machinesCreated := created);
          return Some(Failure("failed creating a machine in region " + input.region + ": " + r.msg));
        }
        created := created + [Machine(r.id)];
        i := i + 1;
      }
      recovery := recovery.(machinesCreated := created);
      newMachines := created;
      err := None;
    }

    method UnlockApp() returns (err: Option<MigErr>)
      modifies this
      ensures Outcome(State(), err) == Unlock(setup, world, old(State()))
    {
      var r := Request(Call.UnlockApp(setup.configAppName, appLock));
      if r.Refused? {
        return Some(Failure(r.msg));
      }
      recovery := recovery.(appLocked := false);
      err := None;
    }

    method DeployApp() returns (err: Option<MigErr>)
      modifies this
      ensures Outcome(State(), err) == Deploy(setup, world, old(State()))
    {
      var r := Request(NewMachineDeployment(setup.appName));
      if r.Refused? {
        return Some(Failure(r.msg));
      }
      var _ := Request(DeployMachinesApp(setup.appName));
      err := None;
    }

    /** The body of `rollback`: destroy the created machines, set the platform back, restore Nomad. */
    method RollbackSteps() returns (err: Option<MigErr>)
      modifies this
      ensures Outcome(State(), err) == RevertBody(setup, world, old(State()))
    {
      var ms := recovery.machinesCreated;
      var i := 0;
      while i < |ms|
        invariant i <= |ms|
        invariant recovery == old(recovery) && appLock == old(appLock)
        invariant DestroyFrom(setup, world, State(), ms, i) == DestroyFrom(setup, world, old(State()), ms, 0)
      {
        var r := Request(Destroy(setup.appName, ms[i].id, true));
        if r.Refused? {
          return Some(Failure(r.msg));
        }
        i := i + 1;
      }
      if recovery.platformVersion != "nomad" {
        err := UpdateAppPlatformVersion("nomad");
        if err.Some? {
          return;
        }
      }
      if recovery.scaledToZero && |setup.oldAllocs| > 0 {
        var r := Request(SetNomadVmCount(setup.configAppName, setup.oldVmCounts, if recovery.appLocked then appLock else ""));
        if r.Refused? {
          return Some(Failure(r.msg));
        }
      }
      err := None;
    }

    /** `rollback`: its body, then the deferred unlock and resume, whose errors are only reported. */
    method Rollback() returns (err: Option<MigErr>)
      modifies this
      ensures Outcome(State(), err) == Revert(setup, world, old(State()))
    {
      err := RollbackSteps();
      if recovery.appLocked {
        var e := UnlockApp();
        if e.Some? {
          errOut := errOut + ["failed to unlock app: " + e.value.msg];
        }
      }
      var r := Request(ResumeApp(setup.appName));
      if r.Refused? && !Contains(r.msg, "not suspended") {
        errOut := errOut + ["failed to unsuspend app: " + r.msg];
      }
    }
  
    /** The steps before the machines are created: lock, scale down unless downtime can be avoided, detach, release. */
    method StepsLock(aborts: set<Checkpoint>) returns (err: Option<MigErr>)
      modifies this
      ensures RunOutcome(State(), err, false) == Run(setup, world, aborts, LockSteps(setup.canAvoidDowntime), old(State()), false)
    {
      ghost var r3 := [OpCheckpoint(AfterEarlyScale)];
      ghost var r2 := if setup.canAvoidDowntime then r3 else [OpScaleDown] + r3;
      ghost var r1 := [OpCheckpoint(AfterLock)] + r2;
      assert LockSteps(setup.canAvoidDowntime) == [OpLock] + r1;
      ghost var goal := Run(setup, world, aborts, [OpLock] + r1, old(State()), false);
      RunCons(setup, world, aborts, OpLock, r1, State(), false);
      err := LockAppForMigration();
      if err.Some? {
        return;
      }
      RunCons(setup, world, aborts, OpCheckpoint(AfterLock), r2, State(), false);
      if AfterLock in aborts {
        return Some(Aborted);
      }
      if !setup.canAvoidDowntime {
        RunCons(setup, world, aborts, OpScaleDown, r3, State(), false);
        err := ScaleNomadToZero();
        if err.Some? {
          return;
        }
      }
      assert goal == Run(setup, world, aborts, r3, State(), false);
      RunCons(setup, world, aborts, OpCheckpoint(AfterEarlyScale), [], State(), false);
      assert r3 == [OpCheckpoint(AfterEarlyScale)] + [];
      if AfterEarlyScale in aborts {
        return Some(Aborted);
      }
    }

    /** Detach the app from Nomad and create the release the machines belong to. */
    method StepsDetach(aborts: set<Checkpoint>) returns (err: Option<MigErr>)
      modifies this
      ensures RunOutcome(State(), err, false) == Run(setup, world, aborts, DetachSteps, old(State()), false)
    {
      ghost var a := [OpDetach, OpCheckpoint(AfterDetach)];
      ghost var b := [OpRelease, OpCheckpoint(AfterRelease)];
      assert DetachSteps == a + b;
      RunAppend(setup, world, aborts, a, b, State(), false);
      err := StepDetach(aborts);
      if err.Some? {
        return;
      }
      err := StepRelease(aborts);
    }

    /** Mark the app as detached from Nomad. */
    method StepDetach(aborts: set<Checkpoint>) returns (err: Option<MigErr>)
      modifies this
      ensures RunOutcome(State(), err, false) == Run(setup, world, aborts, [OpDetach, OpCheckpoint(AfterDetach)], old(State()), false)
    {
      ghost var r := [OpCheckpoint(AfterDetach)];
      assert [OpDetach, OpCheckpoint(AfterDetach)] == [OpDetach] + r;
      RunCons(setup, world, aborts, OpDetach, r, State(), false);
      err := UpdateAppPlatformVersion("detached");
      if err.Some? {
        return;
      }
      assert r == [OpCheckpoint(AfterDetach)] + [];
      RunCons(setup, world, aborts, OpCheckpoint(AfterDetach), [], State(), false);
      if AfterDetach in aborts {
        return Some(Aborted);
      }
    }

    /** Create the release the new machines belong to. */
    method StepRelease(aborts: set<Checkpoint>) returns (err: Option<MigErr>)
      modifies this
      ensures RunOutcome(State(), err, false) == Run(setup, world, aborts, [OpRelease, OpCheckpoint(AfterRelease)], old(State()), false)
    {
      ghost var r := [OpCheckpoint(AfterRelease)];
      assert [OpRelease, OpCheckpoint(AfterRelease)] == [OpRelease] + r;
      RunCons(setup, world, aborts, OpRelease, r, State(), false);
      err := CreateRelease();
      if err.Some? {
        return;
      }
      assert r == [OpCheckpoint(AfterRelease)] + [];
      RunCons(setup, world, aborts, OpCheckpoint(AfterRelease), [], State(), false);
      if AfterRelease in aborts {
        return Some(Aborted);
      }
    }

    /** After the machines are created: take leases on them and keep the leases fresh. */
    method StepsLeases(aborts: set<Checkpoint>) returns (err: Option<MigErr>, leasesDeferred: bool)
      modifies this
      ensures RunOutcome(State(), err, leasesDeferred) == Run(setup, world, aborts, LeaseSteps, old(State()), false)
      ensures err.None? ==> leasesDeferred
    {
      ghost var r3 := [OpRefreshLeases];
      ghost var r2 := [OpCheckpoint(AfterLeases)] + r3;
      ghost var r1 := [OpAcquireLeases] + r2;
      assert LeaseSteps == [OpCheckpoint(AfterCreate)] + r1;
      leasesDeferred := false;
      RunCons(setup, world, aborts, OpCheckpoint(AfterCreate), r1, State(), false);
      if AfterCreate in aborts {
        return Some(Aborted), leasesDeferred;
      }
      RunCons(setup, world, aborts, OpAcquireLeases, r2, State(), false);
      var r := Request(AcquireLeases(Ids(newMachines)));
      leasesDeferred := true;
      if r.Refused? {
        return Some(Failure(r.msg)), leasesDeferred;
      }
      RunCons(setup, world, aborts, OpCheckpoint(AfterLeases), r3, State(), true);
      if AfterLeases in aborts {
        return Some(Aborted), leasesDeferred;
      }
      assert r3 == [OpRefreshLeases] + [];
      RunCons(setup, world, aborts, OpRefreshLeases, [], State(), true);
      Notify(StartLeaseRefresh(Ids(newMachines)));
      err := None;
    }

    /** Unlock the app and release the leases. */
    method StepsUnlock(aborts: set<Checkpoint>) returns (err: Option<MigErr>)
      modifies this
      ensures RunOutcome(State(), err, true) == Run(setup, world, aborts, UnlockSteps, old(State()), true)
    {
      ghost var r2 := [OpReleaseLeases];
      ghost var r1 := [OpCheckpoint(AfterUnlock)] + r2;
      assert UnlockSteps == [OpUnlock] + r1;
      RunCons(setup, world, aborts, OpUnlock, r1, State(), true);
      err := UnlockApp();
      if err.Some? {
        return;
      }
      RunCons(setup, world, aborts, OpCheckpoint(AfterUnlock), r2, State(), true);
      if AfterUnlock in aborts {
        return Some(Aborted);
      }
      assert r2 == [OpReleaseLeases] + [];
      RunCons(setup, world, aborts, OpReleaseLeases, [], State(), true);
      Notify(ReleaseLeases(Ids(newMachines)));
    }

    /** Deploy the machines app. */
    method StepsDeploy(aborts: set<Checkpoint>) returns (err: Option<MigErr>)
      modifies this
      ensures RunOutcome(State(), err, true) == Run(setup, world, aborts, DeploySteps, old(State()), true)
    {
      assert DeploySteps == [OpDeploy] + [OpCheckpoint(AfterDeploy)];
      RunCons(setup, world, aborts, OpDeploy, [OpCheckpoint(AfterDeploy)], State(), true);
      err := DeployApp();
      if err.Some? {
        return;
      }
      assert [OpCheckpoint(AfterDeploy)] == [OpCheckpoint(AfterDeploy)] + [];
      RunCons(setup, world, aborts, OpCheckpoint(AfterDeploy), [], State(), true);
      if AfterDeploy in aborts {
        return Some(Aborted);
      }
    }

    /** On the zero-downtime path, Nomad is scaled down only once the machines are deployed. */
    method StepsLateScale(aborts: set<Checkpoint>, ghost d: bool) returns (err: Option<MigErr>)
      modifies this
      ensures RunOutcome(State(), err, d) == Run(setup, world, aborts, LateSteps(setup.canAvoidDowntime), old(State()), d)
    {
      err := None;
      if setup.canAvoidDowntime {
        assert LateSteps(true) == [OpScaleDown] + [OpCheckpoint(AfterLateScale)];
        RunCons(setup, world, aborts, OpScaleDown, [OpCheckpoint(AfterLateScale)], State(), d);
        err := ScaleNomadToZero();
        if err.Some? {
          return;
        }
        assert [OpCheckpoint(AfterLateScale)] == [OpCheckpoint(AfterLateScale)] + [];
        RunCons(setup, world, aborts, OpCheckpoint(AfterLateScale), [], State(), d);
        if AfterLateScale in aborts {
          return Some(Aborted);
        }
      }
    }

    /** Switch the platform to "machines", pass the point of no return, save the configuration. */
    method StepsFromSwitch(ghost aborts: set<Checkpoint>, ghost d: bool) returns (err: Option<MigErr>)
      modifies this
      ensures RunOutcome(State(), err, d) == Run(setup, world, aborts, Tail, old(State()), d)
    {
      ghost var goal := Run(setup, world, aborts, Tail, old(State()), d);
      err := UpdateAppPlatformVersion("machines");
      if err.Some? {
        return;
      }
      assert goal == Run(setup, world, aborts, [OpNoReturn, OpWriteConfig], State(), d);
      recovery := recovery.(onlyPromptToConfigSave := true);
      assert goal == Run(setup, world, aborts, [OpWriteConfig], State(), d);
      var r := Request(WriteConfig(setup.configPath));
      if r.Refused? {
        return Some(Failure(r.msg));
      }
    }

    /**
     * The steps of `Migrate` up to the configuration write, stopping at the
     * first error or abort; `leasesDeferred` says whether the lease release
     * was deferred.
     */
    method MigrateSteps(aborts: set<Checkpoint>) returns (err: Option<MigErr>, leasesDeferred: bool)
      modifies this
      ensures RunOutcome(State(), err, leasesDeferred) == Forward(setup, world, aborts, old(State()))
    {
      ForwardPhases(setup, world, aborts, old(State()));
      recovery := recovery.(platformVersion := setup.initialPlatform);
      leasesDeferred := false;
      err := StepsFront(aborts);
      if err.Some? {
        return;
      }
      err, leasesDeferred := StepsBack(aborts);
    }

    /** Everything before the leases: lock, scale down early, detach, release, create the machines. */
    method StepsFront(aborts: set<Checkpoint>) returns (err: Option<MigErr>)
      modifies this
      ensures RunOutcome(State(), err, false) ==
        Then(setup, world, aborts, Then(setup, world, aborts,
          Run(setup, world, aborts, LockSteps(setup.canAvoidDowntime), old(State()), false), DetachSteps), [OpCreate])
    {
      err := StepsLock(aborts);
      if err.Some? {
        return;
      }
      err := StepsDetach(aborts);
      if err.Some? {
        return;
      }
      assert [OpCreate] == [OpCreate] + [];
      RunCons(setup, world, aborts, OpCreate, [], State(), false);
      err := CreateMachines();
    }

    /** From the leases to the end of the forward path. */
    method StepsBack(aborts: set<Checkpoint>) returns (err: Option<MigErr>, leasesDeferred: bool)
      modifies this
      ensures RunOutcome(State(), err, leasesDeferred) ==
        Then(setup, world, aborts, Then(setup, world, aborts, Then(setup, world, aborts, Then(setup, world, aborts,
          Run(setup, world, aborts, LeaseSteps, old(State()), false), UnlockSteps), DeploySteps), LateSteps(setup.canAvoidDowntime)), Tail)
    {
      err, leasesDeferred := StepsLeases(aborts);
      if err.Some? {
        return;
      }
      err := StepsUnlock(aborts);
      if err.Some? {
        return;
      }
      err := StepsDeploy(aborts);
      if err.Some? {
        return;
      }
      err := StepsLateScale(aborts, leasesDeferred);
      if err.Some? {
        return;
      }
      err := StepsFromSwitch(aborts, leasesDeferred);
    }

    /** The lease release `Migrate` defers once it has asked for the leases; its error is only reported. */
    method ReleaseLeasesDeferred()
      modifies this
      ensures State() == DeferredRelease(world, old(State()))
    {
      var r := Request(ReleaseLeases(Ids(newMachines)));
      if r.Refused? {
        errOut := errOut + ["error releasing leases on machines: " + r.msg];
      }
    }

    /** The handler `Migrate` defers first: on an error, prompt to save the config past the point of no return, otherwise roll back. */
    method RecoverFrom(e: MigErr)
      modifies this
      ensures State() == Recover(setup, world, old(State()), e)
    {
      if recovery.onlyPromptToConfigSave {
        errOut := errOut + SaveHint;
        return;
      }
      errOut := errOut + [if e.Aborted? then AbortHeader else ErrorHeader];
      var rerr := Rollback();
      if rerr.Some? {
        errOut := errOut + ["failed while rolling back application: " + ErrText(rerr.value)];
      }
    }

    /** `Migrate`: the steps, then the deferred calls in reverse order of registration. */
    method Migrate(aborts: set<Checkpoint>) returns (err: Option<MigErr>)
      modifies this
      ensures Outcome(State(), err) == MigrateSpec(setup, world, aborts, old(State()))
    {
      var leasesDeferred;
      err, leasesDeferred := MigrateSteps(aborts);
      if leasesDeferred {
        ReleaseLeasesDeferred();
      }
      if err.Some? {
        RecoverFrom(err.value);
      }
    }
  }
}
