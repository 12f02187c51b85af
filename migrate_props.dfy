/**
 * Properties of the migration model: the recovery ledger only records
 * effects the platform confirmed, the rollback issues exactly the calls the
 * ledger calls for, and the rollback is skipped only after the platform
 * switch to machines succeeded.
 */
module MigrateProps {
  import opened Common
  import opened MigratePlan
  import opened MigrateToV2

  // ----- What the issued calls say happened, from call `k` on -----

  /** Whether the last successful lock or unlock since call `k` was a lock (`init` if there was none). */
  ghost function LockHeld(w: World, calls: seq<Call>, k: nat, init: bool): bool
    requires k <= |calls|
    decreases |calls|
  {
    if |calls| == k then init
    else
      var j := |calls| - 1;
      var r := w(calls[..j], calls[j]);
      if r.Done? && calls[j].LockApp? then true
      else if r.Done? && calls[j].UnlockApp? then false
      else LockHeld(w, calls[..j], k, init)
  }

  /** The platform version set by the last successful SetPlatformVersion since call `k` (`init` if none). */
  ghost function PlatformSet(w: World, calls: seq<Call>, k: nat, init: string): string
    requires k <= |calls|
    decreases |calls|
  {
    if |calls| == k then init
    else
      var j := |calls| - 1;
      var r := w(calls[..j], calls[j]);
      if r.Done? && calls[j].SetPlatformVersion? then calls[j].version
      else PlatformSet(w, calls[..j], k, init)
  }

  /** The machines the successful launches since call `k` returned, in launch order. */
  ghost function Launched(w: World, calls: seq<Call>, k: nat): seq<Machine>
    requires k <= |calls|
    decreases |calls|
  {
    if |calls| == k then []
    else
      var j := |calls| - 1;
      var r := w(calls[..j], calls[j]);
      Launched(w, calls[..j], k) + (if r.Done? && calls[j].Launch? then [Machine(r.id)] else [])
  }

  /** Whether some allocation poll since call `k` found no allocations. */
  ghost function ZeroSeen(w: World, calls: seq<Call>, k: nat): bool
    requires k <= |calls|
    decreases |calls|
  {
    if |calls| == k then false
    else
      var j := |calls| - 1;
      var r := w(calls[..j], calls[j]);
      (calls[j].GetAllocations? && r.Done? && r.n == 0) || ZeroSeen(w, calls[..j], k)
  }

  /** Every group of `gs`, and no other, with a count of zero. */
  function AllZero(gs: set<string>): (m: map<string, int>)
    ensures m.Keys == gs && forall g | g in m :: m[g] == 0
  {
    map g | g in gs :: 0
  }

  /** Whether some update since call `k` successfully set exactly the groups `gs` to zero. */
  ghost function CountsZeroed(w: World, calls: seq<Call>, k: nat, gs: set<string>): bool
    requires k <= |calls|
    decreases |calls|
  {
    if |calls| == k then false
    else
      var j := |calls| - 1;
      var r := w(calls[..j], calls[j]);
      (calls[j].SetNomadVmCount? && r.Done? && calls[j].counts == AllZero(gs)) || CountsZeroed(w, calls[..j], k, gs)
  }

  lemma ScanSnoc(w: World, calls: seq<Call>, c: Call, k: nat, l0: bool, p0: string, gs: set<string>)
    requires k <= |calls|
    ensures var r := w(calls, c); var cs := calls + [c];
      && LockHeld(w, cs, k, l0) == (if r.Done? && c.LockApp? then true else if r.Done? && c.UnlockApp? then false else LockHeld(w, calls, k, l0))
      && PlatformSet(w, cs, k, p0) == (if r.Done? && c.SetPlatformVersion? then c.version else PlatformSet(w, calls, k, p0))
      && Launched(w, cs, k) == Launched(w, calls, k) + (if r.Done? && c.Launch? then [Machine(r.id)] else [])
      && (ZeroSeen(w, cs, k) <==> (c.GetAllocations? && r.Done? && r.n == 0) || ZeroSeen(w, calls, k))
      && (CountsZeroed(w, cs, k, gs) <==> (c.SetNomadVmCount? && r.Done? && c.counts == AllZero(gs)) || CountsZeroed(w, calls, k, gs))
  {
    assert (calls + [c])[..|calls|] == calls;
  }

  /**
   * The recovery ledger against the calls issued since call `k`: the app is
   * recorded as locked exactly when the last successful lock/unlock was a
   * lock, the recorded platform version is the last one successfully set,
   * and "scaled to zero" is recorded only after the counts of the process
   * groups `gs` were successfully set to zero (when there are any) and a poll
   * found no allocations.
   */
  ghost predicate Tracks(w: World, k: nat, l0: bool, p0: string, z0: bool, gs: set<string>, s: MState)
  {
    && k <= |s.calls|
    && s.recovery.appLocked == LockHeld(w, s.calls, k, l0)
    && s.recovery.platformVersion == PlatformSet(w, s.calls, k, p0)
    && (s.recovery.scaledToZero ==> z0 || (ZeroSeen(w, s.calls, k) && (gs == {} || CountsZeroed(w, s.calls, k, gs))))
  }

  /** ... and the created machines are exactly those the successful launches returned, in order. */
  ghost predicate Honest(w: World, k: nat, l0: bool, p0: string, z0: bool, gs: set<string>, s: MState)
  {
    Tracks(w, k, l0, p0, z0, gs, s) && s.recovery.machinesCreated == Launched(w, s.calls, k)
  }

  /** A call that is not a lock, unlock, platform switch or launch leaves the ledger's evidence as it was. */
  lemma LogOther(w: World, k: nat, l0: bool, p0: string, z0: bool, gs: set<string>, s: MState, c: Call)
    requires Honest(w, k, l0, p0, z0, gs, s)
    requires !c.LockApp? && !c.UnlockApp? && !c.SetPlatformVersion? && !c.Launch?
    ensures Honest(w, k, l0, p0, z0, gs, Log(s, c))
  {
    ScanSnoc(w, s.calls, c, k, l0, p0, gs);
  }

  lemma SimpleHonest(w: World, k: nat, l0: bool, p0: string, z0: bool, gs: set<string>, s: MState, c: Call)
    requires Honest(w, k, l0, p0, z0, gs, s)
    requires !c.LockApp? && !c.UnlockApp? && !c.SetPlatformVersion? && !c.Launch?
    ensures Honest(w, k, l0, p0, z0, gs, Simple(w, s, c).s)
  {
    LogOther(w, k, l0, p0, z0, gs, s, c);
  }

  lemma LockHonest(su: Setup, w: World, k: nat, l0: bool, p0: string, z0: bool, gs: set<string>, s: MState)
    requires Honest(w, k, l0, p0, z0, gs, s)
    ensures Honest(w, k, l0, p0, z0, gs, Lock(su, w, s).s)
  {
    ScanSnoc(w, s.calls, LockApp(su.configAppName), k, l0, p0, gs);
  }

  lemma UnlockHonest(su: Setup, w: World, k: nat, l0: bool, p0: string, z0: bool, gs: set<string>, s: MState)
    requires Honest(w, k, l0, p0, z0, gs, s)
    ensures Honest(w, k, l0, p0, z0, gs, Unlock(su, w, s).s)
  {
    ScanSnoc(w, s.calls, UnlockApp(su.configAppName, s.appLock), k, l0, p0, gs);
  }

  lemma SetPlatformHonest(su: Setup, w: World, k: nat, l0: bool, p0: string, z0: bool, gs: set<string>, s: MState, v: string)
    requires Honest(w, k, l0, p0, z0, gs, s)
    ensures Honest(w, k, l0, p0, z0, gs, SetPlatform(su, w, s, v).s)
  {
    ScanSnoc(w, s.calls, SetPlatformVersion(su.configAppName, v, s.appLock), k, l0, p0, gs);
  }

  /** Waiting only issues polls: the rest of the migrator's state is left as it was. */
  lemma {:induction false} AwaitZeroFrame(su: Setup, w: World, s: MState, budget: nat)
    ensures var o := AwaitZero(su, w, s, budget);
      && o.s == s.(calls := o.s.calls)
      && |s.calls| <= |o.s.calls| <= |s.calls| + budget
      && o.s.calls[..|s.calls|] == s.calls
      && (o.err.Some? ==> o.err.value.Failure?)
    decreases budget
  {
    if budget > 0 {
      var c := GetAllocations(su.appName);
      if w(s.calls, c).Done? && w(s.calls, c).n != 0 {
        AwaitZeroFrame(su, w, Log(s, c), budget - 1);
        var o := AwaitZero(su, w, Log(s, c), budget - 1);
        assert o.s.calls[..|s.calls|] == o.s.calls[..|s.calls| + 1][..|s.calls|];
      }
    }
  }

  /** The calls of a wait are polls of the app's allocations, nothing else. */
  lemma {:induction false} AwaitZeroCalls(su: Setup, w: World, s: MState, budget: nat)
    ensures var o := AwaitZero(su, w, s, budget);
      |o.s.calls| >= |s.calls| && o.s.calls == s.calls + Polls(su.appName, |o.s.calls| - |s.calls|)
    decreases budget
  {
    if budget > 0 {
      var c := GetAllocations(su.appName);
      var r := w(s.calls, c);
      if r.Done? && r.n != 0 {
        AwaitZeroCalls(su, w, Log(s, c), budget - 1);
        var o := AwaitZero(su, w, Log(s, c), budget - 1);
        var n := |o.s.calls| - |s.calls|;
        assert Polls(su.appName, n) == [c] + Polls(su.appName, n - 1);
        assert o.s.calls == (s.calls + [c]) + Polls(su.appName, n - 1);
      } else {
        assert Polls(su.appName, 1) == [c];
      }
    }
  }

  /** A wait succeeds only on a poll that found no allocations, and that poll is its last call. */
  lemma {:induction false} AwaitZeroSuccess(su: Setup, w: World, s: MState, budget: nat)
    requires AwaitZero(su, w, s, budget).err.None?
    ensures var o := AwaitZero(su, w, s, budget);
      && |o.s.calls| > |s.calls|
      && var r := w(o.s.calls[..|o.s.calls| - 1], o.s.calls[|o.s.calls| - 1]); r.Done? && r.n == 0
    decreases budget
  {
    var c := GetAllocations(su.appName);
    var r := w(s.calls, c);
    if r.Done? && r.n != 0 {
      AwaitZeroSuccess(su, w, Log(s, c), budget - 1);
    } else {
      assert (s.calls + [c])[..|s.calls|] == s.calls;
    }
  }

  /** Waiting keeps the ledger honest, and a successful wait has seen an empty allocation list. */
  lemma {:induction false} AwaitZeroHonest(su: Setup, w: World, k: nat, l0: bool, p0: string, z0: bool, gs: set<string>, s: MState, budget: nat)
    requires Honest(w, k, l0, p0, z0, gs, s)
    ensures Honest(w, k, l0, p0, z0, gs, AwaitZero(su, w, s, budget).s)
    ensures AwaitZero(su, w, s, budget).err.None? ==> ZeroSeen(w, AwaitZero(su, w, s, budget).s.calls, k)
    ensures CountsZeroed(w, s.calls, k, gs) ==> CountsZeroed(w, AwaitZero(su, w, s, budget).s.calls, k, gs)
    decreases budget
  {
    if budget > 0 {
      var c := GetAllocations(su.appName);
      ScanSnoc(w, s.calls, c, k, l0, p0, gs);
      var r := w(s.calls, c);
      if r.Done? && r.n != 0 {
        AwaitZeroHonest(su, w, k, l0, p0, z0, gs, Log(s, c), budget - 1);
      }
    }
  }

  /** The scale-down request, if any, and the wait leave the ledger as it was, except that success records it. */
  lemma ScaleDownFrame(su: Setup, w: World, s: MState)
    ensures var o := ScaleDown(su, w, s);
      && o.s.recovery == s.recovery.(scaledToZero := o.s.recovery.scaledToZero)
      && o.s.appLock == s.appLock
      && o.s.newMachines == s.newMachines
      && (o.err.None? ==> o.s.recovery.scaledToZero)
      && (o.err.Some? ==> o.s.recovery.scaledToZero == s.recovery.scaledToZero && o.err.value.Failure?)
  {
    var o := if |su.oldVmCounts| > 0
             then Simple(w, s, SetNomadVmCount(su.configAppName, ZeroCounts(su.oldVmCounts), s.appLock))
             else Outcome(s, None);
    if o.err.None? {
      AwaitZeroFrame(su, w, o.s, su.pollBudget);
    }
  }

  lemma ScaleDownHonest(su: Setup, w: World, k: nat, l0: bool, p0: string, z0: bool, gs: set<string>, s: MState)
    requires gs == su.oldVmCounts.Keys
    requires Honest(w, k, l0, p0, z0, gs, s)
    ensures Honest(w, k, l0, p0, z0, gs, ScaleDown(su, w, s).s)
  {
    var o := if |su.oldVmCounts| > 0
             then Simple(w, s, SetNomadVmCount(su.configAppName, ZeroCounts(su.oldVmCounts), s.appLock))
             else Outcome(s, None);
    if |su.oldVmCounts| > 0 {
      var c := SetNomadVmCount(su.configAppName, ZeroCounts(su.oldVmCounts), s.appLock);
      SimpleHonest(w, k, l0, p0, z0, gs, s, c);
      ScanSnoc(w, s.calls, c, k, l0, p0, gs);
      assert c.counts == AllZero(gs);
    }
    if o.err.None? {
      AwaitZeroHonest(su, w, k, l0, p0, z0, gs, o.s, su.pollBudget);
      AwaitZeroFrame(su, w, o.s, su.pollBudget);
    }
  }

  /** The number of launches `createMachines` attempts from input `i` on: up to and including the first that fails. */
  ghost function Attempts(su: Setup, w: World, s: MState, i: nat): (n: nat)
    requires i <= |su.launchInputs|
    ensures n <= |su.launchInputs| - i
    decreases |su.launchInputs| - i
  {
    if i == |su.launchInputs| then 0
    else
      var c := Launch(su.launchInputs[i]);
      if w(s.calls, c).Refused? then 1
      else 1 + Attempts(su, w, Log(Log(s, c), ListActive(su.appName)), i + 1)
  }

  /**
   * Creating machines changes only the calls, the created machines and, when
   * every launch succeeded, `newMachines`; two calls per launch attempt, at
   * most one attempt per input, and exactly one per input on success.
   */
  lemma {:induction false} LaunchFromFrame(su: Setup, w: World, s: MState, i: nat, created: seq<Machine>)
    requires i <= |su.launchInputs|
    ensures var o := LaunchFrom(su, w, s, i, created); var n := Attempts(su, w, s, i);
      && o.s == s.(calls := o.s.calls, newMachines := o.s.newMachines,
                   recovery := s.recovery.(machinesCreated := o.s.recovery.machinesCreated))
      && |o.s.calls| == |s.calls| + 2 * n
      && 0 <= n <= |su.launchInputs| - i
      && (o.err.None? ==> i + n == |su.launchInputs| && o.s.newMachines == o.s.recovery.machinesCreated)
      && (o.err.Some? ==> n >= 1 && o.s.newMachines == s.newMachines && o.err.value.Failure?)
      && |o.s.recovery.machinesCreated| == |created| + (if o.err.None? then n else n - 1)
      && o.s.recovery.machinesCreated[..|created|] == created
    decreases |su.launchInputs| - i
  {
    if i < |su.launchInputs| {
      var c := Launch(su.launchInputs[i]);
      var r := w(s.calls, c);
      var s' := Log(Log(s, c), ListActive(su.appName));
      if r.Done? {
        LaunchFromFrame(su, w, s', i + 1, created + [Machine(r.id)]);
        var o := LaunchFrom(su, w, s', i + 1, created + [Machine(r.id)]);
        assert o.s.recovery.machinesCreated[..|created|] == o.s.recovery.machinesCreated[..|created| + 1][..|created|];
      }
    }
  }

  /** Creating machines records exactly the machines the successful launches returned. */
  lemma {:induction false} LaunchFromHonest(su: Setup, w: World, k: nat, l0: bool, p0: string, z0: bool, gs: set<string>,
                                            s: MState, i: nat, created: seq<Machine>)
    requires i <= |su.launchInputs|
    requires Tracks(w, k, l0, p0, z0, gs, s) && created == Launched(w, s.calls, k)
    ensures Honest(w, k, l0, p0, z0, gs, LaunchFrom(su, w, s, i, created).s)
    decreases |su.launchInputs| - i
  {
    if i < |su.launchInputs| {
      var c := Launch(su.launchInputs[i]);
      LaunchStepTracks(w, k, l0, p0, z0, gs, s, c, ListActive(su.appName));
      var r := w(s.calls, c);
      if r.Done? {
        LaunchFromHonest(su, w, k, l0, p0, z0, gs, Log(Log(s, c), ListActive(su.appName)), i + 1, created + [Machine(r.id)]);
      }
    }
  }

  /** A launch and a listing keep the ledger's evidence, and add the launched machine when the launch succeeded. */
  lemma LaunchStepTracks(w: World, k: nat, l0: bool, p0: string, z0: bool, gs: set<string>, s: MState, c: Call, l: Call)
    requires Tracks(w, k, l0, p0, z0, gs, s)
    requires c.Launch? && l.ListActive?
    ensures var r := w(s.calls, c); var s' := Log(Log(s, c), l);
      && Tracks(w, k, l0, p0, z0, gs, s')
      && Launched(w, s'.calls, k) == Launched(w, s.calls, k) + (if r.Done? then [Machine(r.id)] else [])
  {
    ScanSnoc(w, s.calls, c, k, l0, p0, gs);
    ScanSnoc(w, s.calls + [c], l, k, l0, p0, gs);
  }

  /** Destroying machines changes only the calls; one call per machine, all of them on success. */
  lemma {:induction false} DestroyFromFrame(su: Setup, w: World, s: MState, ms: seq<Machine>, i: nat)
    requires i <= |ms|
    ensures var o := DestroyFrom(su, w, s, ms, i); var n := |o.s.calls| - |s.calls|;
      && o.s == s.(calls := o.s.calls)
      && 0 <= n <= |ms| - i
      && (o.err.None? ==> i + n == |ms|)
      && (o.err.Some? ==> n >= 1 && o.err.value.Failure?)
    decreases |ms| - i
  {
    if i < |ms| {
      var c := Destroy(su.appName, ms[i].id, true);
      if w(s.calls, c).Done? {
        DestroyFromFrame(su, w, Log(s, c), ms, i + 1);
      }
    }
  }

  lemma {:induction false} DestroyFromHonest(su: Setup, w: World, k: nat, l0: bool, p0: string, z0: bool, gs: set<string>,
                                             s: MState, ms: seq<Machine>, i: nat)
    requires i <= |ms|
    requires Honest(w, k, l0, p0, z0, gs, s)
    ensures Honest(w, k, l0, p0, z0, gs, DestroyFrom(su, w, s, ms, i).s)
    decreases |ms| - i
  {
    if i < |ms| {
      var c := Destroy(su.appName, ms[i].id, true);
      LogOther(w, k, l0, p0, z0, gs, s, c);
      if w(s.calls, c).Done? {
        DestroyFromHonest(su, w, k, l0, p0, z0, gs, Log(s, c), ms, i + 1);
      }
    }
  }

  /**
   * Every step keeps the ledger honest. Creating machines needs a ledger
   * with no machines yet; every other step leaves the machines alone.
   */
  lemma ExecHonest(su: Setup, w: World, aborts: set<Checkpoint>, op: Op, k: nat, l0: bool, p0: string, z0: bool, gs: set<string>, s: MState)
    requires gs == su.oldVmCounts.Keys
    requires Honest(w, k, l0, p0, z0, gs, s)
    requires op.OpCreate? ==> s.recovery.machinesCreated == []
    ensures Honest(w, k, l0, p0, z0, gs, Exec(su, w, aborts, op, s).s)
    ensures !op.OpCreate? ==> Exec(su, w, aborts, op, s).s.recovery.machinesCreated == s.recovery.machinesCreated
  {
    match op
    case OpLock => LockHonest(su, w, k, l0, p0, z0, gs, s);
    case OpScaleDown => ScaleDownHonest(su, w, k, l0, p0, z0, gs, s); ScaleDownFrame(su, w, s);
    case OpDetach => SetPlatformHonest(su, w, k, l0, p0, z0, gs, s, "detached");
    case OpRelease => SimpleHonest(w, k, l0, p0, z0, gs, s, CreateRelease(su.configAppName, "machines", su.img, su.config));
    case OpCreate => LaunchFromHonest(su, w, k, l0, p0, z0, gs, s, 0, []);
    case OpAcquireLeases => SimpleHonest(w, k, l0, p0, z0, gs, s, AcquireLeases(Ids(s.newMachines)));
    case OpRefreshLeases => LogOther(w, k, l0, p0, z0, gs, s, StartLeaseRefresh(Ids(s.newMachines)));
    case OpUnlock => UnlockHonest(su, w, k, l0, p0, z0, gs, s);
    case OpReleaseLeases => LogOther(w, k, l0, p0, z0, gs, s, ReleaseLeases(Ids(s.newMachines)));
    case OpDeploy =>
      var c := NewMachineDeployment(su.appName);
      LogOther(w, k, l0, p0, z0, gs, s, c);
      if w(s.calls, c).Done? {
        LogOther(w, k, l0, p0, z0, gs, Log(s, c), DeployMachinesApp(su.appName));
      }
    case OpSwitch => SetPlatformHonest(su, w, k, l0, p0, z0, gs, s, "machines");
    case OpNoReturn =>
    case OpWriteConfig => SimpleHonest(w, k, l0, p0, z0, gs, s, WriteConfig(su.configPath));
    case OpCheckpoint(_) =>
  }

  /** A run of steps that creates no machines keeps the ledger honest and its machines as they were. */
  lemma {:induction false} RunHonest(su: Setup, w: World, aborts: set<Checkpoint>, ops: seq<Op>, s: MState, d: bool,
                                     k: nat, l0: bool, p0: string, z0: bool, gs: set<string>)
    requires gs == su.oldVmCounts.Keys
    requires Honest(w, k, l0, p0, z0, gs, s)
    requires OpCreate !in ops
    ensures Honest(w, k, l0, p0, z0, gs, Run(su, w, aborts, ops, s, d).s)
    ensures Run(su, w, aborts, ops, s, d).s.recovery.machinesCreated == s.recovery.machinesCreated
    decreases |ops|
  {
    if |ops| > 0 {
      assert ops[0] in ops;
      ExecHonest(su, w, aborts, ops[0], k, l0, p0, z0, gs, s);
      var o := Exec(su, w, aborts, ops[0], s);
      if o.err.None? {
        assert forall op :: op in ops[1..] ==> op in ops;
        RunHonest(su, w, aborts, ops[1..], o.s, d || ops[0] == OpAcquireLeases, k, l0, p0, z0, gs);
      }
    }
  }

  lemma ThenHonest(su: Setup, w: World, aborts: set<Checkpoint>, ro: RunOutcome, ops: seq<Op>,
                   k: nat, l0: bool, p0: string, z0: bool, gs: set<string>)
    requires gs == su.oldVmCounts.Keys
    requires Honest(w, k, l0, p0, z0, gs, ro.s)
    requires OpCreate !in ops
    ensures Honest(w, k, l0, p0, z0, gs, Then(su, w, aborts, ro, ops).s)
  {
    if ro.err.None? {
      RunHonest(su, w, aborts, ops, ro.s, ro.leasesDeferred, k, l0, p0, z0, gs);
    }
  }

  /** The forward path keeps the ledger honest: machines are created once, from an empty ledger. */
  lemma ForwardHonest(su: Setup, w: World, aborts: set<Checkpoint>, s0: MState)
    requires s0.recovery.machinesCreated == []
    ensures Honest(w, |s0.calls|, s0.recovery.appLocked, su.initialPlatform, s0.recovery.scaledToZero, su.oldVmCounts.Keys,
                   Forward(su, w, aborts, s0).s)
  {
    var k, l0, p0, z0, gs := |s0.calls|, s0.recovery.appLocked, su.initialPlatform, s0.recovery.scaledToZero, su.oldVmCounts.Keys;
    var c := su.canAvoidDowntime;
    var st := Started(su, s0);
    assert Honest(w, k, l0, p0, z0, gs, st);
    var f, b := Front(c), Back(c);
    ScriptParts(c);
    RunAppend(su, w, aborts, f + [OpCreate] + b, Tail, st, false);
    RunAppend(su, w, aborts, f + [OpCreate], b, st, false);
    RunAppend(su, w, aborts, f, [OpCreate], st, false);
    var r0 := Run(su, w, aborts, f, st, false);
    RunHonest(su, w, aborts, f, st, false, k, l0, p0, z0, gs);
    var r1 := Then(su, w, aborts, r0, [OpCreate]);
    if r0.err.None? {
      ExecHonest(su, w, aborts, OpCreate, k, l0, p0, z0, gs, r0.s);
    }
    assert Honest(w, k, l0, p0, z0, gs, r1.s);
    var r2 := Then(su, w, aborts, r1, b);
    ThenHonest(su, w, aborts, r1, b, k, l0, p0, z0, gs);
    ThenHonest(su, w, aborts, r2, Tail, k, l0, p0, z0, gs);
  }

  lemma RestoreNomadHonest(su: Setup, w: World, k: nat, l0: bool, p0: string, z0: bool, gs: set<string>, s: MState)
    requires Honest(w, k, l0, p0, z0, gs, s)
    ensures Honest(w, k, l0, p0, z0, gs, RestoreNomad(su, w, s).s)
  {
    var p := if s.recovery.platformVersion != "nomad" then SetPlatform(su, w, s, "nomad") else Outcome(s, None);
    if s.recovery.platformVersion != "nomad" {
      SetPlatformHonest(su, w, k, l0, p0, z0, gs, s, "nomad");
    }
    if p.err.None? && p.s.recovery.scaledToZero && |su.oldAllocs| > 0 {
      SimpleHonest(w, k, l0, p0, z0, gs, p.s,
        SetNomadVmCount(su.configAppName, su.oldVmCounts, if p.s.recovery.appLocked then p.s.appLock else ""));
    }
  }

  lemma RevertBodyHonest(su: Setup, w: World, k: nat, l0: bool, p0: string, z0: bool, gs: set<string>, s: MState)
    requires Honest(w, k, l0, p0, z0, gs, s)
    ensures Honest(w, k, l0, p0, z0, gs, RevertBody(su, w, s).s)
  {
    var d := DestroyFrom(su, w, s, s.recovery.machinesCreated, 0);
    DestroyFromHonest(su, w, k, l0, p0, z0, gs, s, s.recovery.machinesCreated, 0);
    if d.err.None? {
      RestoreNomadHonest(su, w, k, l0, p0, z0, gs, d.s);
    }
  }

  lemma RevertFinishHonest(su: Setup, w: World, k: nat, l0: bool, p0: string, z0: bool, gs: set<string>, s: MState)
    requires Honest(w, k, l0, p0, z0, gs, s)
    ensures Honest(w, k, l0, p0, z0, gs, RevertFinish(su, w, s))
  {
    var s1 := if s.recovery.appLocked then Unlock(su, w, s).s else s;
    if s.recovery.appLocked {
      UnlockHonest(su, w, k, l0, p0, z0, gs, s);
    }
    LogOther(w, k, l0, p0, z0, gs, s1, ResumeApp(su.appName));
  }

  /** The deferred handler keeps the ledger honest, whether it rolls back or only prompts. */
  lemma RecoverHonest(su: Setup, w: World, k: nat, l0: bool, p0: string, z0: bool, gs: set<string>, s: MState, err: MigErr)
    requires Honest(w, k, l0, p0, z0, gs, s)
    ensures Honest(w, k, l0, p0, z0, gs, Recover(su, w, s, err))
  {
    if !s.recovery.onlyPromptToConfigSave {
      var s1 := s.(errOut := s.errOut + [if err.Aborted? then AbortHeader else ErrorHeader]);
      RevertBodyHonest(su, w, k, l0, p0, z0, gs, s1);
      RevertFinishHonest(su, w, k, l0, p0, z0, gs, RevertBody(su, w, s1).s);
    }
  }

  /**
   * The recovery ledger never claims more than happened: after `Migrate`,
   * including its lease release and its rollback, the app is recorded as
   * locked exactly when the last successful lock/unlock was a lock, the
   * platform version is the last one successfully set, "scaled to zero" is
   * recorded only after a poll found no allocations, and the created
   * machines are exactly those the launches returned, in launch order.
   */
  lemma MigrateHonest(su: Setup, w: World, aborts: set<Checkpoint>, s0: MState)
    requires s0.recovery.machinesCreated == []
    ensures Honest(w, |s0.calls|, s0.recovery.appLocked, su.initialPlatform, s0.recovery.scaledToZero, su.oldVmCounts.Keys,
                   MigrateSpec(su, w, aborts, s0).s)
  {
    var k, l0, p0, z0, gs := |s0.calls|, s0.recovery.appLocked, su.initialPlatform, s0.recovery.scaledToZero, su.oldVmCounts.Keys;
    ForwardHonest(su, w, aborts, s0);
    var ro := Forward(su, w, aborts, s0);
    if ro.leasesDeferred {
      LogOther(w, k, l0, p0, z0, gs, ro.s, ReleaseLeases(Ids(ro.s.newMachines)));
    }
    var s1 := AfterLeaseDefer(w, ro);
    if ro.err.Some? {
      RecoverHonest(su, w, k, l0, p0, z0, gs, s1, ro.err.value);
    }
  }

  // ----- The calls a step issues -----

  /**
   * `createMachines` launches its inputs in order, each launch followed by a
   * listing of the active machines, up to the first failed launch.
   */
  lemma {:induction false} LaunchFromCalls(su: Setup, w: World, s: MState, i: nat, created: seq<Machine>)
    requires i <= |su.launchInputs|
    ensures var o := LaunchFrom(su, w, s, i, created); var n := Attempts(su, w, s, i);
      && 0 <= n <= |su.launchInputs| - i
      && o.s.calls == s.calls + LaunchCalls(su.appName, su.launchInputs[i..i + n])
    decreases |su.launchInputs| - i
  {
    var inputs := su.launchInputs;
    if i < |inputs| {
      var c := Launch(inputs[i]);
      var r := w(s.calls, c);
      if r.Done? {
        var s' := Log(Log(s, c), ListActive(su.appName));
        LaunchFromCalls(su, w, s', i + 1, created + [Machine(r.id)]);
        LaunchCallsCons(s.calls, su.appName, inputs, i, Attempts(su, w, s', i + 1));
      } else {
        assert inputs[i + 1..i + 1] == [];
        LaunchCallsCons(s.calls, su.appName, inputs, i, 0);
      }
    }
  }

  /** One more launch and listing in front of the calls of the later inputs. */
  lemma LaunchCallsCons(before: seq<Call>, appName: string, inputs: seq<LaunchInput>, i: nat, n: nat)
    requires i + 1 + n <= |inputs|
    ensures (before + [Launch(inputs[i])] + [ListActive(appName)]) + LaunchCalls(appName, inputs[i + 1..i + 1 + n])
      == before + LaunchCalls(appName, inputs[i..i + 1 + n])
  {
    LaunchCallsStep(appName, inputs, i, n);
    var rest := LaunchCalls(appName, inputs[i + 1..i + 1 + n]);
    assert (before + [Launch(inputs[i])] + [ListActive(appName)]) + rest == before + ([Launch(inputs[i]), ListActive(appName)] + rest);
  }

  lemma LaunchCallsStep(appName: string, inputs: seq<LaunchInput>, i: nat, n: nat)
    requires i + 1 + n <= |inputs|
    ensures LaunchCalls(appName, inputs[i..i + 1 + n]) == [Launch(inputs[i]), ListActive(appName)] + LaunchCalls(appName, inputs[i + 1..i + 1 + n])
  {
    assert inputs[i..i + 1 + n][1..] == inputs[i + 1..i + 1 + n];
  }

  /** A failed launch reports the region of the input that failed, and the machines before it stay recorded. */
  lemma LaunchFailureReported(su: Setup, w: World, s: MState)
    requires LaunchFrom(su, w, s, 0, []).err.Some?
    ensures var o := LaunchFrom(su, w, s, 0, []); var n := Attempts(su, w, s, 0);
      && 1 <= n <= |su.launchInputs|
      && o.s.calls == s.calls + LaunchCalls(su.appName, su.launchInputs[..n])
      && |o.s.recovery.machinesCreated| == n - 1
      && o.s.newMachines == s.newMachines
      && var r := w(o.s.calls[..|o.s.calls| - 2], Launch(su.launchInputs[n - 1]));
         r.Refused? && o.err == Some(Failure("failed creating a machine in region " + su.launchInputs[n - 1].region + ": " + r.msg))
  {
    LaunchFromCalls(su, w, s, 0, []);
    LaunchFromFrame(su, w, s, 0, []);
    LaunchFailureAt(su, w, s, 0, []);
    var o := LaunchFrom(su, w, s, 0, []);
    var n := Attempts(su, w, s, 0);
    assert su.launchInputs[0..n] == su.launchInputs[..n];
  }

  lemma {:induction false} LaunchFailureAt(su: Setup, w: World, s: MState, i: nat, created: seq<Machine>)
    requires i <= |su.launchInputs|
    requires LaunchFrom(su, w, s, i, created).err.Some?
    ensures var o := LaunchFrom(su, w, s, i, created); var n := Attempts(su, w, s, i);
      && |o.s.calls| == |s.calls| + 2 * n
      && 1 <= n && i + n <= |su.launchInputs|
      && var r := w(o.s.calls[..|o.s.calls| - 2], Launch(su.launchInputs[i + n - 1]));
         r.Refused? && o.err == Some(Failure("failed creating a machine in region " + su.launchInputs[i + n - 1].region + ": " + r.msg))
    decreases |su.launchInputs| - i
  {
    var c := Launch(su.launchInputs[i]);
    var r := w(s.calls, c);
    var s' := Log(Log(s, c), ListActive(su.appName));
    if r.Done? {
      LaunchFailureAt(su, w, s', i + 1, created + [Machine(r.id)]);
    } else {
      assert s'.calls[..|s.calls|] == s.calls;
    }
  }

  /** Rollback destroys the recorded machines in order, one call each, up to the first failure. */
  lemma {:induction false} DestroyFromCalls(su: Setup, w: World, s: MState, ms: seq<Machine>, i: nat)
    requires i <= |ms|
    ensures var o := DestroyFrom(su, w, s, ms, i); var n := |o.s.calls| - |s.calls|;
      0 <= n <= |ms| - i && o.s.calls == s.calls + DestroyCalls(su.appName, ms[i..i + n])
    decreases |ms| - i
  {
    DestroyFromFrame(su, w, s, ms, i);
    var o := DestroyFrom(su, w, s, ms, i);
    var n := |o.s.calls| - |s.calls|;
    if i < |ms| {
      var c := Destroy(su.appName, ms[i].id, true);
      var r := w(s.calls, c);
      if r.Done? {
        DestroyFromCalls(su, w, Log(s, c), ms, i + 1);
        assert ms[i..i + n][1..] == ms[i + 1..i + n];
        assert DestroyCalls(su.appName, ms[i..i + n]) == [c] + DestroyCalls(su.appName, ms[i + 1..i + n]);
        assert o.s.calls == (s.calls + [c]) + DestroyCalls(su.appName, ms[i + 1..i + n]);
      } else {
        assert ms[i..i + 1][1..] == [];
      }
    } else {
      assert ms[i..i] == [];
    }
  }

  /** A failed destroy is the last call of the destroy loop, and it was refused. */
  lemma {:induction false} DestroyFromFailure(su: Setup, w: World, s: MState, ms: seq<Machine>, i: nat)
    requires i <= |ms|
    requires DestroyFrom(su, w, s, ms, i).err.Some?
    ensures var o := DestroyFrom(su, w, s, ms, i);
      |o.s.calls| > |s.calls| && w(o.s.calls[..|o.s.calls| - 1], o.s.calls[|o.s.calls| - 1]).Refused?
    decreases |ms| - i
  {
    var c := Destroy(su.appName, ms[i].id, true);
    var r := w(s.calls, c);
    if r.Done? {
      DestroyFromFailure(su, w, Log(s, c), ms, i + 1);
    } else {
      assert (s.calls + [c])[..|s.calls|] == s.calls;
    }
  }

  lemma {:induction false} DestroyCallsPrefix(appName: string, ms: seq<Machine>, n: nat)
    requires n <= |ms|
    ensures DestroyCalls(appName, ms[..n]) == DestroyCalls(appName, ms)[..n]
  {
    if n > 0 {
      DestroyCallsPrefix(appName, ms[1..], n - 1);
      assert ms[..n][1..] == ms[1..][..n - 1];
    }
  }

  /**
   * A run that started with the calls `before` issued a prefix of `plan`:
   * all of it when it succeeded, and otherwise up to and including the
   * first call the platform refused.
   */
  ghost predicate PlanPrefix(w: World, before: seq<Call>, o: Outcome, plan: seq<Call>)
  {
    var m := |o.s.calls| - |before|;
    && 0 <= m <= |plan|
    && o.s.calls == before + plan[..m]
    && (o.err.None? ==> m == |plan|)
    && (o.err.Some? ==> m >= 1 && w(o.s.calls[..|o.s.calls| - 1], o.s.calls[|o.s.calls| - 1]).Refused?)
  }

  /** A run that stopped early issued a prefix of any longer plan too. */
  lemma PlanPrefixStopped(w: World, before: seq<Call>, o: Outcome, p: seq<Call>, q: seq<Call>)
    requires PlanPrefix(w, before, o, p) && o.err.Some?
    ensures PlanPrefix(w, before, o, p + q)
  {
    var m := |o.s.calls| - |before|;
    assert (p + q)[..m] == p[..m];
  }

  /** A complete first plan followed by a prefix of the second is a prefix of both. */
  lemma PlanPrefixThen(w: World, before: seq<Call>, mid: seq<Call>, o: Outcome, p: seq<Call>, q: seq<Call>)
    requires mid == before + p
    requires PlanPrefix(w, mid, o, q)
    ensures PlanPrefix(w, before, o, p + q)
  {
    var m := |o.s.calls| - |mid|;
    assert (p + q)[..|p| + m] == p + q[..m];
  }

  /** The destroy loop of a rollback issues a prefix of one destroy per recorded machine. */
  lemma DestroyFromPlan(su: Setup, w: World, s: MState, ms: seq<Machine>)
    ensures PlanPrefix(w, s.calls, DestroyFrom(su, w, s, ms, 0), DestroyCalls(su.appName, ms))
    ensures DestroyFrom(su, w, s, ms, 0).s == s.(calls := DestroyFrom(su, w, s, ms, 0).s.calls)
  {
    DestroyFromPlanAt(su, w, s, ms, 0);
    assert ms[0..] == ms;
  }

  /** From machine `i` on, the destroy loop issues a prefix of the destroys of the remaining machines. */
  lemma {:induction false} DestroyFromPlanAt(su: Setup, w: World, s: MState, ms: seq<Machine>, i: nat)
    requires i <= |ms|
    ensures PlanPrefix(w, s.calls, DestroyFrom(su, w, s, ms, i), DestroyCalls(su.appName, ms[i..]))
    ensures DestroyFrom(su, w, s, ms, i).s == s.(calls := DestroyFrom(su, w, s, ms, i).s.calls)
    decreases |ms| - i
  {
    if i == |ms| {
      assert s.calls + DestroyCalls(su.appName, ms[i..])[..0] == s.calls;
    } else {
      var c := Destroy(su.appName, ms[i].id, true);
      assert ms[i..][1..] == ms[i + 1..];
      assert DestroyCalls(su.appName, ms[i..]) == [c] + DestroyCalls(su.appName, ms[i + 1..]);
      if w(s.calls, c).Done? {
        DestroyFromPlanAt(su, w, Log(s, c), ms, i + 1);
        PlanPrefixThen(w, s.calls, s.calls + [c], DestroyFrom(su, w, Log(s, c), ms, i + 1), [c], DestroyCalls(su.appName, ms[i + 1..]));
      } else {
        assert (s.calls + [c])[..|s.calls|] == s.calls;
        assert DestroyCalls(su.appName, ms[i..])[..1] == [c];
      }
    }
  }


  lemma SetPlatformPlan(su: Setup, w: World, s: MState, v: string)
    ensures PlanPrefix(w, s.calls, SetPlatform(su, w, s, v), [SetPlatformVersion(su.configAppName, v, s.appLock)])
  {
    var c := SetPlatformVersion(su.configAppName, v, s.appLock);
    assert (s.calls + [c])[..|s.calls|] == s.calls;
    assert [c][..1] == [c];
  }

  lemma SimplePlan(w: World, s: MState, c: Call)
    ensures PlanPrefix(w, s.calls, Simple(w, s, c), [c])
  {
    assert (s.calls + [c])[..|s.calls|] == s.calls;
    assert [c][..1] == [c];
  }

  /** After every recorded machine is destroyed: the platform step and the restore step, in that order. */
  lemma RestoreNomadCalls(su: Setup, w: World, s: MState)
    ensures PlanPrefix(w, s.calls, RestoreNomad(su, w, s), UnswitchPlan(su, s) + RestorePlan(su, s))
    ensures RestoreNomad(su, w, s).s.recovery.appLocked == s.recovery.appLocked
    ensures RestoreNomad(su, w, s).s.appLock == s.appLock
  {
    var u, r := UnswitchPlan(su, s), RestorePlan(su, s);
    var p := if s.recovery.platformVersion != "nomad" then SetPlatform(su, w, s, "nomad") else Outcome(s, None);
    if s.recovery.platformVersion != "nomad" {
      SetPlatformPlan(su, w, s, "nomad");
    } else {
      assert s.calls + u[..0] == s.calls;
    }
    assert PlanPrefix(w, s.calls, p, u);
    if p.err.Some? {
      PlanPrefixStopped(w, s.calls, p, u, r);
    } else {
      var q := RestoreNomad(su, w, s);
      if p.s.recovery.scaledToZero && |su.oldAllocs| > 0 {
        SimplePlan(w, p.s, SetNomadVmCount(su.configAppName, su.oldVmCounts, if p.s.recovery.appLocked then p.s.appLock else ""));
      } else {
        assert p.s.calls + r[..0] == p.s.calls;
      }
      assert PlanPrefix(w, p.s.calls, q, r);
      PlanPrefixThen(w, s.calls, p.s.calls, q, u, r);
    }
  }

  /**
   * The body of `rollback` issues a prefix of its plan (destroy the recorded
   * machines, set the platform back to "nomad" unless it is recorded as
   * "nomad", restore the Nomad counts when they were scaled to zero and there
   * were allocations), all of it when it succeeds; it stops at the first
   * refused call.
   */
  lemma RevertBodyCalls(su: Setup, w: World, s: MState)
    ensures PlanPrefix(w, s.calls, RevertBody(su, w, s), BodyPlan(su, s))
    ensures RevertBody(su, w, s).s.recovery.appLocked == s.recovery.appLocked
    ensures RevertBody(su, w, s).s.appLock == s.appLock
  {
    var ms := s.recovery.machinesCreated;
    var d := DestroyFrom(su, w, s, ms, 0);
    DestroyFromPlan(su, w, s, ms);
    if d.err.Some? {
      RevertBodyStopped(su, w, s, d);
    } else {
      RevertBodyResumed(su, w, s, d);
    }
  }

  /** A rollback whose destroy loop was refused has issued a prefix of the whole body plan. */
  lemma RevertBodyStopped(su: Setup, w: World, s: MState, d: Outcome)
    requires PlanPrefix(w, s.calls, d, DestroyCalls(su.appName, s.recovery.machinesCreated)) && d.err.Some?
    ensures PlanPrefix(w, s.calls, d, BodyPlan(su, s))
  {
    var destroys := DestroyCalls(su.appName, s.recovery.machinesCreated);
    var rest := UnswitchPlan(su, s) + RestorePlan(su, s);
    assert BodyPlan(su, s) == destroys + rest;
    PlanPrefixStopped(w, s.calls, d, destroys, rest);
  }

  /** After a complete destroy loop that changed only the calls, the restore steps finish the body plan. */
  lemma RevertBodyResumed(su: Setup, w: World, s: MState, d: Outcome)
    requires PlanPrefix(w, s.calls, d, DestroyCalls(su.appName, s.recovery.machinesCreated)) && d.err.None?
    requires d.s == s.(calls := d.s.calls)
    ensures PlanPrefix(w, s.calls, RestoreNomad(su, w, d.s), BodyPlan(su, s))
    ensures RestoreNomad(su, w, d.s).s.recovery.appLocked == s.recovery.appLocked
    ensures RestoreNomad(su, w, d.s).s.appLock == s.appLock
  {
    var destroys := DestroyCalls(su.appName, s.recovery.machinesCreated);
    var rest := UnswitchPlan(su, s) + RestorePlan(su, s);
    assert BodyPlan(su, s) == destroys + rest;
    PlanCompleted(w, s.calls, d, destroys);
    RestoreNomadCalls(su, w, d.s);
    assert UnswitchPlan(su, d.s) + RestorePlan(su, d.s) == rest;
    PlanPrefixThen(w, s.calls, d.s.calls, RestoreNomad(su, w, d.s), destroys, rest);
  }

  /** The deferred part of `rollback` always runs: unlock while locked, then resume the app. */
  lemma RevertCalls(su: Setup, w: World, s: MState)
    ensures Revert(su, w, s).s.calls == RevertBody(su, w, s).s.calls + FinishPlan(su, s)
    ensures Revert(su, w, s).err == RevertBody(su, w, s).err
  {
    RevertBodyCalls(su, w, s);
  }

  /** The body of `rollback` starts with one destroy per recorded machine, in order; all of them are issued when it succeeds. */
  lemma RevertDestroysRecorded(su: Setup, w: World, s: MState)
    ensures var ms := s.recovery.machinesCreated;
      && |ms| <= |BodyPlan(su, s)|
      && BodyPlan(su, s)[..|ms|] == DestroyCalls(su.appName, ms)
      && (RevertBody(su, w, s).err.None? ==>
            && |s.calls| + |ms| <= |RevertBody(su, w, s).s.calls|
            && RevertBody(su, w, s).s.calls[|s.calls|..|s.calls| + |ms|] == DestroyCalls(su.appName, ms))
  {
    RevertBodyCalls(su, w, s);
    var d := DestroyCalls(su.appName, s.recovery.machinesCreated);
    var rest := UnswitchPlan(su, s) + RestorePlan(su, s);
    assert BodyPlan(su, s) == d + rest;
    SliceOfAppend(s.calls, d, rest);
    if RevertBody(su, w, s).err.None? {
      PlanCompleted(w, s.calls, RevertBody(su, w, s), BodyPlan(su, s));
    }
  }

  /** A run that issued a prefix of its plan and did not fail issued all of it. */
  lemma PlanCompleted(w: World, before: seq<Call>, o: Outcome, plan: seq<Call>)
    requires PlanPrefix(w, before, o, plan) && o.err.None?
    ensures o.s.calls == before + plan
  {
    assert plan[..|plan|] == plan;
  }

  lemma SliceOfAppend(before: seq<Call>, d: seq<Call>, rest: seq<Call>)
    ensures (d + rest)[..|d|] == d
    ensures (before + (d + rest))[|before|..|before| + |d|] == d
  {
  }

  /**
   * A rollback after an honest run destroys exactly the machines the
   * successful launches returned, in launch order, unless a destroy fails.
   */
  lemma RevertDestroysLaunched(su: Setup, w: World, k: nat, l0: bool, p0: string, z0: bool, gs: set<string>, s: MState)
    requires Honest(w, k, l0, p0, z0, gs, s)
    ensures |Launched(w, s.calls, k)| <= |BodyPlan(su, s)|
    ensures BodyPlan(su, s)[..|Launched(w, s.calls, k)|] == DestroyCalls(su.appName, Launched(w, s.calls, k))
    ensures RevertBody(su, w, s).err.None? ==>
      && |s.calls| + |Launched(w, s.calls, k)| <= |RevertBody(su, w, s).s.calls|
      && RevertBody(su, w, s).s.calls[|s.calls|..|s.calls| + |Launched(w, s.calls, k)|] == DestroyCalls(su.appName, Launched(w, s.calls, k))
  {
    RevertDestroysRecorded(su, w, s);
  }

  /**
   * The deferred part of `rollback` only reports its failures: a refused
   * unlock (tried only while the app is recorded as locked) is reported and
   * leaves the app recorded as locked, then the resume is asked for on the
   * calls after the unlock, and its refusal is reported unless it says
   * "not suspended".
   */
  lemma RevertFinishReports(su: Setup, w: World, s: MState)
    ensures var unlock := UnlockApp(su.configAppName, s.appLock);
      var u := w(s.calls, unlock);
      var resumeAt := if s.recovery.appLocked then s.calls + [unlock] else s.calls;
      var r := w(resumeAt, ResumeApp(su.appName));
      && RevertFinish(su, w, s).calls == resumeAt + [ResumeApp(su.appName)]
      && RevertFinish(su, w, s).recovery.appLocked == (s.recovery.appLocked && u.Refused?)
      && RevertFinish(su, w, s).errOut ==
           s.errOut
           + (if s.recovery.appLocked && u.Refused? then ["failed to unlock app: " + u.msg] else [])
           + (if r.Refused? && !Contains(r.msg, "not suspended") then ["failed to unsuspend app: " + r.msg] else [])
  {
  }

  // ----- Composition of runs -----

  /** Steps other than the point of no return leave "only prompt to save the config" unset. */
  lemma {:induction false} RunKeepsRollback(su: Setup, w: World, aborts: set<Checkpoint>, ops: seq<Op>, s: MState, d: bool)
    requires OpNoReturn !in ops
    requires !s.recovery.onlyPromptToConfigSave
    ensures !Run(su, w, aborts, ops, s, d).s.recovery.onlyPromptToConfigSave
    decreases |ops|
  {
    if |ops| > 0 {
      var o := Exec(su, w, aborts, ops[0], s);
      assert ops[0] in ops;
      ExecKeepsRollback(su, w, aborts, ops[0], s);
      if o.err.None? {
        assert forall op :: op in ops[1..] ==> op in ops;
        RunKeepsRollback(su, w, aborts, ops[1..], o.s, d || ops[0] == OpAcquireLeases);
      }
    }
  }

  lemma ExecKeepsRollback(su: Setup, w: World, aborts: set<Checkpoint>, op: Op, s: MState)
    requires op != OpNoReturn
    ensures Exec(su, w, aborts, op, s).s.recovery.onlyPromptToConfigSave == s.recovery.onlyPromptToConfigSave
  {
    if op == OpScaleDown {
      ScaleDownFrame(su, w, s);
    } else if op == OpCreate {
      LaunchFromFrame(su, w, s, 0, []);
    }
  }

  /** The script is the steps before the switch followed by `Tail`; machines are created once, and only the tail passes the point of no return. */
  lemma ScriptParts(c: bool)
    ensures Script(c) == (Front(c) + [OpCreate] + Back(c)) + Tail
    ensures OpCreate !in Front(c) && OpCreate !in Back(c) && OpCreate !in Tail
    ensures OpNoReturn !in Front(c) + [OpCreate] + Back(c)
  {
  }

  /**
   * What having passed the point of no return means: the platform is
   * recorded as "machines", the switch to "machines" was the second to last
   * call and the configuration write the last one.
   */
  ghost predicate PassedNoReturnAfterSwitch(su: Setup, s: MState)
  {
    s.recovery.onlyPromptToConfigSave ==>
      && s.recovery.platformVersion == "machines"
      && |s.calls| >= 2
      && s.calls[|s.calls| - 2] == SetPlatformVersion(su.configAppName, "machines", s.appLock)
      && s.calls[|s.calls| - 1] == WriteConfig(su.configPath)
  }

  /** After a successful switch: pass the point of no return, then write the configuration. */
  lemma AfterSwitchRun(su: Setup, w: World, aborts: set<Checkpoint>, s: MState, d: bool)
    ensures var o := Run(su, w, aborts, [OpNoReturn, OpWriteConfig], s, d);
      && o.err != Some(Aborted)
      && o.s.recovery == s.recovery.(onlyPromptToConfigSave := true)
      && o.s.appLock == s.appLock
      && o.s.calls == s.calls + [WriteConfig(su.configPath)]
  {
    assert [OpNoReturn, OpWriteConfig][1..] == [OpWriteConfig];
    assert [OpWriteConfig][1..] == [];
  }

  /** The last three steps: the switch to "machines", the point of no return, the configuration write. */
  lemma TailRun(su: Setup, w: World, aborts: set<Checkpoint>, s: MState, d: bool)
    requires !s.recovery.onlyPromptToConfigSave
    ensures Run(su, w, aborts, Tail, s, d).err != Some(Aborted)
    ensures PassedNoReturnAfterSwitch(su, Run(su, w, aborts, Tail, s, d).s)
  {
    var rest := [OpNoReturn, OpWriteConfig];
    assert Tail == [OpSwitch] + rest;
    RunCons(su, w, aborts, OpSwitch, rest, s, d);
    var sw := SetPlatform(su, w, s, "machines");
    if sw.err.None? {
      AfterSwitchRun(su, w, aborts, sw.s, d);
    }
  }

  /** The same for whatever ran before the tail, as long as it did not pass the point of no return. */
  lemma ThenTail(su: Setup, w: World, aborts: set<Checkpoint>, ro: RunOutcome)
    requires !ro.s.recovery.onlyPromptToConfigSave
    ensures Then(su, w, aborts, ro, Tail).err == Some(Aborted) ==> !Then(su, w, aborts, ro, Tail).s.recovery.onlyPromptToConfigSave
    ensures PassedNoReturnAfterSwitch(su, Then(su, w, aborts, ro, Tail).s)
  {
    if ro.err.None? {
      TailRun(su, w, aborts, ro.s, ro.leasesDeferred);
    }
  }

  /**
   * The point of no return: `Migrate` skips its rollback only when the
   * platform switch to "machines" succeeded and the configuration write that
   * followed it failed. An abort therefore always leads to a rollback.
   */
  lemma PointOfNoReturn(su: Setup, w: World, aborts: set<Checkpoint>, s0: MState)
    requires !s0.recovery.onlyPromptToConfigSave
    ensures PassedNoReturnAfterSwitch(su, Forward(su, w, aborts, s0).s)
    ensures Forward(su, w, aborts, s0).err == Some(Aborted) ==> !Forward(su, w, aborts, s0).s.recovery.onlyPromptToConfigSave
  {
    var c := su.canAvoidDowntime;
    var pre := Front(c) + [OpCreate] + Back(c);
    ScriptParts(c);
    var st := Started(su, s0);
    RunAppend(su, w, aborts, pre, Tail, st, false);
    RunKeepsRollback(su, w, aborts, pre, st, false);
    ThenTail(su, w, aborts, Run(su, w, aborts, pre, st, false));
  }

  /** Recording the point of no return means the rollback is skipped and the operator is told to save the config. */
  lemma RecoverSkipsRollback(su: Setup, w: World, s: MState, err: MigErr)
    requires s.recovery.onlyPromptToConfigSave
    ensures Recover(su, w, s, err) == s.(errOut := s.errOut + SaveHint)
  {
  }

  /** Without the point of no return, an error is followed by a full rollback, announced by its header. */
  lemma RecoverRollsBack(su: Setup, w: World, s: MState, err: MigErr)
    requires !s.recovery.onlyPromptToConfigSave
    ensures var s1 := s.(errOut := s.errOut + [if err.Aborted? then AbortHeader else ErrorHeader]);
      Recover(su, w, s, err).calls == Revert(su, w, s1).s.calls
  {
  }

  // ----- Single steps -----

  /** A failed deployment is swallowed: only failing to set the deployment up is an error. */
  lemma DeploySwallowsFailure(su: Setup, w: World, s: MState)
    ensures Deploy(su, w, s).err.Some? <==> w(s.calls, NewMachineDeployment(su.appName)).Refused?
    ensures Deploy(su, w, s).err.None? ==>
      Deploy(su, w, s).s.calls == s.calls + [NewMachineDeployment(su.appName), DeployMachinesApp(su.appName)]
  {
  }

  /** Scaling down asks for zero VMs in every known group (when there is one) before it polls, and records success only. */
  lemma ScaleDownRequest(su: Setup, w: World, s: MState)
    requires |su.oldVmCounts| > 0
    ensures |ScaleDown(su, w, s).s.calls| > |s.calls|
    ensures ScaleDown(su, w, s).s.calls[|s.calls|] == SetNomadVmCount(su.configAppName, ZeroCounts(su.oldVmCounts), s.appLock)
  {
    var c := SetNomadVmCount(su.configAppName, ZeroCounts(su.oldVmCounts), s.appLock);
    var o := Simple(w, s, c);
    if o.err.None? {
      AwaitZeroFrame(su, w, o.s, su.pollBudget);
      var o2 := AwaitZero(su, w, o.s, su.pollBudget);
      assert o2.s.calls[..|o.s.calls|] == o.s.calls;
      assert o2.s.calls[|s.calls|] == o2.s.calls[..|o.s.calls|][|s.calls|];
    }
  }

  /** With no process groups to scale, no count update is sent: the step only polls the allocations. */
  lemma ScaleDownNoGroups(su: Setup, w: World, s: MState)
    requires |su.oldVmCounts| == 0
    ensures var o := ScaleDown(su, w, s);
      |o.s.calls| >= |s.calls| && o.s.calls == s.calls + Polls(su.appName, |o.s.calls| - |s.calls|)
  {
    AwaitZeroCalls(su, w, s, su.pollBudget);
  }

  /**
   * A scale-down succeeds only after the platform accepted the update setting
   * every process group to zero (when there are groups) and the last poll
   * found no allocations.
   */
  lemma ScaleDownSucceeded(su: Setup, w: World, s: MState)
    requires ScaleDown(su, w, s).err.None?
    ensures |su.oldVmCounts| > 0 ==> w(s.calls, SetNomadVmCount(su.configAppName, ZeroCounts(su.oldVmCounts), s.appLock)).Done?
    ensures var o := ScaleDown(su, w, s);
      && |o.s.calls| > |s.calls|
      && var r := w(o.s.calls[..|o.s.calls| - 1], o.s.calls[|o.s.calls| - 1]); r.Done? && r.n == 0
  {
    var o := if |su.oldVmCounts| > 0
             then Simple(w, s, SetNomadVmCount(su.configAppName, ZeroCounts(su.oldVmCounts), s.appLock))
             else Outcome(s, None);
    AwaitZeroSuccess(su, w, o.s, su.pollBudget);
  }

  /**
   * `createRelease` asks for one "machines" release of the app's image and
   * config; only the call log and, on success, the release id and version
   * change, and a refusal is the step's error.
   */
  lemma ReleaseRecorded(su: Setup, w: World, s: MState)
    ensures var c := CreateRelease(su.configAppName, "machines", su.img, su.config);
      var r := w(s.calls, c);
      var o := MakeRelease(su, w, s);
      && o.s.calls == s.calls + [c]
      && (o.err.Some? <==> r.Refused?)
      && (r.Refused? ==> o.err == Some(Failure(r.msg)) && o.s == s.(calls := o.s.calls))
      && (!r.Refused? ==> o.s == s.(calls := o.s.calls, releaseId := r.id, releaseVersion := r.n))
  {
  }

  /** Starting from "not scaled down", the scale-down is recorded exactly when it succeeded. */
  lemma ScaleDownRecorded(su: Setup, w: World, s: MState)
    requires !s.recovery.scaledToZero
    ensures ScaleDown(su, w, s).s.recovery.scaledToZero <==> ScaleDown(su, w, s).err.None?
  {
    ScaleDownFrame(su, w, s);
  }

  /** Nomad is scaled down before the machines are created exactly when downtime cannot be avoided. */
  lemma ScaleDownPlacement(canAvoidDowntime: bool)
    ensures OpScaleDown in Front(canAvoidDowntime) <==> !canAvoidDowntime
    ensures OpScaleDown in Back(canAvoidDowntime) <==> canAvoidDowntime
  {
  }
}
