# flyctl core, modelled in Dafny

This project models the parts of `flyctl`, the Fly.io command-line tool, that decide things without needing the network. Every Fly.io API call, flaps call and deploy call is an oracle passed in as a parameter. The oracle takes the calls issued so far and the next call, and answers with success or a refusal. The record of issued calls is part of the state.

- **Apps V1 (Nomad) → Apps V2 (machines) migration** (`internal/command/migrate_to_v2/migrate_to_v2.go`).
  - `MigratePlan` models what `NewV2PlatformMigrator` computes before anything changes:
    - the pre-flight `validate`;
    - the VM size translation;
    - the primary region;
    - one `LaunchMachineInput` per legacy allocation;
    - the per-process-group VM counts.
  - `MigrateToV2` holds the `v2PlatformMigrator` as a class. Its fields are those the migration updates in place: the recovery ledger, the app lock, the new machines, the issued calls and the error stream.
    - Each step method is proved equal to a function over the state.
    - `Migrate` runs lock → early scale-down → `detached` → release → create machines → leases → unlock → deploy → late scale-down → `machines` → write config. Abort checkpoints fall between the steps.
    - `Migrate` is proved equal to a step-list interpreter, plus the deferred lease release and the deferred rollback handler.
  - `MigrateProps` proves properties of that model:
    - the ledger records only effects the platform confirmed;
    - the ledger's machines are exactly the launched prefix;
    - the rollback issues exactly the calls the ledger calls for;
    - the rollback is skipped only after the switch to `machines` succeeded.
- **Command plumbing** (`internal/command/command.go`), module `Command`:
  - the `prepare` chain;
  - `applyAliases`, as a class over the pflag flag set;
  - `shouldIgnore`;
  - the config-file candidates;
  - `LoadAppConfigIfPresent`, `RequireAppName` and `LoadAppNameIfPresent`.
- **Flag definitions** (`internal/flag/flag.go`), module `Flag`:
  - `makeAlias`;
  - the `addTo` registration of a flag, its hidden alias flags and its `flyctl_alias` annotation, as a class over the command's flag list.
  - A lemma links what `addTo` registers to what `applyAliases` later consolidates.
- **`fly apps create`** (`internal/command/apps/create.go`), module `AppsCreate`:
  - `areNamesClashing`;
  - the name-selection switch;
  - `shouldAppUseMachinesPlatform`;
  - the `CreateAppInput` that `RunCreate` sends.
- **Waiting for a machine** (`internal/machine/wait.go`), module `MachineWait`: `WaitForStartOrStop`, with the `backoff.Backoff` object as a class. The loop runs over a finite sequence of observed attempts.
- **Doc-string generator** (`helpgen/helpgen.go`), module `Helpgen`: the recursive `dumpMap` walk.
  - The entries it prints and the nodes it reports are kept in an `Emitter` object.
  - A failed type assertion (a Go panic) is the `panicked` result.
- `Common` holds `Option`/`Result`, `strings.Replace(…, 1)`, `strconv.Itoa` and prefix tests.

Where a doc comment and the code disagree, the model follows the code:

- `applyAliases` (`internal/command/command.go:154-159`) promises that the main flag takes the value of the *first* alias that was set. The loop never updates `gotValue`, though, so every set alias overwrites the main flag in turn and the *last* one wins. `Command.AliasPassLastWins` and `Command.SecondAliasWins` state this as written.
- `validate` returns nil when `validateScaling` fails, so with autoscaling enabled the volume and process-group checks are skipped (`MigratePlan.AutoscalingSkipsChecks`). An allocation whose group is then unknown makes `resolveMachineFromAlloc` read a nil process config. That is modelled as an error (`MigratePlan.AutoscalingUnknownGroupPanics`).
- `deployApp` swallows a failed `DeployMachinesApp` (`MigrateProps.DeploySwallowsFailure`).
- The name clash in `RunCreate` also fires when no name is given at all, because three empty strings repeat (`AppsCreate.ClashIffNoneOrSame`).

## Model

| member | source | states |
|---|---|---|
| MigratePlan.FirstWithVolume | internal/command/migrate_to_v2/migrate_to_v2.go:488-492 | the index of the first allocation with an attached volume, with none before it; none exactly when no allocation has a volume |
| MigratePlan.FirstUnknownGroup | internal/command/migrate_to_v2/migrate_to_v2.go:498-502 | the index of the first allocation whose task name is not a process group, every earlier one being known; none exactly when all are known |
| MigratePlan.ValidateRejects | internal/command/migrate_to_v2/migrate_to_v2.go:452-504 | `validate` fails exactly when the config is invalid for machines, or autoscaling is off and there is a `[mounts]` section, an allocation with a volume, or an allocation with an unknown process group |
| MigratePlan.AutoscalingSkipsChecks | internal/command/migrate_to_v2/migrate_to_v2.go:458-461 | with autoscaling enabled and a valid config, `validate` returns nil whatever the volumes and groups |
| MigratePlan.AutoscalingUnknownGroupPanics | internal/command/migrate_to_v2/migrate_to_v2.go:458-461 | with autoscaling enabled, an allocation of an unknown group passes `validate` and then makes the launch plan fail |
| MigratePlan.DetermineVmSpecs | internal/command/migrate_to_v2/migrate_to_v2.go:889-902 | succeeds exactly when the size name, with its first "dedicated-cpu" replaced by "performance", is a known preset; the guest keeps the Nomad VM's memory |
| MigratePlan.DedicatedCpuBecomesPerformance | internal/command/migrate_to_v2/migrate_to_v2.go:891 | a "dedicated-cpu…" size maps to the "performance…" preset of the same suffix, with the VM's memory |
| MigratePlan.OtherSizesUnchanged | internal/command/migrate_to_v2/migrate_to_v2.go:891 | a size name without "dedicated-cpu" is looked up as it is |
| MigratePlan.DeterminePrimaryRegion | internal/command/migrate_to_v2/migrate_to_v2.go:782-803 | only the primary region changes; `PRIMARY_REGION` in the env wins without a prompt; otherwise it succeeds exactly when the prompt returned a region |
| MigratePlan.DefaultMachineMetadata | internal/command/migrate_to_v2/migrate_to_v2.go:710-721 | exactly the platform-version, release-id, release-version and process-group keys, with their values, plus `fly-managed-postgres` = "true" exactly for Postgres apps |
| MigratePlan.ResolveMachineFromAllocFields | internal/command/migrate_to_v2/migrate_to_v2.go:742-780 | an input exists exactly when the group is known, and then it has the allocation's region, the image, the guest, the metadata with the task name as group, the env with `PRIMARY_REGION` when set, a mount exactly when one volume is attached, the group's services and checks, and a nil command exactly when the group's is empty |
| MigratePlan.PlanShape | internal/command/migrate_to_v2/migrate_to_v2.go:730-740 | the plan exists exactly when every allocation's group is known; then it has one input per allocation, in allocation order |
| MigratePlan.ResolveMachinesFromAllocs | internal/command/migrate_to_v2/migrate_to_v2.go:730-740 | the loop returns the plan, and stops with the first allocation's error |
| MigratePlan.VmCountsMeaning | internal/command/migrate_to_v2/migrate_to_v2.go:555-561 | the counted groups are exactly the task names, and each count is the number of allocations of that task |
| MigratePlan.ResolveProcessGroups | internal/command/migrate_to_v2/migrate_to_v2.go:555-561 | the counting loop yields the per-group counts |
| MigratePlan.VmCountsPositive | internal/command/migrate_to_v2/migrate_to_v2.go:555-561 | every counted group has at least one allocation |
| MigratePlan.VmCountsTotal | internal/command/migrate_to_v2/migrate_to_v2.go:555-561 | the counts add up to the number of allocations |
| MigratePlan.NewSetupProperties | internal/command/migrate_to_v2/migrate_to_v2.go:131-223 | a constructed migrator is not already on machines, keeps the allocations and their counts, and has one launch input per allocation with its region and group, and with the still-empty release id "" and version "0" |
| MigratePlan.PlanBeforeRelease | internal/command/migrate_to_v2/migrate_to_v2.go:205-216 | a plan built before the release exists carries release id "" and version "0" in every input |
| MigratePlan.ValidatedPlanExists | internal/command/migrate_to_v2/migrate_to_v2.go:205-216 | without autoscaling, a configuration that passes `validate` always yields a launch plan |
| MigrateToV2.ZeroCounts | internal/command/migrate_to_v2/migrate_to_v2.go:567-570 | the scale-down request names every old group, with count zero |
| MigrateToV2.RunAppend | internal/command/migrate_to_v2/migrate_to_v2.go:338-449 | running two step lists one after the other is running their concatenation, stopping at the first error |
| MigrateToV2.ForwardPhases | internal/command/migrate_to_v2/migrate_to_v2.go:338-449 | the forward path is lock, detach, create, leases, unlock, deploy, late scale-down and the tail, in that order |
| MigrateToV2.Migrator.constructor | internal/command/migrate_to_v2/migrate_to_v2.go:182-203 | a new migrator has the construction's fields, an empty ledger apart from the platform version, and no calls |
| MigrateToV2.Migrator.Request | internal/command/migrate_to_v2/migrate_to_v2.go:289-450 | a remote call returns the platform's answer and is logged |
| MigrateToV2.Migrator.LockAppForMigration | internal/command/migrate_to_v2/migrate_to_v2.go:506-526 | the lock id and `appLocked` are recorded only when `LockApp` succeeded |
| MigrateToV2.Migrator.CreateRelease | internal/command/migrate_to_v2/migrate_to_v2.go:528-553 | a "machines" release with the app's image; its id and version are kept on success |
| MigrateToV2.Migrator.ScaleNomadToZero | internal/command/migrate_to_v2/migrate_to_v2.go:563-587 | the scale-down step: zero counts for every group are sent only when there are groups, then it waits; `scaledToZero` is set only after both succeeded, which MigrateProps.ScaleDownSucceeded and ScaleDownHonest state against the platform's answers |
| MigrateToV2.Migrator.WaitForAllocsZero | internal/command/migrate_to_v2/migrate_to_v2.go:589-618 | polls the allocations until none is left, an error, or the budget runs out (the timeout) |
| MigrateToV2.Migrator.UpdateAppPlatformVersion | internal/command/migrate_to_v2/migrate_to_v2.go:620-639 | the ledger's platform version changes only when `SetPlatformVersion` succeeded |
| MigrateToV2.Migrator.CreateMachines | internal/command/migrate_to_v2/migrate_to_v2.go:641-672 | launches the inputs in order up to the first failure, listing the active machines after every launch; the ledger records the machines launched so far, and `newMachines` is set only when all were |
| MigrateToV2.Migrator.UnlockApp | internal/command/migrate_to_v2/migrate_to_v2.go:674-692 | `appLocked` is cleared only when `UnlockApp` succeeded |
| MigrateToV2.Migrator.DeployApp | internal/command/migrate_to_v2/migrate_to_v2.go:694-708 | an error only when the deployment cannot be set up; a failed deploy is swallowed |
| MigrateToV2.Migrator.RollbackSteps | internal/command/migrate_to_v2/migrate_to_v2.go:245-284 | destroys the recorded machines in order, sets the platform back to "nomad" unless it is, restores the VM counts when scaled down and there were allocations; the first failure stops it |
| MigrateToV2.Migrator.Rollback | internal/command/migrate_to_v2/migrate_to_v2.go:225-287 | the body above, then the deferred unlock when still locked and the resume, whose errors are only reported ("not suspended" ignored) |
| MigrateToV2.Migrator.StepsLock | internal/command/migrate_to_v2/migrate_to_v2.go:338-357 | lock, abort check, the early scale-down only when downtime cannot be avoided, abort check |
| MigrateToV2.Migrator.StepsFront | internal/command/migrate_to_v2/migrate_to_v2.go:338-383 | everything before the leases: the lock steps, then the detach steps, then the machine creation, each only when the one before succeeded |
| MigrateToV2.Migrator.StepsDetach | internal/command/migrate_to_v2/migrate_to_v2.go:359-377 | platform "detached", abort check, release, abort check |
| MigrateToV2.Migrator.StepDetach | internal/command/migrate_to_v2/migrate_to_v2.go:359-366 | platform "detached", then the abort check |
| MigrateToV2.Migrator.StepRelease | internal/command/migrate_to_v2/migrate_to_v2.go:368-377 | create the release, then the abort check |
| MigrateToV2.Migrator.StepsLeases | internal/command/migrate_to_v2/migrate_to_v2.go:385-402 | abort check, acquire the leases (the deferred release is registered even when that fails), abort check, start the refresh |
| MigrateToV2.Migrator.StepsUnlock | internal/command/migrate_to_v2/migrate_to_v2.go:404-412 | unlock, abort check, release the leases |
| MigrateToV2.Migrator.StepsDeploy | internal/command/migrate_to_v2/migrate_to_v2.go:414-419 | deploy, abort check |
| MigrateToV2.Migrator.StepsLateScale | internal/command/migrate_to_v2/migrate_to_v2.go:421-431 | the late scale-down and its abort check, only on the zero-downtime path |
| MigrateToV2.Migrator.StepsFromSwitch | internal/command/migrate_to_v2/migrate_to_v2.go:433-446 | platform "machines", then past the point of no return, then write the config |
| MigrateToV2.Migrator.StepsBack | internal/command/migrate_to_v2/migrate_to_v2.go:385-446 | from the leases to the end: leases, unlock, deploy, late scale-down, switch, each only when the one before succeeded |
| MigrateToV2.Migrator.MigrateSteps | internal/command/migrate_to_v2/migrate_to_v2.go:338-449 | the whole forward path, in the source's order, stopping at the first error or abort |
| MigrateToV2.Migrator.ReleaseLeasesDeferred | internal/command/migrate_to_v2/migrate_to_v2.go:390-395 | the deferred lease release is one logged call |
| MigrateToV2.Migrator.RecoverFrom | internal/command/migrate_to_v2/migrate_to_v2.go:296-316 | before the point of no return: announce the abort or error, roll back, report a rollback failure; after it: only the hint to run `fly config save` |
| MigrateToV2.Migrator.Migrate | internal/command/migrate_to_v2/migrate_to_v2.go:289-450 | the forward path, then the deferred lease release, then the deferred recovery on an error |
| MigrateProps.MigrateHonest | internal/command/migrate_to_v2/migrate_to_v2.go:506-526 | after `Migrate`, rollback included, `appLocked` is what the last successful lock/unlock says, the platform version is the last one successfully set, `scaledToZero` only after the zero-count update for the app's process groups succeeded (when there are any) and a poll found no allocations, and the recorded machines are exactly those the launches returned, in order |
| MigrateProps.ForwardHonest | internal/command/migrate_to_v2/migrate_to_v2.go:338-449 | the same ledger facts after the forward path alone |
| MigrateProps.RecoverHonest | internal/command/migrate_to_v2/migrate_to_v2.go:296-316 | the recovery handler keeps the ledger truthful |
| MigrateProps.LockHonest | internal/command/migrate_to_v2/migrate_to_v2.go:506-526 | locking keeps the ledger truthful |
| MigrateProps.UnlockHonest | internal/command/migrate_to_v2/migrate_to_v2.go:674-692 | unlocking keeps the ledger truthful |
| MigrateProps.SetPlatformHonest | internal/command/migrate_to_v2/migrate_to_v2.go:620-639 | setting the platform keeps the ledger truthful |
| MigrateProps.ScaleDownHonest | internal/command/migrate_to_v2/migrate_to_v2.go:563-587 | scaling down keeps the ledger truthful: `scaledToZero` is set only after the update setting every group to zero was answered and a poll found no allocations |
| MigrateProps.AwaitZeroHonest | internal/command/migrate_to_v2/migrate_to_v2.go:589-618 | a successful wait has seen a poll with no allocations |
| MigrateProps.AwaitZeroCalls | internal/command/migrate_to_v2/migrate_to_v2.go:589-618 | the wait issues allocation polls and nothing else |
| MigrateProps.AwaitZeroSuccess | internal/command/migrate_to_v2/migrate_to_v2.go:600-610 | a wait succeeds only on a poll that found no allocations, which is its last call |
| MigrateProps.AwaitZeroFrame | internal/command/migrate_to_v2/migrate_to_v2.go:589-618 | the wait changes only the call log, issues at most the budget of polls, and fails only with a failure |
| MigrateProps.LaunchFromHonest | internal/command/migrate_to_v2/migrate_to_v2.go:641-672 | creating machines records exactly the launched machines |
| MigrateProps.LaunchFromFrame | internal/command/migrate_to_v2/migrate_to_v2.go:641-672 | creating machines changes only the calls (two per attempted launch), `newMachines` (all or nothing) and the ledger's machines; after a failure at launch n, n-1 machines are recorded |
| MigrateProps.LaunchFromCalls | internal/command/migrate_to_v2/migrate_to_v2.go:645-665 | each input is launched in input order, each launch followed by a listing of the active machines, up to and including the first launch that fails |
| MigrateProps.LaunchFailureReported | internal/command/migrate_to_v2/migrate_to_v2.go:645-665 | when the n-th launch fails, the first n inputs were launched and listed after, n-1 machines are recorded, `newMachines` is unchanged, and the error names that input's region |
| MigrateProps.DestroyFromFrame | internal/command/migrate_to_v2/migrate_to_v2.go:245-259 | destroying changes only the call log, and a failure stops it |
| MigrateProps.DestroyFromCalls | internal/command/migrate_to_v2/migrate_to_v2.go:245-259 | the destroys are forced destroys of the recorded machines, in order, a prefix of them |
| MigrateProps.DestroyFromFailure | internal/command/migrate_to_v2/migrate_to_v2.go:245-259 | a failed destroy run ends on the refused destroy |
| MigrateProps.DestroyFromPlan | internal/command/migrate_to_v2/migrate_to_v2.go:245-259 | destroying issues a prefix of the destroy plan: all of it on success, up to the refused call otherwise |
| MigrateProps.SetPlatformPlan | internal/command/migrate_to_v2/migrate_to_v2.go:620-639 | setting the platform issues one `SetPlatformVersion` call with the lock id |
| MigrateProps.RestoreNomadCalls | internal/command/migrate_to_v2/migrate_to_v2.go:260-284 | "nomad" is set only when the recorded version is not "nomad", and counts are restored only when scaled down and there were allocations, with the lock id only while locked |
| MigrateProps.RevertBodyCalls | internal/command/migrate_to_v2/migrate_to_v2.go:245-284 | the rollback body issues a prefix of destroy + un-switch + restore, stopping at the first refusal |
| MigrateProps.RevertCalls | internal/command/migrate_to_v2/migrate_to_v2.go:225-243 | the deferred unlock (when locked) and resume always follow the body, and do not change its error |
| MigrateProps.RevertDestroysRecorded | internal/command/migrate_to_v2/migrate_to_v2.go:245-259 | the rollback starts by destroying exactly the recorded machines |
| MigrateProps.RevertDestroysLaunched | internal/command/migrate_to_v2/migrate_to_v2.go:245-259 | with a truthful ledger, the rollback starts by destroying exactly the machines that were launched |
| MigrateProps.ReleaseRecorded | internal/command/migrate_to_v2/migrate_to_v2.go:528-553 | one "machines" release of the app's image and config is asked for; a refusal is the step's error and changes nothing else, and on success only the release id and version are kept |
| MigrateProps.RevertFinishReports | internal/command/migrate_to_v2/migrate_to_v2.go:227-242 | while the app is recorded as locked the unlock is tried first, and a refusal is reported and leaves it recorded as locked; then the resume is asked for after it, and its refusal is reported unless it says "not suspended" |
| MigrateProps.PointOfNoReturn | internal/command/migrate_to_v2/migrate_to_v2.go:433-446 | the point of no return is passed only right after a successful switch to "machines", and only the config write follows; an abort never comes after it |
| MigrateProps.RecoverSkipsRollback | internal/command/migrate_to_v2/migrate_to_v2.go:299-304 | past the point of no return, an error only prints the config-save hint |
| MigrateProps.RecoverRollsBack | internal/command/migrate_to_v2/migrate_to_v2.go:305-315 | before it, an error rolls back with exactly the rollback's calls |
| MigrateProps.RunKeepsRollback | internal/command/migrate_to_v2/migrate_to_v2.go:338-438 | no step before the point of no return sets it |
| MigrateProps.ScriptParts | internal/command/migrate_to_v2/migrate_to_v2.go:338-446 | machines are created exactly once, and only the tail passes the point of no return |
| MigrateProps.DeploySwallowsFailure | internal/command/migrate_to_v2/migrate_to_v2.go:694-708 | deploying fails exactly when setting up the deployment was refused; otherwise both calls are made and the result of the second is ignored |
| MigrateProps.ScaleDownRequest | internal/command/migrate_to_v2/migrate_to_v2.go:563-579 | with groups, the first call is the zero-count update for every group, with the lock id |
| MigrateProps.ScaleDownNoGroups | internal/command/migrate_to_v2/migrate_to_v2.go:565-579 | with no groups, no count update is sent; only polls are |
| MigrateProps.ScaleDownSucceeded | internal/command/migrate_to_v2/migrate_to_v2.go:563-587 | a successful scale-down had its zero-count update accepted (when there are groups), and its last poll found no allocations |
| MigrateProps.ScaleDownRecorded | internal/command/migrate_to_v2/migrate_to_v2.go:563-587 | `scaledToZero` is recorded exactly when the scale-down succeeded |
| MigrateProps.ScaleDownFrame | internal/command/migrate_to_v2/migrate_to_v2.go:563-587 | scaling down changes nothing but the calls and `scaledToZero` |
| MigrateProps.ScaleDownPlacement | internal/command/migrate_to_v2/migrate_to_v2.go:347-357 | Nomad is scaled down before the machines are created exactly when downtime cannot be avoided, and after the deploy otherwise |
| Command.Prepare | internal/command/command.go:127-137 | the loop returns what the chain of preparers returns |
| Command.ChainStopsAtFirstError | internal/command/command.go:127-137 | the chain fails exactly when some preparer fails after all earlier ones succeeded, and then returns that preparer's result |
| Command.ChainAppend | internal/command/command.go:127-137 | preparing with two lists is preparing with the first, then, if no error, with the second on its context |
| Command.ShouldIgnore | internal/command/command.go:436-458 | true exactly when the command path below the root equals one of the ignored lists |
| Command.SuffixDoesNotMatch | internal/command/command.go:436-458 | `["y"]` does not match `fly x y` |
| Command.JoinPath | internal/command/command.go:640-646 | the directory, then one `/` unless it already ends with one, then the name; an empty directory gives the name alone |
| Command.ConfigFilePaths | internal/command/command.go:638-649 | `[p, p/fly.toml]` for a given config path `p`, else `[wd/fly.toml]` |
| Command.PlatformFor | internal/command/command.go:602-636 | no app name gives an empty platform version; otherwise the API's answer, and an API error reads as an empty version because the caller drops it |
| Command.LoadFromFirstPresent | internal/command/command.go:597-619 | paths are tried in order, missing files are skipped, the first config found is loaded, and any other error stops with a message naming the path |
| Command.LoadedConfigKept | internal/command/command.go:588-592 | an already loaded config is kept as it is |
| Command.LoadFromKeepsInputs | internal/command/command.go:597-619 | loading changes only the config |
| Command.RequireAppNamePrecedence | internal/command/command.go:656-679 | the name comes from `--app`, else `FLY_APP`, else the config's app name; none is `ErrRequireAppName`; a load error passes through |
| Command.LoadAppNameIfPresentNeverMissing | internal/command/command.go:682-690 | a missing name becomes an empty name on the original context; any other result is `RequireAppName`'s |
| Command.Lookup | internal/command/command.go:176 | the flag with the given name, none when there is none |
| Command.AliasError | internal/command/command.go:206-220 | no error exactly when nothing is invalid; one message alone; with both, "multiple errors occured:" followed by each message on a line of its own after " > " |
| Command.FlagSet.constructor | internal/command/command.go:166 | the flag set as pflag holds it |
| Command.FlagSet.ApplyAliases | internal/command/command.go:160-222 | the `VisitAll` loop updates the flags and returns the error as the specification of the pass states |
| Command.AliasPassKeepsSetFlag | internal/command/command.go:181-196 | a main flag that was already set keeps its value |
| Command.AliasPassLastWins | internal/command/command.go:184-203 | otherwise the main flag takes the value of the last set alias and is marked changed |
| Command.ApplyAliasesConsolidates | internal/command/command.go:160-222 | with unique names and plain aliases, the pass succeeds and every flag ends up consolidated |
| Command.AddedFlagsConsolidate | internal/command/command.go:160-222 | flags registered by `addTo` always satisfy that, so consolidation succeeds |
| Command.RegisteredAliasesPlain | internal/command/command.go:169-188 | registered annotations name flags without aliases of their own |
| Command.SecondAliasWins | internal/command/command.go:154-159 | a concrete case where the second set alias, not the first, gives the value |
| Flag.MakeAlias | internal/flag/flag.go:56-76 | the alias has the alias name, is hidden, keeps only the description, and has an empty shorthand, zero default and no aliases |
| Flag.Cmd.constructor | internal/flag/flag.go:109 | an empty flag set |
| Flag.Cmd.AddTo | internal/flag/flag.go:108-127 | registers the flag, then one flag per alias, then annotates the flag with its aliases |
| Flag.Cmd.Add | internal/flag/flag.go:92-96 | registers the definitions in argument order |
| Flag.RegistrationShape | internal/flag/flag.go:108-127 | the flag first, with its shorthand, default, usage and visibility and annotated with the full alias list; then per alias, in order, a hidden flag with the same type and usage, no shorthand, the zero default and an empty annotation |
| Flag.AliasRegistersOne | internal/flag/flag.go:120-122 | an alias registers exactly one flag: the recursion stops there |
| Flag.AliasFlagsUnannotated | internal/flag/flag.go:120-126 | only the main flag lists aliases |
| Flag.AliasesRegisteredOne | internal/flag/flag.go:120-126 | every alias in the annotation names a registered flag without aliases |
| Flag.RegistrationsAliasesRegistered | internal/flag/flag.go:85-96 | the same holds for any list of definitions added |
| AppsCreate.AreNamesClashing | internal/command/apps/create.go:132-140 | true exactly when some name occurs twice, empty names included |
| AppsCreate.Compact | internal/command/apps/create.go:81 | the non-empty names, and only those |
| AppsCreate.ClashIffNoneOrSame | internal/command/apps/create.go:81-85 | the clash error fires exactly when no name is given, or two given names are the same non-empty name |
| AppsCreate.ClashExamples | internal/command/apps/create.go:81-85 | two different names do not clash, and three empty names do |
| AppsCreate.NamePrecedence | internal/command/apps/create.go:86-98 | fly.toml's name, else the argument, else `--name`, else generated or asked for |
| AppsCreate.UseMachines | internal/command/apps/create.go:142-153 | `--machines` gives true, else `--nomad` false, else the organization's default, its error included |
| AppsCreate.CreateInput | internal/command/apps/create.go:79-120 | the input is sent exactly when the name, organization and platform were settled, with the chosen name, the org id, the platform and the network only when given |
| MachineWait.Backoff.constructor | internal/machine/wait.go:31-36 | the backoff's bounds and factor, with no attempt yet |
| MachineWait.Backoff.Duration | internal/machine/wait.go:53 | the pause for the current attempt, advancing the attempt |
| MachineWait.PauseSchedule | internal/machine/wait.go:31-36 | the pauses are 500 ms, 1 s, then 2 s |
| MachineWait.WaitForStartOrStop | internal/machine/wait.go:15-56 | the loop behaves as the specification of the wait |
| MachineWait.FirstFinal | internal/machine/wait.go:37-55 | the first attempt that ends the loop, all before it being retryable |
| MachineWait.Pauses | internal/machine/wait.go:53 | the k-th retry's pause is the k-th of the schedule |
| MachineWait.WaitOutcomeClassified | internal/machine/wait.go:21-55 | the first non-retryable attempt decides: success returns nil, cancellation the raw error, deadline "timeout reached", a 400 a failure without retry; each wait asks for the action's state, each retry follows its pause |
| MachineWait.UnknownActionRefused | internal/machine/wait.go:21-29 | another action than start or stop fails before any wait |
| MachineWait.FirstSuccessReturns | internal/machine/wait.go:37-41 | a first successful wait returns at once, without a pause |
| Helpgen.Find | helpgen/helpgen.go:31 | the position of a key in the map, none when absent |
| Helpgen.KeysOf | helpgen/helpgen.go:40-43 | the map's keys, in iteration order |
| Helpgen.CollectKeys | helpgen/helpgen.go:40-43 | the append loop collects exactly those keys |
| Helpgen.SpaceEnd | helpgen/helpgen.go:37 | the end of the white space starting at an index: all white space up to it, and not white space there |
| Helpgen.SpaceStart | helpgen/helpgen.go:37 | the start of the white space ending at an index, symmetrically |
| Helpgen.TrimSpace | helpgen/helpgen.go:37 | a substring of `s` with only white space cut off at both ends, starting and ending with no white space |
| Helpgen.TrimSpaceIdempotent | helpgen/helpgen.go:37 | trimming twice is trimming once |
| Helpgen.TrimSpaceKeepsTrimmed | helpgen/helpgen.go:37 | a trimmed string is left unchanged |
| Helpgen.BelowTotal | helpgen/helpgen.go:45 | the string order compares any two keys |
| Helpgen.BelowTransitive | helpgen/helpgen.go:45 | the string order is transitive |
| Helpgen.BelowAntisymmetric | helpgen/helpgen.go:45 | the string order is antisymmetric |
| Helpgen.InsertSorted | helpgen/helpgen.go:45 | inserting into a sorted list keeps it sorted |
| Helpgen.InsertPermutation | helpgen/helpgen.go:45 | inserting adds exactly the element |
| Helpgen.SortSeqSortedPermutation | helpgen/helpgen.go:45 | the sorted keys are sorted and a permutation of the keys |
| Helpgen.Emitter.constructor | helpgen/helpgen.go:23-25 | nothing printed yet |
| Helpgen.Emitter.DumpMap | helpgen/helpgen.go:30-62 | prints and reports as the specification of the walk states |
| Helpgen.Emitter.DumpChildren | helpgen/helpgen.go:47-61 | the children loop, as the specification states |
| Helpgen.OwnEntryFirst | helpgen/helpgen.go:31-38 | a node with `usage` prints its own entry first, keyed by its path and with trimmed strings, and all later entries are under its path |
| Helpgen.DumpExtends | helpgen/helpgen.go:30-62 | the walk only appends, and every entry it adds is the node's path or under it |
| Helpgen.DumpKeysExtends | helpgen/helpgen.go:47-61 | the same for the children loop |
| Helpgen.VisitExtends | helpgen/helpgen.go:48-60 | the same for one child, whose path is `k` at the top and `prefix.k` below |
| Helpgen.UnderChild | helpgen/helpgen.go:51-52 | a key under a child's path is under the parent's |
| Helpgen.LeavesWriteNothing | helpgen/helpgen.go:56-60 | children that are not maps print no entry |
| Helpgen.DumpPanicsIffMalformed | helpgen/helpgen.go:33-35 | the walk panics exactly when some node with `usage` lacks a string `usage`, `shortHelp` or `longHelp` |
| Helpgen.DumpKeysPanics | helpgen/helpgen.go:47-55 | the children loop panics exactly when some visited child is malformed |
| Helpgen.VisitPanics | helpgen/helpgen.go:48-55 | one child panics exactly when it is a malformed map |
| Helpgen.SortedKeysBad | helpgen/helpgen.go:40-47 | sorting the keys neither adds nor loses a malformed child |
| Common.ReplaceFirstAbsent | internal/command/migrate_to_v2/migrate_to_v2.go:891 | replacing an absent pattern changes nothing |
| Common.ReplaceFirstAtStart | internal/command/migrate_to_v2/migrate_to_v2.go:891 | a pattern at the start is replaced there |
| Common.NatToString | internal/command/migrate_to_v2/migrate_to_v2.go:714 | decimal digits with no leading zero, whose value is the number |
| Common.Itoa | internal/command/migrate_to_v2/migrate_to_v2.go:714 | a decimal numeral, with a leading minus exactly for negative numbers, whose value is the number |

## Left out

- The signal goroutine and `atomic.Bool` of `Migrate`. An abort is the set of checkpoints at which the flag is found set.
- The lease refresh goroutine and the `MachineSet` internals. Acquiring, refreshing and releasing leases are single calls to the oracle.
- `waitForAllocsZero`'s spinner, jittered backoff and one-hour timeout. The hour is a budget of polls fixed at construction.
- The sleep in `WaitForStartOrStop`, the 60-second per-call timeout and the context creation.
  - The context's state after each failed attempt is an input.
  - The loop runs over a finite list of observed attempts. When the list runs out while retrying, the outcome is `Undecided`.
- `backoff.Backoff` is modelled from its documented behaviour (minimum × factorⁿ, clamped to [min, max]) on whole milliseconds. Jitter and float rounding are omitted; jitter is off in the source.
- All GraphQL, flaps and deploy calls, `guest.SetSize`, the prompts and `survey`. They are oracles or parameters, and the size presets are a map.
  - `ConfirmChanges`, `runMigrateToV2` and the printing of progress are console output.
  - `determineConfigPath` and the config's `WriteToDisk` are a given path and one oracle call.
- Sentry reports, debug logs, `tb.Detail` output and JSON rendering in `RunCreate`.
- CreateMachines: the `ListActive` call after each launch is modelled, but the text it prints is not.
- Error texts are shortened. The trailing "watch https://community.fly.io …" sentence and the list of known process groups are omitted.
- `ReleaseLeases` before the deploy ignores its result in the source. It is a logged call without an answer here.
- `lo.MapToSlice` and Go map iteration order.
  - A map's members are a sequence in some order.
  - `flags.VisitAll` visits the sequence's order rather than pflag's sorted order. The consolidation proof does not depend on the order.
- Command.Lookup: pflag finds flags by name. The model finds the first flag with that name, and `Flag.Cmd.AddTo` sets the flag it has just appended, which is the same when names are unique. pflag's panic on a redefined name is not modelled.
- Command.FlagSet.ApplyAliases: `Value.Set` is a parameter; `Command.Overwrites` states that it replaces the value. The append behaviour of slice flags on a second `Set` is not covered by the consolidation lemmas.
- Command.JoinPath: `filepath.Join`'s cleaning of `.`, `..` and doubled separators is not modelled; it joins with one `/`.
- The filesystem, OS and process preparers of `command.go`, `promptToUpdate` and the async release query.
- The flag constructors (`Org`, `Region`, `Yes`, `App`, …) and the flag getters. `makeAlias` is modelled per record type rather than by reflection.
- `helpgen`'s `main`: TOML loading, and the Go source text it prints around the entries. The entries are kept as records, and each "not handled" report as the value reported.
- Helpgen.TrimSpace: works on code points. Invalid UTF-8 is not modelled.
- `internal/command/logs`, `internal/command/machine/list.go`, `internal/command/secrets` and `internal/machine_config` are not part of this model.
