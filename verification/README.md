# Provider for Percona Server for MySQL: a verified model

The provider reconciles Instances, Backups and Restores against one shared API
store, interleaved with users and with the Percona operator. This project models
that behaviour in Dafny and proves what holds over whole runs of it.

Check everything with `dafny verify dfyconfig.toml`.

## How it is built

* **The protocol** (`Kube`, `Protocol`). A state holds the Instances, clusters,
  Backups, Restores, operator backups and operator restores of one namespace,
  with finalizers, owner references, labels and deletion marks. There are 22 kinds
  of steps: the provider's calls, the users' requests and the operator's actions.
  A provider call takes the number of API calls that succeed before one fails, so
  errors and crashes at every point are among the runs; a step may also lose the
  status write at its end. All objects may be created, edited and deleted in any
  order unless a theorem names a condition. `Effects` says what a step of any
  kind can do to a given object.
* **Theorems over all runs**: `RestoreExclusion`, `Retention`, `Ownership`,
  `WriteOnce`, `StatusProgress`, `Cleanup`, `TlsSource`, `OperatorRules`,
  `Schedules` and `Mirroring`. Each states its assumptions about the other parties as a predicate
  on steps, next to the theorem.
* **Single calls, spelled out** (`CallResults`): what each call reports, creates and
  patches, in the terms of the operator's objects and with the labels and finalizers
  written out; and, over runs, where a Succeeded or Failed state came from.
* **Where they end**: `ExclusionLimits` gives the exact conditions of restore
  exclusion, also for a Sync whose scan and apply are apart; `StaleCleanup` does the
  same for cleanup calls that read from a cache.
* **Overlapping calls** (`Race`): any number of calls for one object at the
  granularity of single API calls, with stale reads and merge patches.
* **The translation** (`Instances`, `Translation`): what `Validate` accepts and
  what `Sync` builds, as functions of the Instance and of what is looked up.
  `Validation` and `BuiltCluster` say the same without those functions: exactly which
  Instances pass and build, and what every field of the cluster then is.
* **The printer** (`Json`, `Config`): compact JSON, its inverse, the streaming
  loop and the snippet it writes.
* **Monitoring** (`Monitoring`): the token in the secrets, and the field index.
* **The code's own form** (`Provider`, `Builder`, and the classes in `Config` and
  `Monitoring`): methods that call an API server, fill a cluster object or drive
  a decoder step by step, loops included. Each is proved equal to the function
  the theorems are about, for every point of failure.

## What the promises depend on

* The comment in `internal/provider/provider.go:98-101` says that `Sync` must not
  fight the operator's pause while a restore is in flight. A reconcile of the Restore
  and one of the Instance keep the pause exactly when the Restore is not being
  deleted, still names the cluster, and has a source that `resolveRestoreSource` does
  not refuse: a Backup, named, and, when present, not Failed and of the same Instance
  (`ExclusionLimits.PauseKeptExactly`). An edit of the source during the restore,
  should the API allow it, is one way to lose it
  (`ExclusionLimits.EditedSourceLosesActive`).
* The scan and the apply of one `Sync` are separate requests. The promise also needs
  that no Restore of the Instance becomes active between them
  (`ExclusionLimits.SplitSyncExact`).
* A finished Restore whose source Backup is gone falls back to Pending if the runtime
  calls `SyncRestore` for it again, and then keeps its Instance from being synced
  (`ExclusionLimits.FallsBackExactly`, `ExclusionLimits.MissingSourceBlocksSync`).
* `CleanupBackup` and `CleanupRestore` promise to report true only when fully deleted
  (`internal/provider/backup.go:392`, `internal/provider/backup.go:427`). They do,
  unless the lookup is answered by a cache that has yet to see the object
  (`StaleCleanup.HonestUnlessUnseen`). Likewise the Retain policy holds unless the
  cached copy has yet to see the delete-backup finalizer
  (`StaleCleanup.RetainUnlessFinalizerUnseen`).
* A snippet can be read back exactly when no key contains `=` or a line break
  (`Config.RenderRoundTrip`); the code itself does not check that. Without the check
  every snippet of two lines or more is also that of another map
  (`Config.RenderCollides`).
* A router on async would be built if `Validate` had not refused it; nothing else
  can make the built cluster unacceptable (`OperatorRules.BuiltAccepted`).

## Model

| member | source | states |
|---|---|---|
| RestoreExclusion.RestoreExclusion | internal/provider/provider.go:98-109 | in every run in which the Restore keeps its spec, its operator restore is deleted by CleanupRestore only and its source Backup, when present, is not Failed and keeps its origin: while the operator restore is in flight and the Restore is not being deleted, a reconcile of its Instance changes nothing, and only the operator's own toggling of pause changes the cluster spec |
| RestoreExclusion.RunLinked | internal/provider/backup.go:217-317 | the inductive invariant that ties operator restore, Restore status and active-restore scan together holds in every state of every run |
| RestoreExclusion.StepLinked | internal/provider/backup.go:243-284 | every single step of anybody keeps that invariant |
| RestoreExclusion.SyncRestoreLinked | internal/provider/backup.go:217-317 | a SyncRestore call that fails anywhere, with or without its status saved, keeps it |
| RestoreExclusion.InFlightBlocksSync | internal/provider/backup.go:474-498 | the scan finds the Restore of every in-flight operator restore |
| ExclusionLimits.PauseKeptExactly | internal/provider/provider.go:98-109 | for a cluster paused for a restore, a reconcile of the Restore and one of the Instance keep the pause if and only if the Restore is not being deleted, still names the cluster and has a source that is not refused |
| ExclusionLimits.SourceDecidesActive | internal/provider/backup.go:326-384 | an error-free SyncRestore leaves an in-flight Restore active if and only if it still names the cluster and its source is not refused |
| ExclusionLimits.EditedSourceLosesActive | internal/provider/backup.go:331-337 | editing the source of an in-flight Restore into another type is such a refusal: one call later the scan does not see it |
| CallResults.BackupReport | internal/provider/backup.go:73-211 | the report of an undisturbed SyncBackup in every case: Failed, Succeeded, Running or Pending exactly for the operator's states, with a completion time only on success; Pending without cluster, storage or scheduled backup; Failed for unknown parameters |
| CallResults.RestoreReport | internal/provider/backup.go:243-316 | the same for SyncRestore: waiting for a missing source, Failed for an unusable one, else the operator's state |
| CallResults.BackupFails | internal/provider/backup.go:168-178 | an undisturbed SyncBackup fails if and only if the first controller is another object, or an object being deleted would get the delete-backup finalizer |
| CallResults.RestoreFails | internal/provider/backup.go:278-281 | an undisturbed SyncRestore fails if and only if the source is usable and the first controller of the operator restore is another object |
| CallResults.BackupCreated | internal/provider/backup.go:80-145 | an operator backup is created if and only if the Backup is managed by the runtime, its storage is registered and its type is known; with that type, cluster and storage, the finalizer of its policy and the Backup as controller |
| CallResults.RestoreCreated | internal/provider/backup.go:258-268 | an operator restore is created if and only if the source is usable; with the Instance, the source's name and the Restore as controller |
| CallResults.BackupPatched | internal/provider/backup.go:168-178 | an operator backup that is found has the delete-backup finalizer afterwards exactly under the Delete policy, the Backup as controller, and everything else as before |
| CallResults.RestorePatched | internal/provider/backup.go:278-284 | an operator restore that is found gets the Restore as controller, and everything else stays |
| CallResults.LabelsWritten | internal/provider/backup.go:44-58 | the instanceName label holds the Instance's name and the other labels stay |
| CallResults.ScanExact | internal/provider/backup.go:484-497 | the scan finds a Restore of the Instance that is not being deleted and neither Succeeded nor Failed, if there is one |
| CallResults.StateJustified | internal/provider/backup.go:191-209 | over every run, a Backup is Succeeded only if its operator backup had succeeded before, and Failed only if that had failed or the parameters were unknown |
| CallResults.RestoreStateJustified | internal/provider/backup.go:296-314 | over every run, the same for a Restore, with an unusable source as the other reason to fail |
| ExclusionLimits.UndisturbedReport | internal/provider/backup.go:243-316 | the report of an undisturbed call: refused, waiting for the source, the operator's status, or pending for a new operator restore, the source being looked at first |
| ExclusionLimits.ReconcileDecided | internal/provider/backup.go:486-493 | the reconcile of the Instance leaves everything alone exactly when the Restore is active, and otherwise clears the pause |
| ExclusionLimits.FallsBackExactly | internal/provider/backup.go:348-358 | a terminal Restore becomes active again if and only if its source is missing, or usable with the operator restore absent or running; Sync then leaves the Instance alone |
| ExclusionLimits.MissingSourceBlocksSync | internal/provider/backup.go:348-358 | over every run in which the source stays away and nobody edits or deletes the Restore, no reconcile of the Instance changes anything |
| ExclusionLimits.ActiveSinceScan | internal/provider/backup.go:474-498 | a Restore the scan did not find is active later exactly when it became active since and stayed so |
| ExclusionLimits.LateApplyHits | internal/provider/provider.go:102-109 | in a run, a late apply hits a running restore in flight if and only if its Restore became active after the scan |
| ExclusionLimits.SplitSyncExact | internal/provider/provider.go:102-247 | a Sync that lists at one point of a run and applies at a later one keeps the exclusion if and only if no Restore of a running restore became active in between; otherwise it clears the pause |
| RestoreExclusion.ClusterFrame | internal/provider/provider.go:94-254 | only a reconcile of the Instance and the operator's pause write a cluster spec |
| Retention.RetainNeverPurges | internal/provider/backup.go:393-425 | if only CleanupBackup requests deletion and the policy is Retain whenever it runs, the operator's purge is never enabled, whatever call fails or crashes in between |
| Retention.PolicyDecidesPurge | internal/provider/backup.go:408-422 | an error-free cleanup opens the way to the purge if and only if the policy is Delete |
| Retention.SyncSetsFinalizer | internal/provider/backup.go:168-178 | after an error-free SyncBackup under the Delete policy the delete-backup finalizer is in place |
| Retention.DeleteNeverSkipsPurge | internal/provider/backup.go:137-139 | from then on, while the policy stays Delete, the operator backup disappears only after its data was purged |
| Ownership.NoOwnershipCycle | internal/provider/backup_mirror.go:48-59 | in every run in which schedules on clusters have names, a Backup that controls an operator backup has no schedule name and is not owned by it, and a Backup owned by an operator backup has one and does not control it |
| Ownership.ScheduleNameNonEmpty | internal/provider/backup_mirror.go:122-135 | whatever the five-character prefix, a cron backup with the operator's labels yields a non-empty schedule name |
| Ownership.ScheduledNeverWritten | internal/provider/backup.go:65-86 | SyncBackup never writes the operator backup of a scheduled Backup |
| WriteOnce.SpecWriteOnce | internal/provider/backup.go:126-136 | over every run, including edits of the Backup, type, cluster and storage of an operator backup stay what the creating call asked for |
| WriteOnce.PatchSpecEmpty | internal/provider/backup.go:154-178 | the patch of SyncBackup, made from the whole object, has an empty spec part |
| WriteOnce.StaleCopyLeavesSpec | internal/provider/backup.go:154-178 | even a patch made from an out-of-date copy leaves the spec as the server holds it |
| WriteOnce.SyncBackupRepeats | internal/provider/backup.go:153-179 | a repeated error-free SyncBackup leaves the store as it is and reports the same, if and only if the first one did not let a deleted operator backup go |
| WriteOnce.VanishedBackupRestarts | internal/provider/backup.go:168-178 | that exception is real: the repetition then starts the backup over exactly when storage and parameters allow |
| WriteOnce.SyncRestoreRepeats | internal/provider/backup.go:278-284 | a repeated error-free SyncRestore changes nothing more and reports the same, if and only if the first one did not let a deleted operator restore go |
| StatusProgress.BackupStatusMonotone | internal/provider/backup.go:181-211 | over every run with valid parameters, an operator that only advances and no deletion request behind the provider's back, the state of a Backup never moves back and terminal states stay |
| StatusProgress.RestoreStatusMonotone | internal/provider/backup.go:286-316 | the same for a Restore whose source is usable at every reconcile |
| StatusProgress.FailedOnlyByOperator | internal/provider/backup.go:100-124 | in no interleaving is a Backup with valid parameters marked Failed unless its operator backup failed |
| StatusProgress.CallNeverFailsOnItsOwn | internal/provider/backup.go:191-209 | each call reports Failed only for a failed operator backup, and creates one only for a registered storage |
| StatusProgress.RegisteredIsCreated | internal/provider/backup.go:117-150 | once the storage is registered the next error-free call creates the operator backup the Backup asks for |
| StatusProgress.RefusalFollowsStorage | internal/provider/backup.go:109-124 | what one call reports with invalid parameters: Failed while the storage is registered, Pending otherwise |
| Schedules.SyncEndsTheWait | internal/provider/backup_mirror.go:221-241 | an Instance reconcile that gets through registers the storage a Backup waits for, and the next error-free SyncBackup creates the operator backup |
| StaleCleanup.HonestUnlessUnseen | internal/provider/backup.go:393-451 | a cleanup call reports completion only of an absent object, unless its lookup was answered by a cache that has yet to see the object, and then it does |
| StaleCleanup.CompletionReported | internal/provider/provider.go:352-379 | completion is reported exactly when the lookup found nothing, or the delete of a cluster found it gone |
| StaleCleanup.UnseenStaysBehind | internal/provider/backup.go:399-406 | the failing input: the object stays behind untouched and completion is reported |
| StaleCleanup.GoneSince | internal/provider/backup.go:418-424 | an object gone since the lookup completes the cleanup of a cluster not yet seen as deleting, and makes the other cleanups come back |
| StaleCleanup.OldViewStaysHonest | internal/provider/backup.go:427-451 | over runs, a view taken since the owner is being deleted never misleads, however old |
| StaleCleanup.RetainUnlessFinalizerUnseen | internal/provider/backup.go:408-422 | under Retain a call opens the way to the purge if and only if its copy has yet to see the delete-backup finalizer |
| Cleanup.CleanupHonest | internal/provider/backup.go:393-451 | with an up-to-date cache, completion is reported exactly when the object is absent and the lookup succeeds |
| Cleanup.StepCloser | internal/provider/backup.go:418-424 | no step of a settled environment leads away from the end; an effective one leads closer |
| Cleanup.DistanceShrinks | internal/provider/backup.go:427-451 | deletion not yet requested and finalizers left add up to a measure that pays for every effective step of a run |
| Cleanup.DistanceZero | internal/provider/backup.go:402-404 | the measure is zero exactly when the object is gone |
| Cleanup.RoundsShrink | internal/provider/provider.go:365-378 | every fair round of a run lowers the measure until the object is gone |
| Cleanup.CleanupTerminates | internal/provider/provider.go:352-379 | after as many fair rounds as the initial measure, whatever else happens, the object is gone and the next call says so |
| Cleanup.EffectiveAtHand | internal/provider/provider.go:365-378 | while the object is present a step that lowers the measure exists: call cleanup, or let the operator clear a finalizer |
| Cleanup.FairRunExists | internal/provider/provider.go:352-379 | from every state with an owner being deleted, such a fair run exists |
| Race.RaceSafety | internal/provider/backup.go:73-178 | any number of overlapping calls with stale reads leave the object as it was or as a single call leaves it, and the latter once any of them succeeds |
| Race.WriteSafe | internal/provider/backup.go:154-178 | a merge patch computed from either version of the object leads to the final version or changes nothing |
| Race.PatchLeavesSpec | internal/provider/backup.go:176 | the merge patch never carries the spec |
| Race.OthersFinalizerSurvives | internal/provider/backup.go:168-176 | a finalizer another writer adds after the read survives the patch if and only if the call had nothing to change about the finalizers it read |
| Race.SingleIsSyncBackup | internal/provider/backup.go:126-178 | the single call of the race is the SyncBackup of the protocol |
| Race.SingleIsSyncRestore | internal/provider/backup.go:251-284 | and likewise for SyncRestore |
| Protocol.SyncBackup | internal/provider/backup.go:40-212 | whatever call fails, a SyncBackup leaves its operator backup alone, creates it, or patches its metadata, each case with its exact condition and report, and touches nothing else but the Backup's labels; with enough succeeding calls it fails if and only if the operator backup has another controller or may not take the finalizer any more |
| Protocol.SyncRestore | internal/provider/backup.go:217-317 | the same case analysis for SyncRestore; with enough succeeding calls it fails if and only if the operator restore has another controller |
| Protocol.CleanupBackup | internal/provider/backup.go:393-425 | a cleanup strips the finalizer only under Retain, never adds one, and marks the object only while finalizers keep it; an undisturbed one does strip and does request the deletion |
| Protocol.Reconcile | internal/provider/provider.go:73-109 | a reconcile writes the built cluster exactly for a validated Instance that builds and has no active restore |
| Provider.SyncBackup | internal/provider/backup.go:40-212 | the calls as the code makes them have exactly the protocol's effect and report, for every point of failure; behind a cache that has yet to see the operator's object, that object ends up as an undisturbed call leaves it, or unchanged |
| Provider.SyncLabelled | internal/provider/backup.go:73-212 | the part after the label patch |
| Provider.CreateMissing | internal/provider/backup.go:75-151 | the operator backup was not found: wait, refuse, create it, or read it again after AlreadyExists |
| Provider.AdoptOpBackup | internal/provider/backup.go:153-211 | policy, controller reference, patch and report, for any copy, up to date or not |
| Provider.SyncRestore | internal/provider/backup.go:217-317 | as for SyncBackup |
| Provider.ResolveRestoreSource | internal/provider/backup.go:326-384 | the source's name, or the report that ends the call |
| Provider.RestoreLabelled | internal/provider/backup.go:243-316 | the part after the label patch |
| Provider.CreateMissingRestore | internal/provider/backup.go:253-276 | the operator restore was not found: create it, or read it again after AlreadyExists |
| Provider.AdoptOpRestore | internal/provider/backup.go:278-316 | controller reference, patch and report, for any copy |
| Provider.CleanupBackup | internal/provider/backup.go:393-425 | lookup, update and delete as the code requests them, for every cached copy and every point of failure |
| Provider.CleanupRestore | internal/provider/backup.go:429-451 | the same for a Restore |
| Provider.Cleanup | internal/provider/provider.go:352-379 | the same for an Instance |
| Provider.HasActiveRestore | internal/provider/backup.go:474-498 | the scan, in any order, answers whether a non-terminal Restore of the Instance exists that is not being deleted |
| Provider.Sync | internal/provider/provider.go:94-254 | leaves the cluster alone while a restore is active or a builder or a secret call fails, else applies the built cluster |
| Provider.Reconcile | internal/provider/provider.go:73-88 | Sync runs only for what Validate accepts |
| Kube.SetControllerReferenceTwice | internal/provider/backup.go:173-175 | setting the same controller reference again succeeds and changes nothing |
| Validation.ValidateExact | internal/provider/provider.go:73-88 | Validate accepts exactly the Instances with a valid orchestrator and proxy component, an allowed issuer, one certificate source, a certificate secret that holds tls.crt, tls.key and ca.crt, and the source of the running cluster |
| Validation.OrchestratorExact | internal/provider/orchestrator.go:22-39 | type and replicas of the orchestrator count on async only |
| Validation.ProxyExact | internal/provider/proxy.go:38-58 | haproxy, or router outside async, with at least one replica if given |
| Validation.TlsRefusal | internal/provider/tls.go:92-118 | which refusal it is, in the order of the checks |
| Validation.CertificateExact | internal/provider/tls.go:120-131 | a certificate secret is complete exactly with its three keys filled |
| Validation.Normalised | internal/provider/tls.go:44-65 | an issuer without a name is none, one without a kind is an Issuer |
| TlsSource.SourceFixedForLife | internal/provider/tls.go:133-164 | as long as a cluster lives, in every run, its certificate secret and issuer stay the same, whatever users write |
| TlsSource.CreatedSource | internal/provider/provider.go:143-147 | a new cluster uses the never-empty secret and the allowed issuer that its accepted Instance names |
| TlsSource.ChangeCheckExact | internal/provider/tls.go:136-164 | the change check passes exactly the parameters that name the present source, or any secret while the cluster names none |
| TlsSource.IssuerTextInjective | internal/provider/tls.go:145-154 | comparing kind/name strings is comparing issuers, for the kinds validation allows |
| TlsSource.NormalisedAllowed | internal/provider/tls.go:44-105 | parameters that pass validation are normalised: a named issuer of an allowed kind, or none |
| TlsSource.BuiltSource | internal/provider/tls.go:83-88 | the built cluster uses the secret and the issuer of the parameters |
| OperatorRules.ReachableAccepted | internal/provider/provider.go:214-237 | in every run that starts without clusters and under fixed safe sizes, every cluster satisfies the operator's rules on orchestrator, toolkit, proxy and sizes, with exactly the unsafe flags it needs |
| OperatorRules.BuiltAccepted | internal/provider/provider.go:222-237 | a built cluster satisfies the rules if and only if the Instance does not ask for a router on async |
| OperatorRules.ValidatedAccepted | internal/provider/proxy.go:38-58 | validation closes that gap |
| OperatorRules.BuiltSizes | internal/provider/provider.go:178-185 | components run exactly when asked for, at the sizes asked for or the defaults |
| OperatorRules.OrchestratorStep | internal/provider/orchestrator.go:51-104 | off without toolkit on group replication; on async on or declared unsafe, with toolkit exactly when on; nothing else changes |
| OperatorRules.ProxyStep | internal/provider/proxy.go:80-126 | at most one proxy, none exactly when declared, size flag exactly for small routers; nothing else changes |
| OperatorRules.EngineStep | internal/provider/helpers.go:21-30 | the MySQL size flag is set exactly outside the topology's safe range |
| BuiltCluster.BuildExact | internal/provider/provider.go:116-245 | Sync builds exactly for the Instances that are ready, and the cluster has in every field what they ask for: sizes, images, configuration, TLS source, proxy, PMM and backups |
| BuiltCluster.EngineFields | internal/provider/provider.go:128-220 | the engine's part: unpaused, secrets, source, topology, size, image and snippet |
| BuiltCluster.OrchestratorFields | internal/provider/orchestrator.go:51-104 | orchestrator and toolkit with their images exactly on async with the component |
| BuiltCluster.ProxyFields | internal/provider/proxy.go:14-126 | which proxy runs, an untyped one being Router on group replication and HAProxy on async, with its size, image and configuration |
| BuiltCluster.MonitoringFields | internal/provider/monitoring.go:31-99 | PMM exactly when a MonitoringConfig is named, with its host, its image and the cluster's name; the conditions under which that fails |
| BuiltCluster.BackupFields | internal/provider/backup_mirror.go:148-243 | backup settings exactly for an enabled plan, and the conditions under which that fails |
| BuiltCluster.TokenKey | internal/provider/monitoring.go:135-143 | the key the secrets share is the one under apiKey in the credentials secret |
| BuiltCluster.IndexedUnderConfig | internal/provider/provider.go:410-435 | an Instance is indexed under the MonitoringConfig it names and under no other |
| Translation.ImageChosen | internal/provider/helpers.go:51-82 | the image is that of the override, else of the first entry of the version asked for, else of the first entry of the default version with an image, else the first there is |
| Translation.ChosenOnce | internal/provider/helpers.go:51-82 | that rule leaves one image |
| Translation.ImageMissing | internal/provider/helpers.go:51-82 | exactly when no image is found: a listed version decides alone even without an image, otherwise any image will do |
| Builder.ImageForComponentType | internal/provider/helpers.go:51-82 | the three searches find the image of the translation |
| Translation.ResolveBackupType | internal/provider/backup.go:561-577 | refuses exactly malformed parameters and unknown types, keeps incremental, and means full otherwise |
| Builder.PerconaServerMySQL.ConfigureTls | internal/provider/tls.go:83-88 | sets the certificate secret always and the issuer only if there is one |
| Builder.PerconaServerMySQL.ApplyEngineConfiguration | internal/provider/engine_config.go:17-57 | sets the rendered snippet, or nothing for no parameters; an error leaves the cluster as it was |
| Builder.PerconaServerMySQL.ApplyToolkit | internal/provider/orchestrator.go:89-104 | sets the toolkit of the translation and nothing else |
| Builder.PerconaServerMySQL.ApplyOrchestrator | internal/provider/orchestrator.go:51-87 | the field updates give the cluster of the translation |
| Builder.PerconaServerMySQL.ApplyProxy | internal/provider/proxy.go:80-126 | likewise, for the proxy and its flags |
| Builder.PerconaServerMySQL.ApplyMonitoring | internal/provider/monitoring.go:31-99 | switches PMM on as the translation says, and only after both secrets share the API key; without PMM no secret changes |
| Builder.PerconaServerMySQL.ApplyBackupSettings | internal/provider/backup_mirror.go:148-243 | the nested loops give the settings of the translation; on any error the cluster is unchanged |
| Builder.BuildEngine | internal/provider/provider.go:128-218 | the first part of Sync's builder gives the engine cluster of the translation |
| Builder.BuildCluster | internal/provider/provider.go:116-245 | the builders one after another give the cluster of the translation or its error; a cluster with PMM comes with its token in the users secret and in the operator's internal copy |
| Schedules.BucketTrimmed | internal/provider/backup_mirror.go:262-266 | the bucket has no slash at either end, and only slashes were cut off |
| Schedules.EnabledInOrder | internal/provider/backup_mirror.go:185-239 | enabled schedules are listed entry by entry |
| Schedules.EnabledOfInOrder | internal/provider/backup_mirror.go:223-238 | and in order within an entry, disabled ones left out |
| Schedules.BackupSettingsExact | internal/provider/backup_mirror.go:148-243 | settings translate if and only if every storage is usable and every enabled schedule has a known type; then storages are the referenced ones, each with its trimmed bucket and the Instance's prefix, and schedules the enabled ones in order, duplicates included |
| Schedules.RegisterExact | internal/provider/backup_mirror.go:185-239 | the entries add exactly their storages, with bucket and prefix, and their enabled schedules |
| Schedules.RegisterSucceeds | internal/provider/backup_mirror.go:185-230 | the entries are refused exactly when one of them is unusable |
| Mirroring.MirrorExact | internal/provider/backup_mirror.go:38-106 | an operator backup is mirrored if and only if it is not being deleted, comes from a schedule, has a storage and no controlling Backup, and its Instance stays, belongs to this provider and has a backup class; and into which Backup |
| Mirroring.MirrorStepExact | internal/provider/backup_mirror.go:44-83 | an event adds that Backup exactly then, and changes nothing otherwise |
| Mirroring.OnDemandNeverMirrored | internal/provider/backup_mirror.go:48-59 | over every run, an operator backup that SyncBackup created is never mirrored |
| Mirroring.ScheduleNameRoundTrip | internal/provider/backup_mirror.go:122-143 | stripping the prefix undoes the operator's label convention, for any prefix and any name |
| Mirroring.ScheduleIdentity | internal/provider/backup_mirror.go:96-104 | any number of steps after a schedule fired, the event of its operator backup creates a Backup with that schedule's name, storage and cluster and the Instance's class, for any prefix function |
| Schedules.SchedulesAskedFor | internal/provider/backup_mirror.go:223-238 | every schedule on a reachable cluster translates an enabled schedule of an earlier Instance |
| Mirroring.MirroredWasEnabled | internal/provider/backup_mirror.go:34-106 | end to end: the mirrored Backup names a schedule and storage that the Instance had enabled |
| Config.RenderMySQLConfiguration | internal/provider/engine_config.go:62-95 | the streaming loop never fails and gives one key=value line per entry, each key before the next: at the first difference by its character, and before its extensions |
| Config.RenderedLines | internal/provider/engine_config.go:59-63 | the lines of the snippet and their key order |
| Config.LongerKeyFirst | internal/provider/engine_config.go:59-63 | an example: a longer key that comes first |
| Config.RenderOrderFree | internal/provider/engine_config.go:59-61 | any listing of the keys in key order gives the same text: the order in which the map is walked cannot show |
| Config.RenderEmpty | internal/provider/engine_config.go:41-57 | the snippet is empty if and only if there are no parameters |
| Config.RenderRoundTrip | internal/provider/engine_config.go:77-94 | splitting the snippet and decoding the values recovers the map if and only if no key contains an equals sign or a line break |
| Config.RenderInjective | internal/provider/engine_config.go:62-95 | different parameters whose keys contain neither an equals sign nor a line break never render to the same snippet |
| Config.RenderCollides | internal/provider/engine_config.go:92-94 | without that condition every snippet of two lines or more is also the snippet of a map with a single entry |
| Config.CollidingPair | internal/provider/engine_config.go:92-94 | a pair of different maps with the same snippet |
| Config.CompactTrimmed | internal/provider/engine_config.go:92 | trimming white space never changes a printed value |
| Config.Decoder.NextToken | internal/provider/engine_config.go:69-86 | reads the opening brace or the next key |
| Config.Decoder.DecodeRaw | internal/provider/engine_config.go:88-91 | reads the text of the next value as it stands |
| Json.ValueRoundTrip | internal/provider/engine_config.go:63 | decoding compact JSON gives back the value and the text after it (RFC 8259, section 7 for the escapes) |
| Json.CompactInjective | internal/provider/engine_config.go:63 | printed JSON tells values apart |
| Json.CompactOneLine | internal/provider/engine_config.go:94 | printed JSON holds no raw line break |
| Json.BelowExact | internal/provider/engine_config.go:59-61 | keys are compared at the first position where they differ, and a key comes before its extensions |
| Json.AscendingIsKeyOrder | internal/provider/engine_config.go:59-61 | listings are in key order by that comparison |
| Json.EscapedSafely | internal/provider/engine_config.go:63 | no control character, angle bracket, ampersand or line separator appears raw in a printed string |
| Json.PlainVerbatim | internal/provider/engine_config.go:63 | a string without characters to escape is printed as it is |
| Json.ArrayShape | internal/provider/engine_config.go:63 | brackets and commas of compact JSON |
| Json.ObjectShape | internal/provider/engine_config.go:63 | braces and colons of compact JSON |
| Json.AscendingUnique | internal/provider/engine_config.go:60-61 | a set of keys has one strictly ascending listing |
| Monitoring.Secrets.SyncCredentials | internal/provider/monitoring.go:135-151 | after an error-free call every named secret that exists holds the API key and nothing else changed; a failing call did so for some; nothing is written when they agreed already |
| Monitoring.Secrets.EnsureToken | internal/provider/monitoring.go:153-178 | writes the token alone, skips missing secrets, and does not write a token that is there |
| Monitoring.AgreedExact | internal/provider/monitoring.go:163-171 | agreement means the key under pmmservertoken and every other entry as before |
| Monitoring.AgreedStays | internal/provider/monitoring.go:163-165 | agreement is stable: the next call finds nothing to write |
| Monitoring.TokenPatch | internal/provider/monitoring.go:167-173 | the merge patch carries the token key alone, and is empty when the token is there |
| Monitoring.PatchedDifference | internal/provider/monitoring.go:173 | the patch between two versions turns one into the other (RFC 7396, section 2) |
| Monitoring.DisjointPatchesCommute | internal/provider/monitoring.go:173 | patches on different keys commute |
| Monitoring.TokenAmongWrites | internal/provider/monitoring.go:153-178 | in any sequence of token patches and writes to other keys the others' writes survive and the token is set |
| Monitoring.Index.Store | internal/provider/provider.go:410-435 | add and update events keep the index in step with the extractor |
| Monitoring.Index.Remove | internal/provider/provider.go:410-435 | so do delete events |
| Monitoring.Index.Enqueue | internal/provider/provider.go:381-408 | an event enqueues exactly this provider's Instances that name the MonitoringConfig, each once |
| Monitoring.IndexCoversReads | internal/provider/monitoring.go:31-60 | an Instance that is not enqueued builds the same cluster before and after the change |

## Left out

- Namespaces: the model has one; names in the store are names within it.
- The API server and its client library: their operations are specified in `Kube` and `Provider.ApiServer` as the provider relies on them (controller references, finalizers, merge patches, no new finalizer on an object being deleted, deletion with the last finalizer). Neither is part of the repository.
- The runtime: it is assumed to let go of a Backup, Restore or Instance only after the cleanup reported completion, and to call `Validate` before `Sync`.
- The operator's safe sizes: constants of its API package, hence parameters.
- The Percona operator beyond its steps in `Protocol`: it purges only under a deletion mark and the delete-backup finalizer, and drops that finalizer only after purging.
- Race granularity of `Sync`: the steps of `Protocol` scan and apply at once; `ExclusionLimits.SplitSyncExact` covers a single Sync that is spread out.
- Race.RaceSafety: the only writers are the calls themselves; for others see `Race.OthersFinalizerSurvives`. The server's rules for objects being deleted are left to `Protocol`.
- Race.SingleIsSyncBackup: leaves out an operator backup that is already being deleted, for the same reason.
- Race.SingleIsSyncRestore: likewise for an operator restore.
- Provider.SyncBackup: behind a cache that has yet to see the operator backup its contract fixes the operator's objects, not the report; behind one with an older copy of it only `Provider.AdoptOpBackup` says what happens.
- Provider.SyncRestore: likewise.
- Retention.RetainNeverPurges: in its runs cleanup looks objects up in an up-to-date cache; `StaleCleanup.RetainUnlessFinalizerUnseen` says when a stale one matters.
- Optimistic locking: a conflict on `Update` is a failing call, except in `StaleCleanup`, where it is derived from the copy that was read.
- The number of API calls that still succeed is one counter for the operator's objects and one for the secrets.
- Version bundles, `ProviderSpec` lookup, image defaults and the host part of the PMM URL: resolved values are parameters.
- Class limits and class lookup: one boolean.
- YAML and JSON decoding of parameters: start from decoded values. The JSON reader in `Json` knows the printer's output only: no white space between tokens, no surrogate pairs, no nesting limit.
- SHA-1: any function with a five-character result.
- Pod details (resources, affinity, tolerations, volumes, services), S3 region, endpoint and path style: copied verbatim.
- `Status`, connection details and the connection CA: a mapping of one field at a time.
- Watch registration, logging, messages and timestamps, apart from whether a start or completion time is present. The immutable-spec check only logs and is therefore left out.
- A Backup whose origin names no Instance is one whose Instance name is empty.
- The API version of owner references: the kind stands for both.
