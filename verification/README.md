# Verification of the cloudnative-misskey operator

This project models the hard parts of a Kubernetes operator that runs Misskey
instances and proves what they promise. Almost all of them are protocols: a pass
that may stop at any API call and is run again and again against a cluster that
changes underneath it. `dafny verify dfyconfig.toml` checks everything.

## How the model is built

*The gate chain* (`ClusterState`, `History`, `Cluster`, `Migration`, `MetaRow`,
`Detector`, `Workload`, `Handover`, `Provenance`, `Preparation`, `GateChain`, `Controller`). A `World` holds the objects of
one instance. The class `Cluster` runs the operator's calls against it. Before every
call any number of environment steps happen, chosen by a script: a Job commits its
work, succeeds or fails, the spec is edited, a Secret rotates, readiness changes, an
autoscaler scales. A call then succeeds, is refused, or takes effect with its answer
lost. Every write that takes effect is entered in a history with the state it met.
`History.EventOk` says what each entry promises: an app or worker template is set to
an image only while that image's migration Job is the only one left and has
succeeded, both meta groups hold the values of the current inputs, and the pass has
seen database and Redis ready; a migration Job is created only with its Backup
completed where one is required; the managed detector's objects are deleted only when
nothing points at them; the state ConfigMap goes only when the row is reset; the
generated key is made once and deleted only when it is not the one in use; a roll writes
the replicas the spec calls for. `ClusterState.Inv` says what
holds in every state: a meta Job runs the script it was made for, and a row or Job
that uses the managed detector finds its Service and Deployment. `History.Backed` ties
an entry to those before it: what a pass saw ready it looked at in that pass, in a world
where it was ready, and a checksum it relies on is the last one computed. `History.Rooted`
ties the history to the cluster: from one entry's world to the next, and to the world at
the end, leads that entry's write and otherwise only what the environment may change
(`ClusterState.Keeps`). `Controller.Run`
proves all four for every run, and `Provenance` draws from them where the templates and
migration Jobs of any reachable world come from. sha256 is a free constructor: a hash is
the record of what was hashed. A Secret version is the current one unless that very Secret
changed after the pass first read it, or its read failed and counted as missing
(`Facts.Sure`). A script is calm (`Cluster.Calm`) when every call is done and meanwhile only
gentle steps happen: Jobs move on, the spec is edited, what was not ready becomes ready, but
no Secret, no Deployment and no readiness changes under the pass. What a pass must achieve is
proved for calm scripts, what it must not do for all.

*The rollout* (`Channel`) is in nanoseconds and wraps like int64. *The digest cache*
(`DigestCache`) splits a call into its four steps between which the lock is free; a run
is any interleaving. *The compilers* (`Text`, `Psql`, `ObjectStorage`,
`ObjectStorageScript`, `ObjectStorageJob`, `ObjectStorageRow`, `DetectorJob`, `DetectorRow`,
`Template`, `TemplateExact`, `Config`, `ConfigSecrets`, `ConfigScript`, `ConfigExact`,
`ConfigLines`, `ConfigReading`) work on text: the script is parsed line by line by a
small psql and run against a table, in the environment a container gets. *The other
protocols* (`Deletion`, `Redis`, `StatefulSet`, `BackupVerify`) each have a script of
environment steps and outcomes of calls, and a trace of what happened to which the state is
tied, so that what is proved of the trace is proved of the objects.
`Truncation` is over bytes, with the grammar of section 4 of RFC 3629.

## Where the code does not do what one might expect

- When the target changes during a rollout, a bucket that has not switched follows the
  previous target, not the newest one (`Channel.ImageIsNumbered`); README.md:355 says it
  jumps to the newest. The model follows the code.
- Redis roles are provided even when `redis.external` is set (`Redis.InstancesAre`),
  although internal/webhook/v1beta1/misskey_webhook.go:213-215 warns that they are ignored.
- Two standard columns may be given one name; the plan is accepted and the script then
  never succeeds (`ObjectStorageJob.SharedColumnFails`).
- User strings travel as plain environment values, in which Kubernetes expands `$(NAME)` and
  turns `$$` into `$`; exactly the other strings arrive unchanged
  (`ObjectStorageJob.ArrivesVerbatimIff`, `ObjectStorageJob.DollarsAreLost`).
- A secret value that holds the placeholder of a later name is rewritten, and only such a value
  (`ConfigExact.ScriptIff`, `ConfigExact.PasswordIsRewritten`).
- Stored times have whole seconds, so two restore tests can be an interval less a fraction of
  a second apart (`BackupVerify.SuccessiveTests`, `BackupVerify.TooSoon`).
- A cached digest's age counts from when it was stored, not from when the registry gave it
  (`DigestCache.FreshFromAnswerIff`, `DigestCache.OldAnswerHit`).
- Changing a StorageClass between absent and empty counts as no change and is then refused
  by the server on every pass (`StatefulSet.Applier.Apply`).
- An external detector may be given the managed detector's URL
  (`Handover.ExternalUrlMayAlias`).
- With an interval below 101 ns the rollout threshold can overflow, and exactly then switched
  buckets go back (`Channel.SteadyIff`).

## Model

| member | source | states |
|---|---|---|
| Controller.Run | internal/controller/misskey_controller.go:339-463 | Over every run of passes, each stopping at any API call, with the environment moving before every call: the world of every entry of the history, and the world at the end, differs from the one before by that write and by what the environment may change, nothing else; so the templates of app and worker and the migration Jobs that stand are those of the start or were set through their gates. Every write was made in a state of the invariant and keeps it, meets its promise, and rests on what the same pass had seen and computed; and for each image the migration Jobs created are at most one plus the changes of the input checksum plus the Jobs dropped for another image |
| Provenance.TemplatesWereGated | internal/controller/misskey_controller.go:411-446 | In every such world the template of app or worker is from before the history or was set, last of all, to the image of its pass while that image's migration was done, both meta groups were written and database and Redis had been seen ready |
| Provenance.TemplatesByHistory | internal/controller/workloads.go:96-114 | The image and checksum of app and worker, in any world a history leads to, are exactly those of the last roll; suspension, autoscaling and every other write leave them |
| Provenance.MigrationsWereGated | internal/controller/migration.go:105-134 | In every such world a migration Job is from before the history or was created for the image and inputs of its pass, with the database seen ready and, where required, the Backup completed |
| Provenance.MigrationsByHistory | internal/controller/migration.go:105-134 | The migration Job of an image, in any world a history leads to, is exactly what the last creation or deletion left |
| History.RollFollowsReadiness | internal/controller/misskey_controller.go:411-446 | In every such history, whenever the template of app or worker is set, the same pass, for the same spec, has looked at the database and at Redis in worlds where they were ready |
| History.CreationFollowsReadiness | internal/controller/misskey_controller.go:411-422 | Whenever a migration, backup or meta object is created, the same pass has looked at the database in a world where it was ready |
| Cluster.Cluster.DatabaseReady | internal/controller/misskey_controller.go:327-330 | Ready only if the database is external or its cluster is ready in the world of the read, which enters the history; a failed read is not ready |
| Cluster.Cluster.RedisReady | internal/controller/misskey_controller.go:333-336 | Ready only if Redis is ready in the world of the read, which enters the history; a failed read is not ready |
| Controller.RunPass | internal/controller/misskey_controller.go:118-167 | One pass, whatever fails and happens meanwhile: without error it stopped for a reason there was when it began; got to the end, both components run the image with a checksum of the spec, have the autoscaler objects it asks for and, with no autoscaler now or before, its replicas; suspended, it creates no Job or Backup and ends at 0 replicas. In calm it has no error; through open gates it rolls both components from what they were; and if they were in place and rolled out it leaves neither objects nor key, and with the detector off no state, of a detector that is given up |
| Controller.ReconcileAll | internal/controller/misskey_controller.go:339-463 | The same of the whole of reconcileAll for the spec it was given, keeping the invariant and every promise of the history; a suspended pass ends suspended even after the later steps |
| Controller.StillConverged | internal/controller/misskey_controller.go:404-463 | A calm pass over components that are in place changes none of the Deployments, so they count as converged at its end |
| Controller.ResumedFromZero | internal/controller/workloads.go:137-156 | A component that was stopped and that a pass has rolled is at 0 replicas only if the spec asks for none: for every pass without autoscaling, and for every calm one with it |
| GateChain.SuspendOrRoll | internal/controller/misskey_controller.go:404-448 | A pass without error stops at exactly the first thing missing: what it waits for has been asked for and was not there when it started; if nothing is missing both components are deployed as the spec says. It suspends exactly when the spec says so. In calm and with all gates open it gets to the roll |
| GateChain.Gates | internal/controller/misskey_controller.go:411-448 | The order backup, migration, meta row, Redis, roll: the pass ends at the first gate that is shut, with the reason true at its start |
| GateChain.AfterMigration | internal/controller/misskey_controller.go:423-447 | With the migration done, both meta groups are reconciled before either is waited for, and nothing is rolled unless both are written |
| GateChain.RollBoth | internal/controller/misskey_controller.go:438-446 | App and worker are rolled, app first, only after Redis was seen ready; success leaves both at the image with a checksum of the spec, the autoscaler objects it asks for and, with no autoscaler now or before, its replicas |
| Preparation.Prepare | internal/controller/misskey_controller.go:339-404 | Before the gates a managed, not suspended detector is served by its Service and Deployment, object storage Jobs and script are gone if none are wanted, and the state of the detector configuration has been read; app, worker, migrations and the row are left alone. In calm it has no error, the key is there and the detector's Deployment has the spec's image and replicas |
| Handover.StartsSound | internal/controller/misskey_controller.go:118-167 | A cluster in which nothing is configured yet satisfies the invariant, so runs can start |
| ClusterState.EnvKeeps | internal/controller/misskey_controller.go:405-448 | No step of the environment (Job outcomes, spec edits, Secret rotation, readiness, autoscaling) breaks the invariant or takes away what the operator relies on |
| History.BalancedByCreate | internal/controller/migration.go:115-124 | A migration Job may be created only when none exists, with the last checksum computed; the account of Jobs against checksum changes still balances |
| History.BalancedByDelete | internal/controller/migration.go:125-131 | Deleting a failed Job is paid for by a checksum that differs from the Job's |
| Cluster.Cluster.Write | internal/controller/config.go:374-382 | A write takes effect exactly when it is not refused and acceptable in the world the environment left, and an error may be reported either way; one that takes effect is entered in the history with the world it met; a create refuses an existing name and an update a changed object |
| Cluster.Cluster.Call | internal/controller/config.go:374-382 | Before a call exactly the steps the script says happen, to the world and to what the pass may rely on; the invariant and everything the operator relies on outside its own writes stay; in calm the call is done and Secrets, Deployments and readiness stay as they are |
| Cluster.Cluster.SecretVersion | internal/controller/common.go:70-81 | Only an absent Secret counts as missing; any other read error is passed on; the version is current for as long as this Secret does not change |
| Cluster.Cluster.CredentialVersion | internal/controller/objectstorage.go:247-260 | A read error counts as missing; otherwise the version is the true one and stays so for as long as this Secret does not change |
| Migration.ReconcileMigration | internal/controller/migration.go:95-134 | True means the image's Job is the only migration Job left and has succeeded; false means it had not, and it now exists or was deleted to be retried; a failed Secret read leaves the current Job untouched and creates none |
| Migration.ReconcileCurrent | internal/controller/migration.go:105-134 | The same for the current image alone: a succeeded Job is never deleted, a failed one only if its checksum differs |
| Migration.CleanupOldMigrations | internal/controller/migration.go:220-237 | Success leaves at most the current image's Job; only Jobs of other images are deleted, failing or not |
| Migration.MigrationChecksum | internal/controller/migration.go:39-47 | The checksum is that of the migration configuration and of the versions of the referenced Secrets, each the current one unless that Secret changed after it was first read, and is entered in the history as the last one computed for the image; a failed read gives none and changes nothing |
| Migration.ReferencedVersions | internal/controller/common.go:53-65 | The versions of all referenced Secrets in order, or none at all if one read fails |
| Migration.DiscardCurrent | internal/controller/migration.go:125-131 | The failed Job is deleted with inputs that differ from its own, and the history says so |
| Migration.ReconcilePreBackup | internal/controller/migration.go:156-197 | True opens the gate: no backup is required, or the image's Backup is completed, or its migration Job exists already; false means the Backup exists and the gate was shut at the start |
| Migration.CleanupOldBackups | internal/controller/migration.go:200-217 | Success leaves at most the Backup of the current image; only Backups of other images go, and an open gate stays open |
| Migration.AwaitBackup | internal/controller/migration.go:170-197 | Waits for the Backup of the current image, creating it if it is not there |
| MetaRow.ReconcileObjectStorage | internal/controller/objectstorage.go:264-308 | True means the only object storage Job left is the one for the current inputs, it has succeeded and the row holds its values; false means that Job exists and had not succeeded |
| MetaRow.CleanupObjJobs | internal/controller/objectstorage.go:311-327 | Success leaves no Job but the one to keep, and the kept one keeps its success |
| MetaRow.CleanupObjectStorage | internal/controller/objectstorage.go:331-337 | Success leaves neither Jobs nor script; the row stays, or says what one of those Jobs wrote before it went |
| MetaRow.ObjectStorageHash | internal/controller/objectstorage.go:231-244 | The hash is that of the plan and of the credential versions, each the current one unless its read failed or that Secret changed after it was first read |
| Detector.ReconcileConfig | internal/controller/sensitive_detector.go:355-408 | True means the only configuration Job left is the one for the current mode, settings and versions, it has succeeded and the row holds its values; the state ConfigMap is written before the Job is created |
| Detector.ConfigHash | internal/controller/sensitive_detector.go:248-285 | The hash is that of mode, settings and the versions read; a failed read gives none and changes nothing |
| Detector.CleanupDetJobs | internal/controller/sensitive_detector.go:337-353 | Success leaves no Job but the one to keep; the row says what it said or what such a Job wrote |
| Detector.PutState | internal/controller/sensitive_detector.go:370-383 | The state ConfigMap holds the script for the hash, and only while no other Job could run it |
| Detector.ReconcileObjects | internal/controller/sensitive_detector.go:125-169 | Success leaves the managed Service and Deployment in place, and nothing else is written; in calm the Deployment has image, replicas and key version of the spec, and one that had them is not changed |
| Detector.ReconcileKey | internal/controller/sensitive_detector.go:44-65 | Success leaves a key, the user's or a generated one; a generated one is made once and never overwritten |
| Workload.ReconcileComponent | internal/controller/workloads.go:96-135 | The template is set only through an open gate, which stays open; success leaves image, checksum and autoscaler objects as the spec asks and, with no autoscaler now or before, its replicas; other components keep everything. In calm it succeeds and the replicas follow from those that were there |
| Workload.Roll | internal/controller/workloads.go:96-114 | One template at the image with the checksum of the current configuration and the replicas of the spec, unless the Deployment changed meanwhile; in calm it succeeds, and what is in place already is not changed |
| Workload.MisskeyChecksum | internal/controller/workloads.go:193-214 | The checksum covers configuration, Secret versions and, where they apply, both meta hashes |
| Workload.TemplateSafe | internal/controller/workloads.go:137-156 | What is written keeps every promise. Without autoscaling the replicas are those of the spec, 1 if it names none; with it minReplicas, or 1, on the way out of 0, and otherwise those that were read |
| Workload.ReconcileAutoscaler | internal/controller/autoscaling.go:78-102 | Success leaves exactly the autoscaler objects wanted: none, a HorizontalPodAutoscaler, or a ScaledObject with its TriggerAuthentication if it needs one; never both kinds |
| Workload.ReconcileScaledObject | internal/controller/autoscaling.go:142-152 | ScaledObject present, TriggerAuthentication present exactly if wanted |
| Workload.SuspendWorkloads | internal/controller/workloads.go:160-188 | Success leaves every one of the Deployments that exists at 0 replicas with no autoscaler object |
| Handover.Finalize | internal/controller/sensitive_detector.go:469-499 | Before the row holds the wanted settings nothing is done. In calm, once it does and app and worker carry the checksum and are rolled out, it succeeds and leaves neither Service nor Deployment nor generated key of a detector that is no longer managed, with the detector off no state ConfigMap, and no generated key beside the user's own once the managed detector is rolled out; app and worker are left alone |
| Handover.FinalizeManaged | internal/controller/sensitive_detector.go:473-482 | The generated key is deleted only if it is not the one in use; in calm it is deleted once the managed detector runs with the user's own key |
| Handover.FinalizeUnmanaged | internal/controller/sensitive_detector.go:483-499 | Success leaves neither Service nor Deployment, and with the detector off no state ConfigMap either; in calm it succeeds, and the operator's key is gone too |
| Handover.WorkloadsConverged | internal/controller/sensitive_detector.go:443-466 | A positive answer means both templates carry the checksum computed in this pass, and when each was read its current generation was observed and enough pods were updated and available; in calm the answer is exact |
| Handover.CleanupObjects | internal/controller/sensitive_detector.go:171-184 | Deployment and Service are deleted in that order, each while the detector is replaced |
| Handover.CleanupState | internal/controller/sensitive_detector.go:410-415 | The state ConfigMap goes only while the row is reset and no Job is left |
| Handover.ConfiguredMeansUnused | internal/controller/sensitive_detector.go:469-499 | Once the row holds settings that are not those of a managed detector, nothing points at the managed one |
| Handover.PointedAtIsServed | internal/controller/plan.go:238-256 | In every state of the invariant, a row whose URL is the managed one finds the managed Service and Deployment, unless the user named that very URL as external |
| Handover.UrlInTheRow | internal/controller/plan.go:238-250 | The URL is that of the detector's Service at port 3009, or the external one as it is |
| Handover.ExternalUrlMayAlias | internal/controller/plan.go:241-246 | That exception is reached: from any world with nothing configured, the pass step for an external detector at the managed URL and the Job it makes lead to a row that points at the managed detector while there is none |
| Channel.ChannelController.Run | internal/controller/misskeychannel_controller.go:49-127 | Over every run with a fixed rollout and a clock that does not go back, no bucket ever follows an earlier target than before; and once the time of the last batch has passed since the newest target was adopted, every bucket follows it |
| Channel.ChannelController.DoReconcile | internal/controller/misskeychannel_controller.go:57-107 | The target is the tag, the pinned digest, or on a failed lookup what is out already; a new one becomes the image, with the old one as previous and the time of the change; the same target again changes nothing, so the rollout clock is not restarted; no bucket goes back; both counts are exact |
| Channel.ImageIsNumbered | internal/controller/channel.go:46-70 | The image a bucket follows is the last or the last but one adopted target, so at most two are live, and a bucket not yet switched follows the one before the newest |
| Channel.SwitchesByTheClock | internal/controller/channel.go:46-70 | While a rollout is under way a bucket has the new image exactly when floor(bucket / batchPercent) intervals have passed since the change by the clock, as far as such a time can be measured, and the previous one before; ahead of the change the first batch has it. Unset, the batch is 20 percent and the interval an hour |
| Channel.NoRolloutNoWait | internal/controller/channel.go:46-55 | Without a rollout under way every bucket has the channel's image at once, and before any was adopted that of the spec |
| Channel.ChannelController.FollowsNewestIff | internal/controller/channel.go:56-70 | In every state of a run a bucket follows the newest target exactly when its share of the time has passed since the stored change |
| Channel.PreviousDiffers | internal/controller/misskeychannel_controller.go:95-102 | A previous image, when set, differs from the image and comes with a time |
| Channel.NumberGrowsWithTime | internal/controller/channel.go:56-69 | As time passes a bucket only moves on |
| Channel.SwitchesExactlyWhen | internal/controller/channel.go:56-69 | Bucket b has switched exactly when floor(b / batchPercent) intervals have passed, in int64 arithmetic |
| Channel.FleetSwitchedExactlyWhen | internal/controller/channel.go:56-69 | All hundred buckets have switched exactly when floor(99 / batchPercent) intervals have passed |
| Channel.ThresholdExact | internal/controller/channel.go:64-65 | The int64 threshold is the exact product whenever it cannot overflow |
| Channel.OverflowIff | internal/controller/channel.go:64-65 | The threshold fits for every elapsed time exactly when it fits for the greatest one |
| Channel.LongIntervalFits | internal/controller/channel.go:56-65 | Every interval of at least 101 ns is safe |
| Channel.SteadyIff | internal/controller/channel.go:56-69 | Switched buckets stay switched for every elapsed time exactly when the threshold never overflows |
| Channel.OverflowGoesBack | internal/controller/channel.go:56-69 | Otherwise bucket 0, switched at once, has gone back when MAX / batchPercent intervals have passed |
| Channel.ShortIntervalGoesBack | internal/controller/channel.go:56-65 | An input: with 100 percent every nanosecond a switched bucket goes back after about three years |
| Channel.FailureLeavesRolloutIff | internal/controller/misskeychannel_controller.go:64-102 | A failed digest lookup leaves the rollout alone exactly when the two reads of the status agree, or the first had no image |
| Channel.Count | internal/controller/misskeychannel_controller.go:78-88 | The numbers of followers and of followers at the target |
| DigestCache.DigestResolver.Run | internal/controller/imagedigest.go:89-112 | Under any interleaving of any number of calls the cache stays within 1024 entries, every entry was given by the registry under its key, and every call hands back what it may |
| DigestCache.DigestResolver.EvictLocked | internal/controller/imagedigest.go:115-136 | Below the limit nothing goes; else all entries expired at the start go, none that had not expired at the end, and if that made no room one of the oldest; room for one more is left |
| DigestCache.EvictionLosesLittle | internal/controller/imagedigest.go:115-136 | Whatever went had expired, but for at most one entry, and nothing kept is older than that one |
| DigestCache.DigestResolver.FindOldest | internal/controller/imagedigest.go:127-135 | The loop finds an entry of least age of resolution, in any iteration order |
| DigestCache.DigestResolver.Sweep | internal/controller/imagedigest.go:119-123 | The sweep, reading the clock for each entry, removes only entries expired by its end and all expired at its start |
| DigestCache.DigestResolver.Look | internal/controller/imagedigest.go:90-96 | An image with a digest is returned as it is; otherwise the call remembers the entry under its key at that moment |
| DigestCache.DigestResolver.Check | internal/controller/imagedigest.go:97-99 | An entry younger than five minutes is the answer, otherwise the registry is asked |
| DigestCache.DigestResolver.Answer | internal/controller/imagedigest.go:100-106 | On an error the entry seen at first serves, and only without one does the call fail |
| DigestCache.DigestResolver.Store | internal/controller/imagedigest.go:107-111 | The cache after is the evicted one with the call's own answer under its key |
| DigestCache.AnswersStayWithTheirKey | internal/controller/imagedigest.go:89-112 | Over NUL-free images every digest handed back was given by the registry for the same image and the same credentials |
| DigestCache.SeenNeverFails | internal/controller/imagedigest.go:100-106 | A call whose lookup saw an entry never fails |
| DigestCache.HitIsFresh | internal/controller/imagedigest.go:97-112 | A hit is on a digest stored less than five minutes ago under the same key, by a call to which the registry had given it before; so the answer is older than five minutes by less than the time from that answer to that store |
| DigestCache.FreshFromAnswerIff | internal/controller/imagedigest.go:97-112 | An entry serves only within five minutes of the registry's answer, whenever it serves, exactly when it was stored at the moment of the answer |
| DigestCache.Limits | internal/controller/imagedigest.go:31-41 | An entry serves for five minutes and is expired from then on; the cache has room for 1024 |
| DigestCache.OldAnswerHit | internal/controller/imagedigest.go:97-112 | The age counts from the store: a run in which a hit is on an answer older than five minutes |
| DigestCache.CacheKeyInjective | internal/controller/imagedigest.go:44-46 | Keys agree exactly when image and credentials do, for NUL-free images |
| DigestCache.CacheKeyAmbiguous | internal/controller/imagedigest.go:44-46 | With a NUL in an image they need not |
| DigestCache.KeyIDIdentifiesCredentials | internal/controller/channel.go:110-120 | Key identifiers agree exactly when both have no pull secrets, or the namespace and the names as a multiset are the same, in any order |
| ObjectStorage.Assignments | internal/controller/objectstorage.go:69-180 | Accepted exactly when all columns are safe identifiers and no extra column is a standard one; then the standard settings in their order and the extra ones by sorted key; an error names a real culprit |
| ObjectStorage.StandardAssignments | internal/controller/objectstorage.go:110-156 | The thirteen standard columns, refused exactly when one is not a safe identifier |
| Psql.SafeIdentIff | internal/controller/objectstorage.go:43-53 | A safe identifier is a letter or underscore followed by letters, digits and underscores |
| ObjectStorage.SortedKeys | internal/controller/objectstorage.go:159-163 | The keys sorted, whatever order the map was iterated in |
| ObjectStorageScript.RenderSql | internal/controller/objectstorage.go:184-210 | The text is the script's lines, each ended by a line break |
| ObjectStorageScript.ScriptMeans | internal/controller/objectstorage.go:184-210 | Running the text: it succeeds exactly when the columns are distinct and exist, then overrides row x, made if absent, and no other row; otherwise nothing changes |
| ObjectStorageScript.LoadedHolds | internal/controller/objectstorage.go:190-194 | Every variable is loaded before the statement that uses it, with the value of its own environment name |
| ObjectStorageJob.JobEnv | internal/controller/objectstorage.go:213-226 | One environment variable for each assignment that is no literal, in order |
| ObjectStorageJob.BuildJob | internal/controller/objectstorage.go:264-300 | From plan to Job, refused exactly for the plans the code refuses |
| ObjectStorageJob.CompiledSound | internal/controller/objectstorage.go:75-178 | Variable names and environment names are pairwise distinct and every line parses back to what was meant |
| ObjectStorageJob.JobMeans | internal/controller/objectstorage.go:340-391 | For every accepted plan, whenever the container starts, the script succeeds exactly if no two settings share a column and all columns exist; then every planned column of row x holds the planned value, a user string as Kubernetes expands it, and every other column and row what it held; otherwise the table is untouched |
| ObjectStorageRow.JobFillsRow | internal/controller/plan.go:279-304 | Whenever the container starts and the script succeeds there is a row x, and every such row holds each of the thirteen settings under upstream's own column name, or the user's name for it: bucket, endpoint, region, prefix, base URL, port, the two secrets each in its own column, and the switches; extra columns too |
| ObjectStorageRow.OverrideReplacesItsOwn | internal/controller/plan.go:296-325 | A column the user names replaces that of its own setting and no other |
| ObjectStorageRow.JobStartsIff | internal/controller/objectstorage.go:213-226 | The container starts exactly when the database password and the two keys are there |
| ObjectStorageRow.JobReachesDatabase | internal/controller/objectstorage.go:340-391 | Whenever the container starts, psql is given host, port, name, user and password of the plan's database |
| ObjectStorageJob.IntactIsVerbatim | internal/controller/objectstorage.go:85-97 | With intact strings the row holds them as the user wrote them |
| ObjectStorageJob.SharedColumnFails | internal/controller/objectstorage.go:75-108 | A plan with two settings in one column is accepted and its script fails on every table |
| ObjectStorageJob.DistinctIff | internal/controller/objectstorage.go:158-178 | Among accepted plans the columns are pairwise distinct exactly when no two standard settings share one |
| ObjectStorageJob.DefaultsWork | internal/controller/plan.go:279-293 | With upstream's columns and no extra ones every plan is accepted and its columns are distinct |
| ObjectStorageJob.ArrivesVerbatimIff | internal/controller/objectstorage.go:222 | A user string reaches the container unchanged in every environment exactly when it has no $$ and no $( that is closed later |
| ObjectStorageJob.DollarsAreLost | internal/controller/objectstorage.go:222 | Two strings that are changed, and one with an open $( that is not |
| DetectorJob.HashCoversJob | internal/controller/sensitive_detector.go:248-335 | Two passes hash the same text exactly when they build the same Job and see the same Secret versions; an enabled and a disabled spec never share a hash |
| DetectorJob.EncodeInjective | internal/controller/sensitive_detector.go:250-253 | Over NUL-free strings the NUL-terminated text determines the list of fields |
| DetectorJob.EncodeAmbiguous | internal/controller/sensitive_detector.go:250-253 | With a NUL in a field it does not |
| DetectorJob.FieldsApart | internal/controller/sensitive_detector.go:254-283 | The count tells where the pull secrets end, so the list determines every field |
| DetectorJob.Write | internal/controller/sensitive_detector.go:248-285 | The text written is the encoding of the fields; a failed Secret read gives no hash |
| DetectorJob.JobConfigures | internal/controller/sensitive_detector.go:199-246 | For every spec, whenever the container starts, the script succeeds exactly if the columns exist; then row x holds the detector settings, texts as Kubernetes expands them, or the reset ones when there is no detector, and every other column and row what it held; otherwise nothing changes |
| DetectorRow.JobFillsRow | internal/controller/sensitive_detector.go:199-246 | Whenever the container starts and the script succeeds there is a row x, and every such row holds under upstream's own column names the settings of the detector, with medium, 60000 and 4 where nothing is said, or upstream's values and no URL and key when it is off |
| DetectorRow.JobReachesDatabase | internal/controller/sensitive_detector.go:287-296 | Whenever the container starts, psql is given host, port, name, user and password of the database |
| DetectorRow.JobImage | internal/controller/sensitive_detector.go:297-315 | The Job runs the user's image, or ghcr.io/cloudnative-pg/postgresql:17, with the instance's pull secrets |
| DetectorJob.IntactIsVerbatim | internal/controller/sensitive_detector.go:235-246 | With intact texts the row holds mode, sensitivity and URL as the user wrote them |
| DetectorJob.DetectorEnvIs | internal/controller/sensitive_detector.go:235-246 | The four variables of an enabled detector, none of a disabled one |
| Config.RenderDefaultYml | internal/controller/config.go:81-150 | default.yml is the text of the template of literals and placeholders |
| ConfigLines.FileIs | internal/controller/config.go:81-150 | With the secrets in place the file is, line by line, what the plan says: title, address, setup password, database, replicas, Redis and its roles, search, the closing settings; then the optional settings and the user's own text |
| Config.RenderRedisBlock | internal/controller/config.go:50-77 | One Redis block; the password placeholder appears exactly if there is a password, a second time with sentinels |
| Config.QuoteClosed | internal/controller/config.go:40-43 | Quoting brings in no "${" |
| ConfigSecrets.RenderInitEnv | internal/controller/misskey_pod.go:42-60 | The variables: database, search key, shared Redis, roles in order, setup password |
| ConfigSecrets.PlaceholdersAreVariables | internal/controller/config.go:81-150 | The placeholders of default.yml are exactly the names of the variables |
| ConfigSecrets.VariablesApart | internal/controller/misskey_pod.go:42-60 | No two variables have the same name |
| ConfigSecrets.ScriptListsAll | internal/controller/misskey_pod.go:67-73 | The script goes through every placeholder's name |
| ConfigSecrets.ReferencedSecretNames | internal/controller/common.go:85-102 | Exactly the Secrets the variables read |
| ConfigScript.RenderConfig | internal/controller/misskey_pod.go:67-73 | The loop of splits and joins replaces each listed name in turn |
| ConfigScript.ScriptSubstitutes | internal/controller/misskey_pod.go:67-73 | With no "${" in user strings and secret values the result is the template with every placeholder replaced at once by its quoted secret, and no "${" is left |
| ConfigExact.ScriptIff | internal/controller/misskey_pod.go:67-73 | With clean user strings the script equals filling in all secrets at once exactly when no secret of a variable holds the placeholder of a name that is set and comes later |
| ConfigReading.ScriptedFileSays | internal/controller/misskey_pod.go:62-73 | From the plan to the file the script leaves: under db, dbSlaves, redis, each redisFor heading of a role with its own Redis, and meilisearch stand exactly the plan's values, each password the quoted secret of its own selector |
| ConfigExact.PasswordIsRewritten | internal/controller/misskey_pod.go:67-73 | An input: a database password that is the placeholder of the setup password does not arrive |
| ConfigExact.OccursQuoted | internal/controller/misskey_pod.go:62-66 | JSON quoting neither makes nor breaks a placeholder |
| TemplateExact.SequentialIff | internal/controller/misskey_pod.go:67-73 | For any template and quoted values, one name after the other is all at once exactly when no used value holds the placeholder of a later name |
| TemplateExact.SequentialByChunk | internal/controller/misskey_pod.go:67-73 | Replacing in the whole text is replacing in each value by itself, as no placeholder reaches over a quotation mark |
| Template.SequentialIsSimultaneous | internal/controller/misskey_pod.go:67-73 | Replacing names one after the other in the text is filling in all of them at once |
| Template.JoinSplit | internal/controller/misskey_pod.go:71 | Splitting at a text and joining with another replaces every occurrence from left to right |
| Template.ValuesAreRewritten | internal/controller/misskey_pod.go:67-73 | A value that itself holds a later placeholder is rewritten |
| Deletion.Operator.Run | internal/controller/deletion.go:49-118 | Over every run with failures at any call and garbage collection in the background, with policy Retain nothing that holds data under any spec is collected while it refers to the instance, and nothing of it at all if nobody else owns it; the world and the losses are exactly what the trace of requests and outside steps leads to, in which references are taken off only while the instance is being deleted, with policy Retain, and only off data |
| Deletion.Operator.Step | internal/controller/deletion.go:63-64 | One step of garbage collection, of another controller or of the user; what is collected is exactly what enters the losses |
| Deletion.Operator.ReconcileDelete | internal/controller/deletion.go:49-61 | The finalizer goes only after everything that holds data has lost its reference, and with no failing call it does go |
| Deletion.Operator.RetainData | internal/controller/deletion.go:65-90 | Success means nothing that holds data under any spec refers to the instance, whatever happened meanwhile |
| Deletion.Operator.Orphan | internal/controller/deletion.go:94-118 | Success means the object is absent or does not refer to the instance |
| Deletion.Operator.PutRefs | internal/controller/deletion.go:116-117 | The write replaces the references read by the same without this owner, and is refused if they changed |
| Deletion.Detach | internal/controller/deletion.go:103-112 | The loop keeps exactly the other references and tells whether there was one of ours |
| Deletion.WithoutKeeps | internal/controller/deletion.go:103-112 | Every reference to another owner stays, as often as it was there, and none of ours |
| Deletion.WithoutInOrder | internal/controller/deletion.go:103-112 | Those that stay keep their order |
| Deletion.EnvSafe | internal/controller/deletion.go:49-118 | No step of the environment makes a target lost on our account |
| Deletion.TargetsCoverRedis | internal/controller/redis.go:68-94 | The data of every Redis instance any spec asks for is among the targets |
| Deletion.TargetsAreTheData | internal/controller/deletion.go:65-83 | The targets are exactly what holds data under some spec: the database cluster, the search engine and its key, the setup password, the Redis password, the detector key, and the Redis of every slot in either mode, each by its own name |
| Deletion.LostWithoutRetain | internal/controller/deletion.go:49-61 | Without the policy the data does go: a run in which the database cluster is collected while it refers to the instance |
| Deletion.CollectedIff | internal/controller/deletion.go:92-93 | Garbage collection takes exactly the objects that have owners of which none is left |
| Deletion.Operator.ReconcileRegular | internal/controller/misskey_controller.go:126-135 | Before the finalizer is on, no object is given a reference to the instance; with no failing call every object has one afterwards |
| Redis.RedisCluster.Reconcile | internal/controller/redis.go:134-187 | From any state, success leaves for every slot the parts of the wanted mode standing, but for those that were already on their way out, and every other part absent or asked to go; no pass, aborted or not, asks a wanted part to go; and undisturbed it succeeds |
| Redis.RedisCluster.Run | internal/controller/redis.go:134-187 | In every run, aborted or not, with deletions that take their time: what is there is exactly what the history leads to; every object made was made while each part of the other mode of its slot was absent or asked to go and after the password Secret; if at first no slot had both modes standing, none ever has |
| Redis.ModesExclude | internal/controller/redis.go:144-169 | No history of such events leads from one mode a slot to parts of both standing |
| Redis.RedisCluster.Apply | internal/controller/config.go:365-382 | Create or update; an object comes into being only through an entry in the history, and one that is going stays going |
| Redis.RedisCluster.Provide | internal/controller/redis.go:144-169 | One instance, the other mode asked to go first; nothing is done to another slot |
| Redis.RedisCluster.Sweep | internal/controller/redis.go:171-185 | What is not wanted is asked to go, for every slot there can be, and what is wanted stays |
| Redis.RedisCluster.DeleteStandalone | internal/controller/redis.go:331-345 | Success leaves every standalone part of the slot absent or asked to go, and nothing is done to the rest |
| Redis.ManagedInstances | internal/controller/redis.go:77-94 | The instances in order: the shared one unless external, then the managed roles |
| Redis.InstancesAre | internal/controller/redis.go:77-94 | Exactly one instance for every wanted slot, in the wanted mode; roles count even when the shared Redis is external |
| Redis.Resolve | internal/controller/plan.go:163-184 | The endpoint of the shared Redis and of every separate role |
| Redis.EndpointsLeadToInstances | internal/controller/plan.go:347-363 | A slot has a managed endpoint exactly when an instance is provided for it, with the same mode and host |
| Redis.NamesDistinct | internal/controller/common.go:184-200 | No two Redis objects of an instance share kind and name |
| StatefulSet.Applier.Run | internal/controller/statefulset.go:42-76 | Over every run the set and its claims are exactly what the trace of requests and outside steps leads to; in it the set is deleted only when it stands and differs from what one of the passes wants, at most once per change of the wanted templates plus once for a difference at the start; claims are never deleted and never shrink |
| StatefulSet.Applier.Apply | internal/controller/statefulset.go:42-76 | At most one deletion enters the trace, only of a set that stands and differs from the templates of this call; success leaves it standing with the wanted name, size and class of every claim; with nothing in its way it succeeds exactly unless the templates that stand count as the same and yet differ |
| StatefulSet.TemplatesChanged | internal/controller/statefulset.go:80-99 | Changed exactly when number, a name, a class or a size differs |
| StatefulSet.Applier.ExpandAll | internal/controller/statefulset.go:103-130 | Claims only grow; if no call failed, every claim that was there has at least its template's size; undisturbed no call fails |
| StatefulSet.Applier.CreateOrUpdate | internal/controller/statefulset.go:75 | An update in place never changes the templates |
| StatefulSet.UnchangeableExample | internal/controller/statefulset.go:89 | No class and an empty class count as the same and yet differ |
| StatefulSet.DebtOnChange | internal/controller/statefulset.go:80-99 | The need to replace the set arises only from a change of what is wanted |
| BackupVerify.Verifier.Run | internal/controller/backupverify.go:108-159 | Over every run each event keeps its promise given all before it: a test is made only with none there and an interval after the stored time of the last record, judged by the world as read, and removed only right after its outcome is in the status; what is there and what the status says is what the history tells |
| BackupVerify.SuccessiveTests | internal/controller/backupverify.go:108-159 | Of any two successive tests of such a history the former was recorded and removed before the latter was made; they are more than an interval less one second apart, and a whole interval if the second of the record began no earlier than the former was made |
| BackupVerify.SucceededWasReady | internal/controller/backupverify.go:143-148 | A test recorded as succeeded had a ready instance when it was judged |
| BackupVerify.TooSoon | internal/controller/backupverify.go:37-43 | A run in which a whole interval does not pass between two tests |
| BackupVerify.Verifier.Reconcile | internal/controller/backupverify.go:108-159 | A pass without error has done exactly what the world it read asks for: made a test that is due, recorded and removed one that is ready or late, or nothing; with its calls done it has no error |
| BackupVerify.Verifier.WriteRecord | internal/controller/backupverify.go:163-181 | Success puts this outcome and time in the status and in the history, after conflicts too |
| BackupVerify.Verifier.RemoveRestore | internal/controller/backupverify.go:148-155 | The test database goes only when the last thing that happened is that its outcome was recorded |
| BackupVerify.AnIntervalApartIff | internal/controller/backupverify.go:37-43 | The next test is due a whole interval after the last was made, whenever it is tried, exactly when the second of the record began no earlier than that |
| BackupVerify.Defaults | internal/controller/backupverify.go:123-140 | Unset, tests are 168 hours apart and have 30 minutes |
| BackupVerify.FailedWasLate | internal/controller/backupverify.go:149-151 | A test recorded as failed had been there for more than the time allowed less one second |
| Truncation.TruncateMsg | internal/controller/misskey_controller.go:75-86 | At most 1024 bytes; short messages unchanged; otherwise a true prefix and the suffix; valid UTF-8 stays valid and gives up at most 3 bytes |
| Truncation.CutAtStart | internal/controller/misskey_controller.go:80-85 | Cutting valid UTF-8 before a byte that can begin a character leaves two valid halves |
| Truncation.StartNearby | internal/controller/misskey_controller.go:80-85 | In valid UTF-8 such a byte is at most three bytes back |

## Left out

- Status aggregation (`updateStatus`, the conditions, requeue times): single-branch summaries of what the gates decide.
- `resolveImage` beyond the cache and the rollout: its fall-back to the status is one branch.
- Pod, probe, resource, NetworkPolicy, Ingress, proxy, monitoring, quota and tenancy builders: literals. Calls for them in a pass are calls that may fail and change nothing modelled.
- Registry HTTP, keychains, FNV and sha256 internals, random key generation and the rotation annotation: inputs or free constructors.
- Reads are of the current state; stale caches are not modelled.
- External deletion of objects of the operator, foreground cascading deletion, and pods that outlive a deleted Job.
- Objects that stay for a while after their deletion was accepted, except those of `StatefulSet` and `Redis`.
- Other actors that make or delete Redis objects: during a pass only calls fail and objects that were asked to go vanish.
- PostgreSQL types, keys, privileges and identifier length limits; a second row with the same id.
- Switching an instance to another database: the meta row of the model belongs to one database.
- `renderPerformance`, `renderOutboundProxy` and `renderFiles`: one text without placeholders in `Config.Plan`.
- Invalid UTF-8 in JSON quoting.
- The ownership marks on the generated detector Secret: an input of the pass.
- The other finalizers of an instance and a change of its deletion policy while it is being deleted.
- The sizing fields of a Redis instance (`buildManagedInstance`): defaults and overrides.
- A backup verification that is switched off during a test: its database is removed without an outcome, by design.
- Migration.DiscardCurrent: between reading a failed Job and deleting it the Job may succeed; the history states what was read.
- Controller.RunPass: what a pass must achieve is stated for calm scripts and, as far as it does not depend on that, for all; when pods or an autoscaler move a Deployment during a pass, only the promises on its writes apply.
- Pods of an older template: as in the code, they may still run when the detector's objects go.
- Channel.ChannelController.DoReconcile: the two reads of the status agree, as only this controller writes it; `Channel.FailureLeavesRolloutIff` says what follows when they do not.
