# Verified model of the PostgreSQL operator

A Dafny model of the logic of the operator that has to hold over runs, over interleavings with
other writers, or against a parser at the other end. `dafny verify dfyconfig.toml` checks it.

What changes step by step in the source is a class or a method with loops here, and each such
method is proved equal to a specification function. The lemmas are about these functions, and
about state machines whose steps are these functions.

| part | modules |
|---|---|
| major-version upgrade | `PGUpgradeState`, `PGUpgradeWorld`, `PGUpgradeController`, `PGUpgradeConditions`, `PGUpgradeRuns`, `PGUpgradeProgress`, `Naming` |
| lease | `LeaseServer`, `LeaseRuns` |
| finalizer | `Finalizers`, `FinalizerRuns` |
| ownership and cert-manager | `ControllerRefs`, `CertManager` |
| pg_tde | `VaultProvider`, `VaultChange`, `TDEVolume` |
| patches | `Json`, `MergePatch`, `MergePatchApplied`, `JsonPatch` |
| pg_hba.conf | `HbaSyntax`, `HbaRecord`, `HbaRoundTrip`, `HbaRegex`, `HbaFile`, `HbaRules`, `HbaSpec` |
| Patroni and Postgres configuration | `DynamicConfig`, `LogDirectory`, `ShellWords`, `AuthFile` |
| smaller cores | `LeafRenewal`, `PemBundle`, `StreamLines`, `LatestBackup` |

## Assumptions about the other side

- The Kubernetes API server hands out increasing resource versions and fresh UIDs. A write or
  delete that carries a version or UID applies to that very object only. Requests and replies can
  get lost where a module has faults for that.
- Reads go through a cache. `LeaseRuns`, `FinalizerRuns` and `PGUpgradeRuns` let a client see any
  state of the past.
- pg_hba.conf is read as the PostgreSQL 16 documentation and its tokenizer describe: quotes,
  doubled quotes, commas, comments, continued lines, keywords only when unquoted, names that begin
  with a slash as regular expressions. A physical replication connection matches only the keyword
  "replication".
- JSON Pointer is RFC 6901 (sections 3 and 4), JSON Merge Patch is RFC 7386 (section 2). Words of a
  shell are those of sections 2.2 and 2.3 of the POSIX Shell Command Language.
- Hashes of different settings differ, and so do the values of different Secret keys (`VaultChange`). Cryptography is a flag (`LeafRenewal`) or a
  predicate (`PemBundle`).

## Where the code does less than it says

Each of these is a lemma with the exact condition, or with a concrete run.

- The rule that rejects the replication user names all databases, and "all" does not match physical
  replication. So physical replication without TLS is left to the user's rules, against the comment
  in internal/postgres/hba.go:21-24. With spec.tlsOnly the rejecting rules become "hostssl", which
  leaves every connection without TLS to the user's rules (`HbaRules.GuardedExactlyWhenCovered`).
- A rule in spec.authentication with the documented connection "local" renders a line that
  PostgreSQL cannot read (`HbaSpec.SpecRuleIsRead`).
- A database or user name that begins with a slash and contains "^" or "\" is not matched exactly
  (`HbaRegex.SlashNameIsExact`).
- AcquireLease reads through a cache and succeeds without a write when the read names its holder.
  With a stale read two holders are granted the lease (`LeaseRuns.CachedReadBreaksExclusion`), which
  can happen exactly to a holder that comes back under a name it used before
  (`LeaseRuns.CachedGrantsOwnExactly`). An acquire that does not write leaves an earlier
  staleness verdict in force (`LeaseRuns.ReacquiringKeepsVerdict`, exact condition in
  `LeaseRuns.LaterVerdictExactlyWhenNobodyWaits`). ReleaseLease returns nil while its holder still owns a lease
  that something else wrote (`LeaseRuns.ReleaseLeavesLease`).
- The finalizer can go while an instance runs: a list without Pods counts as no instances, although
  a StatefulSet that nothing scaled to zero may be about to replace its Pod, or the list may be old
  (`FinalizerRuns.GoneExactlyAfterQuietList`, `FinalizerRuns.ReplacedPodOutlivesFinalizer`).
- Changing Vault credentials again while the provider names staged copies can leave instances
  without the key (`VaultChange.EditDuringChangeLosesKey`). So can changing them back after the
  status of phase 1 was lost (`VaultChange.LostStatusLosesKey`), and a short write when phase 1 is
  repeated after that (`VaultChange.TornCopyLosesKey`). The exact condition for every state is
  `VaultChange.StaysReadableExactlyWhenSafe`.
- Without a pgBackRest status in the cluster the upgrade controller panics where it records the
  version, so an upgrade whose work is done never succeeds (`PGUpgradeProgress.FourRoundsSucceed`).
- A database or user name with a newline breaks its record in two, quoted or not
  (`HbaFile.ReadBackExactlyWhenOneLine`).
- Merge7386.Add with an object as the value merges it into the target
  (`Json.ReplacesExactly`, `MergePatchApplied.LastChangeTakesEffect`).
- A parameter in another letter case survives beside a mandatory one (`DynamicConfig.OtherSpellingsSurvive`).
- A log directory that cleans to steps up only resolves to the directory above the data directory
  (`LogDirectory.AcceptedRelativeStaysInside`, `LogDirectory.OnlyUpsAreOneUp`).
- The cert-manager reconcilers replace the whole list of owners, and take a reference with another
  UID for their own (`CertManager.OtherOwnersAreDropped`, `CertManager.PredecessorStaysOwner`).
- Certificates keep whole seconds, so two renewals can be up to one second closer than two thirds
  of the validity (`LeafRenewal.FullDistanceFromWholeSeconds`).
- A succeeded backup without a completion time is passed over (`LatestBackup.NewestIsChosen`).
- Upgrade metadata that labels Jobs as replica-create backups makes the controller delete its own
  Jobs (`PGUpgradeRuns.PosingJobsAreDeleted`). A condition PGUpgradeCompleted is never replaced by
  progress (`PGUpgradeConditions.ProgressingTellsFirstGate`).

## Model

| member | source | states |
|---|---|---|
| PGUpgradeController.Reconcile | internal/controller/pgupgrade/pgupgrade_controller.go:120-510 | one reconcile with its gates, job scan, writes and status patch is the step function of the runs, for any order of the jobs and any failing calls |
| PGUpgradeController.ReconcileUpgrade | internal/controller/pgupgrade/pgupgrade_controller.go:174-510 | the conditions set along the way and the writes are those of the first gate that does not pass |
| PGUpgradeController.CountRemovals | internal/controller/pgupgrade/pgupgrade_controller.go:268-281 | the loop over the jobs finds the completed removals and any failed one |
| PGUpgradeController.DeleteReplicaCreateJobs | internal/controller/pgupgrade/pgupgrade_controller.go:430-447 | which backup jobs are deleted before the first failing call |
| PGUpgradeWorld.ObserveWorld | internal/controller/pgupgrade/world.go:30-175 | the snapshot: replicas expected, replicas found, primary and shutdown, from the objects that were read |
| PGUpgradeState.IdentifiedPrimaryCountsReplicas | internal/controller/pgupgrade/world.go:113-131 | an identified primary means that every other instance was found: as many replicas as expected |
| PGUpgradeConditions.ProgressingTellsFirstGate | internal/controller/pgupgrade/pgupgrade_controller.go:174-421 | after a reconcile the Progressing condition is the one of the first gate that does not pass |
| PGUpgradeConditions.ProgressingIgnoresHistory | internal/controller/pgupgrade/pgupgrade_controller.go:512-526 | two upgrades that differ in their earlier conditions end with the same Progressing condition, apart from a leftover PGUpgradeCompleted |
| PGUpgradeConditions.GateIgnoresHistory | internal/controller/pgupgrade/pgupgrade_controller.go:178-421 | the first gate depends on the world and not on earlier conditions |
| PGUpgradeConditions.ReconcileIgnoresOrder | internal/controller/pgupgrade/pgupgrade_controller.go:254-286 | with jobs as this controller makes them, every iteration order of the map gives the same outcome, up to which backup jobs a failing delete leaves |
| PGUpgradeConditions.DeleteBackupsRemovesAll | internal/controller/pgupgrade/pgupgrade_controller.go:430-447 | when no delete fails exactly the labelled backup jobs are gone |
| PGUpgradeRuns.RunKeepsInv | internal/controller/pgupgrade/pgupgrade_controller.go:120-510 | what every run keeps, with stale reads, lost writes and everybody else's steps in between |
| PGUpgradeRuns.RemovalOnlyAfterUpgrade | internal/controller/pgupgrade/pgupgrade_controller.go:473-481 | in every run a remove-data job exists only after the upgrade job completed, and only for an instance other than the startup one |
| PGUpgradeRuns.VersionRecordedOnlyWhenDone | internal/controller/pgupgrade/pgupgrade_controller.go:423-463 | the cluster's status changes only after the upgrade job and one removal per replica completed, to the target version, and only when the cluster had a pgBackRest status |
| PGUpgradeRuns.SuccessReportedOnlyWhenDone | internal/controller/pgupgrade/pgupgrade_controller.go:305-329 | success is reported only when all of that work is done, and never without an identified primary |
| PGUpgradeRuns.FailureBlocksForever | internal/controller/pgupgrade/pgupgrade_controller.go:409-421 | once a job failed the cluster is not changed any more, and after a failed upgrade job no removal ever exists |
| PGUpgradeRuns.PosingJobsAreDeleted | internal/controller/pgupgrade/pgupgrade_controller.go:430-447 | one of the controller's own jobs is deleted as a backup exactly if the upgrade's metadata labels it so |
| PGUpgradeProgress.SuccessIsAbsorbing | internal/controller/pgupgrade/pgupgrade_controller.go:156-166 | after success a reconcile writes nothing |
| PGUpgradeProgress.ReconcileProgresses | internal/controller/pgupgrade/pgupgrade_controller.go:305-510 | with passing gates a reconcile lowers the measure unless it has to wait for a running job, or only the version is left to record and cannot be |
| PGUpgradeProgress.CompletionProgresses | internal/controller/pgupgrade/jobs.go:394-414 | a job that completes lowers the measure |
| PGUpgradeRuns.ShortNamesAreSound | internal/controller/pgupgrade/jobs.go:148-308 | names that are short enough give every job of an upgrade a name of its own, as the runs assume, unless an instance is called pgdata |
| PGUpgradeProgress.FreshUpgradeIsReady | internal/controller/pgupgrade/pgupgrade_controller.go:178-407 | an upgrade without jobs of its own is on its way as soon as the gates pass, whatever other jobs there are |
| PGUpgradeProgress.CompletionIsOthersStep | internal/controller/pgupgrade/jobs.go:394-414 | jobs that complete are a step of everybody else in the runs |
| PGUpgradeProgress.FourRoundsSucceed | internal/controller/pgupgrade/pgupgrade_controller.go:305-510 | after four reconciles, each after the running jobs completed, all work is done, and they end in success exactly if the version was recorded already or the cluster has a pgBackRest status |
| PGUpgradeProgress.FreshUpgradeRunsToSuccess | internal/controller/pgupgrade/pgupgrade_controller.go:120-510 | from an upgrade that nobody acted on, whatever other jobs and backups there are, such rounds are a run of the state machine that does all work and ends in success exactly with a pgBackRest status |
| Naming.SafeDNSUniqueNameIsSafe | internal/naming/dns.go:44-62 | a name of any length with the characters of a DNS-1123 label becomes a DNS-1123 label |
| Naming.SafeDNSUniqueNameFits | internal/naming/dns.go:44-62 | whatever the input, the result is short enough and does not end with a hyphen |
| Naming.SuffixIsWhole | internal/naming/dns.go:57-60 | four characters can be sliced off the encoded hash exactly if the hash has four digits |
| Naming.SafeDNSUniqueNameKeepsSafeNames | internal/naming/dns.go:44-62 | exactly the names that are safe already stay as they are |
| LeaseServer.AcquireLease | percona/k8s/lease.go:38-70 | get, change in place, create or update under the version that was read, with other clients and lost requests in between, has the effect the runs use |
| LeaseServer.ReleaseLease | percona/k8s/lease.go:77-101 | the delete carries UID and version, and a missing or changed lease counts as released |
| LeaseServer.LeaseObject.Take | percona/k8s/lease.go:46-68 | the closure changes holder and time only when nobody else is in the way |
| LeaseRuns.StepRefinesLock | percona/k8s/lease.go:38-101 | every step of every client is a step of an atomic lock or none: only the taker's own verdict about the present record lets it take over, and a delete removes the very record that was read |
| LeaseRuns.OwnerStays | percona/k8s/lease.go:38-101 | an owner stays the owner until its own release, or until a client takes over the record that its own check called stale |
| LeaseRuns.CachedGrantsOwnExactly | percona/k8s/lease.go:46-50 | whatever former record a read may show, a grant from it is ownership, exactly if the holder owns the lease already or no record of the run ever named it |
| LeaseRuns.GrantsExclude | percona/k8s/lease.go:38-101 | between grants to two holders that come from a write, a direct read, or a name that is new or still the owner, the first one released the lease, or a client took it over whose own check called that very record stale |
| LeaseRuns.EvictionIsCondemned | percona/k8s/lease.go:52-63 | after a written grant, the taker's own verdict came after the grant, when the record that it takes over was the present one and named this holder |
| LeaseRuns.LaterVerdictExactlyWhenNobodyWaits | percona/k8s/lease.go:46-68 | from any moment on, every takeover follows a verdict of the taker from after that moment, in every continuation, exactly if nobody is then about to write over the present record |
| LeaseRuns.PastRecordsDoNotReturn | percona/k8s/lease.go:88-92 | a record that is no longer present never is again, so preconditions cannot match a re-created lease |
| LeaseRuns.ReleasedRecordIsGone | percona/k8s/lease.go:77-101 | once a release returned, the record it read is gone for good |
| LeaseRuns.ReleaseLeavesLease | percona/k8s/lease.go:94-98 | the releaser still owns the lease exactly if something wrote it since the read and it still names the releaser |
| LeaseRuns.CachedReadBreaksExclusion | percona/k8s/lease.go:47-50 | a run in which a stale read grants the lease to a second holder |
| LeaseRuns.ReacquiringKeepsVerdict | percona/k8s/lease.go:47-50 | a run in which a verdict from before a grant without a write evicts its holder |
| LeaseRuns.AcquireIsItsSteps | percona/k8s/lease.go:38-70 | the effect of a whole acquire is that of its steps in the state machine |
| LeaseRuns.ReleaseIsItsSteps | percona/k8s/lease.go:77-101 | the effect of a whole release is that of its steps in the state machine |
| Finalizers.HandleDelete | internal/controller/postgrescluster/delete.go:25-109 | the branches, requests and their order, with other writers between them |
| FinalizerRuns.HandleDeleteIsItsSteps | internal/controller/postgrescluster/delete.go:25-109 | the effect of a whole handleDelete is that of its steps in the state machine, with others in between and any failing request |
| Finalizers.DeleteInstances | internal/controller/postgrescluster/instance.go:497-580 | which StatefulSets are scaled to zero: of a single Pod, or of every replica and Pod without a role up to the first failing request |
| Finalizers.ListedAreStopped | internal/controller/postgrescluster/instance.go:553-580 | after a pass without failures exactly the listed replicas and Pods without a role are no longer wanted |
| Finalizers.Sorted | internal/controller/postgrescluster/delete.go:98 | sorting a list of finalizers keeps its elements |
| FinalizerRuns.OthersAreKept | internal/controller/postgrescluster/delete.go:51-101 | a patch that takes effect writes the whole list and changes nobody else's finalizer, in every interleaving |
| FinalizerRuns.FinalizerHoldsObject | internal/controller/postgrescluster/delete.go:30-50 | while the finalizer is set the object stays, and only the last step takes it off |
| FinalizerRuns.RemovalIsLast | internal/controller/postgrescluster/delete.go:76-101 | every removal follows a list without Pods and a removal of the Patroni artifacts, in this order and for the same read |
| FinalizerRuns.GoneAfterAPass | internal/controller/postgrescluster/delete.go:51-101 | in every run a finalizer that is there at one moment and gone at a later one was taken off in between by the last step of such a pass, which read the present object and left everybody else's finalizers |
| FinalizerRuns.GoneExactlyAfterQuietList | internal/controller/postgrescluster/delete.go:76-101 | after a list without Pods, instances and artifacts are gone when the pass takes the finalizer off, in every continuation, exactly if at the list no StatefulSet wanted a Pod and none was there, or the object that was read is no longer the present one |
| FinalizerRuns.ReplacedPodOutlivesFinalizer | internal/controller/postgrescluster/delete.go:79-83 | a run in which every list shows the Pods that there are, and the finalizer goes while an instance runs |
| ControllerRefs.ClaimObject | internal/controller/postgrescluster/controller_ref_manager.go:57-110 | adopts, releases or leaves alone, also when the patch finds nothing |
| ControllerRefs.ClaimsOnlyOrphans | internal/controller/postgrescluster/controller_ref_manager.go:57-110 | adopts exactly labelled orphans, lets go exactly of its own unlabelled objects, and keeps every other owner |
| ControllerRefs.ClaimsOnce | internal/controller/postgrescluster/controller_ref_manager.go:57-110 | claiming again changes nothing |
| CertManager.Controller.ResolveIssuerMode | percona/certmanager/certmanager.go:78-115 | the mode from the spec and the ClusterIssuer that is there, with its error cases |
| CertManager.Controller.ApplyIssuer | percona/certmanager/certmanager.go:205-298 | what is created, adopted or left alone in each mode |
| CertManager.Controller.ApplyCAIssuer | percona/certmanager/certmanager.go:304-381 | what is created, adopted or left alone in each mode |
| CertManager.Controller.ApplyCACertificate | percona/certmanager/certmanager.go:388-493 | a shared certificate gets no owner, and a duration is changed only where there is one |
| CertManager.Controller.ApplyClusterCertificate | percona/certmanager/certmanager.go:497-603 | owner, duration and issuer are brought in line, or the certificate is created |
| CertManager.CertificateObject.Align | percona/certmanager/certmanager.go:519-552 | an update is needed exactly if something changed |
| CertManager.ModeIsStable | percona/certmanager/certmanager.go:78-115 | after any calls for any clusters the mode of a cluster is what it was |
| CertManager.ClusterIssuersAreKept | percona/certmanager/certmanager.go:214-245 | no call changes a ClusterIssuer that exists, and every one that appears carries the label |
| CertManager.ExternalIsLeftAlone | percona/certmanager/certmanager.go:209-213 | with an external issuer only leaf certificates are written |
| CertManager.SecondCallWritesNothing | percona/certmanager/certmanager.go:205-603 | once a call succeeded the same call writes nothing, from every starting state |
| CertManager.OtherFieldsAreKept | percona/certmanager/certmanager.go:519-552 | a call changes nothing of a certificate but owner, duration and issuer |
| CertManager.OtherOwnersAreDropped | percona/certmanager/certmanager.go:527-537 | another owner stays exactly if the cluster was an owner before |
| CertManager.PredecessorStaysOwner | percona/certmanager/certmanager.go:520-526 | the cluster's own reference is there afterwards exactly if it was before or no reference had its name |
| VaultProvider.ReconcileVaultProvider | internal/pgtde/postgres.go:410-445 | nil exactly when these statements worked, and then provider and default key are those of the spec; an error leaves the provider as it was or as the spec has it |
| VaultProvider.RetryUntilItWorks | internal/pgtde/postgres.go:405-409 | tries end with the first one in which nothing fails; up to then the provider is the old one or that of the spec, and no key is lost or added but the cluster's |
| VaultChange.KeyStaysReadable | internal/controller/postgrescluster/postgres.go:550-562 | in every run, with failures, lost replies and lost status anywhere, every instance can fetch the key, now and after a restart, if each edit of the spec leads to a safe state and no staged file is torn while the provider names it |
| VaultChange.ConfiguredMayBeEdited | internal/controller/postgrescluster/postgres.go:644-656 | with the revision of the spec recorded, the spec may be edited to anything exactly if the change is not stuck |
| VaultChange.VolumeIsHeld | internal/controller/postgrescluster/instance.go:1272-1291 | while the provider names mounted credentials no template releases them |
| VaultChange.FourRoundsSettle | internal/controller/postgrescluster/postgres.go:563-757 | from every state, four reconciles with restarts settle the spec exactly unless the revision says configured while the provider names something else, or there is a revision and no provider |
| VaultChange.PatientRunsSettle | internal/controller/postgrescluster/postgres.go:563-757 | in every run whose edits wait for a provider that names mounted credentials, four rounds settle the spec from any moment on |
| VaultChange.Repoint | internal/pgtde/postgres.go:410-445 | the statements repoint the provider as a step of the runs does, for any of them failing |
| VaultChange.TemplateHasVolume | internal/controller/postgrescluster/instance.go:1272-1284 | preserving the old volume in phase 1 only gives the templates of the runs |
| VaultChange.StaysReadableExactlyWhenSafe | internal/controller/postgrescluster/postgres.go:563-757 | from every state, whatever revision is recorded, the key stays readable through all restarts and reconciles to come exactly under a condition on spec, revision, provider and ready condition; with torn files allowed, exactly if also no change is pending |
| VaultChange.EveryEditIsSafeExactlyWhenAllowed | internal/controller/postgrescluster/postgres.go:563-757 | every edit leads to a safe state exactly while the provider names mounted credentials and a revision is recorded, or there is no provider |
| VaultChange.EditDuringChangeLosesKey | internal/controller/postgrescluster/postgres.go:681-701 | a run with an edit to other credentials during a change after which an instance cannot fetch the key |
| VaultChange.LostStatusLosesKey | internal/controller/postgrescluster/postgres.go:644-656 | a run in which a reported failure, a lost status and an edit back lead to the phase configured, where the copies that the provider names are removed |
| VaultChange.TornCopyLosesKey | internal/controller/postgrescluster/postgres.go:681-701 | a run in which a lost status repeats phase 1, which tears the copy of the token that the provider names |
| TDEVolume.PreserveOldTDEVolume | internal/pgtde/postgres.go:538-598 | volume and mount of the new Pod spec from those of the running one |
| TDEVolume.PutKeepsOthers | internal/pgtde/postgres.go:550-559 | replacing by name changes no item of another name and settles at once |
| TDEVolume.PreservingIsIdempotent | internal/pgtde/postgres.go:538-598 | the kept volume and mount are found in the new spec, nothing else changes, and a second call changes nothing |
| Json.MergeTwice | internal/kubeapi/patch.go:122-128 | merging the same patch again changes nothing |
| Json.ReplacesExactly | internal/kubeapi/patch.go:122-128 | a merge leaves exactly the given value for every target exactly if it is no object |
| MergePatch.Merge7386.Add | internal/kubeapi/patch.go:129-155 | the patch is the last-write-wins update of the tree, the closure writes at its path, and others are cut off exactly at or below that path |
| MergePatch.Merge7386.Supply | internal/kubeapi/patch.go:147-150 | a late value lands at the closure's path while its map is part of the patch, and nowhere afterwards |
| MergePatch.Merge7386.Remove | internal/kubeapi/patch.go:159-161 | puts null at the path |
| MergePatch.AssignPuts | internal/kubeapi/patch.go:147-152 | assigning a member of a map that the patch leads to is an update of the tree at its path |
| MergePatch.AssignElsewhere | internal/kubeapi/patch.go:147-152 | assigning a member of a detached map changes nothing |
| MergePatch.AssignWalks | internal/kubeapi/patch.go:129-142 | which paths lead where after an assignment |
| MergePatchApplied.Build | internal/kubeapi/patch.go:129-161 | any sequence of calls gives the last-write-wins tree |
| MergePatchApplied.MergeAtPath | internal/kubeapi/patch.go:129-161 | the value at every path of a merged document, from what the patch has there |
| MergePatchApplied.LastChangeTakesEffect | internal/kubeapi/patch.go:129-161 | the last change at a path removes, sets or merges exactly there |
| MergePatchApplied.OtherPathsKeepTheirValues | internal/kubeapi/patch.go:129-161 | every path that is not at, above or below a changed one keeps its value |
| JsonPatch.PointerRoundTrip | internal/kubeapi/patch.go:16-36 | decoding the pointer of any token list returns the list |
| JsonPatch.BuildPointer | internal/kubeapi/patch.go:27-36 | the loop builds a pointer that decodes to its tokens |
| JsonPatch.Replay | internal/kubeapi/patch.go:51-101 | for every interleaving of calls and closures the operations are in call order with their own paths and last values |
| HbaSyntax.QuoteRoundTrip | internal/postgres/hba.go:67-69 | a quoted value is read as one token, unchanged and no keyword |
| HbaRecord.HostBasedAuthentication.String | internal/postgres/hba.go:215-223 | the text of the rule that the fields stand for |
| HbaRecord.HostBasedAuthentication.Databases | internal/postgres/hba.go:122-128 | the quoted names in order |
| HbaRecord.HostBasedAuthentication.Options | internal/postgres/hba.go:161-167 | the quoted options in order |
| HbaRecord.HostBasedAuthentication.TLSOnly | internal/postgres/hba.go:185-191 | the same rule, for TLS only |
| HbaRoundTrip.RecordRoundTrip | internal/postgres/hba.go:67-223 | parsing the text of a record made by the typed methods, as one line, returns its origin, names, address, method and options, with no name read as a keyword |
| HbaRoundTrip.BuildAndRender | internal/postgres/hba.go:104-223 | a rule that is built by calls of the typed methods and rendered is read back as that rule, or as its TLS form |
| HbaRoundTrip.NamesAreField | internal/postgres/hba.go:122-128 | a list of any names is read as one field of quoted tokens |
| HbaRegex.SlashNameIsExact | internal/postgres/hba.go:58-101 | a name that begins with a slash becomes an expression that matches exactly it if and only if it has neither a caret nor a backslash |
| HbaRegex.CleanMatchesItself | internal/postgres/hba.go:71-85 | without those characters the expression compiles and matches the name and nothing else |
| HbaFile.FileBeginsWithRecords | internal/patroni/config.go:258-289 | whatever entries follow, the file begins with the records of the mandatory rules |
| HbaFile.ReadBackExactlyWhenOneLine | internal/postgres/hba.go:67-69 | a rule of the typed methods is the first record of a file that begins with its text exactly if nothing in it has a newline |
| HbaRules.OnlyOwnRulesMatter | internal/postgres/hba.go:21-29 | first match over rules that name one user each is first match over that user's own |
| HbaRules.AppendedOnce | internal/controller/postgrescluster/controller.go:291-295 | the order in which the controller appends the groups is one of those that the decisions hold for |
| HbaRules.MandatoryTexts | internal/controller/postgrescluster/controller.go:291-305 | the mandatory entries, each built, restricted to TLS and rendered, are the file that the decisions are about |
| HbaRules.GroupDecides | internal/logicalreplica/postgres.go:129-134 | the rules of a service decide exactly the covered connections, and how |
| HbaRules.ServiceDecision | internal/patroni/config.go:258-289 | whatever the user's entries and the order of the groups, a covered connection is decided by its own group and any other is left to the user's entries |
| HbaRules.GuardedExactlyWhenCovered | internal/controller/postgrescluster/controller.go:291-305 | the decision holds against all entries of the user exactly for the covered connections |
| HbaSpec.FromSpec | internal/patroni/config.go:711-736 | the text for a rule of the spec |
| HbaSpec.SpecRuleIsRead | internal/patroni/config.go:711-736 | a rule of the spec is read back exactly if its connection is a network kind |
| DynamicConfig.DynamicConfiguration | internal/patroni/config.go:198-344 | every section of the result from those of the caller as they were before; the caller's maps and lists are not modified |
| DynamicConfig.MergeParameters | internal/patroni/config.go:224-256 | the loop over mandatory parameters layers them over user over default, in any order |
| DynamicConfig.MergeHba | internal/patroni/config.go:258-289 | mandatory, then spec, then the strings of the user, then the defaults if there was neither |
| DynamicConfig.MergeStandby | internal/patroni/config.go:303-334 | the standby section and its replica methods |
| DynamicConfig.ParametersAreLayered | internal/patroni/config.go:224-256 | for each exact name mandatory over user over default, and where the list of libraries comes from |
| DynamicConfig.LibrariesKeepTheirOrder | internal/patroni/config.go:240-252 | every library of the user in order before the mandatory ones, and citus first if any name contains it |
| DynamicConfig.DefaultRulesStandIn | internal/patroni/config.go:283-288 | the default rules are there exactly if neither spec nor user brings one |
| DynamicConfig.OtherSpellingsSurvive | internal/postgres/parameters.go:117-121 | no second spelling of a mandatory parameter exactly if the user has none |
| LogDirectory.ResolveLogDirectory | internal/postgres/validation.go:91-129 | the loop and the branches compute the resolved path, and the loop ends |
| LogDirectory.CleanIsClean | internal/postgres/validation.go:92 | a cleaned path has steps up only at the front of a relative path |
| LogDirectory.TextRoundTrip | internal/postgres/validation.go:92 | cleaning the text of a clean path returns it |
| LogDirectory.ResultIsAbsolute | internal/postgres/validation.go:91-129 | the result is an absolute clean path |
| LogDirectory.AcceptedAbsoluteIsNotSensitive | internal/postgres/validation.go:37-60 | an accepted absolute path is the input and not inside a directory of Postgres |
| LogDirectory.AcceptedRelativeStaysInside | internal/postgres/validation.go:119-123 | an accepted relative path stays under the data directory exactly if more than a step up is left |
| LogDirectory.OnlyUpsAreOneUp | internal/postgres/validation.go:94-97 | exactly the paths of steps up only are stripped to one step up |
| LogDirectory.ResultsAreFixed | internal/postgres/validation.go:105-129 | resolving a result again gives the same exactly if it is not unsafe, which replacements and accepted absolute paths never are |
| ShellWords.ShellSeesTheWords | internal/patroni/config.go:41-44 | a shell splits the joined quoted words into exactly those words |
| ShellWords.JoinCommand | internal/patroni/config.go:585-592 | the loop gives a line of exactly these words |
| AuthFile.AuthFileContents | internal/pgbouncer/config.go:92-138 | an error exactly for a reserved name or a password with a newline, and otherwise the entries in order |
| AuthFile.UsersAreRead | internal/pgbouncer/config.go:96-98 | reading the file returns exactly the users, with any quotes and spaces in their names and passwords |
| AuthFile.OperatorUsersAreTheirOwn | internal/pgbouncer/config.go:100-108 | no entry of the user stands for one of the operator |
| LeafRenewal.RegenerateLeafWhenNecessary | internal/pki/pki.go:219-229 | the returned leaf has the subject and is strictly before its renewal time |
| LeafRenewal.CheckSubject | internal/pki/pki.go:55-65 | the loop compares names in order |
| LeafRenewal.EveryLeafIsGood | internal/pki/pki.go:166-229 | along any clock every leaf has the subject, is valid and before its renewal time |
| LeafRenewal.RenewalsAreFarApart | internal/pki/pki.go:207-214 | successive new leaves are at least two thirds of a year less twenty minutes apart, counted from the whole second |
| LeafRenewal.FullDistanceFromWholeSeconds | internal/pki/common.go:41-71 | the full distance is kept for every clock exactly if the leaf was made at a whole second |
| PemBundle.UnmarshalText | internal/pki/encoding.go:56-83 | succeeds exactly if the first block is a certificate that parses, and keeps every certificate in order |
| PemBundle.RoundTrip | internal/pki/encoding.go:31-83 | the text of a bundle is read back as that bundle |
| PemBundle.BetweenDoesNotMatter | internal/pki/encoding.go:72-80 | other blocks and text between do not matter |
| StreamLines.StreamUsingPrefix | cmd/pgbackrest/main.go:178-202 | for every way of cutting the stream into reads the log has its lines in order, and a non-empty tail |
| StreamLines.LogEndedLines | cmd/pgbackrest/main.go:185-191 | the inner loop logs every ended line and keeps the rest |
| StreamLines.LinesAreTheText | cmd/pgbackrest/main.go:178-202 | the lines joined again are the text |
| LatestBackup.GetLatestBackup | percona/k8s/backup.go:20-71 | the backup the loop chooses, or which error |
| LatestBackup.NewestIsChosen | percona/k8s/backup.go:41-58 | a newest backup is returned exactly if one of the newest has its completion time |
| LatestBackup.UntimedIsForgotten | percona/k8s/backup.go:54-56 | a list from which an older backup is returned |

## Left out

- Messages and transition times of conditions, events, logging, and requeue delays.
- Pod templates, commands and images of the upgrade jobs, and server-side apply of labels to a job that exists already.
- Naming.SafeDNSUniqueName: the source panics for a hash below 1000 (Naming.SuffixIsWhole); the model has a shorter suffix there.
- PGUpgradeRuns.VersionRecordedOnlyWhenDone: says nothing about Patroni endpoints, which the source deletes in another branch and may leave when it records the version.
- PGUpgradeRuns.RunKeepsInv: the name of the cluster in the upgrade's spec does not change, and all objects are the ones with its label; the source lists endpoints, jobs and StatefulSets by that label.
- LeaseServer.AcquireLease: the name and namespace check of CreateOrUpdate and the text of errors.
- FinalizerRuns.GoneExactlyAfterQuietList: that instances are made and scaled by this controller only, which reconciles a cluster once at a time. A person who scales a StatefulSet up while the cluster is being deleted is not modelled, nor are Pods without a StatefulSet as owner, for which stop returns an error.
- VaultChange.KeyStaysReadable: instances that are added during a change, a change of a Secret's content under the same name, which no revision sees, one Secret key that serves as token and CA at once, and a provider that is there before the first setup, as after disabling and enabling pg_tde.
- VaultProvider.ReconcileVaultProvider: the text of the SQL and of its errors.
- MergePatch.Merge7386.Add: a value that is itself a Merge7386 of the caller, which later calls would change in place.
- JsonPatch.Replay: a path slice that the caller changes before the closure is called.
- HbaRoundTrip.RecordRoundTrip: PostgreSQL's checks of method names, addresses and netmasks, and file inclusion.
- HbaRegex.SlashNameIsExact: letters beyond ASCII are left without brackets; with or without them they stand for themselves.
- HbaRules.ServiceDecision: entries that PostgreSQL refuses, after which it keeps the file it has.
- AuthFile.UsersAreRead: NUL characters, and names and passwords beyond the lengths that PgBouncer takes.
- AppendUnstructured and the HBA file of PgBouncer.
- DynamicConfig.DynamicConfiguration: a nil set of mandatory parameters, and HBA rules as the strings they were rendered to.
- LogDirectory.ResolveLogDirectory: the two regular expressions are stated on the components of a clean path rather than on its text.
- LeafRenewal.RegenerateLeafWhenNecessary: errors of key generation and signing, and the validity period of the root.
- PemBundle.UnmarshalText: the encoding of a block, and private keys.
- CertManager.Controller.ApplyClusterCertificate: stands for the six leaf certificates, which differ in their names and usages only.
- ControllerRefs.ClaimObject: finding the cluster of an object, and references of one cluster name with different UIDs.
- ParameterSet, QuoteLiteral, the printers of pgBackRest and PgBouncer options, the configuration hashes of repositories, slot and publication names, and CalculateConfigHashes: only easy members.
- The bridge installation, telemetry, PMM and extension installer.
