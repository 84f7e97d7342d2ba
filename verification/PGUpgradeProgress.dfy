/**
 * An upgrade that nothing stands in the way of ends in success.
 *
 * While every gate passes and no Job fails, a reconcile that reads the current state and whose
 * calls succeed brings the upgrade closer to its end, unless it has to wait for a Job.
 */
module PGUpgradeProgress {
  import opened Options
  import opened PGUpgradeState
  import opened PGUpgradeController
  import opened PGUpgradeConditions
  import opened PGUpgradeRuns

  /** Every gate passes, no Job failed and no stranger holds the name of one of our Jobs. */
  ghost predicate Ready(cfg: Config, s: Server) {
    && Sound(cfg) && Inv(cfg, s) && PrimaryOf(cfg.sets, cfg.startup).Some?
    && s.upgrade.Some? && s.cluster.Some?
    && GatesPass(s.upgrade.value, s.cluster.value, cfg)
    && (forall n :: n in s.jobs && Ours(cfg, s.jobs[n]) ==> !JobHasFailed(s.jobs[n]))
    && (UpgradeJobName(cfg.name) in s.jobs ==> IsUpgradeJob(cfg, s.jobs[UpgradeJobName(cfg.name)]))
    && (forall x :: x in Replicas(cfg) && RemoveDataJobName(cfg.name, x) in s.jobs ==>
          IsRemoval(cfg, s.jobs[RemoveDataJobName(cfg.name, x)]))
    && (Recorded(s) ==> AllDone(cfg, s))
    && (Finished(s) ==> Recorded(s))
  }

  /**
   * What users have to provide: a valid upgrade, and a cluster at the old version, stopped and annotated.
   */
  predicate GatesPass(u: Upgrade, c: Cluster, cfg: Config) {
    && u.fromVersion < u.toVersion && u.image != ""
    && c.specVersion == u.fromVersion && IsShutdown(c)
    && c.startupInstance == cfg.startup && AllowedUpgrade(c) == u.name
  }

  /** The cluster's status tells the new version. */
  predicate Recorded(s: Server)
    requires s.upgrade.Some? && s.cluster.Some?
  {
    s.cluster.value.statusVersion == s.upgrade.value.toVersion
  }

  /** The version is recorded, or it can be: the cluster has a status of pgBackRest. */
  predicate CanRecord(s: Server)
    requires s.upgrade.Some? && s.cluster.Some?
  {
    s.cluster.value.repos.Some? || Recorded(s)
  }

  predicate Finished(s: Server)
    requires s.upgrade.Some?
  {
    HasSucceeded(s.upgrade.value)
  }

  /** The state after a reconcile that reads s itself and whose calls all succeed. */
  function Reconciled(s: Server, order: seq<string>): Server
    requires forall n :: n in order ==> n in s.jobs
  {
    ReconcileStep(s, s, order, NO_FAULTS)
  }

  /** Success is absorbing: nothing is written any more, whatever the calls do. */
  lemma SuccessIsAbsorbing(now: Server, seen: Server, order: seq<string>, faults: Faults)
    requires seen.upgrade.Some? && Finished(seen) && forall n :: n in order ==> n in seen.jobs
    ensures ReconcileStep(now, seen, order, faults) == now
  {
    SuccessIsReportedOnce(seen.upgrade.value, AlreadySucceeded);
    assert PatchStatus(now, seen.upgrade.value, seen.upgrade.value, faults.patchStatus) == now;
  }

  // ---- What the Jobs say ----

  /** In a ready state the facts are the truth. */
  lemma ReadyFacts(cfg: Config, s: Server, order: seq<string>)
    requires Ready(cfg, s) && IsOrder(order, s.jobs)
    ensures var f := FactsOf(s, order);
            && !f.failed && !f.removalFailed
            && (f.complete <==> Upgraded(cfg, s))
            && (f.removed <==> forall x :: x in Replicas(cfg) ==> Removed(cfg, s, x))
  {
    ReadyUpgradeFacts(cfg, s, order);
    ReadyRemovalFacts(cfg, s, order);
  }

  lemma ReadyUpgradeFacts(cfg: Config, s: Server, order: seq<string>)
    requires Ready(cfg, s) && IsOrder(order, s.jobs)
    ensures FactsOf(s, order).complete <==> Upgraded(cfg, s)
    ensures !FactsOf(s, order).failed
  {
    hide UpgradeLabel, UpgradeJobName, RemoveDataJobName, ScanRemovals, JobCompleted, JobHasFailed, Replicas, Sound;
    var job := FindUpgradeJob(s.jobs, order, UpgradeLabel(cfg.name));
    if job.Some? {
      var n :| n in order && s.jobs[n] == job.value && HasRole(s.jobs[n], UpgradeRole, UpgradeLabel(cfg.name));
      assert IsUpgradeJob(cfg, s.jobs[n]);
    }
  }

  lemma ReadyRemovalFacts(cfg: Config, s: Server, order: seq<string>)
    requires Ready(cfg, s) && IsOrder(order, s.jobs)
    ensures FactsOf(s, order).removed <==> forall x :: x in Replicas(cfg) ==> Removed(cfg, s, x)
    ensures !FactsOf(s, order).removalFailed
  {
    hide UpgradeLabel, UpgradeJobName, RemoveDataJobName, ScanRemovals, JobCompleted, JobHasFailed, Replicas, Sound;
    hide FindUpgradeJob, PrimaryOf, Instances, IsShutdown;
    var tag := UpgradeLabel(cfg.name);
    ScanFindsFailure(s.jobs, order, tag);
    assert forall n :: n in order ==> !RemovalFailed(s.jobs[n], tag);
    EarlierIsReflexive(cfg, s);
    if FactsOf(s, order).removed {
      SeenRemovalsHappened(cfg, s, s, order);
    }
    if forall x :: x in Replicas(cfg) ==> Removed(cfg, s, x) {
      ScanCountsCompleted(s.jobs, order, tag);
      var done, names := RemovalsDone(s.jobs, tag), JobNames(cfg, Replicas(cfg));
      assert done * Elements(order) == done;
      ReplicaJobCount(cfg);
      forall n | n in done ensures n in names {
        SeenRemovalIsForReplica(cfg, s, s, n);
      }
      assert done == names;
    }
  }

  /** In a ready state a reconcile passes every gate. */
  lemma ReadyGate(cfg: Config, s: Server, order: seq<string>)
    requires Ready(cfg, s) && IsOrder(order, s.jobs) && !Finished(s)
    ensures FirstGate(s, order, false) ==
            if Recorded(s) then Completed(true) else if AllDone(cfg, s) then Recording else Working
  {
    hide Inv, Sound, UpgradeJobName, RemoveDataJobName, UpgradeLabel, FactsOf, IsShutdown, JobCompleted, JobHasFailed;
    ReadyFacts(cfg, s, order);
    assert s.statefulSets == cfg.sets by { InvIsSane(cfg, s); }
  }

  // ---- What the writes do ----

  /** Without faults every remove-data Job exists afterwards; Jobs that exist are left alone. */
  lemma {:induction false} RemovalsAreCreated(s: Server, u: Upgrade, sets: seq<StatefulSet>)
    ensures var t := ApplyRemovals(s, u, sets, {});
            && (forall n :: n in s.jobs ==> n in t.jobs && t.jobs[n] == s.jobs[n])
            && (forall n :: n in t.jobs && n !in s.jobs ==>
                  && (exists x :: x in sets && n == RemoveDataJobName(u.name, x))
                  && t.jobs[n].labels == RemoveDataJobLabels(u) && t.jobs[n].conditions == [])
            && (forall x :: x in sets ==> RemoveDataJobName(u.name, x) in t.jobs)
    decreases sets
  {
    hide RemoveDataJobName, RemoveDataJobLabels;
    if sets != [] {
      var s' := ApplyJob(s, RemoveDataJobName(u.name, sets[0]), RemoveDataJobLabels(u));
      RemovalsAreCreated(s', u, sets[1..]);
      assert forall x :: x in sets <==> x == sets[0] || x in sets[1..];
    }
  }

  /** Without faults exactly the given endpoints go. */
  lemma {:induction false} EndpointsAreDeleted(s: Server, gone: seq<Endpoints>)
    ensures forall e :: e in DeleteEndpoints(s, gone, {}).endpoints ==> e in s.endpoints && e !in gone
    decreases gone
  {
    if gone != [] {
      EndpointsAreDeleted(s.(endpoints := WithoutEndpoints(s.endpoints, gone[0])), gone[1..]);
    }
  }

  /** No Patroni endpoint survives a reconcile that deletes them. */
  lemma PatroniIsCleared(s: Server, endpoints: seq<Endpoints>)
    requires endpoints == s.endpoints
    ensures PatroniEndpointsOf(DeleteEndpoints(s, PatroniEndpointsOf(endpoints), {}).endpoints) == []
  {
    var gone := PatroniEndpointsOf(endpoints);
    EndpointsAreDeleted(s, gone);
  }

  /** What a reconcile changes while there is work to do. */
  ghost predicate WorkDone(cfg: Config, s: Server, t: Server) {
    && t.cluster == s.cluster && t.statefulSets == s.statefulSets
    && PatroniEndpointsOf(t.endpoints) == []
    && (forall n :: n in s.jobs ==> n in t.jobs && t.jobs[n] == s.jobs[n])
    && (forall n :: n in t.jobs && n !in s.jobs ==> t.jobs[n].conditions == [] && Ours(cfg, t.jobs[n]))
    && (forall n :: n in t.jobs && n !in s.jobs ==>
          if Upgraded(cfg, s) then IsRemoval(cfg, t.jobs[n])
              else n == UpgradeJobName(cfg.name) && IsUpgradeJob(cfg, t.jobs[n]))
    && (!Upgraded(cfg, s) ==> UpgradeJobName(cfg.name) in t.jobs)
    && (Upgraded(cfg, s) ==> forall x :: x in Replicas(cfg) ==> RemoveDataJobName(cfg.name, x) in t.jobs)
  }

  /** The effect of creating Jobs and deleting endpoints when every call succeeds. */
  ghost predicate Outcome(s: Server, t: Server, u: Upgrade, upgradeJob: bool, removeData: seq<StatefulSet>) {
    && PatroniEndpointsOf(t.endpoints) == []
    && (forall n :: n in s.jobs ==> n in t.jobs && t.jobs[n] == s.jobs[n])
    && (forall n :: n in t.jobs && n !in s.jobs ==>
          && t.jobs[n].conditions == []
          && (|| (upgradeJob && n == UpgradeJobName(u.name) && t.jobs[n].labels == UpgradeJobLabels(u))
              || (removeData != [] && t.jobs[n].labels == RemoveDataJobLabels(u))))
    && (upgradeJob ==> UpgradeJobName(u.name) in t.jobs)
    && (forall x :: x in removeData ==> RemoveDataJobName(u.name, x) in t.jobs)
  }

  lemma WorkOutcome(s: Server, upgradeJob: bool, removeData: seq<StatefulSet>)
    requires s.upgrade.Some?
    ensures var t := Execute(s, s, Work(upgradeJob, removeData, PatroniEndpointsOf(s.endpoints)), NO_FAULTS);
            && t == s.(jobs := t.jobs, endpoints := t.endpoints, clock := t.clock)
            && Outcome(s, t, s.upgrade.value, upgradeJob, removeData)
  {
    hide UpgradeJobName, RemoveDataJobName, DeleteEndpoints, ApplyRemovals, UpgradeJobLabels, RemoveDataJobLabels,
        PatroniEndpointsOf;
    var u := s.upgrade.value;
    var s1 := if upgradeJob then ApplyJob(s, UpgradeJobName(u.name), UpgradeJobLabels(u)) else s;
    var s2 := ApplyRemovals(s1, u, removeData, {});
    RemovalsAreCreated(s1, u, removeData);
    ApplyingRemovalsKeepsTheRest(s1, u, removeData, {});
    DeletingEndpointsKeepsTheRest(s2, PatroniEndpointsOf(s.endpoints), {});
    PatroniIsCleared(s2, s.endpoints);
  }

  lemma OutcomeIsWorkDone(cfg: Config, s: Server, t: Server, u: Upgrade)
    requires SaneUpgrade(cfg, u) && t.cluster == s.cluster && t.statefulSets == s.statefulSets
    requires Outcome(s, t, u, !Upgraded(cfg, s), if Upgraded(cfg, s) then Replicas(cfg) else [])
    ensures WorkDone(cfg, s, t)
  {
    hide UpgradeJobName, RemoveDataJobName, UpgradeLabel, UpgradeJobLabels, RemoveDataJobLabels, PatroniEndpointsOf,
        Replicas, JobCompleted;
    LabelsAreOurs(cfg, u);
  }

  lemma WorkIsDone(cfg: Config, s: Server, order: seq<string>)
    requires Ready(cfg, s) && IsOrder(order, s.jobs) && !Finished(s) && !Recorded(s) && !AllDone(cfg, s)
    ensures WorkDone(cfg, s, Reconciled(s, order))
  {
    hide UpgradeJobName, RemoveDataJobName, UpgradeLabel, FactsOf, IsShutdown, JobCompleted, JobHasFailed;
    hide Inv, Sound, FirstGate, Execute, Reported, GatesPass, PatroniEndpointsOf, PrimaryOf, WorkDone, Outcome;
    ReadyGate(cfg, s, order);
    ReadyFacts(cfg, s, order);
    assert s.statefulSets == cfg.sets && SaneUpgrade(cfg, s.upgrade.value) by { InvIsSane(cfg, s); }
    assert s.cluster.value.startupInstance == cfg.startup by { ReadyCluster(cfg, s); }
    var plan := PlanFor(s, order, Working);
    WorkOutcome(s, plan.upgradeJob, plan.removeData);
    var t, r := Execute(s, s, plan, NO_FAULTS), Reconciled(s, order);
    OutcomeIsWorkDone(cfg, s, t, s.upgrade.value);
    assert r == t.(upgrade := r.upgrade);
    WorkDoneIgnoresUpgrade(cfg, s, t, r);
  }

  lemma WorkDoneIgnoresUpgrade(cfg: Config, s: Server, t: Server, r: Server)
    requires WorkDone(cfg, s, t) && r == t.(upgrade := r.upgrade)
    ensures WorkDone(cfg, s, r)
  {
    hide UpgradeJobName, RemoveDataJobName, UpgradeLabel, JobCompleted, PatroniEndpointsOf, Replicas, HasRole;
  }

  /** The Jobs made for an upgrade are told apart as its own. */
  lemma LabelsAreOurs(cfg: Config, u: Upgrade)
    requires SaneUpgrade(cfg, u)
    ensures forall job: Job :: job.labels == UpgradeJobLabels(u) ==> IsUpgradeJob(cfg, job)
    ensures forall job: Job :: job.labels == RemoveDataJobLabels(u) ==> IsRemoval(cfg, job)
  {
  }

  lemma ReadyCluster(cfg: Config, s: Server)
    requires Ready(cfg, s)
    ensures s.cluster.value.startupInstance == cfg.startup
  {
  }

  /** What a reconcile changes when it records the version, or panics in it: of Jobs, only backups go. */
  ghost predicate VersionRecorded(cfg: Config, s: Server, t: Server)
    requires s.upgrade.Some? && s.cluster.Some?
  {
    && t.cluster.Some? && t.upgrade.Some?
    && t.cluster.value == (if s.cluster.value.repos.None? then s.cluster.value
         else s.cluster.value.(statusVersion := s.upgrade.value.toVersion, repos := Some([])))
    && t.statefulSets == s.statefulSets && t.endpoints == s.endpoints
    && (forall n :: n in t.jobs ==> n in s.jobs && t.jobs[n] == s.jobs[n])
    && (forall n :: n in s.jobs && Ours(cfg, s.jobs[n]) ==> n in t.jobs)
  }

  lemma VersionIsRecorded(cfg: Config, s: Server, order: seq<string>)
    requires Ready(cfg, s) && IsOrder(order, s.jobs) && !Finished(s) && !Recorded(s) && AllDone(cfg, s)
    ensures VersionRecorded(cfg, s, Reconciled(s, order))
  {
    hide UpgradeJobName, RemoveDataJobName, UpgradeLabel, FindUpgradeJob, ScanRemovals, IsShutdown, JobCompleted,
        JobHasFailed;
    hide FirstGate, DeleteBackups, Reported, Sound, AllDone, GatesPass, PrimaryOf;
    ReadyGate(cfg, s, order);
    DeleteBackupsRemovesAll(s, s.jobs, order, {});
    assert DeleteBackups(s, s.jobs, order, {}).1;
    var t := Execute(s, s, RecordVersion(order), NO_FAULTS);
    assert t == PatchVersion(DeleteBackups(s, s.jobs, order, {}).0, s.cluster.value, s.upgrade.value.toVersion);
    assert Reconciled(s, order).jobs == t.jobs;
  }

  // ---- Readiness lasts ----

  /** A reconcile rewrites nothing of the upgrade but its conditions. */
  lemma ReconcileKeepsSpec(s: Server, order: seq<string>)
    requires s.upgrade.Some? && IsOrder(order, s.jobs)
    ensures var t := Reconciled(s, order);
            t.upgrade.Some? && t.upgrade.value == s.upgrade.value.(conditions := t.upgrade.value.conditions)
  {
    hide FirstGate, PlanFor, Execute;
    ExecuteKeepsUpgrade(s, s, order, NO_FAULTS);
    ReportKeepsSpec(s.upgrade.value, FirstGate(s, order, false));
  }

  lemma ReportKeepsSpec(u: Upgrade, g: Gate)
    ensures Reported(u, g) == u.(conditions := Reported(u, g).conditions)
  {
  }

  /** The last reconcile reports success and does nothing else. */
  lemma SuccessIsReported(cfg: Config, s: Server, order: seq<string>)
    requires Ready(cfg, s) && IsOrder(order, s.jobs) && !Finished(s) && Recorded(s)
    ensures var t := Reconciled(s, order); t == s.(upgrade := t.upgrade) && t.upgrade.Some? && Finished(t)
  {
    hide Inv, Sound, FirstGate, FactsOf, GatesPass, PrimaryOf, Reported;
    ReadyGate(cfg, s, order);
    SuccessIsReportedOnce(s.upgrade.value, Completed(true));
    assert PlanFor(s, order, Completed(true)) == Nothing;
  }

  /** Success is not reported before the version is recorded. */
  lemma SuccessComesLast(cfg: Config, s: Server, order: seq<string>)
    requires Ready(cfg, s) && IsOrder(order, s.jobs) && !Finished(s) && !Recorded(s)
    ensures var t := Reconciled(s, order); t.upgrade.Some? && !Finished(t)
  {
    hide Inv, Sound, FirstGate, GatesPass, PrimaryOf, Reported, Execute, PlanFor;
    ReadyGate(cfg, s, order);
    ExecuteKeepsUpgrade(s, s, order, NO_FAULTS);
    SuccessIsReportedOnce(s.upgrade.value, FirstGate(s, order, false));
  }

  /** The part of readiness that is about Jobs follows when ours are kept and only fresh ones are added. */
  lemma KeepingJobsKeepsReady(cfg: Config, s: Server, t: Server)
    requires Ready(cfg, s) && Inv(cfg, t) && t.upgrade.Some? && t.cluster.Some?
    requires GatesPass(t.upgrade.value, t.cluster.value, cfg) && (Recorded(t) ==> AllDone(cfg, s))
             && (Finished(t) ==> Recorded(t))
    requires forall n :: n in s.jobs && Ours(cfg, s.jobs[n]) ==> n in t.jobs && Evolves(s.jobs[n], t.jobs[n])
    requires forall n :: n in t.jobs ==>
               || (n in s.jobs && t.jobs[n].labels == s.jobs[n].labels
                   && (JobHasFailed(t.jobs[n]) ==> JobHasFailed(s.jobs[n])))
               || (n !in s.jobs && Ours(cfg, t.jobs[n]) && !JobHasFailed(t.jobs[n]))
    ensures Ready(cfg, t)
  {
    hide UpgradeLabel, JobCompleted, JobHasFailed, GatesPass, Inv, PrimaryOf;
    assert InvNames(cfg, t) by { InvHasNames(cfg, t); }
    assert forall n :: n in t.jobs && Ours(cfg, t.jobs[n]) ==> !JobHasFailed(t.jobs[n]);
    assert Recorded(t) ==> AllDone(cfg, t);
  }

  /** Jobs of ours go by their names. */
  ghost predicate InvNames(cfg: Config, s: Server) {
    && (forall n :: n in s.jobs && IsUpgradeJob(cfg, s.jobs[n]) ==> n == UpgradeJobName(cfg.name))
    && (forall n :: n in s.jobs && IsRemoval(cfg, s.jobs[n]) ==>
          exists x :: x in Replicas(cfg) && n == RemoveDataJobName(cfg.name, x))
  }

  lemma InvHasNames(cfg: Config, s: Server)
    requires Inv(cfg, s)
    ensures InvNames(cfg, s)
  {
  }

  /** The gates read neither the recorded version nor conditions. */
  lemma StatusKeepsGates(u: Upgrade, v: Upgrade, c: Cluster, d: Cluster, cfg: Config)
    requires v == u.(conditions := v.conditions) && d == c.(statusVersion := d.statusVersion, repos := d.repos)
    ensures GatesPass(u, c, cfg) ==> GatesPass(v, d, cfg)
  {
  }

  /** A reconcile of a ready state leaves it ready. */
  lemma ReconcileKeepsReady(cfg: Config, s: Server, order: seq<string>)
    requires Ready(cfg, s) && IsOrder(order, s.jobs)
    ensures Ready(cfg, Reconciled(s, order))
  {
    hide Inv, Sound, FirstGate, FactsOf, PrimaryOf, Reported, UpgradeLabel, UpgradeJobName, RemoveDataJobName, Replicas;
    hide IsShutdown, JobCompleted, SaneObjects;
    var t := Reconciled(s, order);
    assert Inv(cfg, t) by {
      EarlierIsReflexive(cfg, s);
      InvIsSane(cfg, s);
      ReconcileKeepsInv(cfg, s, s, order, NO_FAULTS);
    }
    ReconcileKeepsSpec(s, order);
    if Finished(s) {
      SuccessIsAbsorbing(s, s, order, NO_FAULTS);
    } else if Recorded(s) {
      SuccessIsReported(cfg, s, order);
      KeepingJobsKeepsReady(cfg, s, t);
    } else if AllDone(cfg, s) {
      VersionIsRecorded(cfg, s, order);
      StatusKeepsGates(s.upgrade.value, t.upgrade.value, s.cluster.value, t.cluster.value, cfg);
      SuccessComesLast(cfg, s, order);
      KeepingJobsKeepsReady(cfg, s, t);
    } else {
      WorkIsDone(cfg, s, order);
      SuccessComesLast(cfg, s, order);
      KeepingJobsKeepsReady(cfg, s, t);
    }
  }

  // ---- Jobs complete ----

  /** Some Jobs of ours complete, and nothing else happens. */
  ghost predicate Completes(cfg: Config, s: Server, t: Server) {
    && t == s.(jobs := t.jobs, clock := t.clock) && s.clock <= t.clock && t.jobs.Keys == s.jobs.Keys
    && forall n :: n in s.jobs ==> t.jobs[n] == s.jobs[n] || JobCompletes(cfg, s, t, n)
  }

  ghost predicate JobCompletes(cfg: Config, s: Server, t: Server, n: string)
    requires n in s.jobs && n in t.jobs
  {
    && Ours(cfg, s.jobs[n]) && !JobCompleted(s.jobs[n])
    && t.jobs[n].labels == s.jobs[n].labels && JobCompleted(t.jobs[n]) && !JobHasFailed(t.jobs[n])
    && s.clock < t.jobs[n].resourceVersion <= t.clock
  }

  ghost predicate SomethingRuns(cfg: Config, s: Server) {
    exists n :: n in s.jobs && Ours(cfg, s.jobs[n]) && !JobCompleted(s.jobs[n])
  }

  /** Jobs that complete are a step of everybody else, as the runs have it. */
  lemma CompletionIsOthersStep(cfg: Config, s: Server, t: Server)
    requires Ready(cfg, s) && Completes(cfg, s, t)
    ensures EnvStep(cfg, s, t)
  {
    hide UpgradeLabel, JobCompleted, JobHasFailed, GatesPass, PrimaryOf, Replicas;
    hide UpgradeJobName, RemoveDataJobName, Sound, AllDone, HasRole;
  }

  lemma CompletionKeepsReady(cfg: Config, s: Server, t: Server)
    requires Ready(cfg, s) && Completes(cfg, s, t)
    ensures Ready(cfg, t)
  {
    CompletionIsOthersStep(cfg, s, t);
    OthersKeepInv(cfg, s, t);
    hide Inv, EnvStep, Sound, GatesPass, PrimaryOf, SaneObjects;
    KeepingJobsKeepsReady(cfg, s, t);
  }

  // ---- Four rounds ----

  /** How far an upgrade has come. */
  ghost function Stage(cfg: Config, s: Server): nat
    requires s.upgrade.Some? && s.cluster.Some?
  {
    if Finished(s) then 4
    else if Recorded(s) then 3
    else if UpgradeJobName(cfg.name) !in s.jobs then 0
    else if exists x :: x in Replicas(cfg) && RemoveDataJobName(cfg.name, x) !in s.jobs then 1
    else 2
  }

  /**
   * Let every running Job complete and reconcile once: a ready upgrade gets to its next stage,
   * unless only the version is left to record and cannot be.
   */
  lemma RoundAdvances(cfg: Config, s: Server, t: Server, order: seq<string>)
    requires Ready(cfg, s) && Completes(cfg, s, t) && !SomethingRuns(cfg, t) && IsOrder(order, t.jobs)
    ensures var r := Reconciled(t, order);
            && Ready(cfg, r) && (CanRecord(r) <==> CanRecord(s))
            && (if Stage(cfg, s) == 4 then Stage(cfg, r) == 4
                else if Stage(cfg, s) == 2 && !CanRecord(s) then Stage(cfg, r) == 2 && AllDone(cfg, r)
                else Stage(cfg, r) > Stage(cfg, s))
  {
    hide Inv, Sound, GatesPass, PrimaryOf, Reconciled, UpgradeLabel, UpgradeJobName, RemoveDataJobName, Replicas,
        JobCompleted, JobHasFailed;
    CompletionKeepsReady(cfg, s, t);
    ReconcileKeepsReady(cfg, t, order);
    var r := Reconciled(t, order);
    ReconcileKeepsSpec(t, order);
    if Finished(t) {
      SuccessStays(t, order);
    } else if Recorded(t) {
      SuccessIsReported(cfg, t, order);
    } else if AllDone(cfg, t) {
      VersionIsRecorded(cfg, t, order);
    } else {
      WorkIsDone(cfg, t, order);
    }
  }

  lemma SuccessStays(s: Server, order: seq<string>)
    requires s.upgrade.Some? && Finished(s) && forall n :: n in order ==> n in s.jobs
    ensures Reconciled(s, order) == s
  {
    SuccessIsAbsorbing(s, s, order, NO_FAULTS);
  }

  /**
   * After four rounds all work is done, whatever the iteration orders, and they end in success
   * exactly if the version is recorded already or the cluster has a status of pgBackRest. s0 is
   * ready; t1 to t4 are the states in which the Jobs of the time have completed; each is then
   * reconciled once.
   */
  lemma FourRoundsSucceed(
    cfg: Config, s0: Server, t1: Server, t2: Server, t3: Server, t4: Server,
    o1: seq<string>, o2: seq<string>, o3: seq<string>, o4: seq<string>)
    requires IsOrder(o1, t1.jobs) && IsOrder(o2, t2.jobs) && IsOrder(o3, t3.jobs) && IsOrder(o4, t4.jobs)
    requires Ready(cfg, s0)
    requires Completes(cfg, s0, t1) && !SomethingRuns(cfg, t1)
    requires Completes(cfg, Reconciled(t1, o1), t2) && !SomethingRuns(cfg, t2)
    requires Completes(cfg, Reconciled(t2, o2), t3) && !SomethingRuns(cfg, t3)
    requires Completes(cfg, Reconciled(t3, o3), t4) && !SomethingRuns(cfg, t4)
    ensures var end := Reconciled(t4, o4);
            end.upgrade.Some? && AllDone(cfg, end) && (Finished(end) <==> CanRecord(s0))
  {
    hide Reconciled, Completes, SomethingRuns, Inv, Sound, AllDone, GatesPass, UpgradeLabel, UpgradeJobName,
        RemoveDataJobName, HasSucceeded;
    RoundAdvances(cfg, s0, t1, o1);
    RoundAdvances(cfg, Reconciled(t1, o1), t2, o2);
    RoundAdvances(cfg, Reconciled(t2, o2), t3, o3);
    RoundAdvances(cfg, Reconciled(t3, o3), t4, o4);
  }

  // ---- A measure for any interleaving ----

  /** The steps a Job still has to take. */
  function JobWork(s: Server, n: string): nat {
    if n !in s.jobs then 2 else if JobCompleted(s.jobs[n]) then 0 else 1
  }

  function RemovalWork(cfg: Config, s: Server, sets: seq<StatefulSet>): nat {
    if sets == [] then 0 else JobWork(s, RemoveDataJobName(cfg.name, sets[0])) + RemovalWork(cfg, s, sets[1..])
  }

  /** The steps left: of the upgrade Job, of Patroni's endpoints, of the replicas, of the two statuses. */
  function Measure(cfg: Config, s: Server): nat
    requires s.upgrade.Some? && s.cluster.Some?
  {
    JobWork(s, UpgradeJobName(cfg.name)) + RemovalWork(cfg, s, Replicas(cfg)) + |PatroniEndpointsOf(s.endpoints)| +
    (if Recorded(s) then 0 else 1) + (if Finished(s) then 0 else 1)
  }

  /** Where no Job has more work, the sum is no greater, and smaller when one of them has less. */
  lemma {:induction false} RemovalWorkIsMonotone(cfg: Config, s: Server, t: Server, sets: seq<StatefulSet>)
    requires forall x :: x in sets ==>
               JobWork(t, RemoveDataJobName(cfg.name, x)) <= JobWork(s, RemoveDataJobName(cfg.name, x))
    ensures RemovalWork(cfg, t, sets) <= RemovalWork(cfg, s, sets)
    ensures (exists x :: x in sets && JobWork(t, RemoveDataJobName(cfg.name, x)) < JobWork(s,
            RemoveDataJobName(cfg.name, x)))
            ==> RemovalWork(cfg, t, sets) < RemovalWork(cfg, s, sets)
  {
    hide JobWork, RemoveDataJobName;
    if sets != [] {
      RemovalWorkIsMonotone(cfg, s, t, sets[1..]);
      assert forall x :: x in sets <==> x == sets[0] || x in sets[1..];
    }
  }

  /** A Job that completes is a step forward. */
  lemma CompletionProgresses(cfg: Config, s: Server, t: Server, n: string)
    requires Ready(cfg, s) && Completes(cfg, s, t) && n in s.jobs && t.jobs[n] != s.jobs[n]
    ensures Measure(cfg, t) < Measure(cfg, s)
  {
    hide Inv, Sound, GatesPass, PrimaryOf, UpgradeLabel, UpgradeJobName, RemoveDataJobName, Replicas, JobCompleted,
        JobHasFailed;
    hide RemovalWork, HasRole, PatroniEndpointsOf;
    InvHasNames(cfg, s);
    assert forall m :: JobWork(t, m) <= JobWork(s, m);
    assert JobWork(t, n) < JobWork(s, n);
    RemovalWorkIsMonotone(cfg, s, t, Replicas(cfg));
  }

  /** With all done, the Jobs of the upgrade have no work left, before and after. */
  lemma OursAreKept(cfg: Config, s: Server, t: Server)
    requires AllDone(cfg, s) && Ready(cfg, s)
    requires forall n :: n in s.jobs && Ours(cfg, s.jobs[n]) ==> n in t.jobs && t.jobs[n] == s.jobs[n]
    ensures JobWork(t, UpgradeJobName(cfg.name)) == JobWork(s, UpgradeJobName(cfg.name)) == 0
    ensures forall x :: x in Replicas(cfg) ==>
              JobWork(t, RemoveDataJobName(cfg.name, x)) == JobWork(s, RemoveDataJobName(cfg.name, x))
  {
    hide Inv, Sound, GatesPass, PrimaryOf, UpgradeLabel, UpgradeJobName, RemoveDataJobName, Replicas, JobCompleted,
        HasRole, JobHasFailed;
  }

  /**
   * A reconcile is a step forward, unless it changes nothing that counts and a Job is still
   * running, or all is done and the version cannot be recorded.
   */
  lemma ReconcileProgresses(cfg: Config, s: Server, order: seq<string>)
    requires Ready(cfg, s) && IsOrder(order, s.jobs) && !Finished(s)
    ensures var t := Reconciled(s, order);
            && Ready(cfg, t)
            && (|| Measure(cfg, t) < Measure(cfg, s)
                || (&& Measure(cfg, t) == Measure(cfg, s)
                    && (SomethingRuns(cfg, s) || (AllDone(cfg, s) && !CanRecord(s)))))
  {
    hide Inv, Sound, GatesPass, PrimaryOf, Reconciled, UpgradeLabel, UpgradeJobName, RemoveDataJobName, Replicas,
        JobCompleted;
    hide RemovalWork, PatroniEndpointsOf, HasRole, JobHasFailed;
    ReconcileKeepsReady(cfg, s, order);
    ReconcileKeepsSpec(s, order);
    var t := Reconciled(s, order);
    if Recorded(s) {
      SuccessIsReported(cfg, s, order);
      RemovalWorkIsMonotone(cfg, s, t, Replicas(cfg));
    } else if AllDone(cfg, s) {
      VersionIsRecorded(cfg, s, order);
      SuccessComesLast(cfg, s, order);
      OursAreKept(cfg, s, t);
      RemovalWorkIsMonotone(cfg, s, t, Replicas(cfg));
      RemovalWorkIsMonotone(cfg, t, s, Replicas(cfg));
    } else {
      WorkIsDone(cfg, s, order);
      SuccessComesLast(cfg, s, order);
      WorkProgresses(cfg, s, t);
    }
  }

  lemma WorkProgresses(cfg: Config, s: Server, t: Server)
    requires Ready(cfg, s) && Ready(cfg, t) && WorkDone(cfg, s, t) && !AllDone(cfg, s)
    requires !Finished(s) && !Recorded(s) && !Finished(t) && !Recorded(t)
    ensures Measure(cfg, t) < Measure(cfg, s) || (Measure(cfg, t) == Measure(cfg, s) && SomethingRuns(cfg, s))
  {
    hide Inv, Sound, GatesPass, PrimaryOf, UpgradeLabel, UpgradeJobName, RemoveDataJobName, Replicas, JobCompleted;
    hide RemovalWork, PatroniEndpointsOf, HasRole, JobHasFailed;
    NewJobsHaveWork();
    assert forall m :: JobWork(t, m) <= JobWork(s, m);
    RemovalWorkIsMonotone(cfg, s, t, Replicas(cfg));
    if !Upgraded(cfg, s) {
      var n := UpgradeJobName(cfg.name);
      if n in s.jobs {
        assert Ours(cfg, s.jobs[n]) && !JobCompleted(s.jobs[n]);
      } else {
        assert JobWork(t, n) == 1;
      }
    } else {
      var x :| x in Replicas(cfg) && !Removed(cfg, s, x);
      var n := RemoveDataJobName(cfg.name, x);
      if n in s.jobs {
        assert Ours(cfg, s.jobs[n]) && !JobCompleted(s.jobs[n]);
      } else {
        assert JobWork(t, n) == 1;
      }
    }
  }

  lemma NewJobsHaveWork()
    ensures forall job: Job :: job.conditions == [] ==> !JobCompleted(job)
  {
  }

  // ---- These are runs ----

  /** No Job is one of ours, and none has the name of one. */
  ghost predicate Untouched(cfg: Config, s: Server) {
    && (forall n :: n in s.jobs ==> !Ours(cfg, s.jobs[n]))
    && UpgradeJobName(cfg.name) !in s.jobs
    && forall x :: x in Replicas(cfg) ==> RemoveDataJobName(cfg.name, x) !in s.jobs
  }

  /**
   * An upgrade that this controller made no Jobs for yet is ready as soon as the gates pass, whatever other
   * Jobs there are.
   */
  lemma FreshUpgradeIsReady(cfg: Config, s: Server)
    requires Sound(cfg) && SaneObjects(cfg, s) && Untouched(cfg, s) && PrimaryOf(cfg.sets, cfg.startup).Some?
    requires s.upgrade.Some? && s.cluster.Some? && GatesPass(s.upgrade.value, s.cluster.value, cfg)
    requires !Recorded(s) && !Finished(s)
    ensures Ready(cfg, s)
  {
  }

  /** A reconcile that reads the present is a step of the runs. */
  lemma ReconciledIsStep(cfg: Config, states: seq<Server>, i: nat, order: seq<string>)
    requires i + 1 < |states| && IsOrder(order, states[i].jobs) && states[i + 1] == Reconciled(states[i], order)
    ensures Step(cfg, states, i, Reconciles(states[i], order, NO_FAULTS))
  {
  }

  /** The jobs that run complete, and then the controller reconciles. */
  ghost predicate IsRound(cfg: Config, s: Server, t: Server, order: seq<string>, r: Server) {
    Completes(cfg, s, t) && !SomethingRuns(cfg, t) && IsOrder(order, t.jobs) && r == Reconciled(t, order)
  }

  lemma StepInLongerRun(cfg: Config, states: seq<Server>, ss: seq<Server>, i: nat, a: Action)
    requires i + 1 < |states| && states <= ss && Step(cfg, states, i, a)
    ensures Step(cfg, ss, i, a)
  {
    hide EnvStep, IsOrder, ReconcileStep;
    if a.Reconciles? {
      SeenInLongerRun(a.seen, states, ss, i);
    }
  }

  lemma SeenInLongerRun(seen: Server, states: seq<Server>, ss: seq<Server>, i: nat)
    requires i < |states| && states <= ss && SeenBefore(seen, states, i)
    ensures SeenBefore(seen, ss, i)
  {
    var j :| 0 <= j <= i && seen.upgrade == states[j].upgrade;
    assert seen.upgrade == ss[j].upgrade;
    var k :| 0 <= k <= i && seen.cluster == states[k].cluster;
    assert seen.cluster == ss[k].cluster;
    var l :| 0 <= l <= i && seen.jobs == states[l].jobs && seen.clock == states[l].clock;
    assert seen.jobs == ss[l].jobs && seen.clock == ss[l].clock;
    var m :| 0 <= m <= i && seen.statefulSets == states[m].statefulSets;
    assert seen.statefulSets == ss[m].statefulSets;
  }

  /** The states and actions of a round, after those of a run, make a longer run. */
  lemma RoundExtendsRun(cfg: Config, states: seq<Server>, actions: seq<Action>, t: Server, order: seq<string>,
      r: Server)
    returns (ss: seq<Server>, aa: seq<Action>)
    requires IsRun(cfg, states, actions) && Ready(cfg, states[|actions|])
             && IsRound(cfg, states[|actions|], t, order, r)
    ensures IsRun(cfg, ss, aa) && ss == states + [t, r] && |aa| == |actions| + 2 && Ready(cfg, r)
  {
    hide Ready, Completes, EnvStep, SomethingRuns, Sound, SaneObjects, Reconciled, Ours;
    var n := |actions|;
    ss, aa := states + [t, r], actions + [Others, Reconciles(t, order, NO_FAULTS)];
    CompletionIsOthersStep(cfg, states[n], t);
    CompletionKeepsReady(cfg, states[n], t);
    ReconciledIsStep(cfg, ss, n + 1, order);
    ReconcileKeepsReady(cfg, t, order);
    forall i | 0 <= i < |aa| ensures Step(cfg, ss, i, aa[i]) {
      if i < n {
        StepInLongerRun(cfg, states, ss, i, actions[i]);
      }
    }
  }

  lemma TwoRoundsExtendRun(
    cfg: Config, states: seq<Server>, actions: seq<Action>,
    t1: Server, o1: seq<string>, r1: Server, t2: Server, o2: seq<string>, r2: Server)
    returns (ss: seq<Server>, aa: seq<Action>)
    requires IsRun(cfg, states, actions) && Ready(cfg, states[|actions|])
    requires IsRound(cfg, states[|actions|], t1, o1, r1) && IsRound(cfg, r1, t2, o2, r2)
    ensures IsRun(cfg, ss, aa) && ss == states + [t1, r1, t2, r2] && |aa| == |actions| + 4 && Ready(cfg, r2)
  {
    hide Ready, IsRound, Step, Sound, SaneObjects;
    ss, aa := RoundExtendsRun(cfg, states, actions, t1, o1, r1);
    assert ss[|aa|] == r1;
    ss, aa := RoundExtendsRun(cfg, ss, aa, t2, o2, r2);
  }

  lemma FreshUpgradeStartsRun(cfg: Config, s0: Server)
    requires Sound(cfg) && SaneObjects(cfg, s0) && Untouched(cfg, s0)
    ensures IsRun(cfg, [s0], [])
  {
  }

  lemma RoundsSucceed(
    cfg: Config, s0: Server, t1: Server, t2: Server, t3: Server, t4: Server,
    r1: Server, r2: Server, r3: Server, r4: Server,
    o1: seq<string>, o2: seq<string>, o3: seq<string>, o4: seq<string>)
    requires Ready(cfg, s0)
    requires IsRound(cfg, s0, t1, o1, r1) && IsRound(cfg, r1, t2, o2, r2)
    requires IsRound(cfg, r2, t3, o3, r3) && IsRound(cfg, r3, t4, o4, r4)
    ensures r4.upgrade.Some? && AllDone(cfg, r4) && (Finished(r4) <==> CanRecord(s0))
  {
    hide Ready, Completes, SomethingRuns, Reconciled, Finished, AllDone;
    FourRoundsSucceed(cfg, s0, t1, t2, t3, t4, o1, o2, o3, o4);
  }

  /**
   * An upgrade that was not touched yet and whose gates pass gets to the end of its work in a run
   * of four rounds, so what holds in every run holds on the way. It gets to success exactly if
   * the cluster has a status of pgBackRest.
   */
  lemma FreshUpgradeRunsToSuccess(
    cfg: Config, s0: Server, t1: Server, t2: Server, t3: Server, t4: Server,
    r1: Server, r2: Server, r3: Server, r4: Server,
    o1: seq<string>, o2: seq<string>, o3: seq<string>, o4: seq<string>)
    returns (states: seq<Server>, actions: seq<Action>)
    requires Sound(cfg) && SaneObjects(cfg, s0) && Untouched(cfg, s0) && PrimaryOf(cfg.sets, cfg.startup).Some?
    requires s0.upgrade.Some? && s0.cluster.Some? && GatesPass(s0.upgrade.value, s0.cluster.value, cfg)
    requires !Recorded(s0) && !Finished(s0)
    requires IsRound(cfg, s0, t1, o1, r1) && IsRound(cfg, r1, t2, o2, r2)
    requires IsRound(cfg, r2, t3, o3, r3) && IsRound(cfg, r3, t4, o4, r4)
    ensures IsRun(cfg, states, actions) && states == [s0, t1, r1, t2, r2, t3, r3, t4, r4]
    ensures r4.upgrade.Some? && AllDone(cfg, r4) && (Finished(r4) <==> CanRecord(s0))
  {
    hide Ready, Finished, AllDone, GatesPass, Recorded, IsRound, IsRun, Sound, SaneObjects, Untouched, PrimaryOf;
    FreshUpgradeIsReady(cfg, s0);
    RoundsSucceed(cfg, s0, t1, t2, t3, t4, r1, r2, r3, r4, o1, o2, o3, o4);
    FreshUpgradeStartsRun(cfg, s0);
    states, actions := TwoRoundsExtendRun(cfg, [s0], [], t1, o1, r1, t2, o2, r2);
    assert states[|actions|] == r2;
    states, actions := TwoRoundsExtendRun(cfg, states, actions, t3, o3, r3, t4, o4, r4);
  }
}
