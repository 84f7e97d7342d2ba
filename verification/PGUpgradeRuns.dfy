/**
 * Safety of a major-version upgrade over every run.
 *
 * A run interleaves reconciles with steps of everybody else: Jobs finish or fail, users edit
 * the upgrade and the cluster, Patroni creates endpoints and loses them, backup Jobs come and
 * go. A reconcile reads from a cache: each kind of object may come from another earlier moment
 * of the run. Its calls may fail in any combination.
 */
module PGUpgradeRuns {
  import opened Options
  import opened PGUpgradeState
  import opened PGUpgradeController
  import opened PGUpgradeConditions
  import Naming

  /** What stays fixed while an upgrade runs. */
  datatype Config = Config(name: string, startup: string, sets: seq<StatefulSet>)

  function Replicas(cfg: Config): seq<StatefulSet> { ReplicasOf(cfg.sets, cfg.startup) }

  /** StatefulSets have names of their own, and so do the Jobs made for them. */
  ghost predicate Sound(cfg: Config) {
    && cfg.startup != ""
    && UniqueNames(cfg.sets)
    && (forall x, y :: x in Replicas(cfg) && y in Replicas(cfg) && x != y ==>
          RemoveDataJobName(cfg.name, x) != RemoveDataJobName(cfg.name, y))
    && (forall x :: x in Replicas(cfg) ==> RemoveDataJobName(cfg.name, x) != UpgradeJobName(cfg.name))
  }

  /** A name that SafeDNSUniqueName leaves alone. */
  predicate IsKept(name: string) {
    |name| <= Naming.MAX_DNS_SAFE_LENGTH && (name == "" || name[|name| - 1] != '-')
  }

  /** Short names give Jobs of their own, unless a replica has the name that stands for the upgrade Job. */
  lemma ShortNamesAreSound(cfg: Config)
    requires cfg.startup != "" && UniqueNames(cfg.sets)
    requires IsKept(cfg.name + "-pgdata")
    requires forall x :: x in Replicas(cfg) ==> IsKept(cfg.name + "-" + x.name) && x.name != "pgdata"
    ensures Sound(cfg)
  {
    hide UniqueNames;
    Naming.SafeDNSUniqueNameKeepsSafeNames(cfg.name + "-pgdata");
    forall x | x in Replicas(cfg)
      ensures RemoveDataJobName(cfg.name, x) == cfg.name + "-" + x.name != UpgradeJobName(cfg.name)
    {
      Naming.SafeDNSUniqueNameKeepsSafeNames(cfg.name + "-" + x.name);
      SameSuffix(cfg.name, x.name, "pgdata");
      assert cfg.name + "-" + "pgdata" == cfg.name + "-pgdata";
    }
    forall x, y | x in Replicas(cfg) && y in Replicas(cfg) && x != y
      ensures RemoveDataJobName(cfg.name, x) != RemoveDataJobName(cfg.name, y)
    {
      SameSuffix(cfg.name, x.name, y.name);
      NamesDiffer(cfg.sets, x, y);
    }
  }

  lemma SameSuffix(name: string, a: string, b: string)
    ensures name + "-" + a == name + "-" + b <==> a == b
  {
    var n := |name| + 1;
    assert (name + "-" + a)[n..] == a && (name + "-" + b)[n..] == b;
  }

  lemma NamesDiffer(sets: seq<StatefulSet>, x: StatefulSet, y: StatefulSet)
    requires UniqueNames(sets) && x in sets && y in sets && x != y
    ensures x.name != y.name
  {
    var i :| 0 <= i < |sets| && sets[i] == x;
    var j :| 0 <= j < |sets| && sets[j] == y;
    assert i < j || j < i;
  }

  predicate IsUpgradeJob(cfg: Config, job: Job) { HasRole(job, UpgradeRole, UpgradeLabel(cfg.name)) }

  predicate IsRemoval(cfg: Config, job: Job) { HasRole(job, RemoveDataRole, UpgradeLabel(cfg.name)) }

  predicate Ours(cfg: Config, job: Job) { IsUpgradeJob(cfg, job) || IsRemoval(cfg, job) }

  /** The upgrade's own metadata does not pass its Jobs off as replica-create backups. */
  predicate SaneUpgrade(cfg: Config, u: Upgrade) {
    u.name == cfg.name && Label(u.metadataLabels, LabelBackup) != ReplicaCreate
  }

  ghost predicate SaneObjects(cfg: Config, s: Server) {
    && s.statefulSets == cfg.sets
    && (s.upgrade.Some? ==> SaneUpgrade(cfg, s.upgrade.value))
    && (s.cluster.Some? ==> s.cluster.value.startupInstance in {"", cfg.startup})
    && (forall n :: n in s.jobs ==> s.jobs[n].resourceVersion <= s.clock)
    && (forall n :: n in s.jobs ==> !(JobCompleted(s.jobs[n]) && JobHasFailed(s.jobs[n])))
  }

  /** The upgrade Job completed. */
  ghost predicate Upgraded(cfg: Config, s: Server) {
    var n := UpgradeJobName(cfg.name);
    n in s.jobs && IsUpgradeJob(cfg, s.jobs[n]) && JobCompleted(s.jobs[n])
  }

  /** The data of one replica was removed. */
  ghost predicate Removed(cfg: Config, s: Server, sts: StatefulSet) {
    var n := RemoveDataJobName(cfg.name, sts);
    n in s.jobs && IsRemoval(cfg, s.jobs[n]) && JobCompleted(s.jobs[n])
  }

  ghost predicate AllDone(cfg: Config, s: Server) {
    Upgraded(cfg, s) && forall x :: x in Replicas(cfg) ==> Removed(cfg, s, x)
  }

  /** The safety invariant. */
  ghost predicate Inv(cfg: Config, s: Server) {
    && SaneObjects(cfg, s)
    && (forall n :: n in s.jobs && Ours(cfg, s.jobs[n]) ==> Label(s.jobs[n].labels, LabelBackup) != ReplicaCreate)
    && (forall n :: n in s.jobs && IsUpgradeJob(cfg, s.jobs[n]) ==> n == UpgradeJobName(cfg.name))
    && (forall n :: n in s.jobs && IsRemoval(cfg, s.jobs[n]) ==>
          exists x :: x in Replicas(cfg) && n == RemoveDataJobName(cfg.name, x))
    && ((exists n :: n in s.jobs && IsRemoval(cfg, s.jobs[n])) ==> Upgraded(cfg, s))
  }

  /** A Job keeps its labels and stays finished. */
  predicate Evolves(a: Job, b: Job) {
    && a.labels == b.labels
    && (JobCompleted(a) ==> JobCompleted(b))
    && (JobHasFailed(a) ==> JobHasFailed(b))
  }

  /**
   * The order of time: our Jobs are never deleted and only evolve, and what is not the very
   * same Job carries a resource version that was not given out before.
   */
  ghost predicate Earlier(cfg: Config, a: Server, b: Server) {
    && a.clock <= b.clock
    && (forall n :: n in a.jobs && Ours(cfg, a.jobs[n]) ==> n in b.jobs && Evolves(a.jobs[n], b.jobs[n]))
    && (forall n :: n in b.jobs ==> (n in a.jobs && a.jobs[n] == b.jobs[n]) || b.jobs[n].resourceVersion > a.clock)
  }

  /** A step of everybody else. They create no Jobs of ours. */
  ghost predicate EnvStep(cfg: Config, a: Server, b: Server) {
    && SaneObjects(cfg, b)
    && Earlier(cfg, a, b)
    && (forall n :: n in b.jobs && Ours(cfg, b.jobs[n]) ==> n in a.jobs && Ours(cfg, a.jobs[n]))
    && (forall n :: n in b.jobs && Ours(cfg, b.jobs[n]) ==> b.jobs[n].labels == a.jobs[n].labels)
  }

  datatype Action = Others | Reconciles(seen: Server, order: seq<string>, faults: Faults)

  /** Every kind of object was read at some moment of the past, not necessarily the same one. */
  ghost predicate SeenBefore(seen: Server, states: seq<Server>, now: nat)
    requires now < |states|
  {
    && (exists i :: 0 <= i <= now && seen.upgrade == states[i].upgrade)
    && (exists i :: 0 <= i <= now && seen.cluster == states[i].cluster)
    && (exists i :: 0 <= i <= now && seen.jobs == states[i].jobs && seen.clock == states[i].clock)
    && (exists i :: 0 <= i <= now && seen.statefulSets == states[i].statefulSets)
  }

  ghost predicate Step(cfg: Config, states: seq<Server>, i: nat, a: Action)
    requires i + 1 < |states|
  {
    match a
    case Others => EnvStep(cfg, states[i], states[i + 1])
    case Reconciles(seen, order, faults) =>
      && SeenBefore(seen, states, i)
      && IsOrder(order, seen.jobs)
      && states[i + 1] == ReconcileStep(states[i], seen, order, faults)
  }

  /** A run starts before this upgrade made any Jobs. */
  ghost predicate IsRun(cfg: Config, states: seq<Server>, actions: seq<Action>) {
    && Sound(cfg)
    && |states| == |actions| + 1
    && SaneObjects(cfg, states[0])
    && (forall n :: n in states[0].jobs ==> !Ours(cfg, states[0].jobs[n]))
    && (forall i :: 0 <= i < |actions| ==> Step(cfg, states, i, actions[i]))
  }

  // ---- One step ----

  lemma EarlierIsReflexive(cfg: Config, a: Server)
    ensures Earlier(cfg, a, a)
  {
  }

  lemma EarlierIsTransitive(cfg: Config, a: Server, b: Server, c: Server)
    requires Earlier(cfg, a, b) && Earlier(cfg, b, c)
    ensures Earlier(cfg, a, c)
  {
  }

  lemma OthersKeepInv(cfg: Config, a: Server, b: Server)
    requires Inv(cfg, a) && EnvStep(cfg, a, b)
    ensures Inv(cfg, b) && Earlier(cfg, a, b)
  {
  }

  /** What a reconcile may rely on although it reads from a cache. */
  ghost predicate Readable(cfg: Config, seen: Server, now: Server) {
    && SaneObjects(cfg, seen) && Earlier(cfg, seen, now)
  }

  /** A completed upgrade Job that was read is still there and still completed. */
  lemma SeenUpgradeHappened(cfg: Config, seen: Server, now: Server, order: seq<string>)
    requires Inv(cfg, now) && Readable(cfg, seen, now) && IsOrder(order, seen.jobs)
    requires seen.upgrade.Some? && FactsOf(seen, order).complete
    ensures Upgraded(cfg, now)
  {
    hide JobCompleted, JobHasFailed, ScanRemovals, UpgradeLabel, UpgradeJobName;
    var tag := UpgradeLabel(cfg.name);
    var job := FindUpgradeJob(seen.jobs, order, tag).value;
    var n :| n in order && seen.jobs[n] == job && HasRole(seen.jobs[n], UpgradeRole, tag);
    assert n in now.jobs && Evolves(seen.jobs[n], now.jobs[n]);
  }

  /** The remove-data Jobs of a set of StatefulSets. */
  function JobNames(cfg: Config, sets: seq<StatefulSet>): set<string> {
    set x | x in sets :: RemoveDataJobName(cfg.name, x)
  }

  lemma {:induction false} JobNamesAreMany(cfg: Config, sets: seq<StatefulSet>)
    requires UniqueNames(sets)
    requires forall x, y :: x in sets && y in sets && x != y ==>
               RemoveDataJobName(cfg.name, x) != RemoveDataJobName(cfg.name, y)
    ensures |JobNames(cfg, sets)| == |sets|
  {
    if sets == [] {
      assert JobNames(cfg, sets) == {};
    } else {
      var init, last := sets[..|sets| - 1], sets[|sets| - 1];
      assert forall x :: x in sets <==> x in init || x == last;
      forall x | x in init ensures x != last {
        var i :| 0 <= i < |init| && init[i] == x;
        assert sets[i].name != sets[|sets| - 1].name;
      }
      JobNamesAreMany(cfg, init);
      assert JobNames(cfg, sets) == JobNames(cfg, init) + {RemoveDataJobName(cfg.name, last)};
    }
  }

  lemma {:induction false} ReplicasAreUnique(sets: seq<StatefulSet>, startup: string)
    requires UniqueNames(sets)
    ensures UniqueNames(ReplicasOf(sets, startup))
  {
    if sets != [] {
      var init, last := sets[..|sets| - 1], sets[|sets| - 1];
      ReplicasAreUnique(init, startup);
      var kept := ReplicasOf(init, startup);
      forall i | 0 <= i < |kept| ensures kept[i].name != last.name {
        assert kept[i] in init;
        var k :| 0 <= k < |init| && init[k] == kept[i];
        assert sets[k].name != sets[|sets| - 1].name;
      }
    }
  }

  /** A set inside another of no greater size is that other set. */
  lemma SameSizeSubset<T>(a: set<T>, b: set<T>)
    requires a <= b && |a| >= |b|
    ensures a == b
  {
    SubsetIsSmaller(a, b);
    if x :| x in b && x !in a {
      SubsetIsSmaller(a, b - {x});
    }
  }

  /** There is one remove-data Job name for each replica, and that is how many the controller expects. */
  lemma ReplicaJobCount(cfg: Config)
    requires Sound(cfg) && PrimaryOf(cfg.sets, cfg.startup).Some?
    ensures |JobNames(cfg, Replicas(cfg))| == |Instances(cfg.sets)| - 1
  {
    IdentifiedPrimaryCountsReplicas(cfg.sets, cfg.startup);
    ReplicasAreUnique(cfg.sets, cfg.startup);
    JobNamesAreMany(cfg, Replicas(cfg));
  }

  /** A remove-data Job that was read is one of the replicas' and still there. */
  lemma SeenRemovalIsForReplica(cfg: Config, seen: Server, now: Server, n: string)
    requires Inv(cfg, now) && Readable(cfg, seen, now) && n in seen.jobs && IsRemoval(cfg, seen.jobs[n])
    ensures n in JobNames(cfg, Replicas(cfg)) && n in now.jobs && Evolves(seen.jobs[n], now.jobs[n])
  {
    hide JobCompleted, JobHasFailed, UpgradeLabel, UpgradeJobName, RemoveDataJobName, Replicas;
    assert IsRemoval(cfg, now.jobs[n]);
  }

  /**
   * Counting is enough: when as many completed remove-data Jobs were read as there are
   * replicas, every single replica has one. A failed Job that cuts the count short makes
   * it too small.
   */
  lemma SeenRemovalsHappened(cfg: Config, seen: Server, now: Server, order: seq<string>)
    requires Sound(cfg) && Inv(cfg, now) && Readable(cfg, seen, now) && IsOrder(order, seen.jobs)
    requires ScanRemovals(seen.jobs, order, UpgradeLabel(cfg.name)).completed == |Instances(cfg.sets)| - 1
    requires PrimaryOf(cfg.sets, cfg.startup).Some?
    ensures forall x :: x in Replicas(cfg) ==> Removed(cfg, now, x)
  {
    hide JobCompleted, JobHasFailed, ScanRemovals, UpgradeLabel, UpgradeJobName, RemoveDataJobName;
    hide PrimaryOf, Instances, Sound, Inv, Replicas, Readable;
    var tag := UpgradeLabel(cfg.name);
    var done, names := RemovalsDone(seen.jobs, tag), JobNames(cfg, Replicas(cfg));
    ReplicaJobCount(cfg);
    ScanCountsCompleted(seen.jobs, order, tag);
    assert done * Elements(order) == done;
    forall n | n in done
      ensures n in names && n in now.jobs && Evolves(seen.jobs[n], now.jobs[n])
    {
      SeenRemovalIsForReplica(cfg, seen, now, n);
    }
    if ScanRemovals(seen.jobs, order, tag).failed {
      ScanFindsFailure(seen.jobs, order, tag);
      var bad :| bad in order && RemovalFailed(seen.jobs[bad], tag);
      SeenRemovalIsForReplica(cfg, seen, now, bad);
      assert bad !in done;
      SubsetIsSmaller(done, names - {bad});
      assert false;
    } else {
      SameSizeSubset(done, names);
      forall x | x in Replicas(cfg) ensures Removed(cfg, now, x) {
        assert RemoveDataJobName(cfg.name, x) in done;
      }
    }
  }

  /** When the facts that were read say that all is done, all is done. */
  lemma SeenSuccessHappened(cfg: Config, seen: Server, now: Server, order: seq<string>)
    requires Sound(cfg) && Inv(cfg, now) && Readable(cfg, seen, now) && IsOrder(order, seen.jobs)
    requires seen.upgrade.Some? && FactsOf(seen, order).complete && FactsOf(seen, order).removed
    requires PrimaryOf(cfg.sets, cfg.startup).Some?
    ensures AllDone(cfg, now)
  {
    hide ScanRemovals, FindUpgradeJob, PrimaryOf, Instances, Sound, Inv, Replicas, Earlier;
    SeenUpgradeHappened(cfg, seen, now, order);
    SeenRemovalsHappened(cfg, seen, now, order);
  }

  /** Creating a Job of ours under its own name keeps the invariant. */
  lemma ApplyKeepsInv(cfg: Config, s: Server, name: string, labels: Labels)
    requires Sound(cfg) && Inv(cfg, s) && Label(labels, LabelBackup) != ReplicaCreate
    requires Label(labels, LabelPGUpgrade) == UpgradeLabel(cfg.name)
    requires (Label(labels, LabelRole) == UpgradeRole && name == UpgradeJobName(cfg.name))
             || (Label(labels, LabelRole) == RemoveDataRole && Upgraded(cfg, s)
                 && exists x :: x in Replicas(cfg) && name == RemoveDataJobName(cfg.name, x))
    ensures Inv(cfg, ApplyJob(s, name, labels)) && Earlier(cfg, s, ApplyJob(s, name, labels))
    ensures Upgraded(cfg, s) ==> Upgraded(cfg, ApplyJob(s, name, labels))
    ensures ApplyJob(s, name, labels).cluster == s.cluster && ApplyJob(s, name, labels).upgrade == s.upgrade
  {
    hide UpgradeLabel, UpgradeJobName, RemoveDataJobName, ReplicasOf;
  }

  lemma {:induction false} RemovalsKeepInv(
    cfg: Config, s: Server, u: Upgrade, sets: seq<StatefulSet>, faults: set<string>)
    requires Sound(cfg) && Inv(cfg, s) && SaneUpgrade(cfg, u) && (sets != [] ==> Upgraded(cfg, s))
    requires forall x :: x in sets ==> x in Replicas(cfg)
    ensures Inv(cfg, ApplyRemovals(s, u, sets, faults)) && Earlier(cfg, s, ApplyRemovals(s, u, sets, faults))
    ensures ApplyRemovals(s, u, sets, faults).cluster == s.cluster
    ensures ApplyRemovals(s, u, sets, faults).upgrade == s.upgrade
    decreases sets
  {
    hide UpgradeLabel, UpgradeJobName, RemoveDataJobName, ReplicasOf, Inv, Earlier, ApplyJob;
    EarlierIsReflexive(cfg, s);
    if sets != [] && RemoveDataJobName(u.name, sets[0]) !in faults {
      assert sets[0] in Replicas(cfg);
      var s' := ApplyJob(s, RemoveDataJobName(u.name, sets[0]), RemoveDataJobLabels(u));
      ApplyKeepsInv(cfg, s, RemoveDataJobName(u.name, sets[0]), RemoveDataJobLabels(u));
      RemovalsKeepInv(cfg, s', u, sets[1..], faults);
      EarlierIsTransitive(cfg, s, s', ApplyRemovals(s, u, sets, faults));
    }
  }

  lemma {:induction false} DeletingEndpointsKeepsTheRest(s: Server, endpoints: seq<Endpoints>, faults: set<string>)
    ensures var r := DeleteEndpoints(s, endpoints, faults); r == s.(endpoints := r.endpoints)
    decreases endpoints
  {
    if endpoints != [] {
      if endpoints[0].name in faults {
        DeletingEndpointsKeepsTheRest(s, endpoints[1..], faults);
      } else {
        DeletingEndpointsKeepsTheRest(
          s.(endpoints := WithoutEndpoints(s.endpoints, endpoints[0])), endpoints[1..], faults);
      }
    }
  }

  /** The invariant says nothing about endpoints. */
  lemma EndpointsDoNotMatter(cfg: Config, s: Server, endpoints: seq<Endpoints>)
    requires Inv(cfg, s)
    ensures Inv(cfg, s.(endpoints := endpoints)) && Earlier(cfg, s, s.(endpoints := endpoints))
  {
    assert forall n :: n in s.jobs ==> s.(endpoints := endpoints).jobs[n] == s.jobs[n];
  }

  /** Creating Jobs and deleting endpoints keeps the invariant. */
  lemma WorkKeepsInv(cfg: Config, now: Server, seen: Server, order: seq<string>, faults: Faults)
    requires Sound(cfg) && Inv(cfg, now) && Readable(cfg, seen, now) && IsOrder(order, seen.jobs)
    requires seen.upgrade.Some? && FirstGate(seen, order, faults.observe).Working?
    ensures var after := Execute(now, seen, PlanFor(seen, order, Working), faults);
            Inv(cfg, after) && Earlier(cfg, now, after) && after.cluster == now.cluster && after.upgrade == now.upgrade
  {
    hide UpgradeLabel, UpgradeJobName, RemoveDataJobName, Inv, Earlier, ApplyJob, ApplyRemovals, DeleteEndpoints;
    hide FindUpgradeJob, ScanRemovals, FirstGate, PatroniEndpointsOf, Sound;
    var u := seen.upgrade.value;
    var plan := PlanFor(seen, order, Working);
    var s1 := now;
    if plan.upgradeJob && UpgradeJobName(u.name) !in faults.apply {
      ApplyKeepsInv(cfg, now, UpgradeJobName(u.name), UpgradeJobLabels(u));
      s1 := ApplyJob(now, UpgradeJobName(u.name), UpgradeJobLabels(u));
    }
    if plan.removeData != [] {
      SeenUpgradeHappened(cfg, seen, now, order);
    }
    RemovalsKeepInv(cfg, s1, u, plan.removeData, faults.apply);
    var s2 := ApplyRemovals(s1, u, plan.removeData, faults.apply);
    EarlierIsReflexive(cfg, now);
    EarlierIsTransitive(cfg, now, s1, s2);
    DeletingEndpointsKeepsTheRest(s2, plan.endpoints, faults.deleteEndpoints);
    var after := DeleteEndpoints(s2, plan.endpoints, faults.deleteEndpoints);
    EndpointsDoNotMatter(cfg, s2, after.endpoints);
    EarlierIsTransitive(cfg, now, s2, after);
  }

  /** Deleting backup Jobs as they were read never deletes a Job of ours. */
  lemma DeletingBackupsKeepsInv(cfg: Config, now: Server, seen: Server, order: seq<string>, faults: set<string>)
    requires Inv(cfg, now) && Readable(cfg, seen, now) && IsOrder(order, seen.jobs)
    ensures var s := DeleteBackups(now, seen.jobs, order, faults).0;
            Inv(cfg, s) && Earlier(cfg, now, s) && s == now.(jobs := s.jobs)
  {
    hide UpgradeLabel, UpgradeJobName, RemoveDataJobName, DeleteBackups, JobCompleted, JobHasFailed, ReplicasOf,
        HasRole;
    DeleteBackupsRemovesAll(now, seen.jobs, order, faults);
    var s := DeleteBackups(now, seen.jobs, order, faults).0;
    assert forall n :: n in now.jobs && n !in s.jobs ==> !Ours(cfg, now.jobs[n]);
  }

  /** The invariant reads no more of the cluster than its startup instance, and of the upgrade its metadata. */
  lemma StatusDoesNotMatter(cfg: Config, s: Server, t: Server)
    requires Inv(cfg, s) && t == s.(upgrade := t.upgrade, cluster := t.cluster)
    requires t.cluster.Some? ==> t.cluster.value.startupInstance in {"", cfg.startup}
    requires t.upgrade.Some? ==> SaneUpgrade(cfg, t.upgrade.value)
    ensures Inv(cfg, t) && Earlier(cfg, s, t)
  {
    hide UpgradeLabel, UpgradeJobName, RemoveDataJobName, JobCompleted, JobHasFailed, ReplicasOf, HasRole, SaneUpgrade;
    assert forall n :: n in s.jobs ==> t.jobs[n] == s.jobs[n];
  }

  /** The version is recorded when all is done. */
  lemma RecordingKeepsInv(cfg: Config, now: Server, seen: Server, order: seq<string>, faults: Faults)
    requires Sound(cfg) && Inv(cfg, now) && Readable(cfg, seen, now) && IsOrder(order, seen.jobs)
    requires seen.upgrade.Some? && FirstGate(seen, order, faults.observe).Recording?
    ensures seen.cluster.Some? && AllDone(cfg, now)
    ensures var after := Execute(now, seen, RecordVersion(order), faults);
            Inv(cfg, after) && Earlier(cfg, now, after) && after.upgrade == now.upgrade
  {
    hide UpgradeLabel, UpgradeJobName, RemoveDataJobName, FindUpgradeJob, ScanRemovals, DeleteBackups, Inv, Earlier,
        AllDone;
    SeenSuccessHappened(cfg, seen, now, order);
    DeletingBackupsKeepsInv(cfg, now, seen, order, faults.deleteJob);
    var s := DeleteBackups(now, seen.jobs, order, faults.deleteJob).0;
    var after := Execute(now, seen, RecordVersion(order), faults);
    assert SaneObjects(cfg, s) by { InvIsSane(cfg, s); }
    StatusDoesNotMatter(cfg, s, after);
    EarlierIsTransitive(cfg, now, s, after);
  }

  lemma InvIsSane(cfg: Config, s: Server)
    requires Inv(cfg, s)
    ensures SaneObjects(cfg, s)
  {
  }

  /** A reconcile keeps the invariant however old the objects it read are. */
  lemma ReconcileKeepsInv(cfg: Config, now: Server, seen: Server, order: seq<string>, faults: Faults)
    requires Sound(cfg) && Inv(cfg, now) && Readable(cfg, seen, now) && IsOrder(order, seen.jobs)
    ensures var after := ReconcileStep(now, seen, order, faults); Inv(cfg, after) && Earlier(cfg, now, after)
  {
    hide FirstGate, Reported, Inv, Earlier, Execute, Sound;
    EarlierIsReflexive(cfg, now);
    if seen.upgrade.Some? {
      var g := FirstGate(seen, order, faults.observe);
      var s := Execute(now, seen, PlanFor(seen, order, g), faults);
      if g.Working? {
        WorkKeepsInv(cfg, now, seen, order, faults);
      } else if g.Recording? {
        RecordingKeepsInv(cfg, now, seen, order, faults);
      } else {
        NothingChangesNothing(now, seen, faults);
      }
      assert SaneObjects(cfg, s) by { InvIsSane(cfg, s); }
      var after := ReconcileStep(now, seen, order, faults);
      StatusDoesNotMatter(cfg, s, after);
      EarlierIsTransitive(cfg, now, s, after);
    }
  }

  lemma NothingChangesNothing(now: Server, seen: Server, faults: Faults)
    requires seen.upgrade.Some?
    ensures Execute(now, seen, Nothing, faults) == now
  {
  }

  /** Only recording changes the cluster. It records the target, and only when all is done. */
  lemma ReconcileChangesVersionWhenDone(cfg: Config, now: Server, seen: Server, order: seq<string>, faults: Faults)
    requires Sound(cfg) && Inv(cfg, now) && Readable(cfg, seen, now) && IsOrder(order, seen.jobs)
    requires ReconcileStep(now, seen, order, faults).cluster != now.cluster
    ensures AllDone(cfg, now) && seen.upgrade.Some? && now.cluster.Some?
    ensures seen.cluster.Some? && seen.cluster.value.repos.Some?
    ensures var after := ReconcileStep(now, seen, order, faults);
            && after.cluster.Some?
            && after.cluster.value == now.cluster.value.(
                 statusVersion := seen.upgrade.value.toVersion, repos := after.cluster.value.repos)
  {
    hide UpgradeLabel, UpgradeJobName, RemoveDataJobName, FirstGate, Reported, DeleteBackups;
    var g := FirstGate(seen, order, faults.observe);
    if g.Working? {
      WorkKeepsInv(cfg, now, seen, order, faults);
    } else if g.Recording? {
      RecordingKeepsInv(cfg, now, seen, order, faults);
      DeleteBackupsRemovesAll(now, seen.jobs, order, faults.deleteJob);
    }
  }

  // ---- Runs ----

  lemma FirstStateKeepsInv(cfg: Config, states: seq<Server>, actions: seq<Action>)
    requires IsRun(cfg, states, actions)
    ensures Inv(cfg, states[0]) && Earlier(cfg, states[0], states[0])
  {
  }

  /** Any two moments of a run are in order, and each of them satisfies the invariant. */
  lemma {:induction false} RunKeepsInv(cfg: Config, states: seq<Server>, actions: seq<Action>, k: nat)
    requires IsRun(cfg, states, actions) && k < |states|
    ensures forall i :: 0 <= i <= k ==> Inv(cfg, states[i])
    ensures forall i, j :: 0 <= i <= j <= k ==> Earlier(cfg, states[i], states[j])
  {
    hide Inv, Earlier, EnvStep, ReconcileStep, SaneObjects, SeenBefore;
    if k > 0 {
      RunKeepsInv(cfg, states, actions, k - 1);
      var a := actions[k - 1];
      assert Step(cfg, states, k - 1, a);
      match a {
        case Others =>
          OthersKeepInv(cfg, states[k - 1], states[k]);
        case Reconciles(seen, order, faults) =>
          PastIsReadable(cfg, states, k - 1, seen);
          ReconcileKeepsInv(cfg, states[k - 1], seen, order, faults);
      }
      forall i, j | 0 <= i <= j <= k ensures Earlier(cfg, states[i], states[j]) {
        if j < k {
        } else if i < k {
          EarlierIsTransitive(cfg, states[i], states[k - 1], states[k]);
        } else {
          EarlierIsReflexive(cfg, states[k]);
        }
      }
    } else {
      FirstStateKeepsInv(cfg, states, actions);
    }
  }

  /** A cache that mixes moments of the past is still good enough. */
  lemma PastIsReadable(cfg: Config, states: seq<Server>, k: nat, seen: Server)
    requires k < |states| && SeenBefore(seen, states, k)
    requires forall i :: 0 <= i <= k ==> Inv(cfg, states[i])
    requires forall i, j :: 0 <= i <= j <= k ==> Earlier(cfg, states[i], states[j])
    ensures Readable(cfg, seen, states[k])
  {
    var j :| 0 <= j <= k && seen.jobs == states[j].jobs && seen.clock == states[j].clock;
    assert Earlier(cfg, states[j], states[k]);
  }

  /**
   * A remove-data Job exists only once the upgrade Job completed, only for a replica, and so
   * never for the startup instance.
   */
  lemma RemovalOnlyAfterUpgrade(cfg: Config, states: seq<Server>, actions: seq<Action>, i: nat, n: string)
    requires IsRun(cfg, states, actions) && i < |states|
    requires n in states[i].jobs && IsRemoval(cfg, states[i].jobs[n])
    ensures Upgraded(cfg, states[i])
    ensures exists x :: x in cfg.sets && IsInstance(x) && x.name != cfg.startup && n == RemoveDataJobName(cfg.name, x)
  {
    RunKeepsInv(cfg, states, actions, i);
    var x :| x in Replicas(cfg) && n == RemoveDataJobName(cfg.name, x);
    assert x in cfg.sets && IsInstance(x) && x.name != cfg.startup;
  }

  /**
   * A reconcile changes the cluster only to record the target version, only when the upgrade Job
   * and the remove-data Job of every replica have completed, and only when it saw a status of
   * pgBackRest, without which the source panics.
   */
  lemma VersionRecordedOnlyWhenDone(cfg: Config, states: seq<Server>, actions: seq<Action>, i: nat)
    requires IsRun(cfg, states, actions) && i < |actions| && actions[i].Reconciles?
    requires states[i + 1].cluster != states[i].cluster
    ensures AllDone(cfg, states[i]) && states[i].cluster.Some? && states[i + 1].cluster.Some?
    ensures actions[i].seen.upgrade.Some?
    ensures actions[i].seen.cluster.Some? && actions[i].seen.cluster.value.repos.Some?
    ensures states[i + 1].cluster.value == states[i].cluster.value.(
              statusVersion := actions[i].seen.upgrade.value.toVersion, repos := states[i + 1].cluster.value.repos)
  {
    RunKeepsInv(cfg, states, actions, i);
    assert Step(cfg, states, i, actions[i]);
    PastIsReadable(cfg, states, i, actions[i].seen);
    ReconcileChangesVersionWhenDone(cfg, states[i], actions[i].seen, actions[i].order, actions[i].faults);
  }

  /** Without an identified primary a reconcile makes no Jobs. */
  lemma NoPrimaryStep(cfg: Config, now: Server, seen: Server, order: seq<string>, faults: Faults)
    requires SaneObjects(cfg, seen) && PrimaryOf(cfg.sets, cfg.startup).None? && IsOrder(order, seen.jobs)
    ensures ReconcileStep(now, seen, order, faults).jobs == now.jobs
  {
    hide Reported, FactsOf;
  }

  lemma {:induction false} NoPrimaryNoJobs(cfg: Config, states: seq<Server>, actions: seq<Action>, k: nat)
    requires IsRun(cfg, states, actions) && k < |states| && PrimaryOf(cfg.sets, cfg.startup).None?
    ensures forall n :: n in states[k].jobs ==> !Ours(cfg, states[k].jobs[n])
  {
    hide Inv, Earlier, ReconcileStep, Sound, PrimaryOf, Ours;
    if k > 0 {
      NoPrimaryNoJobs(cfg, states, actions, k - 1);
      RunKeepsInv(cfg, states, actions, k);
      var a := actions[k - 1];
      assert Step(cfg, states, k - 1, a);
      if a.Reconciles? {
        PastIsReadable(cfg, states, k - 1, a.seen);
        NoPrimaryStep(cfg, states[k - 1], a.seen, a.order, a.faults);
      }
    }
  }

  /** A completed upgrade Job that was read means that the primary is identified. */
  lemma SeenUpgradeHadPrimary(cfg: Config, states: seq<Server>, actions: seq<Action>, i: nat, seen: Server,
      order: seq<string>)
    requires IsRun(cfg, states, actions) && i < |states| && SeenBefore(seen, states, i) && SaneObjects(cfg, seen)
    requires IsOrder(order, seen.jobs) && seen.upgrade.Some? && FactsOf(seen, order).complete
    ensures PrimaryOf(cfg.sets, cfg.startup).Some?
  {
    hide IsRun, PrimaryOf, ScanRemovals, UpgradeLabel, JobCompleted, JobHasFailed;
    if PrimaryOf(cfg.sets, cfg.startup).None? {
      var j :| 0 <= j <= i && seen.jobs == states[j].jobs && seen.clock == states[j].clock;
      NoPrimaryNoJobs(cfg, states, actions, j);
    }
  }

  /** A reconcile reports success only when the upgrade Job and every remove-data Job have completed. */
  lemma SuccessReportedOnlyWhenDone(cfg: Config, states: seq<Server>, actions: seq<Action>, i: nat)
    requires IsRun(cfg, states, actions) && i < |actions| && actions[i].Reconciles?
    requires states[i].upgrade.Some? && !HasSucceeded(states[i].upgrade.value)
    requires states[i + 1].upgrade.Some? && HasSucceeded(states[i + 1].upgrade.value)
    ensures AllDone(cfg, states[i]) && PrimaryOf(cfg.sets, cfg.startup).Some?
  {
    hide Inv, Earlier, Execute, PlanFor, Reported, Sound;
    RunKeepsInv(cfg, states, actions, i);
    assert Step(cfg, states, i, actions[i]);
    var seen, order, faults := actions[i].seen, actions[i].order, actions[i].faults;
    PastIsReadable(cfg, states, i, seen);
    var u, g := seen.upgrade.value, FirstGate(seen, order, faults.observe);
    ExecuteKeepsUpgrade(states[i], seen, order, faults);
    SuccessIsReportedOnce(u, g);
    SeenUpgradeHadPrimary(cfg, states, actions, i, seen, order);
    SeenSuccessHappened(cfg, seen, states[i], order);
  }

  lemma ExecuteKeepsUpgrade(now: Server, seen: Server, order: seq<string>, faults: Faults)
    requires IsOrder(order, seen.jobs) && seen.upgrade.Some?
    ensures Execute(now, seen, PlanFor(seen, order, FirstGate(seen, order, faults.observe)), faults).upgrade
            == now.upgrade
  {
    var plan := PlanFor(seen, order, FirstGate(seen, order, faults.observe));
    match plan
    case Nothing =>
    case RecordVersion(_) =>
      DeleteBackupsRemovesAll(now, seen.jobs, order, faults.deleteJob);
    case Work(upgradeJob, removeData, endpoints) =>
      var u := seen.upgrade.value;
      var s1 := if upgradeJob && UpgradeJobName(u.name) !in faults.apply
        then ApplyJob(now, UpgradeJobName(u.name), UpgradeJobLabels(u)) else now;
      ApplyingRemovalsKeepsTheRest(s1, u, removeData, faults.apply);
      DeletingEndpointsKeepsTheRest(ApplyRemovals(s1, u, removeData, faults.apply), endpoints, faults.deleteEndpoints);
  }

  lemma {:induction false} ApplyingRemovalsKeepsTheRest(s: Server, u: Upgrade, sets: seq<StatefulSet>,
      faults: set<string>)
    ensures var r := ApplyRemovals(s, u, sets, faults); r == s.(jobs := r.jobs, clock := r.clock)
    decreases sets
  {
    if sets != [] && RemoveDataJobName(u.name, sets[0]) !in faults {
      ApplyingRemovalsKeepsTheRest(
        ApplyJob(s, RemoveDataJobName(u.name, sets[0]), RemoveDataJobLabels(u)), u, sets[1..], faults);
    }
  }

  /** A Job of ours failed. */
  ghost predicate Failed(cfg: Config, s: Server, n: string) {
    n in s.jobs && Ours(cfg, s.jobs[n]) && JobHasFailed(s.jobs[n])
  }

  /**
   * After any Job of the upgrade failed, no later reconcile touches the cluster. After the
   * upgrade Job failed, no remove-data Job ever exists.
   */
  lemma FailureBlocksForever(cfg: Config, states: seq<Server>, actions: seq<Action>, i: nat, j: nat, n: string)
    requires IsRun(cfg, states, actions) && i <= j < |actions| && Failed(cfg, states[i], n)
    ensures Failed(cfg, states[j], n)
    ensures actions[j].Reconciles? ==> states[j + 1].cluster == states[j].cluster
    ensures IsUpgradeJob(cfg, states[i].jobs[n]) ==>
              forall m :: m in states[j].jobs ==> !IsRemoval(cfg, states[j].jobs[m])
  {
    RunKeepsInv(cfg, states, actions, j);
    assert Earlier(cfg, states[i], states[j]);
    assert !AllDone(cfg, states[j]) by {
      if IsRemoval(cfg, states[j].jobs[n]) {
        var x :| x in Replicas(cfg) && n == RemoveDataJobName(cfg.name, x);
        assert !Removed(cfg, states[j], x);
      }
    }
    if actions[j].Reconciles? && states[j + 1].cluster != states[j].cluster {
      VersionRecordedOnlyWhenDone(cfg, states, actions, j);
      assert false;
    }
  }

  /**
   * Why upgrades have to be sane: the Jobs of one whose metadata says replica-create are deleted
   * together with the backups when the version is recorded, and the controller does not find them
   * any more.
   */
  lemma PosingJobsAreDeleted(now: Server, u: Upgrade, order: seq<string>, n: string)
    requires IsOrder(order, now.jobs) && n in now.jobs
    requires now.jobs[n].labels == UpgradeJobLabels(u) || now.jobs[n].labels == RemoveDataJobLabels(u)
    ensures var (after, ok) := DeleteBackups(now, now.jobs, order, {});
            ok && (n !in after.jobs <==> Label(u.metadataLabels, LabelBackup) == ReplicaCreate)
  {
    DeleteBackupsRemovesAll(now, now.jobs, order, {});
    assert Label(now.jobs[n].labels, LabelBackup) == Label(u.metadataLabels, LabelBackup);
  }
}
