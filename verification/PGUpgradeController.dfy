/**
 * One reconcile of a PGUpgrade (internal/controller/pgupgrade/pgupgrade_controller.go).
 *
 * The method Reconcile follows the source step by step against an API server object. It is
 * proved equal to ReconcileStep, which other modules reason about. What the client read (seen)
 * and what the server holds when the writes arrive (the old server) are separate, because the
 * client reads from a cache.
 */
module PGUpgradeController {
  import opened Options
  import opened PGUpgradeState
  import opened PGUpgradeWorld

  /** Which calls of one reconcile fail. A failing call has no effect. */
  datatype Faults = Faults(
    observe: bool, apply: set<string>, deleteJob: set<string>, deleteEndpoints: set<string>,
    patchCluster: bool, patchStatus: bool)

  const NO_FAULTS := Faults(false, {}, {}, {}, false, false)

  /** The writes a reconcile decides on. */
  datatype Plan =
    | Nothing
    | RecordVersion(order: seq<string>)
    | Work(upgradeJob: bool, removeData: seq<StatefulSet>, endpoints: seq<Endpoints>)

  // ---- What one pass over the Jobs finds, for an iteration order of the Go map ----

  function FindUpgradeJob(jobs: map<string, Job>, order: seq<string>, tag: LabelValue): (r: Option<Job>)
    requires forall n :: n in order ==> n in jobs
    ensures r.Some? ==> exists n :: n in order && jobs[n] == r.value && HasRole(jobs[n], UpgradeRole, tag)
    ensures r.None? ==> forall n :: n in order ==> !HasRole(jobs[n], UpgradeRole, tag)
  {
    if order == [] then None
    else if HasRole(jobs[order[0]], UpgradeRole, tag) then Some(jobs[order[0]])
    else FindUpgradeJob(jobs, order[1..], tag)
  }

  datatype Removals = Removals(completed: nat, failed: bool)

  /** Counts completed remove-data Jobs until one is found that failed. */
  function ScanRemovals(jobs: map<string, Job>, order: seq<string>, tag: LabelValue): (r: Removals)
    requires forall n :: n in order ==> n in jobs
  {
    if order == [] then Removals(0, false)
    else
      var job := jobs[order[0]];
      if HasRole(job, RemoveDataRole, tag) && JobCompleted(job) then
        var rest := ScanRemovals(jobs, order[1..], tag);
        Removals(1 + rest.completed, rest.failed)
      else if HasRole(job, RemoveDataRole, tag) && JobHasFailed(job) then Removals(0, true)
      else ScanRemovals(jobs, order[1..], tag)
  }

  /** An iteration order of a map visits every key once. */
  ghost predicate IsOrder(order: seq<string>, jobs: map<string, Job>) {
    && (forall n :: n in order <==> n in jobs)
    && (forall i, j :: 0 <= i < j < |order| ==> order[i] != order[j])
  }

  // ---- Conditions ----

  function Failing(u: Upgrade, reason: Reason): Condition {
    Condition(Progressing, false, reason, u.generation)
  }

  function Progress(u: Upgrade): Condition {
    Condition(Progressing, true, PGUpgradeProgressing, u.generation)
  }

  function ProgressIfReasonWas(u: Upgrade, reason: Reason): Upgrade {
    var progressing := FindCondition(u.conditions, Progressing);
    if progressing.None? || progressing.value.reason == reason then
      u.(conditions := SetCondition(u.conditions, Progress(u)))
    else u
  }

  /** The position at which Reconcile clears a reason; 9 for a reason it never clears. */
  function Rank(reason: Reason): nat {
    match reason
    case OtherReason(text) => if text == "" then 0 else 9
    case PGUpgradeInvalid => 1
    case PGClusterErrorWhenObservingWorld => 2
    case PGClusterNotFound => 3
    case PGUpgradeResolved => 4
    case PGUpgradeInvalidForCluster => 5
    case PGClusterNotShutdown => 6
    case PGClusterPrimaryNotIdentified => 7
    case PGClusterMissingRequiredAnnotation => 8
    case _ => 9
  }

  /** The upgrade once Reconcile has passed its first k chances to clear a reason. */
  function Cleared(u: Upgrade, k: nat): Upgrade {
    var progressing := FindCondition(u.conditions, Progressing);
    if k > 0 && (progressing.None? || Rank(progressing.value.reason) < k) then
      u.(conditions := SetCondition(u.conditions, Progress(u)))
    else u
  }

  // ---- Decisions ----

  /** Where a reconcile stops. The first nine clear up by themselves once they pass. */
  datatype Gate =
    | AlreadySucceeded
    | Invalid
    | ObserveError
    | ClusterNotFound
    | Resolved
    | Completed(succeeded: bool)
    | InvalidForCluster
    | NotShutdown
    | PrimaryNotIdentified
    | MissingAnnotation
    | JobsFailed
    | Recording
    | Working

  predicate HasSucceeded(u: Upgrade) {
    var c := FindCondition(u.conditions, Succeeded);
    c.Some? && c.value.reason == PGUpgradeSucceeded
  }

  /** The upgrade named by the cluster's annotation. */
  function AllowedUpgrade(c: Cluster): string {
    if c.annotation.Some? then c.annotation.value else ""
  }

  /** What the Jobs say, as Reconcile keeps it in local variables. */
  datatype JobFacts = JobFacts(complete: bool, failed: bool, removed: bool, removalFailed: bool)

  function FactsOf(seen: Server, order: seq<string>): JobFacts
    requires seen.upgrade.Some?
    requires forall n :: n in order ==> n in seen.jobs
  {
    var job := FindUpgradeJob(seen.jobs, order, UpgradeLabel(seen.upgrade.value.name));
    var removals := ScanRemovals(seen.jobs, order, UpgradeLabel(seen.upgrade.value.name));
    JobFacts(job.Some? && JobCompleted(job.value), job.Some? && JobHasFailed(job.value),
             removals.completed == |Instances(seen.statefulSets)| - 1, removals.failed)
  }

  /** The gates that compare the cluster with the upgrade, and then the Jobs. */
  function ClusterGate(u: Upgrade, c: Cluster, facts: JobFacts, primary: bool): (g: Gate)
    ensures !g.AlreadySucceeded? && !g.Invalid? && !g.ObserveError? && !g.ClusterNotFound?
  {
    if c.specVersion == u.toVersion && !facts.complete then Resolved
    else if c.statusVersion == u.toVersion then Completed(facts.complete && facts.removed)
    else if c.specVersion != u.fromVersion then InvalidForCluster
    else if !IsShutdown(c) then NotShutdown
    else if !primary then PrimaryNotIdentified
    else if AllowedUpgrade(c) != u.name then MissingAnnotation
    else if facts.failed || facts.removalFailed then JobsFailed
    else if facts.complete && facts.removed then Recording
    else Working
  }

  /** The first gate that stops this reconcile, a function of what was read and not of past conditions. */
  function FirstGate(seen: Server, order: seq<string>, observeFails: bool): (g: Gate)
    requires seen.upgrade.Some?
    requires forall n :: n in order ==> n in seen.jobs
    ensures g.Working? || g.Recording? ==> seen.cluster.Some?
  {
    var u := seen.upgrade.value;
    if HasSucceeded(u) then AlreadySucceeded
    else if u.fromVersion >= u.toVersion || u.image == "" then Invalid
    else if observeFails then ObserveError
    else if seen.cluster.None? then ClusterNotFound
    else
      ClusterGate(u, seen.cluster.value, FactsOf(seen, order),
                  PrimaryOf(seen.statefulSets, seen.cluster.value.startupInstance).Some?)
  }

  /** How many reasons were cleared on the way to a gate. */
  function ClearedBefore(g: Gate): nat {
    match g
    case AlreadySucceeded => 0
    case Invalid => 1
    case ObserveError => 2
    case ClusterNotFound => 3
    case Resolved => 4
    case Completed(_) => 5
    case InvalidForCluster => 5
    case NotShutdown => 6
    case PrimaryNotIdentified => 7
    case MissingAnnotation => 8
    case _ => 9
  }

  /** The reason a gate reports on the Progressing condition, for the gates that do. */
  function ReasonOf(g: Gate): Option<Reason> {
    match g
    case Invalid => Some(PGUpgradeInvalid)
    case ObserveError => Some(PGClusterErrorWhenObservingWorld)
    case ClusterNotFound => Some(PGClusterNotFound)
    case Resolved => Some(PGUpgradeResolved)
    case Completed(_) => Some(PGUpgradeCompleted)
    case InvalidForCluster => Some(PGUpgradeInvalidForCluster)
    case NotShutdown => Some(PGClusterNotShutdown)
    case PrimaryNotIdentified => Some(PGClusterPrimaryNotIdentified)
    case MissingAnnotation => Some(PGClusterMissingRequiredAnnotation)
    case _ => None
  }

  /** The upgrade object with the conditions this reconcile leaves in memory. */
  function Reported(u: Upgrade, g: Gate): Upgrade {
    var cleared := Cleared(u, ClearedBefore(g));
    var failed := if ReasonOf(g).Some?
      then cleared.(conditions := SetCondition(cleared.conditions, Failing(u, ReasonOf(g).value)))
      else cleared;
    match g
    case Completed(true) => failed.(conditions :=
        SetCondition(failed.conditions, Condition(Succeeded, true, PGUpgradeSucceeded, u.generation)))
    case JobsFailed => failed.(conditions :=
        SetCondition(failed.conditions, Condition(Succeeded, false, PGUpgradeFailed, u.generation)))
    case _ => failed
  }

  function PlanFor(seen: Server, order: seq<string>, g: Gate): Plan
    requires seen.upgrade.Some? && (g.Working? ==> seen.cluster.Some?)
    requires forall n :: n in order ==> n in seen.jobs
  {
    match g
    case Recording => RecordVersion(order)
    case Working =>
      var facts := FactsOf(seen, order);
      Work(!facts.complete,
           if facts.complete then ReplicasOf(seen.statefulSets, seen.cluster.value.startupInstance) else [],
           PatroniEndpointsOf(seen.endpoints))
    case _ => Nothing
  }

  // ---- Effects of the writes on the server ----

  /** Server-side apply of a Job. One that exists keeps its pod template, and so stays as it is. */
  function ApplyJob(s: Server, name: string, labels: Labels): Server {
    if name in s.jobs then s
    else s.(jobs := s.jobs[name := Job(labels, [], s.clock + 1, s.clock + 1)], clock := s.clock + 1)
  }

  datatype DeleteResult = Deleted | NotFound | Conflict

  function JobDeletion(s: Server, name: string, job: Job): DeleteResult {
    if name !in s.jobs then NotFound
    else if s.jobs[name].uid != job.uid || s.jobs[name].resourceVersion != job.resourceVersion then Conflict
    else Deleted
  }

  /** Deletes the replica-create backup Jobs in order and stops at the first error. */
  function DeleteBackups(s: Server, seen: map<string, Job>, order: seq<string>, faults: set<string>): (Server, bool)
    requires forall n :: n in order ==> n in seen
    decreases order
  {
    if order == [] then (s, true)
    else if Label(seen[order[0]].labels, LabelBackup) != ReplicaCreate then
      DeleteBackups(s, seen, order[1..], faults)
    else if order[0] in faults || JobDeletion(s, order[0], seen[order[0]]).Conflict? then (s, false)
    else DeleteBackups(s.(jobs := s.jobs - {order[0]}), seen, order[1..], faults)
  }

  /**
   * The merge patch of the cluster's status. Only fields that differ from the snapshot are sent.
   * Without a status of pgBackRest in the snapshot the source panics before it sends anything.
   */
  function PatchVersion(s: Server, seen: Cluster, version: int): Server {
    if s.cluster.None? || seen.repos.None? then s
    else s.(cluster := Some(s.cluster.value.(
              statusVersion := version,
              repos := if seen.repos == Some([]) then s.cluster.value.repos else Some([]))))
  }

  /** Applies one remove-data Job per StatefulSet and stops at the first error. */
  function ApplyRemovals(s: Server, u: Upgrade, sets: seq<StatefulSet>, faults: set<string>): Server
    decreases sets
  {
    if sets == [] || RemoveDataJobName(u.name, sets[0]) in faults then s
    else ApplyRemovals(ApplyJob(s, RemoveDataJobName(u.name, sets[0]), RemoveDataJobLabels(u)), u, sets[1..], faults)
  }

  /** The endpoints left by a delete guarded by UID and resource version. */
  function WithoutEndpoints(endpoints: seq<Endpoints>, e: Endpoints): (r: seq<Endpoints>)
    ensures forall x :: x in r <==>
              x in endpoints && !(x.name == e.name && x.uid == e.uid && x.resourceVersion == e.resourceVersion)
    ensures |r| <= |endpoints|
  {
    if endpoints == [] then []
    else if endpoints[0].name == e.name && endpoints[0].uid == e.uid &&
            endpoints[0].resourceVersion == e.resourceVersion
    then WithoutEndpoints(endpoints[1..], e)
    else [endpoints[0]] + WithoutEndpoints(endpoints[1..], e)
  }

  /** Every endpoint is attempted; an error on one does not keep the others. */
  function DeleteEndpoints(s: Server, endpoints: seq<Endpoints>, faults: set<string>): Server
    decreases endpoints
  {
    if endpoints == [] then s
    else if endpoints[0].name in faults then DeleteEndpoints(s, endpoints[1..], faults)
    else DeleteEndpoints(s.(endpoints := WithoutEndpoints(s.endpoints, endpoints[0])), endpoints[1..], faults)
  }

  function Execute(now: Server, seen: Server, plan: Plan, faults: Faults): Server
    requires seen.upgrade.Some? && (plan.RecordVersion? ==> seen.cluster.Some?)
    requires plan.RecordVersion? ==> forall n :: n in plan.order ==> n in seen.jobs
  {
    var u := seen.upgrade.value;
    match plan
    case Nothing => now
    case RecordVersion(order) =>
      var (s, ok) := DeleteBackups(now, seen.jobs, order, faults.deleteJob);
      if ok && !faults.patchCluster then PatchVersion(s, seen.cluster.value, u.toVersion) else s
    case Work(upgradeJob, removeData, endpoints) =>
      var s1 := if upgradeJob && UpgradeJobName(u.name) !in faults.apply
        then ApplyJob(now, UpgradeJobName(u.name), UpgradeJobLabels(u)) else now;
      var s2 := ApplyRemovals(s1, u, removeData, faults.apply);
      DeleteEndpoints(s2, endpoints, faults.deleteEndpoints)
  }

  /** The deferred patch of the upgrade's status, sent only when the status changed. */
  function PatchStatus(now: Server, before: Upgrade, after: Upgrade, fails: bool): Server {
    if before.conditions == after.conditions || fails || now.upgrade.None? then now
    else now.(upgrade := Some(now.upgrade.value.(conditions := after.conditions)))
  }

  /** The server after one reconcile. */
  function ReconcileStep(now: Server, seen: Server, order: seq<string>, faults: Faults): Server
    requires forall n :: n in order ==> n in seen.jobs
  {
    if seen.upgrade.None? then now
    else
      var u := seen.upgrade.value;
      var g := FirstGate(seen, order, faults.observe);
      PatchStatus(Execute(now, seen, PlanFor(seen, order, g), faults), u, Reported(u, g), faults.patchStatus)
  }

  // ---- The reconcile itself ----

  class ApiServer {
    var state: Server

    constructor (s: Server)
      ensures state == s
    {
      state := s;
    }

    method Apply(name: string, labels: Labels, faults: set<string>) returns (ok: bool)
      modifies this
      ensures ok == (name !in faults)
      ensures state == if ok then ApplyJob(old(state), name, labels) else old(state)
    {
      ok := name !in faults;
      if ok {
        state := ApplyJob(state, name, labels);
      }
    }

    /** Deletes a Job exactly as it was read. A Job that is gone already is not an error. */
    method DeleteJob(name: string, job: Job, faults: set<string>) returns (ok: bool)
      modifies this
      ensures ok == (name !in faults && !JobDeletion(old(state), name, job).Conflict?)
      ensures state == if ok then old(state).(jobs := old(state).jobs - {name}) else old(state)
    {
      ok := name !in faults && !JobDeletion(state, name, job).Conflict?;
      if ok {
        state := state.(jobs := state.jobs - {name});
      }
    }

    method DeleteEndpoint(e: Endpoints, faults: set<string>)
      modifies this
      ensures state == if e.name in faults then old(state)
                       else old(state).(endpoints := WithoutEndpoints(old(state).endpoints, e))
    {
      if e.name !in faults {
        state := state.(endpoints := WithoutEndpoints(state.endpoints, e));
      }
    }
  }

  /** The in-memory copy of the upgrade whose conditions a reconcile rewrites. */
  class UpgradeObject {
    var value: Upgrade

    constructor (u: Upgrade)
      ensures value == u
    {
      value := u;
    }

    method SetStatusCondition(c: Condition)
      modifies this
      ensures value == old(value).(conditions := SetCondition(old(value).conditions, c))
    {
      value := value.(conditions := SetCondition(value.conditions, c));
    }

    method SetStatusToProgressingIfReasonWas(reason: Reason)
      modifies this
      ensures value == ProgressIfReasonWas(old(value), reason)
    {
      var progressing := FindCondition(value.conditions, Progressing);
      if progressing.None? || progressing.value.reason == reason {
        SetStatusCondition(Condition(Progressing, true, PGUpgradeProgressing, value.generation));
      }
    }
  }

  method FindJob(jobs: map<string, Job>, order: seq<string>, tag: LabelValue) returns (upgradeJob: Option<Job>)
    requires forall n :: n in order ==> n in jobs
    ensures upgradeJob == FindUpgradeJob(jobs, order, tag)
  {
    upgradeJob := None;
    var i := 0;
    while i < |order|
      invariant 0 <= i <= |order|
      invariant upgradeJob == None
      invariant FindUpgradeJob(jobs, order, tag) == FindUpgradeJob(jobs, order[i..], tag)
    {
      if HasRole(jobs[order[i]], UpgradeRole, tag) {
        upgradeJob := Some(jobs[order[i]]);
        break;
      }
      i := i + 1;
    }
  }

  method CountRemovals(jobs: map<string, Job>, order: seq<string>, tag: LabelValue)
    returns (completed: nat, failed: bool)
    requires forall n :: n in order ==> n in jobs
    ensures Removals(completed, failed) == ScanRemovals(jobs, order, tag)
  {
    completed, failed := 0, false;
    var i := 0;
    while i < |order|
      invariant 0 <= i <= |order|
      invariant !failed
      invariant ScanRemovals(jobs, order, tag).completed == completed + ScanRemovals(jobs, order[i..], tag).completed
      invariant ScanRemovals(jobs, order, tag).failed == ScanRemovals(jobs, order[i..], tag).failed
    {
      var job := jobs[order[i]];
      assert order[i..][0] == order[i] && order[i..][1..] == order[i + 1..];
      if HasRole(job, RemoveDataRole, tag) {
        if JobCompleted(job) {
          completed := completed + 1;
        } else if JobHasFailed(job) {
          failed := true;
          break;
        }
      }
      i := i + 1;
    }
  }

  method DeleteReplicaCreateJobs(api: ApiServer, jobs: map<string, Job>, order: seq<string>, faults: set<string>)
    returns (ok: bool)
    requires forall n :: n in order ==> n in jobs
    modifies api
    ensures (api.state, ok) == DeleteBackups(old(api.state), jobs, order, faults)
  {
    ok := true;
    var i := 0;
    while i < |order| && ok
      invariant 0 <= i <= |order|
      invariant ok ==> DeleteBackups(old(api.state), jobs, order, faults) ==
                       DeleteBackups(api.state, jobs, order[i..], faults)
      invariant !ok ==> DeleteBackups(old(api.state), jobs, order, faults) == (api.state, false)
    {
      if Label(jobs[order[i]].labels, LabelBackup) == ReplicaCreate {
        ok := api.DeleteJob(order[i], jobs[order[i]], faults);
      }
      i := i + 1;
    }
  }

  method ApplyRemoveDataJobs(api: ApiServer, u: Upgrade, sets: seq<StatefulSet>, faults: set<string>)
    modifies api
    ensures api.state == ApplyRemovals(old(api.state), u, sets, faults)
  {
    var i, ok := 0, true;
    while i < |sets| && ok
      invariant 0 <= i <= |sets|
      invariant ApplyRemovals(old(api.state), u, sets, faults) ==
                if ok then ApplyRemovals(api.state, u, sets[i..], faults) else api.state
    {
      ok := api.Apply(RemoveDataJobName(u.name, sets[i]), RemoveDataJobLabels(u), faults);
      i := i + 1;
    }
  }

  method DeletePatroniEndpoints(api: ApiServer, endpoints: seq<Endpoints>, faults: set<string>)
    modifies api
    ensures api.state == DeleteEndpoints(old(api.state), endpoints, faults)
  {
    for i := 0 to |endpoints|
      invariant DeleteEndpoints(old(api.state), endpoints, faults) ==
                DeleteEndpoints(api.state, endpoints[i..], faults)
    {
      api.DeleteEndpoint(endpoints[i], faults);
    }
  }

  /** Passes a gate: clears its reason from the Progressing condition. */
  method Pass(upgrade: UpgradeObject, ghost u: Upgrade, ghost k: nat, reason: Reason)
    requires k == Rank(reason) < 9 && upgrade.value == Cleared(u, k)
    modifies upgrade
    ensures upgrade.value == Cleared(u, k + 1)
  {
    upgrade.SetStatusToProgressingIfReasonWas(reason);
  }

  /** Fails a gate: reports its reason on the Progressing condition. */
  method Stop(upgrade: UpgradeObject, ghost u: Upgrade, g: Gate)
    requires upgrade.value == Cleared(u, ClearedBefore(g)) && ReasonOf(g).Some? && g != Completed(true)
    modifies upgrade
    ensures upgrade.value == Reported(u, g)
  {
    upgrade.SetStatusCondition(Failing(upgrade.value, ReasonOf(g).value));
  }

  /** The gates that need nothing but the upgrade itself and an answer from the API. */
  method CheckUpgrade(upgrade: UpgradeObject, seen: Server, order: seq<string>, faults: Faults)
    returns (stop: bool)
    requires seen.upgrade == Some(upgrade.value) && !HasSucceeded(upgrade.value)
    requires forall n :: n in order ==> n in seen.jobs
    modifies upgrade
    ensures var u, g := seen.upgrade.value, FirstGate(seen, order, faults.observe);
            && stop == (g.Invalid? || g.ObserveError? || g.ClusterNotFound?)
            && upgrade.value == (if stop then Reported(u, g) else Cleared(u, 4))
            && (!stop ==> seen.cluster.Some?)
  {
    hide ClusterGate, FactsOf, PrimaryOf, SetCondition;
    ghost var u := upgrade.value;
    Pass(upgrade, u, 0, OtherReason(""));
    if upgrade.value.fromVersion >= upgrade.value.toVersion {
      Stop(upgrade, u, Invalid);
      return true;
    }
    if upgrade.value.image == "" {
      Stop(upgrade, u, Invalid);
      return true;
    }
    Pass(upgrade, u, 1, PGUpgradeInvalid);
    if faults.observe {
      Stop(upgrade, u, ObserveError);
      return true;
    }
    Pass(upgrade, u, 2, PGClusterErrorWhenObservingWorld);
    if seen.cluster.None? {
      Stop(upgrade, u, ClusterNotFound);
      return true;
    }
    Pass(upgrade, u, 3, PGClusterNotFound);
    return false;
  }

  /** The gates that compare versions. */
  method CheckVersions(upgrade: UpgradeObject, cluster: Cluster, facts: JobFacts, ghost u: Upgrade, ghost g: Gate)
    returns (stop: bool)
    requires exists primary :: g == ClusterGate(u, cluster, facts, primary)
    requires upgrade.value == Cleared(u, 4)
    modifies upgrade
    ensures stop == (g.Resolved? || g.Completed? || g.InvalidForCluster?)
    ensures upgrade.value == (if stop then Reported(u, g) else Cleared(u, 6))
  {
    if cluster.specVersion == upgrade.value.toVersion && !facts.complete {
      Stop(upgrade, u, Resolved);
      return true;
    }
    Pass(upgrade, u, 4, PGUpgradeResolved);

    if cluster.statusVersion == upgrade.value.toVersion {
      Stop(upgrade, u, Completed(false));
      if facts.complete && facts.removed {
        upgrade.SetStatusCondition(Condition(Succeeded, true, PGUpgradeSucceeded, upgrade.value.generation));
      }
      return true;
    }
    if cluster.specVersion != upgrade.value.fromVersion && cluster.statusVersion != upgrade.value.toVersion {
      Stop(upgrade, u, InvalidForCluster);
      return true;
    }
    Pass(upgrade, u, 5, PGUpgradeInvalidForCluster);
    return false;
  }

  /** The gates that wait for a stopped cluster, a known primary and the user's consent. */
  method CheckReadiness(upgrade: UpgradeObject, world: World, facts: JobFacts, ghost u: Upgrade, ghost g: Gate)
    returns (stop: bool)
    requires world.cluster.Some? && world.clusterShutdown == IsShutdown(world.cluster.value)
    requires g == ClusterGate(u, world.cluster.value, facts, world.clusterPrimary.Some?)
    requires !g.Resolved? && !g.Completed? && !g.InvalidForCluster?
    requires upgrade.value == Cleared(u, 6)
    modifies upgrade
    ensures stop == !(g.JobsFailed? || g.Recording? || g.Working?)
    ensures upgrade.value == (if stop then Reported(u, g) else Cleared(u, 9))
  {
    if !world.clusterShutdown {
      Stop(upgrade, u, NotShutdown);
      return true;
    }
    Pass(upgrade, u, 6, PGClusterNotShutdown);

    if world.clusterPrimary.None? {
      Stop(upgrade, u, PrimaryNotIdentified);
      return true;
    }
    Pass(upgrade, u, 7, PGClusterPrimaryNotIdentified);

    if AllowedUpgrade(world.cluster.value) != upgrade.value.name {
      Stop(upgrade, u, MissingAnnotation);
      return true;
    }
    Pass(upgrade, u, 8, PGClusterMissingRequiredAnnotation);
    return false;
  }

  /** Forces a fresh backup and records the new version, which also restarts the cluster's repositories. */
  method RecordNewVersion(api: ApiServer, seen: Server, order: seq<string>, faults: Faults)
    requires forall n :: n in order ==> n in seen.jobs
    requires seen.upgrade.Some? && seen.cluster.Some?
    modifies api
    ensures api.state == Execute(old(api.state), seen, RecordVersion(order), faults)
  {
    var ok := DeleteReplicaCreateJobs(api, seen.jobs, order, faults.deleteJob);
    if ok && !faults.patchCluster {
      api.state := PatchVersion(api.state, seen.cluster.value, seen.upgrade.value.toVersion);
    }
  }

  /** Creates the Jobs that are due and clears Patroni's old identifier. */
  method CreateJobsAndClearPatroni(
    api: ApiServer, world: World, facts: JobFacts, seen: Server, ghost order: seq<string>, faults: Faults)
    requires forall n :: n in order ==> n in seen.jobs
    requires seen.upgrade.Some?
    requires seen.cluster.Some? && world.Observed(seen) && facts == FactsOf(seen, order)
    requires !(facts.complete && facts.removed)
    modifies api
    ensures api.state == Execute(old(api.state), seen, PlanFor(seen, order, Working), faults)
  {
    var u := seen.upgrade.value;
    if !facts.complete {
      var _ := api.Apply(UpgradeJobName(u.name), UpgradeJobLabels(u), faults.apply);
    }
    if facts.complete && !facts.removed {
      ApplyRemoveDataJobs(api, u, world.clusterReplicas, faults.apply);
    }
    DeletePatroniEndpoints(api, world.patroniEndpoints, faults.deleteEndpoints);
  }

  /** What is left to do once every gate has passed depends on the Jobs alone. */
  method ActOnJobs(
    api: ApiServer, upgrade: UpgradeObject, world: World, facts: JobFacts,
    seen: Server, order: seq<string>, faults: Faults, ghost g: Gate)
    requires forall n :: n in order ==> n in seen.jobs
    requires seen.upgrade.Some? && seen.cluster.Some? && world.Observed(seen) && facts == FactsOf(seen, order)
    requires g == ClusterGate(seen.upgrade.value, seen.cluster.value, facts, world.clusterPrimary.Some?)
    requires g.JobsFailed? || g.Recording? || g.Working?
    requires upgrade.value == Cleared(seen.upgrade.value, 9)
    modifies api, upgrade
    ensures upgrade.value == Reported(seen.upgrade.value, g)
    ensures api.state == Execute(old(api.state), seen, PlanFor(seen, order, g), faults)
  {
    if facts.failed || facts.removalFailed {
      upgrade.SetStatusCondition(Condition(Succeeded, false, PGUpgradeFailed, upgrade.value.generation));
      return;
    }
    if facts.complete && facts.removed && world.cluster.value.statusVersion != upgrade.value.toVersion {
      RecordNewVersion(api, seen, order, faults);
      return;
    }
    CreateJobsAndClearPatroni(api, world, facts, seen, order, faults);
  }

  /** The body of Reconcile between reading the upgrade and the deferred status patch. */
  method ReconcileUpgrade(
    api: ApiServer, upgrade: UpgradeObject, seen: Server, order: seq<string>, faults: Faults)
    requires seen.upgrade == Some(upgrade.value)
    requires forall n :: n in order ==> n in seen.jobs
    modifies api, upgrade
    ensures var g := FirstGate(seen, order, faults.observe);
            && upgrade.value == Reported(seen.upgrade.value, g)
            && api.state == Execute(old(api.state), seen, PlanFor(seen, order, g), faults)
  {
    var succeeded := FindCondition(upgrade.value.conditions, Succeeded);
    if succeeded.Some? && succeeded.value.reason == PGUpgradeSucceeded {
      return;
    }
    var stop := CheckUpgrade(upgrade, seen, order, faults);
    if stop {
      return;
    }
    var world := ObserveWorld(seen);
    var upgradeJob := FindJob(world.jobs, order, UpgradeLabel(seen.upgrade.value.name));
    var completed, removalFailed := CountRemovals(world.jobs, order, UpgradeLabel(seen.upgrade.value.name));
    var facts := JobFacts(
      upgradeJob.Some? && JobCompleted(upgradeJob.value), upgradeJob.Some? && JobHasFailed(upgradeJob.value),
      completed == world.replicasExpected, removalFailed);
    ghost var g := FirstGate(seen, order, false);
    stop := CheckVersions(upgrade, world.cluster.value, facts, seen.upgrade.value, g);
    if stop {
      return;
    }
    stop := CheckReadiness(upgrade, world, facts, seen.upgrade.value, g);
    if stop {
      return;
    }

    ActOnJobs(api, upgrade, world, facts, seen, order, faults, g);
  }

  method Reconcile(api: ApiServer, seen: Server, order: seq<string>, faults: Faults)
    requires forall n :: n in order ==> n in seen.jobs
    modifies api
    ensures api.state == ReconcileStep(old(api.state), seen, order, faults)
  {
    if seen.upgrade.None? {
      return;
    }
    var upgrade := new UpgradeObject(seen.upgrade.value);
    ReconcileUpgrade(api, upgrade, seen, order, faults);
    api.state := PatchStatus(api.state, seen.upgrade.value, upgrade.value, faults.patchStatus);
  }
}
