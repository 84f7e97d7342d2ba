/** The API objects that a major-version upgrade reads and writes, and the facts drawn from them. */
module PGUpgradeState {
  import opened Options
  import Naming

  // The label keys this controller knows. Others are compared by their text.
  datatype LabelKey =
    | LabelPGUpgrade | LabelCluster | LabelRole | LabelVersion
    | LabelPatroni | LabelBackup | LabelInstance
    | OtherLabel(text: string)

  // The label values this controller gives a meaning. Others are compared by their text.
  datatype LabelValue = UpgradeRole | RemoveDataRole | ReplicaCreate | Text(text: string)

  datatype ConditionType = Progressing | Succeeded | OtherType(text: string)

  // The reasons this controller reports. Others are compared by their text; no text is OtherReason("").
  datatype Reason =
    | PGUpgradeProgressing | PGUpgradeInvalid | PGClusterErrorWhenObservingWorld | PGClusterNotFound
    | PGUpgradeResolved | PGUpgradeCompleted | PGUpgradeInvalidForCluster | PGClusterNotShutdown
    | PGClusterPrimaryNotIdentified | PGClusterMissingRequiredAnnotation
    | PGUpgradeSucceeded | PGUpgradeFailed
    | OtherReason(text: string)

  type Labels = map<LabelKey, LabelValue>

  /** Reading a missing key of a Go map yields the empty string. */
  function Label(labels: Labels, key: LabelKey): LabelValue {
    if key in labels then labels[key] else Text("")
  }

  // A condition on an object's status, without its message and transition time.
  datatype Condition = Condition(kind: ConditionType, status: bool, reason: Reason, observedGeneration: int)

  datatype JobConditionType = JobComplete | JobFailed | JobOther
  datatype JobCondition = JobCondition(kind: JobConditionType, status: bool)

  datatype Job = Job(labels: Labels, conditions: seq<JobCondition>, uid: nat, resourceVersion: nat)
  datatype Endpoints = Endpoints(name: string, labels: Labels, uid: nat, resourceVersion: nat)
  datatype StatefulSet = StatefulSet(name: string, labels: Labels)

  datatype Cluster = Cluster(
    annotation: Option<string>,
    generation: int,
    specVersion: int,
    specShutdown: Option<bool>,
    statusVersion: int,
    startupInstance: string,
    observedGeneration: int,
    instanceSetReplicas: seq<int>,
    repos: Option<seq<string>>)

  datatype Upgrade = Upgrade(
    name: string,
    clusterName: string,
    generation: int,
    metadataLabels: Labels,
    fromVersion: int,
    toVersion: int,
    image: string,
    conditions: seq<Condition>)

  /** Everything the controller reads. clock is the last UID and resource version handed out. */
  datatype Server = Server(
    upgrade: Option<Upgrade>,
    cluster: Option<Cluster>,
    jobs: map<string, Job>,
    endpoints: seq<Endpoints>,
    statefulSets: seq<StatefulSet>,
    clock: nat)

  /** The status of the first condition of this kind; false when there is none. */
  function FirstJobCondition(conditions: seq<JobCondition>, kind: JobConditionType): bool {
    if conditions == [] then false
    else if conditions[0].kind == kind then conditions[0].status
    else FirstJobCondition(conditions[1..], kind)
  }

  predicate JobCompleted(job: Job) { FirstJobCondition(job.conditions, JobComplete) }

  predicate JobHasFailed(job: Job) { FirstJobCondition(job.conditions, JobFailed) }

  function FindCondition(conditions: seq<Condition>, kind: ConditionType): (r: Option<Condition>)
    ensures r.Some? ==> r.value in conditions && r.value.kind == kind
  {
    if conditions == [] then None
    else if conditions[0].kind == kind then Some(conditions[0])
    else FindCondition(conditions[1..], kind)
  }

  /** Replaces the first condition of the same kind or appends. */
  function SetCondition(conditions: seq<Condition>, c: Condition): (r: seq<Condition>)
    ensures FindCondition(r, c.kind) == Some(c)
    ensures forall kind :: kind != c.kind ==> FindCondition(r, kind) == FindCondition(conditions, kind)
  {
    if conditions == [] then [c]
    else if conditions[0].kind == c.kind then
      var r := [c] + conditions[1..];
      assert r[1..] == conditions[1..];
      r
    else
      var r := [conditions[0]] + SetCondition(conditions[1..], c);
      assert r[1..] == SetCondition(conditions[1..], c);
      r
  }

  // Jobs are found and named by the name of their upgrade.
  function UpgradeLabel(name: string): LabelValue { Text(Naming.SafeDNSUniqueName(name)) }

  function UpgradeJobName(name: string): string { Naming.SafeDNSUniqueName(name + "-pgdata") }

  function RemoveDataJobName(name: string, sts: StatefulSet): string {
    Naming.SafeDNSUniqueName(name + "-" + sts.name)
  }

  /** The labels that tell which upgrade a Job belongs to and what it does. */
  function CommonLabels(role: LabelValue, u: Upgrade): Labels {
    map[LabelPGUpgrade := UpgradeLabel(u.name), LabelCluster := Text(u.clusterName), LabelRole := role]
  }

  /** The labels of the upgrade Job. The spelling of the version is left to Naming. */
  function UpgradeJobLabels(u: Upgrade): Labels {
    u.metadataLabels + CommonLabels(UpgradeRole, u) +
    map[LabelVersion := Text(if u.toVersion < 0 then "-" + Naming.Decimal(-u.toVersion)
        else Naming.Decimal(u.toVersion))]
  }

  function RemoveDataJobLabels(u: Upgrade): Labels {
    u.metadataLabels + CommonLabels(RemoveDataRole, u)
  }

  predicate HasRole(job: Job, role: LabelValue, upgradeLabel: LabelValue) {
    Label(job.labels, LabelRole) == role && Label(job.labels, LabelPGUpgrade) == upgradeLabel
  }

  predicate IsInstance(sts: StatefulSet) { Label(sts.labels, LabelInstance) != Text("") }

  /** The StatefulSets that run Postgres. */
  function Instances(sets: seq<StatefulSet>): (r: seq<StatefulSet>)
    ensures forall x :: x in r <==> x in sets && IsInstance(x)
  {
    if sets == [] then []
    else
      var init, last := Instances(sets[..|sets| - 1]), sets[|sets| - 1];
      assert forall x :: x in sets <==> x in sets[..|sets| - 1] || x == last;
      if IsInstance(last) then init + [last] else init
  }

  /** The instance Patroni starts first: the last one with that name. */
  function PrimaryOf(sets: seq<StatefulSet>, startup: string): (r: Option<StatefulSet>)
    ensures r.Some? ==> r.value in sets && IsInstance(r.value) && r.value.name == startup != ""
    ensures r.None? && startup != "" ==> forall x :: x in sets && IsInstance(x) ==> x.name != startup
  {
    if sets == [] then None
    else
      var last := sets[|sets| - 1];
      assert forall x :: x in sets <==> x in sets[..|sets| - 1] || x == last;
      if startup != "" && IsInstance(last) && last.name == startup then Some(last)
      else PrimaryOf(sets[..|sets| - 1], startup)
  }

  /** Every other instance, once the startup instance is recorded. */
  function ReplicasOf(sets: seq<StatefulSet>, startup: string): (r: seq<StatefulSet>)
    ensures forall x :: x in r <==> startup != "" && x in sets && IsInstance(x) && x.name != startup
  {
    if sets == [] then []
    else
      var init, last := ReplicasOf(sets[..|sets| - 1], startup), sets[|sets| - 1];
      assert forall x :: x in sets <==> x in sets[..|sets| - 1] || x == last;
      if startup != "" && IsInstance(last) && last.name != startup then init + [last] else init
  }

  predicate UniqueNames(sets: seq<StatefulSet>) {
    forall i, j :: 0 <= i < j < |sets| ==> sets[i].name != sets[j].name
  }

  function PatroniEndpointsOf(endpoints: seq<Endpoints>): (r: seq<Endpoints>)
    ensures forall x :: x in r <==> x in endpoints && Label(x.labels, LabelPatroni) != Text("")
    ensures r == [] <==> forall x :: x in endpoints ==> Label(x.labels, LabelPatroni) == Text("")
  {
    if endpoints == [] then []
    else
      var init, last := PatroniEndpointsOf(endpoints[..|endpoints| - 1]), endpoints[|endpoints| - 1];
      assert forall x :: x in endpoints <==> x in endpoints[..|endpoints| - 1] || x == last;
      if Label(last.labels, LabelPatroni) != Text("") then init + [last] else init
  }

  /** A cluster is shut down when the spec asks for it, that spec was observed and nothing runs. */
  predicate IsShutdown(c: Cluster) {
    && c.specShutdown == Some(true)
    && c.observedGeneration == c.generation
    && forall i :: 0 <= i < |c.instanceSetReplicas| ==> c.instanceSetReplicas[i] == 0
  }

  /**
   * An identified primary means one replica fewer than instances, which is the number of
   * remove-data Jobs the controller waits for. Without a recorded or a matching startup
   * instance the two numbers differ.
   */
  lemma {:induction false} IdentifiedPrimaryCountsReplicas(sets: seq<StatefulSet>, startup: string)
    requires UniqueNames(sets)
    ensures PrimaryOf(sets, startup).Some? <==>
            (startup != "" && |ReplicasOf(sets, startup)| == |Instances(sets)| - 1)
    ensures startup != "" && PrimaryOf(sets, startup).None? ==>
              |ReplicasOf(sets, startup)| == |Instances(sets)|
    ensures startup == "" ==> ReplicasOf(sets, startup) == []
  {
    if sets != [] {
      var init, last := sets[..|sets| - 1], sets[|sets| - 1];
      assert UniqueNames(init);
      IdentifiedPrimaryCountsReplicas(init, startup);
      if startup != "" && IsInstance(last) && last.name == startup {
        forall x | x in init ensures x.name != startup {
          var i :| 0 <= i < |init| && init[i] == x;
          assert sets[i].name != sets[|sets| - 1].name;
        }
        assert PrimaryOf(init, startup).None?;
      }
    }
  }
}
