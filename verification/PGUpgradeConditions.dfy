/** What one reconcile of a PGUpgrade reports and decides, whatever happened before it. */
module PGUpgradeConditions {
  import opened Options
  import opened PGUpgradeState
  import opened PGUpgradeController

  /** A Progressing condition that no passing gate clears: PGUpgradeCompleted or somebody else's. */
  predicate Sticky(conditions: seq<Condition>) {
    var c := FindCondition(conditions, Progressing);
    c.Some? && Rank(c.value.reason) == 9 && c.value.reason != PGUpgradeProgressing
  }

  /** Status and reason of a condition. */
  function Told(conditions: seq<Condition>, kind: ConditionType): Option<(bool, Reason)> {
    var c := FindCondition(conditions, kind);
    if c.None? then None else Some((c.value.status, c.value.reason))
  }

  /** The conditions this controller leaves behind: progress is reported as true. */
  predicate Consistent(conditions: seq<Condition>) {
    var c := FindCondition(conditions, Progressing);
    c.Some? && c.value.reason == PGUpgradeProgressing ==> c.value.status
  }

  /**
   * The Progressing condition tells the first gate that failed. When all of them pass it tells
   * progress, exactly unless a sticky condition was left behind, which then stays as it is.
   */
  lemma ProgressingTellsFirstGate(u: Upgrade, g: Gate)
    requires !g.AlreadySucceeded? && Consistent(u.conditions)
    ensures var after := Reported(u, g).conditions;
            && Consistent(after)
            && (ReasonOf(g).Some? ==> FindCondition(after, Progressing) == Some(Failing(u, ReasonOf(g).value)))
            && (ReasonOf(g).None? && Sticky(u.conditions) ==>
                  FindCondition(after, Progressing) == FindCondition(u.conditions, Progressing))
            && (ReasonOf(g).None? ==>
                  (!Sticky(u.conditions) <==> Told(after, Progressing) == Some((true, PGUpgradeProgressing))))
  {
  }

  /** The same world seen with other conditions on the upgrade. */
  function WithConditions(seen: Server, conditions: seq<Condition>): Server
    requires seen.upgrade.Some?
  {
    seen.(upgrade := Some(seen.upgrade.value.(conditions := conditions)))
  }

  /** Past conditions matter to the decision only by whether an earlier reconcile succeeded. */
  lemma GateIgnoresHistory(
    seen: Server, past: seq<Condition>, other: seq<Condition>, order: seq<string>, observeFails: bool)
    requires seen.upgrade.Some? && forall n :: n in order ==> n in seen.jobs
    ensures var s1, s2 := WithConditions(seen, past), WithConditions(seen, other);
            && FactsOf(s1, order) == FactsOf(s2, order)
            && (!HasSucceeded(s1.upgrade.value) && !HasSucceeded(s2.upgrade.value) ==>
                  FirstGate(s1, order, observeFails) == FirstGate(s2, order, observeFails))
  {
  }

  /**
   * Which gate stops a reconcile, what it plans and what Progressing says do not depend on the
   * conditions of earlier reconciles, as long as none of them succeeded or is sticky.
   */
  lemma ProgressingIgnoresHistory(
    seen: Server, past: seq<Condition>, other: seq<Condition>, order: seq<string>, observeFails: bool)
    requires seen.upgrade.Some? && forall n :: n in order ==> n in seen.jobs
    requires Consistent(past) && Consistent(other)
    requires !HasSucceeded(WithConditions(seen, past).upgrade.value)
    requires !HasSucceeded(WithConditions(seen, other).upgrade.value)
    ensures var s1, s2 := WithConditions(seen, past), WithConditions(seen, other);
            var g := FirstGate(s1, order, observeFails);
            && g == FirstGate(s2, order, observeFails)
            && (g.Working? ==> seen.cluster.Some? && PlanFor(s1, order, g) == PlanFor(s2, order, g))
            && (ReasonOf(g).Some? || (!Sticky(past) && !Sticky(other)) ==>
                  Told(Reported(s1.upgrade.value, g).conditions, Progressing) ==
                  Told(Reported(s2.upgrade.value, g).conditions, Progressing))
  {
    GateIgnoresHistory(seen, past, other, order, observeFails);
    var s1, s2 := WithConditions(seen, past), WithConditions(seen, other);
    var g := FirstGate(s1, order, observeFails);
    ProgressingTellsFirstGate(s1.upgrade.value, g);
    ProgressingTellsFirstGate(s2.upgrade.value, g);
  }

  /** Success is reported only at the gate that saw the recorded version and finished Jobs. */
  lemma SuccessIsReportedOnce(u: Upgrade, g: Gate)
    ensures !HasSucceeded(u) ==> (HasSucceeded(Reported(u, g)) <==> g == Completed(true))
    ensures Reported(u, AlreadySucceeded) == u
  {
  }

  // ---- Iteration order ----

  function RemovalsDone(jobs: map<string, Job>, tag: LabelValue): set<string> {
    set n | n in jobs && HasRole(jobs[n], RemoveDataRole, tag) && JobCompleted(jobs[n])
  }

  predicate RemovalFailed(job: Job, tag: LabelValue) {
    HasRole(job, RemoveDataRole, tag) && !JobCompleted(job) && JobHasFailed(job)
  }

  /** One pass finds a failed Job if there is any. */
  lemma {:induction false} ScanFindsFailure(jobs: map<string, Job>, order: seq<string>, tag: LabelValue)
    requires forall n :: n in order ==> n in jobs
    ensures ScanRemovals(jobs, order, tag).failed <==> exists n :: n in order && RemovalFailed(jobs[n], tag)
  {
    hide HasRole, JobCompleted, JobHasFailed;
    if order != [] {
      assert forall n :: n in order <==> n == order[0] || n in order[1..];
      ScanFindsFailure(jobs, order[1..], tag);
    }
  }

  function Elements(order: seq<string>): set<string> { set n | n in order }

  /** One pass counts completed Jobs, all of them when none has failed. */
  lemma {:induction false} ScanCountsCompleted(jobs: map<string, Job>, order: seq<string>, tag: LabelValue)
    requires forall n :: n in order ==> n in jobs
    requires forall i, j :: 0 <= i < j < |order| ==> order[i] != order[j]
    ensures var r := ScanRemovals(jobs, order, tag);
            var done := RemovalsDone(jobs, tag) * Elements(order);
            if r.failed then r.completed <= |done| else r.completed == |done|
  {
    hide HasRole, JobCompleted, JobHasFailed;
    if order != [] {
      ScanCountsCompleted(jobs, order[1..], tag);
      ElementsOfCons(RemovalsDone(jobs, tag), order);
    }
  }

  lemma ElementsOfCons(all: set<string>, order: seq<string>)
    requires order != [] && forall i, j :: 0 <= i < j < |order| ==> order[i] != order[j]
    ensures |all * Elements(order)| == |all * Elements(order[1..])| + (if order[0] in all then 1 else 0)
  {
    var head, before := order[0], all * Elements(order[1..]);
    assert head !in order[1..] && Elements(order) == {head} + Elements(order[1..]);
    if head in all {
      assert all * Elements(order) == {head} + before;
    } else {
      assert all * Elements(order) == before;
    }
  }

  /** The upgrade Job carries its role at most once, and no more Jobs remove data than there are replicas. */
  ghost predicate JobsAsCreated(s: Server, tag: LabelValue) {
    && (forall n, m ::
          (n in s.jobs && m in s.jobs && HasRole(s.jobs[n], UpgradeRole, tag) && HasRole(s.jobs[m], UpgradeRole, tag))
          ==> n == m)
    && |set n | n in s.jobs && HasRole(s.jobs[n], RemoveDataRole, tag)| <= |Instances(s.statefulSets)| - 1
  }

  /** The facts about the Jobs, without an iteration order. */
  ghost function JobFactsOf(s: Server): JobFacts
    requires s.upgrade.Some?
  {
    var tag := UpgradeLabel(s.upgrade.value.name);
    JobFacts(
      exists n :: n in s.jobs && HasRole(s.jobs[n], UpgradeRole, tag) && JobCompleted(s.jobs[n]),
      exists n :: n in s.jobs && HasRole(s.jobs[n], UpgradeRole, tag) && JobHasFailed(s.jobs[n]),
      |RemovalsDone(s.jobs, tag)| == |Instances(s.statefulSets)| - 1,
      exists n :: n in s.jobs && RemovalFailed(s.jobs[n], tag))
  }

  /** A full pass finds exactly the facts, whatever order it takes. */
  lemma FactsIgnoreOrder(s: Server, order: seq<string>)
    requires s.upgrade.Some? && IsOrder(order, s.jobs) && JobsAsCreated(s, UpgradeLabel(s.upgrade.value.name))
    ensures FactsOf(s, order) == JobFactsOf(s)
  {
    hide HasRole, JobCompleted, JobHasFailed, UpgradeLabel, ScanRemovals;
    var tag := UpgradeLabel(s.upgrade.value.name);
    var scan := ScanRemovals(s.jobs, order, tag);
    ScanFindsFailure(s.jobs, order, tag);
    ScanCountsCompleted(s.jobs, order, tag);
    assert RemovalsDone(s.jobs, tag) * Elements(order) == RemovalsDone(s.jobs, tag);
    if scan.failed {
      // A failed Job is not a completed one, so fewer Jobs completed than there are replicas.
      var n :| n in order && RemovalFailed(s.jobs[n], tag);
      var all := set m | m in s.jobs && HasRole(s.jobs[m], RemoveDataRole, tag);
      assert RemovalsDone(s.jobs, tag) <= all - {n};
      SubsetIsSmaller(RemovalsDone(s.jobs, tag), all - {n});
    }
  }

  lemma {:induction false} SubsetIsSmaller<T>(a: set<T>, b: set<T>)
    requires a <= b
    ensures |a| <= |b|
    decreases b
  {
    if a != {} {
      var x :| x in a;
      SubsetIsSmaller(a - {x}, b - {x});
    }
  }

  /** The backup Jobs that stand in the way of a fresh backup. */
  function Backups(jobs: map<string, Job>, order: seq<string>): set<string>
    requires forall n :: n in order ==> n in jobs
  {
    set n | n in order && Label(jobs[n].labels, LabelBackup) == ReplicaCreate
  }

  /** Deleting succeeds when no single delete fails or conflicts, and then removes them all. */
  lemma {:induction false} DeleteBackupsRemovesAll(
    s: Server, seen: map<string, Job>, order: seq<string>, faults: set<string>)
    requires forall n :: n in order ==> n in seen
    ensures var (after, ok) := DeleteBackups(s, seen, order, faults);
            && (ok <==> forall n :: n in Backups(seen, order) ==> n !in faults && !JobDeletion(s, n, seen[n]).Conflict?)
            && (ok ==> after == s.(jobs := s.jobs - Backups(seen, order)))
            && after == s.(jobs := after.jobs)
            && (forall n :: n in after.jobs ==> n in s.jobs && after.jobs[n] == s.jobs[n])
            && (forall n :: n in s.jobs && n !in Backups(seen, order) ==> n in after.jobs)
            && (forall n :: n in s.jobs && n !in after.jobs ==> n in seen && JobDeletion(s, n, seen[n]).Deleted?)
    decreases order
  {
    if order == [] {
      assert Backups(seen, order) == {};
      assert s.jobs - {} == s.jobs;
    } else {
      var head, rest := order[0], order[1..];
      assert forall n :: n in order <==> n == head || n in rest;
      if Label(seen[head].labels, LabelBackup) != ReplicaCreate {
        DeleteBackupsRemovesAll(s, seen, rest, faults);
        assert Backups(seen, order) == Backups(seen, rest);
      } else if head in faults || JobDeletion(s, head, seen[head]).Conflict? {
        assert head in Backups(seen, order);
      } else {
        var s' := s.(jobs := s.jobs - {head});
        DeleteBackupsRemovesAll(s', seen, rest, faults);
        assert Backups(seen, order) == Backups(seen, rest) + {head};
        assert s'.jobs - Backups(seen, rest) == s.jobs - Backups(seen, order);
        forall n | n in Backups(seen, rest)
          ensures JobDeletion(s', n, seen[n]).Conflict? ==> JobDeletion(s, n, seen[n]).Conflict?
          ensures n != head ==> JobDeletion(s', n, seen[n]) == JobDeletion(s, n, seen[n])
        {
        }
      }
    }
  }

  /** The decision is the same for every iteration order of the map of Jobs. */
  lemma GateIgnoresOrder(seen: Server, o1: seq<string>, o2: seq<string>, observeFails: bool)
    requires IsOrder(o1, seen.jobs) && IsOrder(o2, seen.jobs)
    requires seen.upgrade.Some? && JobsAsCreated(seen, UpgradeLabel(seen.upgrade.value.name))
    ensures FactsOf(seen, o1) == FactsOf(seen, o2)
    ensures FirstGate(seen, o1, observeFails) == FirstGate(seen, o2, observeFails)
  {
    FactsIgnoreOrder(seen, o1);
    FactsIgnoreOrder(seen, o2);
  }

  /** Recording the version depends on the order only when it fails. */
  lemma RecordingIgnoresOrder(now: Server, seen: Server, o1: seq<string>, o2: seq<string>, faults: Faults)
    requires IsOrder(o1, seen.jobs) && IsOrder(o2, seen.jobs)
    requires seen.upgrade.Some? && seen.cluster.Some?
    ensures var s1, s2 := Execute(now, seen, RecordVersion(o1), faults), Execute(now, seen, RecordVersion(o2), faults);
            && s1 == s2.(jobs := s1.jobs)
            && (s1 == s2 || !DeleteBackups(now, seen.jobs, o1, faults.deleteJob).1)
  {
    DeleteBackupsRemovesAll(now, seen.jobs, o1, faults.deleteJob);
    DeleteBackupsRemovesAll(now, seen.jobs, o2, faults.deleteJob);
    assert Backups(seen.jobs, o1) == Backups(seen.jobs, o2);
  }

  /**
   * With Jobs as this controller creates them, a reconcile has the same outcome for every
   * iteration order of the map of Jobs. Only when a delete of a backup Job fails may the
   * orders differ, and then in nothing but which of the backup Jobs are left.
   */
  lemma ReconcileIgnoresOrder(now: Server, seen: Server, o1: seq<string>, o2: seq<string>, faults: Faults)
    requires IsOrder(o1, seen.jobs) && IsOrder(o2, seen.jobs)
    requires seen.upgrade.Some? && JobsAsCreated(seen, UpgradeLabel(seen.upgrade.value.name))
    ensures var s1, s2 := ReconcileStep(now, seen, o1, faults), ReconcileStep(now, seen, o2, faults);
            && s1 == s2.(jobs := s1.jobs)
            && (s1 == s2 || (&& FirstGate(seen, o1, faults.observe).Recording?
                             && !DeleteBackups(now, seen.jobs, o1, faults.deleteJob).1))
  {
    hide FirstGate, FactsOf, Reported, DeleteBackups, DeleteEndpoints, ApplyRemovals, ReplicasOf, PatroniEndpointsOf;
    hide UpgradeLabel, UpgradeJobName, UpgradeJobLabels, JobsAsCreated;
    GateIgnoresOrder(seen, o1, o2, faults.observe);
    var g := FirstGate(seen, o1, faults.observe);
    if g.Recording? {
      RecordingIgnoresOrder(now, seen, o1, o2, faults);
    } else {
      assert PlanFor(seen, o1, g) == PlanFor(seen, o2, g);
    }
  }
}
