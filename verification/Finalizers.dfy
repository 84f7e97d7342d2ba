/**
 * The finalizer of a cluster (internal/controller/postgrescluster/delete.go), with any number
 * of other writers of the same list.
 */
module Finalizers {
  import opened Options

  const FINALIZER := "postgres-operator.crunchydata.com/finalizer"

  // A cluster object. Two objects the server has held with one version are one object.
  datatype Object = Object(finalizers: seq<string>, deleting: bool, version: nat)

  // An instance: whether its StatefulSet wants a Pod, and whether that Pod is there.
  datatype Instance = Instance(wanted: bool, running: bool)

  // A Pod in a list: its instance, and the role that Patroni put on it.
  datatype Role = Replica | NoRole | OtherRole
  datatype Listed = Listed(instance: nat, role: Role)

  // artifacts counts the Endpoints that Patroni keeps.
  datatype World = World(cluster: Option<Object>, clock: nat, instances: seq<Instance>, artifacts: nat)

  // ----- Lists of finalizers -----

  function Less(a: string, b: string): bool {
    b != "" && (a == "" || a[0] < b[0] || (a[0] == b[0] && Less(a[1..], b[1..])))
  }

  function Elements(list: seq<string>): set<string> { set s | s in list }

  lemma ElementsOf(first: string, rest: seq<string>)
    ensures Elements([first] + rest) == {first} + Elements(rest)
    ensures Elements([]) == {}
  {
  }

  function Insert(s: string, list: seq<string>): (r: seq<string>)
    ensures Elements(r) == Elements(list) + {s}
  {
    if list == [] then ElementsOf(s, []); [s]
    else if list[0] == s then list
    else if Less(s, list[0]) then ElementsOf(s, list); [s] + list
    else
      assert list == [list[0]] + list[1..];
      ElementsOf(list[0], list[1..]);
      ElementsOf(list[0], Insert(s, list[1..]));
      [list[0]] + Insert(s, list[1..])
  }

  /** The sorted list of a set of strings. */
  function Sorted(list: seq<string>): (r: seq<string>)
    ensures Elements(r) == Elements(list)
  {
    if list == [] then []
    else
      assert list == [list[0]] + list[1..];
      ElementsOf(list[0], list[1..]);
      Insert(list[0], Sorted(list[1..]))
  }

  function Without(list: seq<string>, s: string): (r: seq<string>)
    ensures Elements(r) == Elements(list) - {s}
  {
    if list == [] then []
    else
      assert list == [list[0]] + list[1..];
      ElementsOf(list[0], list[1..]);
      ElementsOf(list[0], Without(list[1..], s));
      if list[0] == s then Without(list[1..], s) else [list[0]] + Without(list[1..], s)
  }

  function Remaining(finalizers: seq<string>): seq<string> { Without(Sorted(finalizers), FINALIZER) }

  // ----- The server -----

  /** An object that is being deleted goes away with its last finalizer. */
  function Stored(o: Object): Option<Object> { if o.deleting && o.finalizers == [] then None else Some(o) }

  /** A patch that carries the version it is based on applies to that very object only. */
  predicate Applies(w: World, seen: Object) { w.cluster.Some? && w.cluster.value.version == seen.version }

  function Patched(w: World, seen: Object, finalizers: seq<string>): World {
    if Applies(w, seen)
    then w.(cluster := Stored(Object(finalizers, w.cluster.value.deleting, w.clock + 1)), clock := w.clock + 1)
    else w
  }

  // ----- Stopping instances -----

  /** Scales the StatefulSet of an instance to zero. */
  function Stopped(w: World, i: nat): World {
    if i < |w.instances| then w.(instances := w.instances[i := w.instances[i].(wanted := false)]) else w
  }

  predicate IsStopped(pod: Listed) { pod.role.Replica? || pod.role.NoRole? }

  /** Stops replicas and Pods without a role in order, up to the first request that fails. */
  function StopReplicas(w: World, pods: seq<Listed>, failing: set<nat>): (r: (World, bool))
    ensures r.0 == w.(instances := r.0.instances)
    decreases |pods|
  {
    if pods == [] then (w, true)
    else if !IsStopped(pods[0]) then StopReplicas(w, pods[1..], failing)
    else if pods[0].instance in failing then (w, false)
    else StopReplicas(Stopped(w, pods[0].instance), pods[1..], failing)
  }

  /** One Pod is stopped whatever its role. Of several, the primary is spared until the others are gone. */
  function StopPods(w: World, pods: seq<Listed>, failing: set<nat>): (r: (World, bool))
    ensures r.0 == w.(instances := r.0.instances)
    ensures pods == [] ==> r == (w, true)
  {
    if |pods| != 1 then StopReplicas(w, pods, failing)
    else if pods[0].instance in failing then (w, false)
    else (Stopped(w, pods[0].instance), true)
  }

  // ----- handleDelete -----

  // What the caller learns: it may go on, it should wait for events, or there was an error.
  datatype Result = GoOn | Wait | Error

  // stopPods are the instances whose StatefulSet cannot be scaled.
  datatype Faults = Faults(listPods: bool, stopPods: set<nat>, deleteArtifacts: bool, patch: bool)

  // What others make of the world while this controller is between two requests.
  datatype Others = Others(beforeList: World, beforeArtifacts: World, beforePatch: World)

  class Api {
    var world: World

    constructor (w: World)
      ensures world == w
    {
      world := w;
    }

    method Elapse(later: World)
      modifies this
      ensures world == later
    {
      world := later;
    }

    method Patch(seen: Object, finalizers: seq<string>, fault: bool) returns (ok: bool, missing: bool)
      modifies this
      ensures world == if fault then old(world) else Patched(old(world), seen, finalizers)
      ensures ok <==> !fault && Applies(old(world), seen)
      ensures missing <==> !fault && old(world.cluster).None?
    {
      ok, missing := !fault && Applies(world, seen), !fault && world.cluster.None?;
      if !fault {
        world := Patched(world, seen, finalizers);
      }
    }

    method Stop(i: nat, failing: set<nat>) returns (ok: bool)
      modifies this
      ensures world == if i in failing then old(world) else Stopped(old(world), i)
      ensures ok <==> i !in failing
    {
      ok := i !in failing;
      if ok {
        world := Stopped(world, i);
      }
    }

    method DeletePatroniArtifacts(fault: bool) returns (ok: bool)
      modifies this
      ensures world == if fault then old(world) else old(world).(artifacts := 0)
      ensures ok == !fault
    {
      ok := !fault;
      if !fault {
        world := world.(artifacts := 0);
      }
    }
  }

  /** Stops listed Pods. Nothing is done when there are none. */
  method DeleteInstances(api: Api, pods: seq<Listed>, failing: set<nat>) returns (ok: bool)
    modifies api
    ensures (api.world, ok) == StopPods(old(api.world), pods, failing)
  {
    if |pods| == 0 {
      return true;
    }
    if |pods| == 1 {
      ok := api.Stop(pods[0].instance, failing);
      return;
    }
    ok := true;
    ghost var before := api.world;
    assert pods[0..] == pods;
    for i := 0 to |pods|
      invariant StopPods(before, pods, failing)
                == if ok then StopReplicas(api.world, pods[i..], failing) else (api.world, false)
    {
      assert pods[i..][0] == pods[i] && pods[i..][1..] == pods[i + 1..];
      if ok && IsStopped(pods[i]) {
        ok := api.Stop(pods[i].instance, failing);
      }
    }
  }

  function HandleDeleteEffect(seen: Object, pods: seq<Listed>, o: Others, f: Faults): (World, Result) {
    if !seen.deleting then
      if FINALIZER in seen.finalizers then (o.beforePatch, GoOn)
      else if f.patch then (o.beforePatch, Error)
      else (Patched(o.beforePatch, seen, seen.finalizers + [FINALIZER]),
            if Applies(o.beforePatch, seen) then GoOn else Error)
    else if FINALIZER !in seen.finalizers then (o.beforePatch, Wait)
    else if f.listPods then (o.beforeList, Error)
    else if pods != [] then
      var stopped := StopPods(o.beforeList, pods, f.stopPods);
      (stopped.0, if stopped.1 then Wait else Error)
    else if f.deleteArtifacts then (o.beforeArtifacts, Error)
    else if f.patch then (o.beforePatch, Error)
    else (Patched(o.beforePatch, seen, Remaining(seen.finalizers)),
          if Applies(o.beforePatch, seen) || o.beforePatch.cluster.None? then Wait else Error)
  }

  /**
   * Sets the finalizer, or finalizes a cluster that is being deleted. The cluster was read as
   * `seen`, the list of Pods is `pods`, and the others act between the requests.
   */
  method HandleDelete(api: Api, seen: Object, pods: seq<Listed>, others: Others,
      faults: Faults) returns (result: Result)
    modifies api
    ensures (api.world, result) == HandleDeleteEffect(seen, pods, others, faults)
  {
    if !seen.deleting {
      api.Elapse(others.beforePatch);
      if FINALIZER in seen.finalizers {
        return GoOn;
      }
      var ok, _ := api.Patch(seen, seen.finalizers + [FINALIZER], faults.patch);
      return if ok then GoOn else Error;
    }
    if FINALIZER !in seen.finalizers {
      api.Elapse(others.beforePatch);
      return Wait;
    }
    api.Elapse(others.beforeList);
    if faults.listPods {
      return Error;
    }
    if |pods| > 0 {
      var stopped := DeleteInstances(api, pods, faults.stopPods);
      return if stopped then Wait else Error;
    }
    api.Elapse(others.beforeArtifacts);
    var cleaned := api.DeletePatroniArtifacts(faults.deleteArtifacts);
    if !cleaned {
      return Error;
    }
    api.Elapse(others.beforePatch);
    var ok, missing := api.Patch(seen, Remaining(seen.finalizers), faults.patch);
    return if ok || missing then Wait else Error;
  }

  /**
   * What a successful pass over a list leaves: every Pod that it stops is not wanted any more, and no other
   * changes.
   */
  lemma {:induction false} ListedAreStopped(w: World, pods: seq<Listed>, failing: set<nat>, i: nat)
    requires i < |w.instances| && StopReplicas(w, pods, failing).1
    ensures var after := StopReplicas(w, pods, failing).0;
            && after == w.(instances := after.instances) && |after.instances| == |w.instances|
            && after.instances[i].running == w.instances[i].running
            && (after.instances[i].wanted <==>
                  w.instances[i].wanted && forall j :: 0 <= j < |pods| && IsStopped(pods[j]) ==> pods[j].instance != i)
    decreases |pods|
  {
    if pods != [] {
      var next := if IsStopped(pods[0]) then Stopped(w, pods[0].instance) else w;
      ListedAreStopped(next, pods[1..], failing, i);
      assert forall j :: 0 < j < |pods| ==> pods[j] == pods[1..][j - 1];
      assert forall j :: 0 <= j < |pods| - 1 ==> pods[1..][j] == pods[j + 1];
    }
  }
}

/** Whole runs of the controller and the other writers. */
module FinalizerRuns {
  import opened Options
  import opened Finalizers

  // What the controller is about to do with the object it read.
  datatype Phase = Idle | Adding(seen: Object) | Listing(seen: Object) | Cleaning(seen: Object) | Removing(seen: Object)

  // past and lists are history: every version of the object that the server has held, and every
  // set of instances that had a Pod.
  datatype State = State(world: World, phase: Phase, past: set<Object>, lists: set<set<nat>>)

  datatype Event =
    | Reads(seen: Object)
    | Lists(pods: seq<Listed>, failing: set<nat>)
    | Cleans
    | Patches
    | GivesUp
    | OthersWrite(finalizers: seq<string>)
    | UserDeletes
    | Scales(instances: seq<Instance>)
    | PodStarts(i: nat)
    | PodStops(i: nat)
    | PatroniWrites(artifacts: nat)

  function Running(w: World): set<nat> { set i: nat | i < |w.instances| && w.instances[i].running }

  function InstancesOf(pods: seq<Listed>): set<nat> { set j: nat | j < |pods| :: pods[j].instance }

  /** The controller finalizes a cluster that it read as being deleted. */
  predicate Finalizes(p: Phase) { p.Listing? || p.Cleaning? || p.Removing? }

  predicate Enabled(s: State, e: Event) {
    match e
    case Reads(seen) => s.phase.Idle? && seen in s.past
    // Lists come from a cache, too.
    case Lists(pods, _) => s.phase.Listing? && InstancesOf(pods) in s.lists
    case Cleans => s.phase.Cleaning?
    case Patches => s.phase.Adding? || s.phase.Removing?
    case GivesUp => true
    // Other writers keep our finalizer as it is, and the server lets nobody add one to an object being deleted.
    case OthersWrite(finalizers) =>
      && s.world.cluster.Some?
      && (FINALIZER in finalizers <==> FINALIZER in s.world.cluster.value.finalizers)
      && (s.world.cluster.value.deleting ==> Elements(finalizers) <= Elements(s.world.cluster.value.finalizers))
    case UserDeletes => s.world.cluster.Some?
    // Only this controller makes and scales instances, one reconcile at a time.
    case Scales(instances) =>
      && !Finalizes(s.phase) && |s.world.instances| <= |instances|
      && forall i :: 0 <= i < |instances| ==>
           instances[i].running == (i < |s.world.instances| && s.world.instances[i].running)
    // A Pod starts only where its StatefulSet wants one.
    case PodStarts(i) => i < |s.world.instances| && s.world.instances[i].wanted
    case PodStops(i) => i < |s.world.instances|
    // Only a running instance has a Patroni that writes.
    case PatroniWrites(_) => Running(s.world) != {}
  }

  function PhaseAfterRead(seen: Object): Phase {
    if !seen.deleting then (if FINALIZER in seen.finalizers then Idle else Adding(seen))
    else if FINALIZER in seen.finalizers then Listing(seen)
    else Idle
  }

  function Intent(p: Phase): seq<string>
    requires p.Adding? || p.Removing?
  {
    if p.Adding? then p.seen.finalizers + [FINALIZER] else Remaining(p.seen.finalizers)
  }

  function NextWorld(s: State, e: Event): World
    requires Enabled(s, e)
  {
    var w := s.world;
    match e
    case Lists(pods, failing) => StopPods(w, pods, failing).0
    case Cleans => w.(artifacts := 0)
    case Patches => Patched(w, s.phase.seen, Intent(s.phase))
    case OthersWrite(finalizers) => Patched(w, w.cluster.value, finalizers)
    case UserDeletes =>
      w.(cluster := Stored(w.cluster.value.(deleting := true, version := w.clock + 1)), clock := w.clock + 1)
    case Scales(instances) => w.(instances := instances)
    case PodStarts(i) => w.(instances := w.instances[i := w.instances[i].(running := true)])
    case PodStops(i) => w.(instances := w.instances[i := w.instances[i].(running := false)])
    case PatroniWrites(artifacts) => w.(artifacts := artifacts)
    case _ => w
  }

  function NextPhase(s: State, e: Event): Phase
    requires Enabled(s, e)
  {
    match e
    case Reads(seen) => PhaseAfterRead(seen)
    case Lists(pods, _) => if pods == [] then Cleaning(s.phase.seen) else Idle
    case Cleans => Removing(s.phase.seen)
    case Patches => Idle
    case GivesUp => Idle
    case _ => s.phase
  }

  function Next(s: State, e: Event): State
    requires Enabled(s, e)
  {
    var w := NextWorld(s, e);
    State(w, NextPhase(s, e), if w.cluster.Some? then s.past + {w.cluster.value} else s.past, s.lists + {Running(w)})
  }

  ghost predicate IsRun(states: seq<State>, events: seq<Event>) {
    && |states| == |events| + 1
    && Start(states[0])
    && forall i :: 0 <= i < |events| ==> Enabled(states[i], events[i]) && states[i + 1] == Next(states[i], events[i])
  }

  ghost predicate Start(s: State) {
    && s.phase.Idle? && s.world.cluster.Some? && !s.world.cluster.value.deleting
    && s.past == {s.world.cluster.value} && s.world.cluster.value.version <= s.world.clock
    && s.lists == {Running(s.world)}
  }

  ghost predicate PhaseOk(s: State) {
    match s.phase
    case Idle => true
    case Adding(seen) => seen in s.past && !seen.deleting && FINALIZER !in seen.finalizers
    case Listing(seen) => seen in s.past && seen.deleting && FINALIZER in seen.finalizers
    case Cleaning(seen) => seen in s.past && seen.deleting && FINALIZER in seen.finalizers
    case Removing(seen) => seen in s.past && seen.deleting && FINALIZER in seen.finalizers
  }

  ghost predicate Inv(s: State) {
    && PhaseOk(s)
    && (s.world.cluster.Some? ==> s.world.cluster.value in s.past)
    && (forall a, b :: a in s.past && b in s.past && a.version == b.version ==> a == b)
    && (forall a :: a in s.past ==> a.version <= s.world.clock)
  }

  lemma StepKeepsInv(s: State, e: Event)
    requires Inv(s) && Enabled(s, e)
    ensures Inv(Next(s, e))
  {
    hide Remaining, Sorted, Without;
  }

  lemma {:induction false} RunKeepsInv(states: seq<State>, events: seq<Event>, i: nat)
    requires IsRun(states, events) && i < |states|
    ensures Inv(states[i])
  {
    if i > 0 {
      RunKeepsInv(states, events, i - 1);
      StepKeepsInv(states[i - 1], events[i - 1]);
    }
  }

  function FinalizersOf(w: World): set<string> {
    if w.cluster.Some? then Elements(w.cluster.value.finalizers) else {}
  }

  /**
   * A patch of this controller that takes effect adds or removes its own finalizer and no
   * other, although it writes the whole list.
   */
  lemma OthersAreKept(s: State, e: Event)
    requires Inv(s) && Enabled(s, e) && !e.OthersWrite? && !e.UserDeletes?
    ensures FinalizersOf(Next(s, e).world) - {FINALIZER} == FinalizersOf(s.world) - {FINALIZER}
    ensures !e.Patches? ==> Next(s, e).world.cluster == s.world.cluster
  {
    hide Sorted, Without;
    if e.Patches? && Applies(s.world, s.phase.seen) {
      assert s.world.cluster.value == s.phase.seen;
      AppendElements(s.phase.seen.finalizers);
      RemainingElements(s.phase.seen.finalizers);
    }
  }

  lemma AppendElements(list: seq<string>)
    ensures Elements(list + [FINALIZER]) == Elements(list) + {FINALIZER}
  {
  }

  lemma RemainingElements(list: seq<string>)
    ensures Elements(Remaining(list)) == Elements(list) - {FINALIZER}
  {
  }

  predicate HasOurs(w: World) { w.cluster.Some? && FINALIZER in w.cluster.value.finalizers }

  /** While the finalizer is set the object stays, and only the last step of this controller takes it off. */
  lemma FinalizerHoldsObject(s: State, e: Event)
    requires Inv(s) && Enabled(s, e) && HasOurs(s.world)
    ensures HasOurs(Next(s, e).world) || (e.Patches? && s.phase.Removing? && Applies(s.world, s.phase.seen))
  {
    hide Remaining, Sorted, Without;
    if e.Patches? && Applies(s.world, s.phase.seen) {
      assert s.world.cluster.value == s.phase.seen;
    }
  }

  /** The steps of one pass: at `listed` its list had no Pods, and at `cleaned` it removed the artifacts. */
  ghost predicate Finalized(states: seq<State>, events: seq<Event>, listed: nat, cleaned: nat, k: nat) {
    && listed < cleaned < k < |events| == |states| - 1
    && states[listed].phase.Listing? && events[listed].Lists? && events[listed].pods == []
    && (forall j :: listed < j <= cleaned ==> states[j].phase.Cleaning?)
    && events[cleaned].Cleans? && states[cleaned + 1].world.artifacts == 0
    && (forall j :: cleaned < j <= k ==> states[j].phase.Removing?)
  }

  /**
   * In every run, what leads to a removal is a list without Pods and then a removal of the artifacts, in this
   * order.
   */
  lemma RemovalIsLast(states: seq<State>, events: seq<Event>, k: nat) returns (listed: nat, cleaned: nat)
    requires IsRun(states, events) && k < |events| && events[k].Patches? && states[k].phase.Removing?
    ensures Finalized(states, events, listed, cleaned, k)
    ensures states[listed].phase == Listing(states[k].phase.seen) && states[k].phase.seen.deleting
  {
    RunKeepsInv(states, events, k);
    cleaned := SinceCleaned(states, events, k);
    listed := SinceListed(states, events, cleaned);
  }

  lemma {:induction false} SinceCleaned(states: seq<State>, events: seq<Event>, k: nat) returns (c: nat)
    requires IsRun(states, events) && k < |states| && states[k].phase.Removing?
    ensures c < k && events[c].Cleans? && states[c + 1].world.artifacts == 0
    ensures states[c].phase == Cleaning(states[k].phase.seen)
    ensures forall j :: c < j <= k ==> states[j].phase.Removing?
  {
    assert k > 0;
    assert states[k] == Next(states[k - 1], events[k - 1]);
    if states[k - 1].phase.Removing? {
      c := SinceCleaned(states, events, k - 1);
    } else {
      c := k - 1;
    }
  }

  lemma {:induction false} SinceListed(states: seq<State>, events: seq<Event>, k: nat) returns (l: nat)
    requires IsRun(states, events) && k < |states| && states[k].phase.Cleaning?
    ensures l < k && events[l].Lists? && events[l].pods == []
    ensures states[l].phase == Listing(states[k].phase.seen)
    ensures forall j :: l < j <= k ==> states[j].phase.Cleaning?
  {
    assert k > 0;
    assert states[k] == Next(states[k - 1], events[k - 1]);
    if states[k - 1].phase.Cleaning? {
      l := SinceListed(states, events, k - 1);
    } else {
      l := k - 1;
    }
  }

  // ----- What is gone when the finalizer goes -----

  /** No StatefulSet wants a Pod and no Pod is there. */
  ghost predicate Quiet(w: World) {
    forall i :: 0 <= i < |w.instances| ==> !w.instances[i].wanted && !w.instances[i].running
  }

  ghost predicate Gone(w: World) { Running(w) == {} && w.artifacts == 0 }

  lemma QuietStep(s: State, e: Event)
    requires Enabled(s, e) && Finalizes(s.phase) && Quiet(s.world) && (e.Lists? ==> e.pods == [])
    ensures Quiet(Next(s, e).world)
    ensures s.world.artifacts == 0 ==> Next(s, e).world.artifacts == 0
  {
    QuietDoesNotRun(s.world);
  }

  lemma QuietDoesNotRun(w: World)
    requires Quiet(w)
    ensures Running(w) == {}
  {
  }

  /** From a quiet list on, nothing starts while the controller goes on finalizing. */
  lemma {:induction false} StaysQuiet(states: seq<State>, events: seq<Event>, i: nat, k: nat)
    requires IsRun(states, events) && i <= k < |states| && Quiet(states[i].world)
    requires forall j :: i <= j < k ==> Finalizes(states[j].phase) && (events[j].Lists? ==> events[j].pods == [])
    ensures Quiet(states[k].world) && (states[i].world.artifacts == 0 ==> states[k].world.artifacts == 0)
  {
    hide Next, Enabled, Quiet;
    if i < k {
      StaysQuiet(states, events, i, k - 1);
      assert states[k] == Next(states[k - 1], events[k - 1]);
      QuietStep(states[k - 1], events[k - 1]);
    }
  }

  lemma {:induction false} GoneAfterQuietList(states: seq<State>, events: seq<Event>, listed: nat, cleaned: nat, k: nat)
    requires IsRun(states, events) && Finalized(states, events, listed, cleaned, k)
    requires Quiet(states[listed].world)
    ensures Gone(states[k].world)
  {
    hide Next, Quiet;
    StaysQuiet(states, events, listed, cleaned + 1);
    StaysQuiet(states, events, cleaned + 1, k);
    QuietDoesNotRun(states[k].world);
  }

  /** The k-th step takes the finalizer off. */
  ghost predicate TakesOff(states: seq<State>, events: seq<Event>, k: nat) {
    k < |events| < |states| && HasOurs(states[k].world) && !HasOurs(states[k + 1].world)
  }

  /** The k-th step takes the finalizer off in the pass that made its list at n. */
  ghost predicate RemovesAfterList(states: seq<State>, events: seq<Event>, n: nat, k: nat) {
    TakesOff(states, events, k) && exists cleaned :: Finalized(states, events, n, cleaned, k)
  }

  /** A finalizer that is there at i and gone at j was taken off in between, at the end of a whole pass. */
  lemma {:induction false} GoneAfterAPass(states: seq<State>, events: seq<Event>, i: nat, j: nat)
    returns (listed: nat, cleaned: nat, k: nat)
    requires IsRun(states, events) && i < j < |states|
    requires HasOurs(states[i].world) && !HasOurs(states[j].world)
    ensures i <= k < j && TakesOff(states, events, k) && Finalized(states, events, listed, cleaned, k)
    ensures states[listed].phase == Listing(states[k].phase.seen)
    ensures states[k].world.cluster == Some(states[k].phase.seen) && states[k].phase.seen.deleting
    ensures FinalizersOf(states[k + 1].world) == FinalizersOf(states[k].world) - {FINALIZER}
  {
    hide Next, Enabled;
    if HasOurs(states[j - 1].world) {
      k := j - 1;
      RunKeepsInv(states, events, k);
      FinalizerHoldsObject(states[k], events[k]);
      OthersAreKept(states[k], events[k]);
      assert states[j] == Next(states[k], events[k]);
      listed, cleaned := RemovalIsLast(states, events, k);
    } else {
      listed, cleaned, k := GoneAfterAPass(states, events, i, j - 1);
    }
  }

  /** What was read is no longer the present object. */
  lemma {:induction false} StaysStale(states: seq<State>, events: seq<Event>, i: nat, k: nat, seen: Object)
    requires IsRun(states, events) && i <= k < |states|
    requires seen in states[i].past && !Applies(states[i].world, seen)
    ensures seen in states[k].past && !Applies(states[k].world, seen)
  {
    if i < k {
      StaysStale(states, events, i, k - 1, seen);
      RunKeepsInv(states, events, k - 1);
      StaleStep(states[k - 1], events[k - 1], seen);
    }
  }

  lemma StaleStep(s: State, e: Event, seen: Object)
    requires Inv(s) && Enabled(s, e) && seen in s.past && !Applies(s.world, seen)
    ensures seen in Next(s, e).past && !Applies(Next(s, e).world, seen)
  {
    hide Remaining, Sorted, Without;
  }

  lemma StaleDoesNotTakeOff(states: seq<State>, events: seq<Event>, n: nat, k: nat)
    requires IsRun(states, events) && RemovesAfterList(states, events, n, k)
    ensures Applies(states[n].world, states[n].phase.seen)
  {
    hide Next, Enabled;
    var cleaned :| Finalized(states, events, n, cleaned, k);
    RunKeepsInv(states, events, n);
    RunKeepsInv(states, events, k);
    FinalizerHoldsObject(states[k], events[k]);
    SeenIsKept(states, events, n, k);
    if !Applies(states[n].world, states[n].phase.seen) {
      StaysStale(states, events, n, k, states[n].phase.seen);
    }
  }

  lemma {:induction false} SeenIsKept(states: seq<State>, events: seq<Event>, n: nat, k: nat)
    requires IsRun(states, events) && n <= k < |states|
    requires states[n].phase.Listing?
    requires forall j :: n < j <= k ==> states[j].phase.Cleaning? || states[j].phase.Removing?
    ensures !states[k].phase.Idle? && states[k].phase.seen == states[n].phase.seen
  {
    if n < k {
      SeenIsKept(states, events, n, k - 1);
      assert states[k] == Next(states[k - 1], events[k - 1]);
    }
  }

  /**
   * After a list without Pods, instances and artifacts are gone when this pass takes the
   * finalizer off, in every continuation, exactly if at the list no StatefulSet wanted a Pod and
   * no Pod was there, or the cluster that was read is no longer the present one, so that the
   * pass takes nothing off. A list that is up to date leaves the first half: a Pod that its
   * StatefulSet replaces is missing for a moment, and nothing has scaled that one to zero.
   */
  lemma GoneExactlyAfterQuietList(states: seq<State>, events: seq<Event>)
    requires IsRun(states, events) && states[|events|].phase.Listing? && {} in states[|events|].lists
    ensures (forall ss: seq<State>, ee: seq<Event>, k: nat ::
               IsRun(ss, ee) && states <= ss && events + [Lists([], {})] <= ee
                   && RemovesAfterList(ss, ee, |events|, k) ==>
                 Gone(ss[k].world))
            <==> Quiet(states[|events|].world) || !Applies(states[|events|].world, states[|events|].phase.seen)
  {
    hide Next, Enabled, Quiet, Gone;
    var n, e := |events|, Lists([], {});
    if Quiet(states[n].world) || !Applies(states[n].world, states[n].phase.seen) {
      forall ss: seq<State>, ee: seq<Event>, k: nat
        | IsRun(ss, ee) && states <= ss && events + [e] <= ee && RemovesAfterList(ss, ee, n, k)
        ensures Gone(ss[k].world)
      {
        var cleaned :| Finalized(ss, ee, n, cleaned, k);
        assert ss[n] == states[n];
        StaleDoesNotTakeOff(ss, ee, n, k);
        GoneAfterQuietList(ss, ee, n, cleaned, k);
      }
    } else {
      var ss, ee, k := LeavesAnInstance(states, events);
      assert IsRun(ss, ee) && RemovesAfterList(ss, ee, n, k) && !Gone(ss[k].world);
    }
  }

  lemma RunGrows(states: seq<State>, events: seq<Event>, e: Event) returns (ss: seq<State>, ee: seq<Event>)
    requires IsRun(states, events) && Enabled(states[|events|], e)
    ensures ss == states + [Next(states[|events|], e)] && ee == events + [e] && IsRun(ss, ee)
  {
    hide Next, Enabled;
    ss, ee := states + [Next(states[|events|], e)], events + [e];
  }

  /** From a list that is not quiet the controller can get to the end while an instance runs. */
  lemma LeavesAnInstance(states: seq<State>, events: seq<Event>) returns (ss: seq<State>, ee: seq<Event>, k: nat)
    requires IsRun(states, events) && states[|events|].phase.Listing? && {} in states[|events|].lists
    requires !Quiet(states[|events|].world) && Applies(states[|events|].world, states[|events|].phase.seen)
    ensures IsRun(ss, ee) && states <= ss && events + [Lists([], {})] <= ee
    ensures RemovesAfterList(ss, ee, |events|, k) && !Gone(ss[k].world)
    ensures forall j :: |events| < j < |ee| ==> !ee[j].Lists?
  {
    var n, s := |events|, states[|events|];
    var i: nat :| i < |s.world.instances| && (s.world.instances[i].wanted || s.world.instances[i].running);
    assert InstancesOf([]) == {};
    ss, ee := RunGrows(states, events, Lists([], {}));
    if !s.world.instances[i].running {
      ss, ee := RunGrows(ss, ee, PodStarts(i));
    }
    ss, ee, k := CleansAndPatches(ss, ee, n, i);
  }

  lemma CleansAndPatches(states: seq<State>, events: seq<Event>, n: nat, i: nat)
    returns (ss: seq<State>, ee: seq<Event>, k: nat)
    requires IsRun(states, events) && n < |events|
    requires states[n].phase.Listing? && events[n] == Lists([], {})
    requires forall j :: n < j <= |events| ==> states[j].phase.Cleaning?
    requires Applies(states[|events|].world, states[|events|].phase.seen)
    requires i < |states[|events|].world.instances| && states[|events|].world.instances[i].running
    ensures IsRun(ss, ee) && states <= ss && events <= ee
    ensures RemovesAfterList(ss, ee, n, k) && !Gone(ss[k].world)
    ensures forall j :: |events| <= j < |ee| ==> !ee[j].Lists?
  {
    var cleaned := |events|;
    ss, ee := RunGrows(states, events, Cleans);
    k := |ee|;
    assert i in Running(ss[k].world);
    RunKeepsInv(ss, ee, k);
    RemainingElements(ss[k].phase.seen.finalizers);
    ss, ee := RunGrows(ss, ee, Patches);
    assert FINALIZER !in Elements(Remaining(ss[k].phase.seen.finalizers));
    assert Finalized(ss, ee, n, cleaned, k);
  }

  /** The Pod of the only instance is deleted and not yet replaced when the controller lists Pods. */
  lemma MissingPod() returns (states: seq<State>, events: seq<Event>)
    ensures IsRun(states, events) && states[|events|].phase.Listing?
    ensures Running(states[|events|].world) == {} && {} in states[|events|].lists && !Quiet(states[|events|].world)
    ensures Applies(states[|events|].world, states[|events|].phase.seen)
    ensures forall j :: 0 <= j < |events| ==> !events[j].Lists?
  {
    var held, deleted := Object([FINALIZER], false, 0), Object([FINALIZER], true, 1);
    var running, stopped := Instance(true, true), Instance(true, false);
    var s0 := State(World(Some(held), 0, [running], 0), Idle, {held}, {{0}});
    assert Running(s0.world) == {0};
    var s1 := Next(s0, UserDeletes);
    assert s1.world == World(Some(deleted), 1, [running], 0);
    var s2 := Next(s1, PodStops(0));
    assert s2.world == World(Some(deleted), 1, [stopped], 0) && Running(s2.world) == {};
    var s3 := Next(s2, Reads(deleted));
    assert s3.phase == Listing(deleted) && s3.world.instances[0].wanted;
    states, events := [s0, s1, s2, s3], [UserDeletes, PodStops(0), Reads(deleted)];
  }

  /** Every list shows the Pods that there are, and still the finalizer goes while an instance runs. */
  lemma ReplacedPodOutlivesFinalizer() returns (states: seq<State>, events: seq<Event>, k: nat)
    ensures IsRun(states, events) && TakesOff(states, events, k) && !Gone(states[k].world)
    ensures forall j :: 0 <= j < |events| && events[j].Lists? ==>
              InstancesOf(events[j].pods) == Running(states[j].world)
  {
    hide Next, Enabled;
    var before, first := MissingPod();
    states, events, k := LeavesAnInstance(before, first);
    assert events[|first|] == Lists([], {}) && states[|first|] == before[|first|];
    assert InstancesOf([]) == {};
  }

  // ----- handleDelete is its steps -----

  /** The others have acted: the world is another one, and the controller is where it was. */
  function Met(s: State, w: World): State { s.(world := w) }

  /** The steps of handleDelete by an idle controller that reads this object and this list of Pods. */
  function HandleDeleteSteps(s: State, seen: Object, pods: seq<Listed>, o: Others, f: Faults): State
    requires s.phase.Idle? && seen in s.past && InstancesOf(pods) in s.lists
  {
    var read := Next(s, Reads(seen));
    match read.phase
    case Idle => Met(read, o.beforePatch)
    case Adding(_) =>
      var adding := Met(read, o.beforePatch);
      Next(adding, if f.patch then GivesUp else Patches)
    case Listing(_) =>
      var listing := Met(read, o.beforeList);
      if f.listPods then Next(listing, GivesUp) else CleanupSteps(Next(listing, Lists(pods, f.stopPods)), o, f)
  }

  function CleanupSteps(listed: State, o: Others, f: Faults): State
    requires listed.phase.Idle? || listed.phase.Cleaning?
  {
    if listed.phase.Idle? then listed
    else
      var cleaning := Met(listed, o.beforeArtifacts);
      if f.deleteArtifacts then Next(cleaning, GivesUp)
      else
        var removing := Met(Next(cleaning, Cleans), o.beforePatch);
        Next(removing, if f.patch then GivesUp else Patches)
  }

  /** The effect of handleDelete is that of its steps, and so the controller is idle again. */
  lemma HandleDeleteIsItsSteps(s: State, seen: Object, pods: seq<Listed>, o: Others, f: Faults)
    requires s.phase.Idle? && seen in s.past && InstancesOf(pods) in s.lists
    ensures var after := HandleDeleteSteps(s, seen, pods, o, f);
            after.world == HandleDeleteEffect(seen, pods, o, f).0 && after.phase.Idle?
  {
    hide Remaining, Sorted, Without, Applies;
  }
}
