/** The snapshot of a reconcile (internal/controller/pgupgrade/world.go). */
module PGUpgradeWorld {
  import opened Options
  import opened PGUpgradeState

  class World {
    var cluster: Option<Cluster>
    var clusterNotFound: bool
    var clusterPrimary: Option<StatefulSet>
    var clusterReplicas: seq<StatefulSet>
    var clusterShutdown: bool
    var replicasExpected: int
    var patroniEndpoints: seq<Endpoints>
    var jobs: map<string, Job>

    constructor ()
      ensures cluster == None && !clusterNotFound && clusterPrimary == None && clusterReplicas == []
      ensures !clusterShutdown && replicasExpected == 0 && patroniEndpoints == [] && jobs == map[]
    {
      cluster, clusterNotFound, clusterPrimary, clusterReplicas := None, false, None, [];
      clusterShutdown, replicasExpected, patroniEndpoints, jobs := false, 0, [], map[];
    }

    /** The snapshot holds exactly the facts of the server it was taken from. */
    ghost predicate Observed(s: Server)
      reads this
    {
      && cluster == s.cluster
      && clusterNotFound == s.cluster.None?
      && patroniEndpoints == PatroniEndpointsOf(s.endpoints)
      && jobs == s.jobs
      && (s.cluster.Some? ==>
            && clusterPrimary == PrimaryOf(s.statefulSets, s.cluster.value.startupInstance)
            && clusterReplicas == ReplicasOf(s.statefulSets, s.cluster.value.startupInstance)
            && clusterShutdown == IsShutdown(s.cluster.value)
            && replicasExpected == |Instances(s.statefulSets)| - 1)
    }

    method PopulateCluster(found: Option<Cluster>)
      modifies this`cluster, this`clusterNotFound
      ensures cluster == found && clusterNotFound == found.None?
    {
      cluster, clusterNotFound := found, found.None?;
    }

    method PopulatePatroniEndpoints(endpoints: seq<Endpoints>)
      requires patroniEndpoints == []
      modifies this`patroniEndpoints
      ensures patroniEndpoints == PatroniEndpointsOf(endpoints)
    {
      for i := 0 to |endpoints|
        invariant patroniEndpoints == PatroniEndpointsOf(endpoints[..i])
      {
        assert endpoints[..i + 1][..i] == endpoints[..i];
        if Label(endpoints[i].labels, LabelPatroni) != Text("") {
          patroniEndpoints := patroniEndpoints + [endpoints[i]];
        }
      }
      assert endpoints[..|endpoints|] == endpoints;
    }

    method PopulateStatefulSets(sets: seq<StatefulSet>)
      requires clusterPrimary == None && clusterReplicas == []
      modifies this`replicasExpected, this`clusterPrimary, this`clusterReplicas
      ensures cluster.None? ==> replicasExpected == -1 && clusterPrimary == None && clusterReplicas == []
      ensures cluster.Some? ==>
                && replicasExpected == |Instances(sets)| - 1
                && clusterPrimary == PrimaryOf(sets, cluster.value.startupInstance)
                && clusterReplicas == ReplicasOf(sets, cluster.value.startupInstance)
    {
      replicasExpected := -1;
      if cluster.Some? {
        var startup := cluster.value.startupInstance;
        for i := 0 to |sets|
          invariant replicasExpected == |Instances(sets[..i])| - 1
          invariant clusterPrimary == PrimaryOf(sets[..i], startup)
          invariant clusterReplicas == ReplicasOf(sets[..i], startup)
        {
          assert sets[..i + 1][..i] == sets[..i];
          if Label(sets[i].labels, LabelInstance) != Text("") {
            replicasExpected := replicasExpected + 1;
            if startup != "" {
              if sets[i].name == startup {
                clusterPrimary := Some(sets[i]);
              } else {
                clusterReplicas := clusterReplicas + [sets[i]];
              }
            }
          }
        }
        assert sets[..|sets|] == sets;
      }
    }

    method PopulateShutdown()
      modifies this`clusterShutdown
      ensures cluster.Some? ==> clusterShutdown == IsShutdown(cluster.value)
      ensures cluster.None? ==> clusterShutdown == old(clusterShutdown)
    {
      if cluster.Some? {
        var c := cluster.value;
        clusterShutdown := if c.specShutdown.Some? then c.specShutdown.value else false;
        clusterShutdown := clusterShutdown && c.observedGeneration == c.generation;
        ghost var asked := clusterShutdown;
        for i := 0 to |c.instanceSetReplicas|
          invariant clusterShutdown <==>
                    asked && forall k :: 0 <= k < i ==> c.instanceSetReplicas[k] == 0
        {
          if c.instanceSetReplicas[i] != 0 {
            clusterShutdown := false;
          }
        }
      }
    }
  }

  /** Reads everything from what the client returns. */
  method ObserveWorld(s: Server) returns (world: World)
    ensures fresh(world) && world.Observed(s)
  {
    world := new World();
    world.PopulateCluster(s.cluster);
    world.PopulatePatroniEndpoints(s.endpoints);
    world.jobs := s.jobs;
    world.PopulateStatefulSets(s.statefulSets);
    world.PopulateShutdown();
  }
}
