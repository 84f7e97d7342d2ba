/** Keeping the Vault volume of a running instance in its new Pod spec (internal/pgtde/postgres.go). */
module TDEVolume {
  import opened Options

  // A volume or a mount: its name, and everything else about it.
  datatype Named = Named(name: string, content: string)

  datatype Container = Container(name: string, mounts: seq<Named>)

  const VOLUME := "pg-tde"
  const DATABASE := "database"

  function IndexOf(items: seq<Named>, name: string): (i: nat)
    ensures i <= |items|
    ensures i < |items| ==> items[i].name == name
    ensures forall j :: 0 <= j < i ==> items[j].name != name
  {
    if items == [] || items[0].name == name then 0 else 1 + IndexOf(items[1..], name)
  }

  function Find(items: seq<Named>, name: string): Option<Named> {
    var i := IndexOf(items, name);
    if i < |items| then Some(items[i]) else None
  }

  /** The first item of this name gives way to the new one; without any, the new one comes last. */
  function Put(items: seq<Named>, item: Named): seq<Named> {
    var i := IndexOf(items, item.name);
    if i < |items| then items[i := item] else items + [item]
  }

  method FindItem(items: seq<Named>, name: string) returns (found: Option<Named>)
    ensures found == Find(items, name)
  {
    for i := 0 to |items|
      invariant forall j :: 0 <= j < i ==> items[j].name != name
    {
      if items[i].name == name {
        return Some(items[i]);
      }
    }
    return None;
  }

  method PutItem(items: seq<Named>, item: Named) returns (r: seq<Named>)
    ensures r == Put(items, item)
  {
    for i := 0 to |items|
      invariant forall j :: 0 <= j < i ==> items[j].name != item.name
    {
      if items[i].name == item.name {
        return items[i := item];
      }
    }
    return items + [item];
  }

  function ContainerIndex(containers: seq<Container>): (i: nat)
    ensures i <= |containers|
    ensures i < |containers| ==> containers[i].name == DATABASE
    ensures forall j :: 0 <= j < i ==> containers[j].name != DATABASE
  {
    if containers == [] || containers[0].name == DATABASE then 0 else 1 + ContainerIndex(containers[1..])
  }

  function DatabaseMount(containers: seq<Container>): Option<Named> {
    var i := ContainerIndex(containers);
    if i < |containers| then Find(containers[i].mounts, VOLUME) else None
  }

  method FindContainer(containers: seq<Container>) returns (i: nat)
    ensures i == ContainerIndex(containers)
  {
    i := 0;
    while i < |containers| && containers[i].name != DATABASE
      invariant i <= |containers|
      invariant forall j :: 0 <= j < i ==> containers[j].name != DATABASE
    {
      i := i + 1;
    }
  }

  class PodSpec {
    var volumes: seq<Named>
    var containers: seq<Container>

    constructor (volumes: seq<Named>, containers: seq<Container>)
      ensures this.volumes == volumes && this.containers == containers
    {
      this.volumes, this.containers := volumes, containers;
    }
  }

  function KeptVolumes(volumes: seq<Named>, kept: Option<Named>): seq<Named> {
    if kept.None? then volumes else Put(volumes, kept.value)
  }

  function KeptContainers(containers: seq<Container>, mount: Option<Named>): seq<Container> {
    var i := ContainerIndex(containers);
    if mount.None? || i == |containers| then containers
    else containers[i := containers[i].(mounts := Put(containers[i].mounts, mount.value))]
  }

  method PreserveOldTDEVolume(pod: PodSpec, volumes: seq<Named>, containers: seq<Container>)
    modifies pod
    ensures pod.volumes == KeptVolumes(old(pod.volumes), Find(volumes, VOLUME))
    ensures pod.containers
            == if Find(volumes, VOLUME).None? then old(pod.containers)
               else KeptContainers(old(pod.containers), DatabaseMount(containers))
  {
    var oldVolume := FindItem(volumes, VOLUME);
    if oldVolume.None? {
      return;
    }
    pod.volumes := PutItem(pod.volumes, oldVolume.value);
    var c := FindContainer(containers);
    if c == |containers| {
      return;
    }
    var oldMount := FindItem(containers[c].mounts, VOLUME);
    if oldMount.None? {
      return;
    }
    var i := FindContainer(pod.containers);
    if i < |pod.containers| {
      var mounts := PutItem(pod.containers[i].mounts, oldMount.value);
      pod.containers := pod.containers[i := pod.containers[i].(mounts := mounts)];
    }
  }

  function Others(items: seq<Named>, name: string): seq<Named> {
    if items == [] then [] else (if items[0].name == name then [] else [items[0]]) + Others(items[1..], name)
  }

  lemma PutIsFound(items: seq<Named>, item: Named)
    ensures Find(Put(items, item), item.name) == Some(item)
    ensures Put(Put(items, item), item) == Put(items, item)
    ensures |Put(items, item)| == |items| + (if Find(items, item.name).None? then 1 else 0)
  {
    var i, after := IndexOf(items, item.name), Put(items, item);
    assert after[i] == item;
    assert IndexOf(after, item.name) == i;
    assert after[i := item] == after;
  }

  lemma PutStep(items: seq<Named>, item: Named)
    requires items != []
    ensures Put(items, item)
            == if items[0].name == item.name then [item] + items[1..] else [items[0]] + Put(items[1..], item)
  {
    var i := IndexOf(items, item.name);
    if items[0].name != item.name && i < |items| {
      assert items[i := item] == [items[0]] + items[1..][i - 1 := item];
    }
  }

  lemma OthersStep(first: Named, rest: seq<Named>, name: string)
    ensures Others([first] + rest, name) == (if first.name == name then [] else [first]) + Others(rest, name)
  {
    assert ([first] + rest)[1..] == rest;
  }

  /** Putting an item makes it the one that is found, changes no item of another name, and settles at once. */
  lemma {:induction false} PutKeepsOthers(items: seq<Named>, item: Named)
    ensures Find(Put(items, item), item.name) == Some(item)
    ensures Others(Put(items, item), item.name) == Others(items, item.name)
    ensures Put(Put(items, item), item) == Put(items, item)
    decreases |items|
  {
    hide Put, Find, Others;
    PutIsFound(items, item);
    if items == [] {
      PutInEmpty(item);
    } else {
      PutStep(items, item);
      assert items == [items[0]] + items[1..];
      OthersStep(items[0], items[1..], item.name);
      OthersStep(item, items[1..], item.name);
      if items[0].name != item.name {
        PutKeepsOthers(items[1..], item);
        OthersStep(items[0], Put(items[1..], item), item.name);
      }
    }
  }

  lemma PutInEmpty(item: Named)
    ensures Others(Put([], item), item.name) == Others([], item.name)
  {
    assert Put([], item) == [item] && Others([item], item.name) == [] + Others([], item.name);
  }

  /**
   * When the instance runs with the volume, the new Pod spec carries that very volume, and the
   * database container its mount if it had one. A second call changes nothing.
   */
  lemma PreservingIsIdempotent(volumes: seq<Named>, containers: seq<Container>, kept: Named, mount: Option<Named>)
    requires kept.name == VOLUME && (mount.Some? ==> mount.value.name == VOLUME)
    ensures var v, c := KeptVolumes(volumes, Some(kept)), KeptContainers(containers, mount);
            && Find(v, VOLUME) == Some(kept)
            && (mount.Some? && ContainerIndex(containers) < |containers| ==> DatabaseMount(c) == mount)
            && KeptVolumes(v, Some(kept)) == v && KeptContainers(c, mount) == c
            && |c| == |containers|
            && forall i :: 0 <= i < |c| && i != ContainerIndex(containers) ==> c[i] == containers[i]
  {
    PutKeepsOthers(volumes, kept);
    var i := ContainerIndex(containers);
    if mount.Some? && i < |containers| {
      PutKeepsOthers(containers[i].mounts, mount.value);
      var c := KeptContainers(containers, mount);
      SameIndex(containers, c);
      assert c[i := c[i]] == c;
    }
  }

  lemma {:induction false} SameIndex(a: seq<Container>, b: seq<Container>)
    requires |a| == |b| && forall i :: 0 <= i < |a| ==> a[i].name == b[i].name
    ensures ContainerIndex(a) == ContainerIndex(b)
  {
    if a != [] && a[0].name != DATABASE {
      SameIndex(a[1..], b[1..]);
    }
  }
}
