/**
 * Building a JSON Merge Patch through nested mutable maps (internal/kubeapi/patch.go).
 *
 * A patch is an arena of maps: a node is the address of a map, and node 0 is the patch itself.
 * Overwriting a member can detach a map from the patch while a closure still holds its address.
 */
module MergePatch {
  import opened Options
  import opened Json

  // The value of a member: a nested map, a JSON value, or the closure that waits for a value.
  datatype Entry = Child(node: nat) | Value(json: Json) | Pending

  // The closure returned by Add remembers a map and a key, or nothing when the path was empty.
  datatype Slot = NoSlot | Slot(node: nat, key: string)

  type Nodes = seq<map<string, Entry>>

  // ----- What a patch means -----

  datatype Tree = Leaf(json: Json) | Open | Branch(members: map<string, Tree>)

  function Below(members: map<string, Tree>, key: string): map<string, Tree> {
    if key in members && members[key].Branch? then members[key].members else map[]
  }

  /** The last write wins: puts t at path, replacing what is in its way. */
  function Put(members: map<string, Tree>, path: seq<string>, t: Tree): map<string, Tree>
    decreases |path|
  {
    if path == [] then members
    else if |path| == 1 then members[path[0] := t]
    else members[path[0] := Branch(Put(Below(members, path[0]), path[1..], t))]
  }

  predicate Acyclic(nodes: Nodes) {
    forall n: nat, k :: n < |nodes| && k in nodes[n] && nodes[n][k].Child? ==> n < nodes[n][k].node < |nodes|
  }

  function MembersAt(nodes: Nodes, n: nat): map<string, Tree>
    requires Acyclic(nodes) && n < |nodes|
    decreases |nodes| - n
  {
    map k | k in nodes[n] ::
      match nodes[n][k]
      case Value(json) => Leaf(json)
      case Pending => Open
      case Child(c) => Branch(MembersAt(nodes, c))
  }

  function TreeOf(nodes: Nodes, e: Entry): Tree
    requires Acyclic(nodes) && (e.Child? ==> e.node < |nodes|)
  {
    match e
    case Value(json) => Leaf(json)
    case Pending => Open
    case Child(c) => Branch(MembersAt(nodes, c))
  }

  /** The map reached from node n by a path of nested maps. */
  function Walk(nodes: Nodes, n: nat, path: seq<string>): (r: Option<nat>)
    requires Acyclic(nodes) && n < |nodes|
    ensures r.Some? ==> r.value < |nodes|
    decreases |path|
  {
    if path == [] then Some(n)
    else if path[0] in nodes[n] && nodes[n][path[0]].Child? then Walk(nodes, nodes[n][path[0]].node, path[1..])
    else None
  }

  // ----- One assignment to a member of a map -----

  /** births[n] is the path at which map n was created. A map is only ever a member at that path. */
  ghost predicate Arena(nodes: Nodes, births: seq<seq<string>>) {
    && Acyclic(nodes)
    && |births| == |nodes| > 0
    && births[0] == []
    && forall n: nat, k :: n < |nodes| && k in nodes[n] && nodes[n][k].Child? ==>
        births[nodes[n][k].node] == births[n] + [k]
  }

  function Assign(nodes: Nodes, at: nat, key: string, e: Entry): Nodes
    requires at < |nodes|
  {
    nodes[at := nodes[at][key := e]]
  }

  lemma {:induction false} WalkFollowsBirths(nodes: Nodes, births: seq<seq<string>>, n: nat, path: seq<string>)
    requires Arena(nodes, births) && n < |nodes| && Walk(nodes, n, path).Some?
    ensures births[Walk(nodes, n, path).value] == births[n] + path
    decreases |path|
  {
    if path == [] {
      assert births[n] + path == births[n];
    } else {
      var c := nodes[n][path[0]].node;
      WalkFollowsBirths(nodes, births, c, path[1..]);
      assert births[n] + path == (births[n] + [path[0]]) + path[1..];
    }
  }

  /** Whether map n leads to map `at` along the path at which that was created. */
  ghost predicate Leads(nodes: Nodes, births: seq<seq<string>>, n: nat, at: nat)
    requires Arena(nodes, births) && n < |nodes| && at < |nodes|
  {
    births[n] <= births[at] && Walk(nodes, n, births[at][|births[n]|..]) == Some(at)
  }

  lemma {:induction false} LeadsBelow(nodes: Nodes, births: seq<seq<string>>, n: nat, k: string, at: nat)
    requires Arena(nodes, births) && n < |nodes| && at < |nodes|
    requires k in nodes[n] && nodes[n][k].Child?
    requires Leads(nodes, births, nodes[n][k].node, at)
    ensures Leads(nodes, births, n, at) && n != at
    ensures births[at][|births[n]|..] == [k] + births[at][|births[n]| + 1..]
  {
    var c := nodes[n][k].node;
    assert births[at][..|births[c]|] == births[n] + [k];
    var rest := births[at][|births[n]|..];
    assert rest[0] == k && rest[1..] == births[at][|births[c]|..];
  }

  /** A map that does not lead to the assigned one keeps its meaning. */
  lemma {:induction false} AssignElsewhere(nodes: Nodes, births: seq<seq<string>>, n: nat, at: nat, key: string,
      e: Entry)
    requires Arena(nodes, births) && n < |nodes| && at < |nodes|
    requires Arena(Assign(nodes, at, key, e), births)
    requires !Leads(nodes, births, n, at)
    ensures MembersAt(Assign(nodes, at, key, e), n) == MembersAt(nodes, n)
    decreases |nodes| - n
  {
    var after := Assign(nodes, at, key, e);
    forall k | k in nodes[n] && nodes[n][k].Child?
      ensures MembersAt(after, nodes[n][k].node) == MembersAt(nodes, nodes[n][k].node)
    {
      if Leads(nodes, births, nodes[n][k].node, at) {
        LeadsBelow(nodes, births, n, k, at);
      }
      AssignElsewhere(nodes, births, nodes[n][k].node, at, key, e);
    }
  }

  /** Assigning a member of a map that n leads to is a Put at its path below n. */
  lemma {:induction false} AssignPuts(nodes: Nodes, births: seq<seq<string>>, n: nat, at: nat, key: string, e: Entry)
    requires Arena(nodes, births) && n < |nodes| && at < |nodes|
    requires Arena(Assign(nodes, at, key, e), births)
    requires Leads(nodes, births, n, at) && (e.Child? ==> e.node < |nodes|)
    ensures MembersAt(Assign(nodes, at, key, e), n)
            == Put(MembersAt(nodes, n), births[at][|births[n]|..] + [key], TreeOf(Assign(nodes, at, key, e), e))
    decreases |nodes| - n
  {
    var after := Assign(nodes, at, key, e);
    var rest := births[at][|births[n]|..];
    var first := if rest == [] then key else rest[0];
    forall k | k in nodes[n] && nodes[n][k].Child? && k != first
      ensures MembersAt(after, nodes[n][k].node) == MembersAt(nodes, nodes[n][k].node)
    {
      if Leads(nodes, births, nodes[n][k].node, at) {
        LeadsBelow(nodes, births, n, k, at);
      }
      AssignElsewhere(nodes, births, nodes[n][k].node, at, key, e);
    }
    if rest == [] {
      assert n == at;
      assert rest + [key] == [key];
    } else {
      var c := nodes[n][first].node;
      assert births[c] == births[n] + [first];
      assert births[at] == births[n] + rest == births[n] + ([first] + rest[1..]) == births[c] + rest[1..];
      assert births[at][|births[c]|..] == rest[1..];
      AssignPuts(nodes, births, c, at, key, e);
      assert (rest + [key])[1..] == rest[1..] + [key];
    }
  }

  /**
   * After an assignment, a path that goes through the assigned member goes where that leads now. Others go
   * where they went.
   */
  lemma {:induction false} AssignWalks(nodes: Nodes, births: seq<seq<string>>, n: nat, at: nat, key: string, e: Entry,
                                       path: seq<string>)
    requires Arena(nodes, births) && n < |nodes| && at < |nodes|
    requires Arena(Assign(nodes, at, key, e), births)
    ensures var after := Assign(nodes, at, key, e);
            Walk(after, n, path)
            == if Leads(nodes, births, n, at) && births[at][|births[n]|..] + [key] <= path
               then (if e.Child? then Walk(after, after[at][key].node, path[|births[at]| - |births[n]| + 1..])
                   else None)
               else Walk(nodes, n, path)
    decreases |path|
  {
    var after := Assign(nodes, at, key, e);
    if path != [] {
      var k := path[0];
      if n == at {
        assert births[at][|births[n]|..] == [];
        assert Leads(nodes, births, n, at);
        assert [key] <= path <==> k == key;
        if k != key && k in nodes[n] && nodes[n][k].Child? {
          var c := nodes[n][k].node;
          AssignWalks(nodes, births, c, at, key, e, path[1..]);
          assert |births[c]| == |births[n] + [k]| > |births[at]|;
        }
      } else if k in nodes[n] && nodes[n][k].Child? {
        var c := nodes[n][k].node;
        AssignWalks(nodes, births, c, at, key, e, path[1..]);
        if Leads(nodes, births, c, at) {
          LeadsBelow(nodes, births, n, k, at);
          assert births[at][|births[n]|..] == [k] + births[at][|births[c]|..];
          assert [k] + (births[at][|births[c]|..] + [key]) == births[at][|births[n]|..] + [key];
          assert path == [k] + path[1..];
          assert births[at][|births[n]|..] + [key] <= path <==> births[at][|births[c]|..] + [key] <= path[1..];
        }
      }
    }
  }

  // ----- The patch object -----

  /** The members of the branch at a path; none when there is no branch. */
  function BelowAll(members: map<string, Tree>, path: seq<string>): map<string, Tree>
    decreases |path|
  {
    if path == [] then members else BelowAll(Below(members, path[0]), path[1..])
  }

  lemma {:induction false} WalkFindsBranch(nodes: Nodes, n: nat, path: seq<string>)
    requires Acyclic(nodes) && n < |nodes| && Walk(nodes, n, path).Some?
    ensures BelowAll(MembersAt(nodes, n), path) == MembersAt(nodes, Walk(nodes, n, path).value)
    decreases |path|
  {
    if path != [] {
      WalkFindsBranch(nodes, nodes[n][path[0]].node, path[1..]);
    }
  }

  lemma {:induction false} BelowAllThrough(members: map<string, Tree>, path: seq<string>, key: string)
    ensures BelowAll(members, path + [key]) == Below(BelowAll(members, path), key)
    decreases |path|
  {
    if path == [] {
      assert BelowAll(members, [key]) == BelowAll(Below(members, key), [key][1..]);
    } else {
      assert (path + [key])[1..] == path[1..] + [key];
      BelowAllThrough(Below(members, path[0]), path[1..], key);
    }
  }

  lemma {:induction false} WalkThrough(nodes: Nodes, n: nat, path: seq<string>, key: string)
    requires Acyclic(nodes) && n < |nodes|
    ensures Walk(nodes, n, path + [key])
            == if Walk(nodes, n, path).None? then None else Walk(nodes, Walk(nodes, n, path).value, [key])
    decreases |path|
  {
    if path == [] {
      assert path + [key] == [key];
    } else {
      assert (path + [key])[1..] == path[1..] + [key];
      if path[0] in nodes[n] && nodes[n][path[0]].Child? {
        WalkThrough(nodes, nodes[n][path[0]].node, path[1..], key);
      }
    }
  }

  /** Making an empty branch on the way changes nothing about a Put further down. */
  lemma {:induction false} PutThroughEmptyBranch(members: map<string, Tree>, path: seq<string>, n: nat, t: Tree)
    requires 0 < n < |path| && BelowAll(members, path[..n]) == map[]
    ensures Put(Put(members, path[..n], Branch(map[])), path, t) == Put(members, path, t)
    decreases n
  {
    var below := Below(members, path[0]);
    if n == 1 {
      assert path[..1][1..] == [];
      assert Below(members[path[0] := Branch(map[])], path[0]) == map[] == below;
    } else {
      assert path[..n][1..] == path[1..][..n - 1];
      PutThroughEmptyBranch(below, path[1..], n - 1, t);
    }
  }

  /** Only the last of two writes to a path counts. */
  lemma {:induction false} PutTwice(members: map<string, Tree>, path: seq<string>, t: Tree, u: Tree)
    ensures Put(Put(members, path, t), path, u) == Put(members, path, u)
    decreases |path|
  {
    if |path| > 1 {
      PutTwice(Below(members, path[0]), path[1..], t, u);
    }
  }

  /** A map added to the arena is not part of anything yet. */
  lemma {:induction false} GrowKeeps(nodes: Nodes, n: nat)
    requires Acyclic(nodes) && n < |nodes|
    ensures Acyclic(nodes + [map[]]) && MembersAt(nodes + [map[]], n) == MembersAt(nodes, n)
    decreases |nodes| - n
  {
    forall k | k in nodes[n] && nodes[n][k].Child?
      ensures MembersAt(nodes + [map[]], nodes[n][k].node) == MembersAt(nodes, nodes[n][k].node)
    {
      GrowKeeps(nodes, nodes[n][k].node);
    }
  }

  lemma {:induction false} GrowKeepsWalks(nodes: Nodes, n: nat, path: seq<string>)
    requires Acyclic(nodes) && n < |nodes|
    ensures Acyclic(nodes + [map[]]) && Walk(nodes + [map[]], n, path) == Walk(nodes, n, path)
    decreases |path|
  {
    if path != [] && path[0] in nodes[n] && nodes[n][path[0]].Child? {
      GrowKeepsWalks(nodes, nodes[n][path[0]].node, path[1..]);
    }
  }

  ghost predicate KeepsWalks(before: Nodes, after: Nodes)
    requires Acyclic(before) && Acyclic(after) && |before| > 0 && |after| > 0
  {
    forall path :: Walk(before, 0, path).Some? ==> Walk(after, 0, path) == Walk(before, 0, path)
  }

  /** Where the walk ends without a nested map there is no branch either. */
  lemma NothingNested(nodes: Nodes, at: nat, path: seq<string>, key: string)
    requires Acyclic(nodes) && |nodes| > 0 && at < |nodes| && Walk(nodes, 0, path) == Some(at)
    requires key in nodes[at] ==> !nodes[at][key].Child?
    ensures BelowAll(MembersAt(nodes, 0), path + [key]) == map[]
  {
    WalkFindsBranch(nodes, 0, path);
    BelowAllThrough(MembersAt(nodes, 0), path, key);
  }

  class Merge7386 {
    var nodes: Nodes
    ghost var births: seq<seq<string>>

    ghost predicate Valid()
      reads this
    {
      Arena(nodes, births)
    }

    /** The patch as a tree. */
    ghost function Contents(): map<string, Tree>
      requires Valid()
      reads this
    {
      MembersAt(nodes, 0)
    }

    /** The closure writes into the patch, at this path. */
    ghost predicate WritesAt(slot: Slot, path: seq<string>)
      requires Valid()
      reads this
    {
      && slot.Slot? && |path| > 0
      && slot.key == path[|path| - 1]
      && Walk(nodes, 0, path[..|path| - 1]) == Some(slot.node)
    }

    constructor ()
      ensures Valid() && Contents() == map[]
    {
      nodes, births := [map[]], [[]];
    }

    /** position[key] = e */
    method SetMember(at: nat, key: string, e: Entry)
      requires Valid() && at < |nodes|
      requires e.Child? ==> at < e.node < |nodes| && births[e.node] == births[at] + [key]
      modifies `nodes
      ensures Valid() && nodes == Assign(old(nodes), at, key, e)
      ensures Contents() == if old(Leads(nodes, births, 0, at))
                            then Put(old(Contents()), births[at] + [key], TreeOf(nodes, e))
                            else old(Contents())
    {
      nodes := Assign(nodes, at, key, e);
      assert Arena(nodes, births);
      if old(Leads(nodes, births, 0, at)) {
        AssignPuts(old(nodes), births, 0, at, key, e);
        assert births[at][|births[0]|..] == births[at];
      } else {
        AssignElsewhere(old(nodes), births, 0, at, key, e);
      }
    }

    /** A new nested map under position[key], where there is none. */
    method Nest(at: nat, key: string) returns (node: nat)
      requires Valid() && at < |nodes|
      requires key in nodes[at] ==> !nodes[at][key].Child?
      requires Walk(nodes, 0, births[at]) == Some(at)
      modifies this
      ensures Valid() && at < |births| && node == |old(nodes)| == |nodes| - 1
      ensures births == old(births) + [births[at] + [key]]
      ensures key in nodes[at] && nodes[at][key] == Child(node)
      ensures Contents() == Put(old(Contents()), births[at] + [key], Branch(map[]))
      ensures old(Valid()) && KeepsWalks(old(nodes), nodes)
    {
      GrowKeeps(nodes, 0);
      node := |nodes|;
      ghost var births0, nodes1 := births, nodes + [map[]];
      births := births + [births[at] + [key]];
      nodes := nodes + [map[]];
      assert Arena(nodes, births);
      GrowKeepsWalks(old(nodes), 0, births[at]);
      assert births[at][|births[0]|..] == births[at];
      SetMember(at, key, Child(node));
      assert MembersAt(nodes, node) == map[];
      forall path | Walk(old(nodes), 0, path).Some? ensures Walk(nodes, 0, path) == Walk(old(nodes), 0, path) {
        GrowKeepsWalks(old(nodes), 0, path);
        AssignWalks(nodes1, births, 0, at, key, Child(node), path);
        if births[at] + [key] <= path {
          Detour(old(nodes), births[at], key, path, at);
        }
      }
    }

    /** Makes nested maps down to the one that holds the last key of path. */
    method Descend(path: seq<string>) returns (position: nat)
      requires Valid() && path != []
      modifies this
      ensures old(Valid()) && Valid() && KeepsWalks(old(nodes), nodes)
      ensures Walk(nodes, 0, path[..|path| - 1]) == Some(position) && births[position] == path[..|path| - 1]
      ensures Put(Contents(), path, Open) == Put(old(Contents()), path, Open)
    {
      hide Put, BelowAll, MembersAt;
      var i := 0;
      position := 0;
      while i + 1 < |path|
        invariant i < |path| && Valid()
        invariant Walk(nodes, 0, path[..i]) == Some(position)
        invariant Put(Contents(), path, Open) == Put(old(Contents()), path, Open)
        invariant KeepsWalks(old(nodes), nodes)
      {
        var key := path[i];
        assert path[..i + 1] == path[..i] + [key];
        WalkFollowsBirths(nodes, births, 0, path[..i]);
        assert births[position] == path[..i];
        WalkThrough(nodes, 0, path[..i], key);
        if key in nodes[position] && nodes[position][key].Child? {
          position := nodes[position][key].node;
        } else {
          NothingNested(nodes, position, path[..i], key);
          PutThroughEmptyBranch(Contents(), path, i + 1, Open);
          var next := Nest(position, key);
          WalkThrough(nodes, 0, path[..i], key);
          position := next;
        }
        i := i + 1;
      }
      WalkFollowsBirths(nodes, births, 0, path[..i]);
      assert births[0] + path[..i] == path[..i];
    }

    /** Appends "add or replace the member at path" and returns the closure that waits for its value. */
    method Add(path: seq<string>) returns (slot: Slot)
      requires Valid()
      modifies this
      ensures Valid()
      ensures path == [] ==> slot == NoSlot && Contents() == old(Contents())
      ensures path != [] ==> WritesAt(slot, path) && Contents() == Put(old(Contents()), path, Open)
      // A closure that is waiting is cut off exactly if its map lies at path or below.
      ensures forall s: Slot, p: seq<string> :: old(WritesAt(s, p)) ==>
                (WritesAt(s, p) <==> path == [] || !(path <= p[..|p| - 1]))
    {
      hide BelowAll, MembersAt, Assign;
      if path == [] {
        return NoSlot;
      }
      var position := Descend(path);
      var key := path[|path| - 1];
      assert path[..|path| - 1] + [key] == path;
      assert births[position][|births[0]|..] == births[position];
      ghost var walked := nodes;
      SetMember(position, key, Pending);
      slot := Slot(position, key);
      forall q: seq<string> ensures Walk(nodes, 0, q) == if path <= q then None else Walk(walked, 0, q) {
        AssignWalks(walked, births, 0, position, key, Pending, q);
      }
    }

    /** Calls the closure with its value. It counts exactly while its map is part of the patch. */
    method Supply(slot: Slot, value: Json)
      requires Valid() && (slot.Slot? ==> slot.node < |nodes|)
      modifies `nodes
      ensures Valid()
      ensures forall path: seq<string> :: old(WritesAt(slot, path)) ==>
              Contents() == Put(old(Contents()), path, Leaf(value))
      ensures (forall path: seq<string> :: !old(WritesAt(slot, path))) ==> Contents() == old(Contents())
      ensures forall at: seq<string>, s: Slot, p: seq<string> :: old(WritesAt(slot, at)) && old(WritesAt(s, p)) ==>
                (WritesAt(s, p) <==> !(at <= p[..|p| - 1]))
    {
      if slot.NoSlot? {
        return;
      }
      ghost var before := nodes;
      SetMember(slot.node, slot.key, Value(value));
      forall path: seq<string> | old(WritesAt(slot, path))
        ensures births[slot.node] + [slot.key] == path && old(Leads(nodes, births, 0, slot.node))
      {
        WalkFollowsBirths(before, births, 0, path[..|path| - 1]);
        assert births[slot.node][|births[0]|..] == births[slot.node];
        assert path == path[..|path| - 1] + [slot.key];
      }
      if old(Leads(nodes, births, 0, slot.node)) {
        var path := births[slot.node] + [slot.key];
        assert path[..|path| - 1] == births[slot.node] == births[slot.node][|births[0]|..];
        assert old(WritesAt(slot, path));
        forall q: seq<string> ensures Walk(nodes, 0, q) == if path <= q then None else Walk(before, 0, q) {
          AssignWalks(before, births, 0, slot.node, slot.key, Value(value), q);
        }
      }
    }

    /** Adds or replaces the member at path right away. */
    method Set(path: seq<string>, value: Json)
      requires Valid()
      modifies this
      ensures Valid() && Contents() == Put(old(Contents()), path, Leaf(value))
    {
      var slot := Add(path);
      if path != [] {
        assert WritesAt(slot, path);
        PutTwice(old(Contents()), path, Open, Leaf(value));
      }
      Supply(slot, value);
    }

    /** Removes the member at path: its value in the patch is null. */
    method Remove(path: seq<string>)
      requires Valid()
      modifies this
      ensures Valid() && Contents() == Put(old(Contents()), path, Leaf(Null))
    {
      Set(path, Null);
    }
  }

  /** There is no way through a member that is not a nested map. */
  lemma {:induction false} Detour(nodes: Nodes, to: seq<string>, key: string, path: seq<string>, at: nat)
    requires Acyclic(nodes) && |nodes| > 0 && at < |nodes|
    requires Walk(nodes, 0, to) == Some(at) && to + [key] <= path
    requires key in nodes[at] ==> !nodes[at][key].Child?
    ensures Walk(nodes, 0, path).None?
  {
    DetourFrom(nodes, 0, to, key, path, at);
  }

  lemma {:induction false} DetourFrom(nodes: Nodes, n: nat, to: seq<string>, key: string, path: seq<string>, at: nat)
    requires Acyclic(nodes) && n < |nodes| && at < |nodes|
    requires Walk(nodes, n, to) == Some(at) && to + [key] <= path
    requires key in nodes[at] ==> !nodes[at][key].Child?
    ensures Walk(nodes, n, path).None?
    decreases |to|
  {
    assert path[|to|] == (to + [key])[|to|] == key;
    if to != [] {
      assert path[0] == to[0];
      assert (to + [key])[1..] == to[1..] + [key];
      DetourFrom(nodes, nodes[n][to[0]].node, to[1..], key, path[1..], at);
    }
  }
}
