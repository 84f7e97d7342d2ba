/** JSON values and the MergePatch algorithm of RFC 7386, section 2. */
module Json {
  import opened Options

  // A scalar is anything but null and objects: strings, numbers, booleans, and arrays, which a merge replaces whole.
  datatype Json = Null | Scalar(text: string) | Object(members: map<string, Json>)

  function MembersOf(target: Option<Json>): map<string, Json> {
    if target.Some? && target.value.Object? then target.value.members else map[]
  }

  function Member(members: map<string, Json>, key: string): Option<Json> {
    if key in members then Some(members[key]) else None
  }

  /** MergePatch(Target, Patch); a target that is not there is None. */
  function Merge(target: Option<Json>, patch: Json): Json
    decreases patch
  {
    if !patch.Object? then patch
    else
      var before := MembersOf(target);
      Object(map k | k in before.Keys + patch.members.Keys && !(k in patch.members && patch.members[k].Null?) ::
        if k in patch.members then Merge(Member(before, k), patch.members[k]) else before[k])
  }

  /** The value at a path of member names. */
  function Lookup(json: Option<Json>, path: seq<string>): Option<Json>
    decreases |path|
  {
    if path == [] then json else Lookup(Member(MembersOf(json), path[0]), path[1..])
  }

  lemma {:induction false} LookupNothing(path: seq<string>)
    ensures Lookup(None, path) == None
  {
    if path != [] {
      LookupNothing(path[1..]);
    }
  }

  /** One member of a merge: removed by null, merged when the patch names it, kept otherwise. */
  lemma MergeMember(target: Option<Json>, patch: Json, key: string)
    requires patch.Object?
    ensures Member(MembersOf(Some(Merge(target, patch))), key)
            == if key !in patch.members then Member(MembersOf(target), key)
               else if patch.members[key].Null? then None
               else Some(Merge(Member(MembersOf(target), key), patch.members[key]))
  {
  }

  /** Merging the same patch again changes nothing. */
  lemma {:induction false} MergeTwice(target: Option<Json>, patch: Json)
    ensures Merge(Some(Merge(target, patch)), patch) == Merge(target, patch)
    decreases patch
  {
    hide Merge;
    MergeKind(target, patch);
    MergeKind(Some(Merge(target, patch)), patch);
    if patch.Object? {
      var once := Merge(target, patch);
      var twice := Merge(Some(once), patch);
      forall key ensures Member(twice.members, key) == Member(once.members, key) {
        MergeMember(target, patch, key);
        MergeMember(Some(once), patch, key);
        if key in patch.members {
          MergeTwice(Member(MembersOf(target), key), patch.members[key]);
        }
      }
      SameMembers(once.members, twice.members);
    }
  }

  lemma MergeKind(target: Option<Json>, patch: Json)
    ensures if patch.Object? then Merge(target, patch).Object? else Merge(target, patch) == patch
  {
  }

  lemma SameMembers(a: map<string, Json>, b: map<string, Json>)
    requires forall key :: Member(a, key) == Member(b, key)
    ensures a == b
  {
    forall key ensures key in a <==> key in b {
      assert Member(a, key) == Member(b, key);
    }
    forall key | key in a ensures a[key] == b[key] {
      assert Member(a, key) == Member(b, key);
    }
  }

  ghost function Longest(keys: set<string>): nat
    ensures forall k :: k in keys ==> |k| <= Longest(keys)
  {
    if keys == {} then 0
    else
      var k :| k in keys;
      assert keys == (keys - {k}) + {k};
      var rest := Longest(keys - {k});
      if |k| > rest then |k| else rest
  }

  /** Whatever the target was, merging a value leaves exactly that value if and only if it is not an object. */
  lemma ReplacesExactly(patch: Json)
    ensures (forall target :: Merge(target, patch) == patch) <==> !patch.Object?
  {
    if patch.Object? {
      var key := seq(Longest(patch.members.Keys) + 1, _ => 'x');
      assert key !in patch.members;
      var target := Some(Object(map[key := Null]));
      MergeMember(target, patch, key);
      assert Merge(target, patch) != patch;
    }
  }
}
