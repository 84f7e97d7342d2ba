/** What a built merge patch does when it is applied as RFC 7386 says. */
module MergePatchApplied {
  import opened Options
  import opened Json
  import opened MergePatch

  /** A call of Add with its value, or of Remove, whose value is null. */
  datatype Change = Change(path: seq<string>, value: Json)

  function Written(members: map<string, Tree>, changes: seq<Change>): map<string, Tree>
    decreases |changes|
  {
    if changes == [] then members
    else
      var last := changes[|changes| - 1];
      Put(Written(members, changes[..|changes| - 1]), last.path, Leaf(last.value))
  }

  /** However many calls are made, the patch holds their last writes. */
  method Build(changes: seq<Change>) returns (patch: Merge7386)
    ensures fresh(patch) && patch.Valid() && patch.Contents() == Written(map[], changes)
  {
    patch := new Merge7386();
    assert changes[..0] == [];
    for i := 0 to |changes|
      invariant patch.Valid() && fresh(patch) && patch.Contents() == Written(map[], changes[..i])
    {
      assert changes[..i + 1][..i] == changes[..i];
      if changes[i].value.Null? {
        patch.Remove(changes[i].path);
      } else {
        patch.Set(changes[i].path, changes[i].value);
      }
    }
    assert changes[..|changes|] == changes;
  }

  // ----- The patch as a JSON document -----

  /** Every closure was called with its value. */
  ghost predicate Supplied(t: Tree) {
    t.Leaf? || (t.Branch? && forall k :: k in t.members ==> Supplied(t.members[k]))
  }

  ghost function Document(t: Tree): Json
    requires Supplied(t)
  {
    if t.Leaf? then t.json else Object(map k | k in t.members :: Document(t.members[k]))
  }

  // Where a path leads in a patch: to a value and what is left of the path, to a branch, or nowhere.
  datatype Found = Missing | Hit(json: Json, rest: seq<string>) | Inside(members: map<string, Tree>)

  function Find(members: map<string, Tree>, path: seq<string>): (r: Found)
    ensures r.Hit? ==> |r.rest| < |path| && path[|path| - |r.rest|..] == r.rest
    decreases |path|
  {
    if path == [] then Inside(members)
    else if path[0] !in members then Missing
    else match members[path[0]]
      case Leaf(json) => Hit(json, path[1..])
      case Open => Missing
      case Branch(below) => Find(below, path[1..])
  }

  /** What a merge leaves at a path, when the patch leads there to what was found. */
  ghost function Outcome(target: Option<Json>, path: seq<string>, found: Found): Option<Json>
    requires found.Hit? ==> |found.rest| <= |path|
  {
    match found
    case Missing => Lookup(target, path)
    case Inside(below) =>
      if Supplied(Branch(below)) then Some(Merge(Lookup(target, path), Document(Branch(below)))) else None
    case Hit(json, rest) =>
      if json.Null? then None
      else Lookup(Some(Merge(Lookup(target, path[..|path| - |rest|]), json)), rest)
  }

  lemma LookupStep(json: Option<Json>, path: seq<string>)
    requires path != []
    ensures Lookup(json, path) == Lookup(Member(MembersOf(json), path[0]), path[1..])
  {
  }

  lemma LookupOne(json: Option<Json>, path: seq<string>)
    requires path != []
    ensures Lookup(json, path[..1]) == Member(MembersOf(json), path[0])
  {
    assert path[..1] == [path[0]] && [path[0]][1..] == [];
  }

  /** What is found one step further down is found for the member of the target there. */
  lemma OutcomeStep(target: Option<Json>, path: seq<string>, found: Found)
    requires path != [] && (found.Hit? ==> |found.rest| < |path|)
    ensures Outcome(Member(MembersOf(target), path[0]), path[1..], found) == Outcome(target, path, found)
  {
    hide Lookup, Merge, Document, Supplied;
    LookupStep(target, path);
    if found.Hit? {
      var n := |path| - |found.rest|;
      assert path[..n][1..] == path[1..][..n - 1] && path[..n][0] == path[0];
      LookupStep(target, path[..n]);
    }
  }

  lemma {:induction false} MergeAtPath(target: Option<Json>, members: map<string, Tree>, path: seq<string>)
    requires Supplied(Branch(members))
    ensures Find(members, path).Hit? ==> |Find(members, path).rest| <= |path|
    ensures Lookup(Some(Merge(target, Document(Branch(members)))), path) == Outcome(target, path, Find(members, path))
    decreases |path|
  {
    hide Lookup, Merge, Outcome;
    if path == [] {
      NoPath(target, members);
    } else {
      var key, patch := path[0], Document(Branch(members));
      var here := Member(MembersOf(target), key);
      MergeMember(target, patch, key);
      LookupStep(Some(Merge(target, patch)), path);
      if key !in members {
        LookupStep(target, path);
        MissingOutcome(target, path);
      } else {
        match members[key]
        case Leaf(json) =>
          assert patch.members[key] == Document(members[key]) == json;
          HitOutcome(target, path, json);
        case Branch(below) =>
          assert patch.members[key] == Document(Branch(below));
          MergeAtPath(here, below, path[1..]);
          OutcomeStep(target, path, Find(below, path[1..]));
      }
    }
  }

  lemma NoPath(target: Option<Json>, members: map<string, Tree>)
    requires Supplied(Branch(members))
    ensures Lookup(Some(Merge(target, Document(Branch(members)))), []) == Outcome(target, [], Inside(members))
  {
  }

  lemma MissingOutcome(target: Option<Json>, path: seq<string>)
    ensures Outcome(target, path, Missing) == Lookup(target, path)
  {
  }

  lemma HitOutcome(target: Option<Json>, path: seq<string>, json: Json)
    requires path != []
    ensures Outcome(target, path, Hit(json, path[1..]))
            == Lookup(if json.Null? then None else Some(Merge(Member(MembersOf(target), path[0]), json)), path[1..])
  {
    hide Merge, Lookup;
    LookupOne(target, path);
    LookupNothing(path[1..]);
    assert |path| - |path[1..]| == 1;
  }

  predicate Comparable(p: seq<string>, q: seq<string>) { p <= q || q <= p }

  /** The first step of finding a path after a write. */
  lemma FindStep(members: map<string, Tree>, p: seq<string>, json: Json, q: seq<string>)
    requires p != [] && q != []
    ensures var after := Find(Put(members, p, Leaf(json)), q);
            && (p[0] != q[0] ==> after == Find(members, q))
            && (p[0] == q[0] && |p| == 1 ==> after == Hit(json, q[1..]))
            && (p[0] == q[0] && |p| > 1 ==> after == Find(Put(Below(members, p[0]), p[1..], Leaf(json)), q[1..]))
    ensures p[0] == q[0] && q[0] in members && members[q[0]].Branch? ==>
              Find(members, q) == Find(Below(members, p[0]), q[1..])
    ensures q[0] in members && members[q[0]].Leaf? ==> Find(members, q) == Hit(members[q[0]].json, q[1..])
    ensures q[0] !in members || members[q[0]].Open? ==> Find(members, q) == Missing
  {
  }

  lemma {:induction false} FindWritten(members: map<string, Tree>, p: seq<string>, json: Json, q: seq<string>)
    requires p != [] && p <= q
    ensures Find(Put(members, p, Leaf(json)), q) == Hit(json, q[|p|..])
    decreases |p|
  {
    hide Find, Put;
    FindStep(members, p, json, q);
    if |p| > 1 {
      FindWritten(Below(members, p[0]), p[1..], json, q[1..]);
    }
  }

  lemma {:induction false} FindInEmpty(q: seq<string>)
    requires q != []
    ensures Find(map[], q) == Missing
  {
  }

  /** What a path finds after a write elsewhere: a value on the way to the write is gone. */
  function Spared(found: Found, p: seq<string>, q: seq<string>): Found {
    if found.Hit? && |found.rest| <= |q| && q[..|q| - |found.rest|] <= p then Missing else found
  }

  lemma SparedBelow(found: Found, p: seq<string>, q: seq<string>)
    requires p != [] && q != [] && p[0] == q[0]
    requires found.Hit? ==> |found.rest| < |q|
    ensures Spared(found, p, q) == Spared(found, p[1..], q[1..])
  {
    if found.Hit? {
      var n := |q| - |found.rest|;
      assert q[..n][1..] == q[1..][..n - 1];
      assert q[..n] <= p <==> q[..n][1..] <= p[1..];
    }
  }

  lemma ComparableBelow(p: seq<string>, q: seq<string>)
    requires p != [] && q != [] && p[0] == q[0]
    ensures Comparable(p, q) <==> Comparable(p[1..], q[1..])
  {
    assert p[1..] <= q[1..] <==> p <= q;
    assert q[1..] <= p[1..] <==> q <= p;
  }

  lemma NoneSpared(found: Found, p: seq<string>, q: seq<string>)
    requires q != [] && (found.Hit? ==> |found.rest| < |q| && (p == [] || p[0] != q[0]))
    ensures Spared(found, p, q) == found
  {
    if found.Hit? {
      assert q[..|q| - |found.rest|][0] == q[0];
    }
  }

  lemma OnTheWay(found: Found, p: seq<string>, q: seq<string>)
    requires p != [] && q != [] && p[0] == q[0]
    requires found.Missing? || (found.Hit? && found.rest == q[1..])
    ensures Spared(found, p, q) == Missing
  {
    assert q[..1] == [q[0]] && p[..1] == [p[0]];
  }

  lemma {:induction false} FindElsewhere(members: map<string, Tree>, p: seq<string>, json: Json, q: seq<string>)
    requires p != [] && q != [] && !Comparable(p, q)
    ensures Find(Put(members, p, Leaf(json)), q) == Spared(Find(members, q), p, q)
    decreases |p|
  {
    hide Find, Put, Spared;
    FindStep(members, p, json, q);
    var found := Find(members, q);
    if p[0] != q[0] {
      NoneSpared(found, p, q);
    } else {
      ComparableBelow(p, q);
      FindElsewhere(Below(members, p[0]), p[1..], json, q[1..]);
      if q[0] in members && members[q[0]].Branch? {
        SparedBelow(found, p, q);
      } else {
        FindInEmpty(q[1..]);
        NoneSpared(Missing, p[1..], q[1..]);
        OnTheWay(found, p, q);
      }
    }
  }

  lemma {:induction false} PutKeepsSupplied(members: map<string, Tree>, path: seq<string>, json: Json)
    requires Supplied(Branch(members))
    ensures Supplied(Branch(Put(members, path, Leaf(json))))
    decreases |path|
  {
    if |path| > 1 {
      PutKeepsSupplied(Below(members, path[0]), path[1..], json);
    }
  }

  lemma {:induction false} WrittenIsSupplied(changes: seq<Change>)
    ensures Supplied(Branch(Written(map[], changes)))
    decreases |changes|
  {
    if changes != [] {
      WrittenIsSupplied(changes[..|changes| - 1]);
      var last := changes[|changes| - 1];
      PutKeepsSupplied(Written(map[], changes[..|changes| - 1]), last.path, last.value);
    }
  }

  /** No change from the i-th on writes at, above or below this path. */
  predicate UntouchedFrom(changes: seq<Change>, i: nat, path: seq<string>) {
    forall j :: i <= j < |changes| ==> changes[j].path == [] || !Comparable(changes[j].path, path)
  }

  lemma {:induction false} FindLastWrite(changes: seq<Change>, i: nat)
    requires i < |changes| && changes[i].path != [] && UntouchedFrom(changes, i + 1, changes[i].path)
    ensures Find(Written(map[], changes), changes[i].path) == Hit(changes[i].value, [])
    decreases |changes|
  {
    var last, rest := changes[|changes| - 1], changes[..|changes| - 1];
    if i < |rest| {
      FindLastWrite(rest, i);
      if last.path != [] {
        FindElsewhere(Written(map[], rest), last.path, last.value, changes[i].path);
      }
    } else {
      FindWritten(Written(map[], rest), last.path, last.value, last.path);
    }
  }

  lemma {:induction false} FindsNothing(changes: seq<Change>, path: seq<string>)
    requires path != [] && UntouchedFrom(changes, 0, path)
    ensures Find(Written(map[], changes), path) == Missing
    decreases |changes|
  {
    if changes != [] {
      var last, rest := changes[|changes| - 1], changes[..|changes| - 1];
      FindsNothing(rest, path);
      if last.path != [] {
        FindElsewhere(Written(map[], rest), last.path, last.value, path);
      }
    }
  }

  ghost function Applied(target: Option<Json>, changes: seq<Change>): Json {
    WrittenIsSupplied(changes);
    Merge(target, Document(Branch(Written(map[], changes))))
  }

  /**
   * The last change at a path takes effect: null removes the member, a value that is not an
   * object replaces it, and an object is merged with what was there.
   */
  lemma LastChangeTakesEffect(target: Option<Json>, changes: seq<Change>, i: nat)
    requires i < |changes| && changes[i].path != [] && UntouchedFrom(changes, i + 1, changes[i].path)
    ensures var path, value := changes[i].path, changes[i].value;
            Lookup(Some(Applied(target, changes)), path)
            == if value.Null? then None
               else if value.Scalar? then Some(value)
               else Some(Merge(Lookup(target, path), value))
  {
    hide Lookup, Written, Find, Document, Supplied;
    var path := changes[i].path;
    WrittenIsSupplied(changes);
    MergeAtPath(target, Written(map[], changes), path);
    FindLastWrite(changes, i);
    assert path[..|path| - 0] == path;
    LookupEmpty(Some(Merge(Lookup(target, path), changes[i].value)));
  }

  lemma LookupEmpty(json: Option<Json>)
    ensures Lookup(json, []) == json
  {
  }

  /** Every path that is not at, above or below a changed one keeps its value, or stays without one. */
  lemma OtherPathsKeepTheirValues(target: Option<Json>, changes: seq<Change>, path: seq<string>)
    requires path != [] && UntouchedFrom(changes, 0, path)
    ensures Lookup(Some(Applied(target, changes)), path) == Lookup(target, path)
  {
    hide Lookup, Written, Find, Document, Supplied;
    WrittenIsSupplied(changes);
    MergeAtPath(target, Written(map[], changes), path);
    FindsNothing(changes, path);
  }
}
