/** Adopting and releasing objects (internal/controller/postgrescluster/controller_ref_manager.go). */
module ControllerRefs {
  import opened Options

  datatype Ref = Ref(uid: string, kind: string, name: string, controller: bool)

  // labelled says that the object carries the cluster label.
  datatype Object = Object(refs: seq<Ref>, labelled: bool, deleting: bool)

  datatype Cluster = Cluster(uid: string, name: string, deleting: bool)

  const KIND := "PostgresCluster"

  function ControllerIndex(refs: seq<Ref>): (i: nat)
    ensures i <= |refs|
    ensures i < |refs| ==> refs[i].controller
    ensures forall j :: 0 <= j < i ==> !refs[j].controller
  {
    if refs == [] || refs[0].controller then 0 else 1 + ControllerIndex(refs[1..])
  }

  function ControllerOf(refs: seq<Ref>): Option<Ref> {
    var i := ControllerIndex(refs);
    if i < |refs| then Some(refs[i]) else None
  }

  /** References are told apart by UID when a patch merges them. */
  function Merged(refs: seq<Ref>, r: Ref): seq<Ref> {
    if refs == [] then [r] else if refs[0].uid == r.uid then [r] + refs[1..] else [refs[0]] + Merged(refs[1..], r)
  }

  function Released(refs: seq<Ref>, uid: string): seq<Ref> {
    if refs == [] then [] else (if refs[0].uid == uid then [] else [refs[0]]) + Released(refs[1..], uid)
  }

  datatype Fault = NoFault | Missing | Fails

  function Own(c: Cluster): Ref { Ref(c.uid, KIND, c.name, true) }

  function Claimed(o: Object, c: Cluster, f: Fault): (Object, bool) {
    var controller := ControllerOf(o.refs);
    if controller.Some? then
      if controller.value.uid != c.uid || o.labelled || c.deleting then (o, true)
      else if f.NoFault? then (o.(refs := Released(o.refs, c.uid)), true)
      else (o, f.Missing?)
    else if c.deleting || !o.labelled || o.deleting then (o, true)
    else if f.NoFault? then (o.(refs := Merged(o.refs, Own(c))), true)
    else (o, f.Missing?)
  }

  class Api {
    var stored: Object

    constructor (o: Object)
      ensures stored == o
    {
      stored := o;
    }

    method PatchRefs(refs: seq<Ref>, f: Fault) returns (ok: bool)
      modifies this
      ensures stored == if f.NoFault? then old(stored).(refs := refs) else old(stored)
      ensures ok == f.NoFault?
    {
      ok := f.NoFault?;
      if ok {
        stored := stored.(refs := refs);
      }
    }
  }

  method ClaimObject(api: Api, c: Cluster, f: Fault) returns (ok: bool)
    modifies api
    ensures (api.stored, ok) == Claimed(old(api.stored), c, f)
  {
    var o := api.stored;
    var controller := ControllerOf(o.refs);
    if controller.Some? {
      if controller.value.uid != c.uid {
        return true;
      }
      if o.labelled {
        return true;
      }
      if c.deleting {
        return true;
      }
      var released := api.PatchRefs(Released(o.refs, c.uid), f);
      return released || f.Missing?;
    }
    if c.deleting || !o.labelled {
      return true;
    }
    if o.deleting {
      return true;
    }
    var adopted := api.PatchRefs(Merged(o.refs, Own(c)), f);
    return adopted || f.Missing?;
  }

  function Others(refs: seq<Ref>, uid: string): seq<Ref> { Released(refs, uid) }

  lemma {:induction false} MergedKeepsOthers(refs: seq<Ref>, r: Ref)
    requires r.controller && forall i :: 0 <= i < |refs| ==> !refs[i].controller
    ensures Others(Merged(refs, r), r.uid) == Others(refs, r.uid)
    ensures ControllerOf(Merged(refs, r)) == Some(r)
  {
    if refs == [] {
      assert Merged(refs, r) == [r] && Others([r], r.uid) == [] + Others([], r.uid);
    } else if refs[0].uid == r.uid {
      assert Merged(refs, r)[1..] == refs[1..];
    } else {
      MergedKeepsOthers(refs[1..], r);
      var rest := Merged(refs[1..], r);
      assert Merged(refs, r)[1..] == rest;
    }
  }

  lemma {:induction false} ReleasedTwice(refs: seq<Ref>, uid: string)
    ensures Released(Released(refs, uid), uid) == Released(refs, uid)
    ensures forall i :: 0 <= i < |Released(refs, uid)| ==>
            Released(refs, uid)[i].uid != uid && Released(refs, uid)[i] in refs
  {
    if refs != [] {
      ReleasedTwice(refs[1..], uid);
      var rest := Released(refs[1..], uid);
      if refs[0].uid != uid {
        assert Released(refs, uid) == [refs[0]] + rest && ([refs[0]] + rest)[1..] == rest;
      } else {
        assert Released(refs, uid) == rest;
      }
      assert refs == [refs[0]] + refs[1..];
    }
  }

  /** At most one reference is the controller, as the server makes sure. */
  predicate OneController(refs: seq<Ref>) {
    forall i, j :: 0 <= i < j < |refs| ==> !(refs[i].controller && refs[j].controller)
  }

  /**
   * Claiming an object never takes it from another controller and never touches the other
   * owners. The cluster becomes the controller exactly of a labelled orphan when neither is
   * being deleted, and lets go exactly of its own that lost the label.
   */
  lemma ClaimsOnlyOrphans(o: Object, c: Cluster)
    requires OneController(o.refs)
    ensures var r := Claimed(o, c, NoFault).0;
            && Others(r.refs, c.uid) == Others(o.refs, c.uid)
            && (ControllerOf(o.refs).Some? && ControllerOf(o.refs).value.uid != c.uid ==> r == o)
            && (ControllerOf(o.refs).None? ==>
                  ControllerOf(r.refs) == if o.labelled && !c.deleting && !o.deleting then Some(Own(c)) else None)
            && (ControllerOf(o.refs).Some? && ControllerOf(o.refs).value.uid == c.uid ==>
                  (ControllerOf(r.refs).None? <==> !o.labelled && !c.deleting))
  {
    hide Released, Merged;
    if ControllerOf(o.refs).None? {
      MergedKeepsOthers(o.refs, Own(c));
    } else {
      ReleasedTwice(o.refs, c.uid);
      var released := Released(o.refs, c.uid);
      var i := ControllerIndex(o.refs);
      forall j | 0 <= j < |released| && o.refs[i].uid == c.uid ensures !released[j].controller {
        var k :| 0 <= k < |o.refs| && o.refs[k] == released[j];
      }
    }
  }

  /** Claiming again changes nothing. */
  lemma ClaimsOnce(o: Object, c: Cluster)
    requires OneController(o.refs)
    ensures var r := Claimed(o, c, NoFault).0; Claimed(r, c, NoFault).0 == r
  {
    hide Released, Merged;
    ClaimsOnlyOrphans(o, c);
  }
}
