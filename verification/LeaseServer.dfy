/**
 * Acquiring and releasing a named Lease (percona/k8s/lease.go).
 *
 * The API server hands out UIDs and resource versions from one increasing clock. A client
 * reads the Lease and later writes it. Whatever other clients do in between is a parameter.
 */
module LeaseServer {
  import opened Options

  datatype Lease = Lease(uid: nat, version: nat, holder: Option<string>, acquireTime: Option<nat>)

  datatype Store = Store(lease: Option<Lease>, clock: nat)

  // A request can be lost on its way to the server, and so can its reply.
  datatype Fault = NoFault | RequestLost | ReplyLost

  // What the caller's staleness check does: there is none, it answers, or it fails.
  datatype Check = NoCheck | IsStale | NotStale | CheckFails

  datatype Outcome = Done | AlreadyHeld | Failed

  datatype Reply = Accepted | Rejected

  function Created(s: Store, holder: string, now: nat): Store {
    Store(Some(Lease(s.clock + 1, s.clock + 1, Some(holder), Some(now))), s.clock + 1)
  }

  function Updated(s: Store, seen: Lease, holder: string, now: nat): Store {
    Store(Some(Lease(seen.uid, s.clock + 1, Some(holder), Some(now))), s.clock + 1)
  }

  /** A write or delete that carries the UID and version it read applies to that very record only. */
  predicate IsCurrent(s: Store, seen: Lease) {
    s.lease.Some? && s.lease.value.uid == seen.uid && s.lease.value.version == seen.version
  }

  /** What the store holds after a client writes holder over what it read. */
  function AfterWrite(s: Store, seen: Option<Lease>, holder: string, now: nat): Store {
    if seen.None? then (if s.lease.None? then Created(s, holder, now) else s)
    else if IsCurrent(s, seen.value) then Updated(s, seen.value, holder, now)
    else s
  }

  predicate WriteApplies(s: Store, seen: Option<Lease>) {
    if seen.None? then s.lease.None? else IsCurrent(s, seen.value)
  }

  function AfterDelete(s: Store, seen: Lease): Store {
    if IsCurrent(s, seen) then s.(lease := None) else s
  }

  class ApiServer {
    var store: Store

    constructor (s: Store)
      ensures store == s
    {
      store := s;
    }

    method Create(holder: string, acquireTime: nat, fault: Fault) returns (reply: Reply)
      modifies this
      ensures store == if fault.RequestLost? then old(store) else AfterWrite(old(store), None, holder, acquireTime)
      ensures reply.Accepted? <==> fault.NoFault? && old(store.lease).None?
    {
      reply := Rejected;
      if fault != RequestLost && store.lease.None? {
        store := Created(store, holder, acquireTime);
        reply := if fault.NoFault? then Accepted else Rejected;
      }
    }

    method Update(lease: LeaseObject, fault: Fault) returns (reply: Reply)
      requires lease.holder.Some? && lease.acquireTime.Some?
      modifies this
      ensures var seen := lease.AsRead();
              && store == (if fault.RequestLost? then old(store)
                           else AfterWrite(old(store), Some(seen), lease.holder.value, lease.acquireTime.value))
              && (reply.Accepted? <==> fault.NoFault? && IsCurrent(old(store), seen))
    {
      reply := Rejected;
      if fault != RequestLost && IsCurrent(store, lease.AsRead()) {
        store := Updated(store, lease.AsRead(), lease.holder.value, lease.acquireTime.value);
        reply := if fault.NoFault? then Accepted else Rejected;
      }
    }

    /** A missing record and a failed precondition both count as deleted. */
    method Delete(seen: Lease, fault: Fault) returns (reply: Reply)
      modifies this
      ensures store == if fault.RequestLost? then old(store) else AfterDelete(old(store), seen)
      ensures reply.Accepted? <==> fault.NoFault?
    {
      if fault != RequestLost && IsCurrent(store, seen) {
        store := store.(lease := None);
      }
      reply := if fault.NoFault? then Accepted else Rejected;
    }

    /** Time in which other clients act. */
    method Elapse(later: Store)
      modifies this
      ensures store == later
    {
      store := later;
    }
  }

  /** The client's copy of the Lease, which the closure passed to CreateOrUpdate changes in place. */
  class LeaseObject {
    var uid: nat
    var version: nat
    var holder: Option<string>
    var acquireTime: Option<nat>

    constructor (read: Option<Lease>)
      ensures read.Some? ==> AsRead() == read.value
      ensures read.None? ==> holder == None && acquireTime == None
    {
      uid, version, holder, acquireTime := 0, 0, None, None;
      if read.Some? {
        uid, version := read.value.uid, read.value.version;
        holder, acquireTime := read.value.holder, read.value.acquireTime;
      }
    }

    function AsRead(): Lease
      reads this
    {
      Lease(uid, version, holder, acquireTime)
    }

    /** Puts the new holder in place unless another one is in the way. */
    method Take(newHolder: string, check: Check, now: nat) returns (r: Outcome)
      modifies this
      ensures uid == old(uid) && version == old(version)
      ensures r == Verdict(old(holder), newHolder, check)
      ensures if r.Done? && old(holder) != Some(newHolder) then holder == Some(newHolder) && acquireTime == Some(now)
              else holder == old(holder) && acquireTime == old(acquireTime)
    {
      if holder.Some? {
        if holder.value == newHolder {
          return Done;
        }
        match check {
          case NoCheck => return AlreadyHeld;
          case CheckFails => return Failed;
          case NotStale => return AlreadyHeld;
          case IsStale =>
        }
      }
      holder, acquireTime := Some(newHolder), Some(now);
      return Done;
    }
  }

  /** Whether a client may go on to take a Lease that it read with this holder. */
  function Verdict(held: Option<string>, newHolder: string, check: Check): Outcome {
    if held.None? || held.value == newHolder || check.IsStale? then Done
    else if check.CheckFails? then Failed
    else AlreadyHeld
  }

  function HolderOf(lease: Option<Lease>): Option<string> {
    if lease.Some? then lease.value.holder else None
  }

  /** The store and the answer to the caller, when the others leave the store as `others` before the write. */
  function AcquireEffect(view: Option<Lease>, holder: string, check: Check, now: nat, others: Store, fault: Fault)
    : (Store, Outcome)
  {
    var verdict := Verdict(HolderOf(view), holder, check);
    if !verdict.Done? then (others, verdict)
    else if HolderOf(view) == Some(holder) then (others, Done)
    else (if fault.RequestLost? then others else AfterWrite(others, view, holder, now),
          if fault.NoFault? && WriteApplies(others, view) then Done else Failed)
  }

  function ReleaseEffect(view: Option<Lease>, holder: string, others: Store, fault: Fault): (Store, Outcome) {
    if view.None? then (others, Done)
    else if view.value.holder.Some? && view.value.holder != Some(holder) then (others, AlreadyHeld)
    else (if fault.RequestLost? then others else AfterDelete(others, view.value),
          if fault.NoFault? then Done else Failed)
  }

  method AcquireLease(server: ApiServer, view: Option<Lease>, holder: string, check: Check, now: nat,
                      others: Store, fault: Fault)
    returns (r: Outcome)
    modifies server
    ensures (server.store, r) == AcquireEffect(view, holder, check, now, others, fault)
  {
    var lease := new LeaseObject(view);
    var taken := lease.Take(holder, check, now);
    server.Elapse(others);
    if !taken.Done? {
      return taken;
    }
    if view.None? {
      var reply := server.Create(holder, now, fault);
      return if reply.Accepted? then Done else Failed;
    }
    if lease.AsRead() == view.value {
      return Done;
    }
    var reply := server.Update(lease, fault);
    return if reply.Accepted? then Done else Failed;
  }

  method ReleaseLease(server: ApiServer, view: Option<Lease>, holder: string, others: Store, fault: Fault)
    returns (r: Outcome)
    modifies server
    ensures (server.store, r) == ReleaseEffect(view, holder, others, fault)
  {
    server.Elapse(others);
    if view.None? {
      return Done;
    }
    var held := view.value.holder;
    if held.Some? && held.value != holder {
      return AlreadyHeld;
    }
    var reply := server.Delete(view.value, fault);
    return if reply.Accepted? then Done else Failed;
  }
}
