/**
 * Any number of clients acquiring and releasing one Lease, step by step, in any order.
 *
 * Reads go through a cache, so a client may see any record the store has held. Read directly
 * means that it sees the present one.
 */
module LeaseRuns {
  import opened Options
  import opened LeaseServer

  // What a client is about to do next.
  datatype Phase =
    | Idle
    | Judging(holder: string, seen: Lease)
    | Writing(holder: string, view: Option<Lease>, verdict: bool)  // verdict: its own check called the holder stale
    | Deleting(holder: string, seen: Lease)

  // past is history: every record the store has held.
  datatype State = State(store: Store, clients: map<nat, Phase>, past: set<Option<Lease>>)

  datatype Event =
    | AcquireReads(client: nat, holder: string, view: Option<Lease>)
    | CheckAnswers(client: nat, check: Check)
    | AcquireWrites(client: nat, now: nat, fault: Fault)
    | ReleaseReads(client: nat, holder: string, view: Option<Lease>)
    | ReleaseDeletes(client: nat, fault: Fault)
    | GivesUp(client: nat)
    | Touches  // something else changes a label or annotation of the Lease

  function PhaseOf(s: State, client: nat): Phase {
    if client in s.clients then s.clients[client] else Idle
  }

  predicate Enabled(s: State, e: Event) {
    match e
    case AcquireReads(c, _, view) => PhaseOf(s, c).Idle? && view in s.past
    case CheckAnswers(c, _) => PhaseOf(s, c).Judging?
    case AcquireWrites(c, _, _) => PhaseOf(s, c).Writing?
    case ReleaseReads(c, _, view) => PhaseOf(s, c).Idle? && view in s.past
    case ReleaseDeletes(c, _) => PhaseOf(s, c).Deleting?
    case GivesUp(_) => true
    case Touches => s.store.lease.Some?
  }

  function NextPhase(s: State, e: Event): Phase
    requires Enabled(s, e) && !e.Touches?
  {
    match e
    case AcquireReads(_, holder, view) =>
      if HolderOf(view).None? then Writing(holder, view, false)
      else if HolderOf(view) == Some(holder) then Idle
      else Judging(holder, view.value)
    case CheckAnswers(c, check) =>
      if check.IsStale? then Writing(PhaseOf(s, c).holder, Some(PhaseOf(s, c).seen), true) else Idle
    case ReleaseReads(_, holder, view) =>
      if view.None? || (view.value.holder.Some? && view.value.holder != Some(holder)) then Idle
      else Deleting(holder, view.value)
    case _ => Idle
  }

  function Touched(s: Store): Store
    requires s.lease.Some?
  {
    Store(Some(s.lease.value.(version := s.clock + 1)), s.clock + 1)
  }

  function NextStore(s: State, e: Event): Store
    requires Enabled(s, e)
  {
    match e
    case AcquireWrites(c, now, fault) =>
      if fault.RequestLost? then s.store else AfterWrite(s.store, PhaseOf(s, c).view, PhaseOf(s, c).holder, now)
    case ReleaseDeletes(c, fault) =>
      if fault.RequestLost? then s.store else AfterDelete(s.store, PhaseOf(s, c).seen)
    case Touches => Touched(s.store)
    case _ => s.store
  }

  function Next(s: State, e: Event): State
    requires Enabled(s, e)
  {
    var store := NextStore(s, e);
    State(store,
          if e.Touches? then s.clients else s.clients[e.client := NextPhase(s, e)],
          s.past + {store.lease})
  }

  // Nobody has created the Lease yet.
  const START := State(Store(None, 0), map[], {None})

  ghost predicate IsRun(states: seq<State>, events: seq<Event>) {
    && |states| == |events| + 1
    && states[0] == START
    && forall i :: 0 <= i < |events| ==> Enabled(states[i], events[i]) && states[i + 1] == Next(states[i], events[i])
  }

  function Owner(s: State): Option<string> { HolderOf(s.store.lease) }

  /** The write of an acquire took effect, whether or not its reply arrived. */
  predicate Takes(s: State, e: Event)
    requires Enabled(s, e)
  {
    e.AcquireWrites? && !e.fault.RequestLost? && WriteApplies(s.store, PhaseOf(s, e.client).view)
  }

  /** An acquire for this holder returns success. */
  predicate Grants(s: State, e: Event, holder: string)
    requires Enabled(s, e)
  {
    || (e.AcquireReads? && e.holder == holder && HolderOf(e.view) == Some(holder))
    || (Takes(s, e) && e.fault.NoFault? && PhaseOf(s, e.client).holder == holder)
  }

  predicate ReadsDirectly(s: State, e: Event) {
    (e.AcquireReads? || e.ReleaseReads?) ==> e.view == s.store.lease
  }

  /** The delete of a release took effect. */
  predicate Frees(s: State, e: Event)
    requires Enabled(s, e)
  {
    e.ReleaseDeletes? && !e.fault.RequestLost? && IsCurrent(s.store, PhaseOf(s, e.client).seen)
  }

  /** A staleness check says that the holder of the present record is stale. */
  predicate Condemns(s: State, e: Event)
    requires Enabled(s, e)
  {
    e.CheckAnswers? && e.check.IsStale? && s.store.lease == Some(PhaseOf(s, e.client).seen)
  }

  // ----- The invariant -----

  /** Versions name records: two records the store has held with one version are one record. */
  ghost predicate VersionsAreUnique(s: State) {
    && (forall a, b :: a in s.past && b in s.past && a.Some? && b.Some? && a.value.version == b.value.version ==>
        a == b)
    && (forall a :: a in s.past && a.Some? ==> a.value.version <= s.store.clock)
  }

  ghost predicate PhaseOk(s: State, p: Phase) {
    match p
    case Idle => true
    case Judging(holder, seen) => Some(seen) in s.past && seen.holder.Some? && seen.holder != Some(holder)
    case Writing(holder, view, verdict) =>
      view in s.past && (HolderOf(view).Some? ==> HolderOf(view) != Some(holder) && verdict)
    case Deleting(holder, seen) => Some(seen) in s.past && (seen.holder.Some? ==> seen.holder == Some(holder))
  }

  ghost predicate Inv(s: State) {
    && s.store.lease in s.past
    && VersionsAreUnique(s)
    && (forall c :: c in s.clients ==> PhaseOk(s, s.clients[c]))
  }

  lemma StepKeepsInv(s: State, e: Event)
    requires Inv(s) && Enabled(s, e)
    ensures Inv(Next(s, e))
  {
  }

  lemma {:induction false} RunKeepsInv(states: seq<State>, events: seq<Event>, i: nat)
    requires IsRun(states, events) && i < |states|
    ensures Inv(states[i])
  {
    if i > 0 {
      RunKeepsInv(states, events, i - 1);
      StepKeepsInv(states[i - 1], events[i - 1]);
    }
  }

  // ----- Refinement of an atomic lock -----

  /**
   * The lock: an owner or none. It is taken when it is free, or from an owner that the taker's own
   * check called stale. It is freed by its owner.
   */
  predicate LockStep(owner: Option<string>, next: Option<string>, actor: string, verdict: bool) {
    || next == owner
    || (next == Some(actor) && (owner.None? || verdict))
    || (next == None && owner == Some(actor))
  }

  function Actor(s: State, e: Event): string {
    if !e.Touches? && !PhaseOf(s, e.client).Idle? then PhaseOf(s, e.client).holder else ""
  }

  /** The client's own check called the holder of the present record stale. */
  predicate OwnCheckSaysStale(s: State, e: Event) {
    e.AcquireWrites? && PhaseOf(s, e.client).Writing? && PhaseOf(s, e.client).verdict
    && PhaseOf(s, e.client).view == s.store.lease
  }

  lemma CurrentIsTheRecord(s: State, seen: Lease)
    requires Inv(s) && Some(seen) in s.past
    ensures IsCurrent(s.store, seen) ==> s.store.lease == Some(seen)
  {
  }

  /** Every step of every client is a step of the lock or none; a delete removes what was read and nothing else. */
  lemma StepRefinesLock(s: State, e: Event)
    requires Inv(s) && Enabled(s, e)
    ensures LockStep(Owner(s), Owner(Next(s, e)), Actor(s, e), OwnCheckSaysStale(s, e))
    ensures Takes(s, e) ==> Owner(Next(s, e)) == Some(Actor(s, e)) && Owner(s) != Some(Actor(s, e))
    ensures Frees(s, e) ==> && s.store.lease == Some(PhaseOf(s, e.client).seen)
                            && Next(s, e).store.lease.None?
                            && (Owner(s).None? || Owner(s) == Some(Actor(s, e)))
    ensures !Takes(s, e) && !Frees(s, e) && !e.Touches? ==> Next(s, e).store == s.store
  {
    match e
    case AcquireWrites(c, _, _) =>
      if PhaseOf(s, c).view.Some? { CurrentIsTheRecord(s, PhaseOf(s, c).view.value); }
    case ReleaseDeletes(c, _) => CurrentIsTheRecord(s, PhaseOf(s, c).seen);
    case _ =>
  }

  // ----- Whole runs -----

  /** A record that is no longer the present one never becomes it again. */
  lemma {:induction false} PastRecordsDoNotReturn(states: seq<State>, events: seq<Event>, i: nat, j: nat, seen: Lease)
    requires IsRun(states, events) && i <= j < |states|
    requires Some(seen) in states[i].past && states[i].store.lease != Some(seen)
    ensures Some(seen) in states[j].past && states[j].store.lease != Some(seen)
  {
    if i < j {
      PastRecordsDoNotReturn(states, events, i, j - 1, seen);
      RunKeepsInv(states, events, j - 1);
    }
  }

  /**
   * The m-th step is the check by which the writer of the k-th was told that the holder of the
   * record it read is stale. Ever since it has been about to write over that record.
   */
  ghost predicate OwnVerdict(states: seq<State>, events: seq<Event>, m: nat, k: nat)
    requires IsRun(states, events)
  {
    && m < k < |events| && events[k].AcquireWrites?
    && var c := events[k].client;
    && var p := PhaseOf(states[k], c);
    && p.view.Some?
    && events[m] == CheckAnswers(c, IsStale) && PhaseOf(states[m], c) == Judging(p.holder, p.view.value)
    && forall j :: m < j <= k ==> PhaseOf(states[j], c) == p
  }

  /** Whoever is about to write over a record that names a holder asked its own check about it. */
  lemma {:induction false} WaiterAsked(states: seq<State>, events: seq<Event>, k: nat, c: nat)
    returns (m: nat)
    requires IsRun(states, events) && k < |states|
    requires PhaseOf(states[k], c).Writing? && HolderOf(PhaseOf(states[k], c).view).Some?
    ensures m < k && events[m] == CheckAnswers(c, IsStale)
    ensures var p := PhaseOf(states[k], c);
            && PhaseOf(states[m], c) == Judging(p.holder, p.view.value)
            && forall j :: m < j <= k ==> PhaseOf(states[j], c) == p
  {
    assert k > 0;
    assert states[k] == Next(states[k - 1], events[k - 1]);
    if PhaseOf(states[k - 1], c) == PhaseOf(states[k], c) {
      m := WaiterAsked(states, events, k - 1, c);
    } else {
      m := k - 1;
    }
  }

  /** The k-th step takes the Lease over from this holder, as the taker's own check at m allowed. */
  ghost predicate Evicts(states: seq<State>, events: seq<Event>, m: nat, k: nat, holder: string)
    requires IsRun(states, events)
  {
    && k < |events| && Owner(states[k]) == Some(holder)
    && Takes(states[k], events[k]) && Actor(states[k], events[k]) != holder
    && PhaseOf(states[k], events[k].client).view == states[k].store.lease
    && OwnVerdict(states, events, m, k)
  }

  /** The k-th step is the holder's own release. */
  ghost predicate Leaves(states: seq<State>, events: seq<Event>, k: nat, holder: string)
    requires IsRun(states, events)
  {
    && k < |events| && Owner(states[k]) == Some(holder)
    && Frees(states[k], events[k]) && Actor(states[k], events[k]) == holder
  }

  lemma TakerAsked(states: seq<State>, events: seq<Event>, k: nat, holder: string) returns (m: nat)
    requires IsRun(states, events) && k < |events|
    requires Owner(states[k]) == Some(holder) && Takes(states[k], events[k])
    ensures Evicts(states, events, m, k, holder)
  {
    RunKeepsInv(states, events, k);
    StepRefinesLock(states[k], events[k]);
    CurrentIsTheRecord(states[k], PhaseOf(states[k], events[k].client).view.value);
    m := WaiterAsked(states, events, k, events[k].client);
  }

  /** An owner stays the owner until its own release, or until a taker whose own check called it stale. */
  lemma {:induction false} OwnerStays(states: seq<State>, events: seq<Event>, i: nat, j: nat, holder: string)
    returns (k: nat, m: nat)
    requires IsRun(states, events) && i < j < |states|
    requires Owner(states[i]) == Some(holder) && Owner(states[j]) != Some(holder)
    ensures i <= k < j && (Leaves(states, events, k, holder) || Evicts(states, events, m, k, holder))
  {
    RunKeepsInv(states, events, j - 1);
    StepRefinesLock(states[j - 1], events[j - 1]);
    if Owner(states[j - 1]) == Some(holder) {
      k := j - 1;
      if Takes(states[k], events[k]) {
        m := TakerAsked(states, events, k, holder);
      } else {
        m := 0;
      }
    } else {
      k, m := OwnerStays(states, events, i, j - 1, holder);
    }
  }

  /** No record up to the n-th state named this holder. */
  ghost predicate IsNew(states: seq<State>, n: nat, holder: string)
    requires n < |states|
  {
    forall j :: 0 <= j <= n ==> Owner(states[j]) != Some(holder)
  }

  lemma {:induction false} PastIsHistory(states: seq<State>, events: seq<Event>, n: nat, view: Option<Lease>)
    returns (j: nat)
    requires IsRun(states, events) && n < |states| && view in states[n].past
    ensures j <= n && states[j].store.lease == view
  {
    j := n;
    if n > 0 && states[n].store.lease != view {
      assert states[n] == Next(states[n - 1], events[n - 1]);
      j := PastIsHistory(states, events, n - 1, view);
    }
  }

  /**
   * Whatever record an acquire can be shown, a grant is ownership, exactly if the holder owns
   * the Lease already or never did before. So exclusion fails for a holder that comes back
   * under its old name after it lost the Lease, when its read is not direct, and for no other.
   */
  lemma CachedGrantsOwnExactly(states: seq<State>, events: seq<Event>, n: nat, c: nat, holder: string)
    requires IsRun(states, events) && n < |states| && PhaseOf(states[n], c).Idle?
    ensures (forall view :: view in states[n].past && Grants(states[n], AcquireReads(c, holder, view), holder) ==>
               Owner(Next(states[n], AcquireReads(c, holder, view))) == Some(holder))
            <==> Owner(states[n]) == Some(holder) || IsNew(states, n, holder)
  {
    if Owner(states[n]) == Some(holder) {
    } else if IsNew(states, n, holder) {
      forall view | view in states[n].past
        ensures !Grants(states[n], AcquireReads(c, holder, view), holder)
      {
        var j := PastIsHistory(states, events, n, view);
      }
    } else {
      var j :| 0 <= j <= n && Owner(states[j]) == Some(holder);
      var view := states[j].store.lease;
      InPastLater(states, events, j, n, view);
      assert Grants(states[n], AcquireReads(c, holder, view), holder);
    }
  }

  /** The n-th step is no acquire that could be shown a former record of this holder. */
  ghost predicate IsTrusty(states: seq<State>, events: seq<Event>, n: nat, holder: string)
    requires n < |events| && |events| < |states|
  {
    events[n].AcquireReads? ==>
      ReadsDirectly(states[n], events[n]) || Owner(states[n]) == Some(holder) || IsNew(states, n, holder)
  }

  lemma TrustyGrantIsOwnership(states: seq<State>, events: seq<Event>, n: nat, holder: string)
    requires IsRun(states, events) && n < |events|
    requires Grants(states[n], events[n], holder) && IsTrusty(states, events, n, holder)
    ensures Owner(states[n + 1]) == Some(holder) && (events[n].AcquireReads? ==> Owner(states[n]) == Some(holder))
  {
    RunKeepsInv(states, events, n);
    StepRefinesLock(states[n], events[n]);
    if events[n].AcquireReads? {
      CachedGrantsOwnExactly(states, events, n, events[n].client, holder);
    }
  }

  /**
   * Mutual exclusion. After an acquire by one holder was granted, an acquire by another is
   * granted only if in between the first one released the Lease, or the Lease was taken over by
   * a client whose own check called the holder of that very record stale.
   */
  lemma GrantsExclude(states: seq<State>, events: seq<Event>, i: nat, j: nat, holder: string, other: string)
    returns (k: nat, m: nat)
    requires IsRun(states, events) && i < j < |events| && holder != other
    requires Grants(states[i], events[i], holder) && IsTrusty(states, events, i, holder)
    requires Grants(states[j], events[j], other) && IsTrusty(states, events, j, other)
    ensures i < k <= j && (Leaves(states, events, k, holder) || Evicts(states, events, m, k, holder))
  {
    TrustyGrantIsOwnership(states, events, i, holder);
    TrustyGrantIsOwnership(states, events, j, other);
    if Owner(states[j]) == Some(holder) {
      k := j;
      m := TakerAsked(states, events, k, holder);
    } else {
      k, m := OwnerStays(states, events, i + 1, j, holder);
    }
  }

  /** A record that is present now was so ever since it was first there. */
  lemma PresentWasPresent(states: seq<State>, events: seq<Event>, i: nat, k: nat, l: Lease)
    requires IsRun(states, events) && i <= k < |states|
    requires Some(l) in states[i].past && states[k].store.lease == Some(l)
    ensures states[i].store.lease == Some(l)
  {
    if states[i].store.lease != Some(l) {
      PastRecordsDoNotReturn(states, events, i, k, l);
    }
  }

  /**
   * When the first acquire wrote the Lease, the taker's own verdict comes after it, while the
   * record that it condemns is the present one and names this holder.
   */
  lemma EvictionIsCondemned(states: seq<State>, events: seq<Event>, i: nat, m: nat, k: nat, holder: string)
    requires IsRun(states, events) && i < k < |events|
    requires Takes(states[i], events[i]) && Actor(states[i], events[i]) == holder
    requires Evicts(states, events, m, k, holder)
    ensures i < m && Condemns(states[m], events[m]) && Owner(states[m]) == Some(holder)
  {
    var l := states[k].store.lease.value;
    RunKeepsInv(states, events, m);
    PresentWasPresent(states, events, m, k, l);
    RunKeepsInv(states, events, i);
    if m <= i {
      InPastLater(states, events, m, i, Some(l));
      assert states[i + 1].store.lease != Some(l);
      InPastLater(states, events, m, i + 1, Some(l));
      PastRecordsDoNotReturn(states, events, i + 1, k, l);
    }
  }

  // ----- Verdicts from before -----

  /** The client is about to write over the present record, which names a holder. */
  predicate WaitsFor(s: State, c: nat) {
    PhaseOf(s, c).Writing? && PhaseOf(s, c).view == s.store.lease && Owner(s).Some?
  }

  /** The k-th step takes the Lease over from a holder. */
  ghost predicate TakesOver(states: seq<State>, events: seq<Event>, k: nat)
    requires IsRun(states, events)
  {
    k < |events| && Takes(states[k], events[k]) && Owner(states[k]).Some?
  }

  ghost predicate LateVerdict(states: seq<State>, events: seq<Event>, n: nat, k: nat)
    requires IsRun(states, events)
  {
    exists m :: n <= m && OwnVerdict(states, events, m, k)
  }

  lemma VerdictIsLate(states: seq<State>, events: seq<Event>, n: nat, k: nat)
    requires IsRun(states, events) && n <= k < |events| && TakesOver(states, events, k)
    requires forall c :: !WaitsFor(states[n], c)
    ensures LateVerdict(states, events, n, k)
  {
    var c := events[k].client;
    assert !WaitsFor(states[n], c);
    var m := TakerAsked(states, events, k, Owner(states[k]).value);
    if m < n {
      RunKeepsInv(states, events, n);
      assert PhaseOf(states[n], c) == PhaseOf(states[k], c);
      PresentWasPresent(states, events, n, k, states[k].store.lease.value);
    }
  }

  /**
   * From any moment on, and so also after a grant that did not write, every eviction follows a
   * verdict that the taker got after that moment, in every continuation, exactly if at that
   * moment nobody is about to write over the present record.
   */
  lemma LaterVerdictExactlyWhenNobodyWaits(states: seq<State>, events: seq<Event>)
    requires IsRun(states, events)
    ensures (forall ss: seq<State>, ee: seq<Event>, k: nat ::
               IsRun(ss, ee) && states <= ss && events <= ee && |events| <= k && TakesOver(ss, ee, k) ==>
                 LateVerdict(ss, ee, |events|, k))
            <==> forall c :: !WaitsFor(states[|events|], c)
  {
    var n := |events|;
    if forall c :: !WaitsFor(states[n], c) {
      forall ss: seq<State>, ee: seq<Event>, k: nat
        | IsRun(ss, ee) && states <= ss && events <= ee && n <= k && TakesOver(ss, ee, k)
        ensures LateVerdict(ss, ee, n, k)
      {
        assert ss[n] == states[n];
        VerdictIsLate(ss, ee, n, k);
      }
    } else {
      var c :| WaitsFor(states[n], c);
      var e := AcquireWrites(c, 0, NoFault);
      var ss, ee := states + [Next(states[n], e)], events + [e];
      RunGrows(states, events, e);
      assert TakesOver(ss, ee, n) && !LateVerdict(ss, ee, n, n);
    }
  }

  lemma RunGrows(states: seq<State>, events: seq<Event>, e: Event)
    requires IsRun(states, events) && Enabled(states[|events|], e)
    ensures IsRun(states + [Next(states[|events|], e)], events + [e])
  {
    hide Next, Enabled;
  }

  lemma {:induction false} InPastLater(states: seq<State>, events: seq<Event>, i: nat, j: nat, lease: Option<Lease>)
    requires IsRun(states, events) && i <= j < |states|
    requires states[i].store.lease == lease
    ensures lease in states[j].past
  {
    RunKeepsInv(states, events, i);
    if i < j {
      InPastLater(states, events, i, j - 1, lease);
    }
  }

  /** Once a release returned, the record it read is gone for good. */
  lemma ReleasedRecordIsGone(states: seq<State>, events: seq<Event>, i: nat, j: nat, seen: Lease)
    requires IsRun(states, events) && i < j < |states|
    requires events[i].ReleaseDeletes? && events[i].fault.NoFault? && PhaseOf(states[i], events[i].client).seen == seen
    ensures states[j].store.lease != Some(seen)
  {
    RunKeepsInv(states, events, i);
    PastRecordsDoNotReturn(states, events, i + 1, j, seen);
  }

  /** The releaser is still the owner exactly if the Lease was written since it was read, and still names it. */
  lemma ReleaseLeavesLease(s: State, e: Event)
    requires Inv(s) && Enabled(s, e) && e.ReleaseDeletes? && e.fault.NoFault?
    ensures Owner(Next(s, e)) == Some(Actor(s, e))
            <==> Owner(s) == Some(Actor(s, e)) && s.store.lease.value.version != PhaseOf(s, e.client).seen.version
  {
    CurrentIsTheRecord(s, PhaseOf(s, e.client).seen);
  }

  // ----- Where the protocol gives less -----

  /** A step from one state to another. */
  ghost predicate Leads(a: State, e: Event, b: State) { Enabled(a, e) && b == Next(a, e) }

  /** A holder acquires the Lease for the first time and releases it. */
  lemma FirstTenure(holder: string)
    ensures var first := Lease(1, 1, Some(holder), Some(0));
            var asked := State(Store(None, 0), map[0 := Writing(holder, None, false)], {None});
            var held := State(Store(Some(first), 1), map[0 := Idle], {None, Some(first)});
            var leaving := held.(clients := map[0 := Deleting(holder, first)]);
            && Leads(START, AcquireReads(0, holder, None), asked)
            && Leads(asked, AcquireWrites(0, 0, NoFault), held)
            && Leads(held, ReleaseReads(0, holder, Some(first)), leaving)
            && Leads(leaving, ReleaseDeletes(0, NoFault), held.(store := Store(None, 1)))
  {
  }

  /** Another one acquires it, and the first reads its old record. */
  lemma SecondTenure(holder: string, other: string)
    requires holder != other
    ensures var first, second := Lease(1, 1, Some(holder), Some(0)), Lease(2, 2, Some(other), Some(0));
            var free := State(Store(None, 1), map[0 := Idle], {None, Some(first)});
            var asked := free.(clients := map[0 := Idle, 1 := Writing(other, None, false)]);
            var taken := State(Store(Some(second), 2), map[0 := Idle, 1 := Idle], {None, Some(first), Some(second)});
            && Leads(free, AcquireReads(1, other, None), asked)
            && Leads(asked, AcquireWrites(1, 0, NoFault), taken)
            && Leads(taken, AcquireReads(0, holder, Some(first)), taken)
            && Takes(asked, AcquireWrites(1, 0, NoFault)) && Grants(asked, AcquireWrites(1, 0, NoFault), other)
            && Grants(taken, AcquireReads(0, holder, Some(first)), holder)
  {
  }

  /**
   * A cached read can break exclusion: a holder that released the Lease reads its own old record
   * and is granted the Lease while another holder owns it.
   */
  lemma CachedReadBreaksExclusion(holder: string, other: string) returns (states: seq<State>, events: seq<Event>)
    requires holder != other
    ensures IsRun(states, events) && |events| == 7
    ensures Grants(states[5], events[5], other) && Takes(states[5], events[5])
    ensures Grants(states[6], events[6], holder) && Owner(states[6]) == Owner(states[7]) == Some(other)
  {
    hide Next, Enabled, Takes, Grants;
    var first, second := Lease(1, 1, Some(holder), Some(0)), Lease(2, 2, Some(other), Some(0));
    events := [
      AcquireReads(0, holder, None), AcquireWrites(0, 0, NoFault),
      ReleaseReads(0, holder, Some(first)), ReleaseDeletes(0, NoFault),
      AcquireReads(1, other, None), AcquireWrites(1, 0, NoFault),
      AcquireReads(0, holder, Some(first))];
    var held := State(Store(Some(first), 1), map[0 := Idle], {None, Some(first)});
    var free := held.(store := Store(None, 1));
    var taken := State(Store(Some(second), 2), map[0 := Idle, 1 := Idle], {None, Some(first), Some(second)});
    states := [
      START, State(Store(None, 0), map[0 := Writing(holder, None, false)], {None}), held,
      held.(clients := map[0 := Deleting(holder, first)]), free,
      free.(clients := map[0 := Idle, 1 := Writing(other, None, false)]), taken, taken];
    FirstTenure(holder);
    SecondTenure(holder, other);
    assert forall i :: 0 <= i < |events| ==> Leads(states[i], events[i], states[i + 1]);
  }

  /** Acquiring again does not write, so an earlier verdict still evicts the holder afterwards. */
  lemma ReacquiringKeepsVerdict(holder: string, other: string) returns (states: seq<State>, events: seq<Event>)
    requires holder != other
    ensures IsRun(states, events) && |events| == 6
    ensures Condemns(states[3], events[3])
    ensures Grants(states[4], events[4], holder) && ReadsDirectly(states[4], events[4])
    ensures Grants(states[5], events[5], other) && Owner(states[5]) == Some(holder)
  {
    var first := Lease(1, 1, Some(holder), Some(0));
    events := [
      AcquireReads(0, holder, None), AcquireWrites(0, 0, NoFault),
      AcquireReads(1, other, Some(first)), CheckAnswers(1, IsStale),
      AcquireReads(0, holder, Some(first)), AcquireWrites(1, 0, NoFault)];
    var s1 := Next(START, events[0]);
    var s2 := Next(s1, events[1]);
    assert s2.store.lease == Some(first);
    var s3 := Next(s2, events[2]);
    var s4 := Next(s3, events[3]);
    var s5 := Next(s4, events[4]);
    states := [START, s1, s2, s3, s4, s5, Next(s5, events[5])];
  }

  // ----- The operations are their steps -----

  /** AcquireLease by an idle client, with other clients leaving `others` in between, is its steps in order. */
  lemma AcquireIsItsSteps(s: State, c: nat, view: Option<Lease>, holder: string, check: Check, now: nat,
                          others: Store, fault: Fault)
    requires Inv(s) && PhaseOf(s, c).Idle? && view in s.past
    ensures var read := Next(s, AcquireReads(c, holder, view));
            var judged := if PhaseOf(read, c).Judging? then Next(read, CheckAnswers(c, check)) else read;
            var met := judged.(store := others);
            var write := AcquireWrites(c, now, fault);
            var effect := AcquireEffect(view, holder, check, now, others, fault);
            && (Enabled(met, write) <==> Verdict(HolderOf(view), holder, check).Done? && HolderOf(view) != Some(holder))
            && (Enabled(met, write) ==> && effect.0 == Next(met, write).store
                                        && (effect.1.Done? <==> Grants(met, write, holder)))
            && (!Enabled(met, write) ==> && effect.0 == others
                                         && (effect.1.Done? <==> Grants(s, AcquireReads(c, holder, view), holder)))
  {
  }

  lemma ReleaseIsItsSteps(s: State, c: nat, view: Option<Lease>, holder: string, others: Store, fault: Fault)
    requires Inv(s) && PhaseOf(s, c).Idle? && view in s.past
    ensures var met := Next(s, ReleaseReads(c, holder, view)).(store := others);
            var delete := ReleaseDeletes(c, fault);
            && ReleaseEffect(view, holder, others, fault).0
               == (if Enabled(met, delete) then Next(met, delete).store else others)
            && (Enabled(met, delete) <==> view.Some? && (view.value.holder.None? || view.value.holder == Some(holder)))
  {
  }
}
