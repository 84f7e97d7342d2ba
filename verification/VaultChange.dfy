/**
 * Changing the Vault credentials of pg_tde in two phases (internal/pgtde/postgres.go,
 * internal/controller/postgrescluster/postgres.go and instance.go).
 *
 * Instances mount the credentials of a Secret. A change stages the new ones on every data
 * volume, points the key provider at the staged copies, lets the Pods restart with the new
 * Secret, and then points the provider at the mount. A revision in the status tells which of
 * these steps are done. Hashes of different settings are taken to differ.
 */
module VaultChange {
  import opened Options
  import TDEVolume
  import VaultProvider

  // A key of a Secret. Two of them are taken to hold different values.
  datatype Secret = Secret(name: string, key: string)

  datatype Vault = Vault(host: string, mountPath: string, token: Secret, ca: Secret) {
    predicate HasCA() { ca.name != "" && ca.key != "" }
  }

  // The hashed content of a revision: the settings, with the paths of the mount or of the staged copies.
  datatype Revision = NoRevision | Standard(vault: Vault) | Temp(vault: Vault)

  datatype Phase = InitialSetup | Configured | StageCredentials | Finalize

  function PhaseOf(spec: Vault, revision: Revision): Phase {
    match revision
    case NoRevision => InitialSetup
    case Standard(v) => if v == spec then Configured else StageCredentials
    case Temp(v) => if v == spec then Finalize else StageCredentials
  }

  // The files with the token and the CA, in a mount or on a data volume, and the Secrets whose values they hold.
  datatype Files = Files(token: Option<Secret>, ca: Option<Secret>)

  const NO_FILES := Files(None, None)

  /** What a Pod with these settings mounts. Host and mount path of the Vault are not in it. */
  function Mount(v: Vault): Files { Files(Some(v.token), if v.HasCA() then Some(v.ca) else None) }

  predicate Hold(files: Files, v: Vault) { files.token == Some(v.token) && (v.HasCA() ==> files.ca == Some(v.ca)) }

  // What the key provider names: a vault, and the mounted credentials or the staged copies.
  datatype Names = Names(vault: Vault, staged: bool)

  // An instance: the files in its Pod template, the ones its Pod mounts, and the copies on its data volume.
  datatype Instance = Instance(template: Files, mounted: Files, staged: Files)

  // revision and ready are in the status: ready says that the condition PGTDEVaultProviderReady is True.
  datatype State = State(spec: Vault, revision: Revision, ready: bool, provider: Option<Names>,
      instances: seq<Instance>)

  predicate CanRead(names: Names, i: Instance) { Hold(if names.staged then i.staged else i.mounted, names.vault) }

  function Restarted(i: Instance): Instance { i.(mounted := i.template) }

  /** Also after a restart, which mounts what the template says. */
  predicate CanReadAgain(names: Names, i: Instance) { CanRead(names, i) && CanRead(names, Restarted(i)) }

  /** Every instance can fetch the key, now and when it restarts. */
  ghost predicate KeyIsReadable(s: State) {
    s.provider.Some? ==> forall i :: 0 <= i < |s.instances| ==> CanReadAgain(s.provider.value, s.instances[i])
  }

  // ----- Steps -----

  // How far staging gets on the instance where it stops: a file that is being written can be torn.
  datatype Write = Nothing | Token | TornToken | TornCA

  // How far a reconcile gets. It stops among the templates or while staging, its SQL fails, its
  // SQL works but reports an error, its status is lost after the SQL, or it finishes.
  datatype Progress =
    | Templates(n: nat) | Staged(n: nat, write: Write) | SQLFails | LosesReply | LosesStatus | Finishes

  // cleaned are the instances that a removal of the staged copies reaches. reports says that the
  // status of a failure is written.
  datatype Event =
    | EditSpec(vault: Vault)
    | Restarts(pods: set<nat>)
    | Reconcile(progress: Progress, cleaned: set<nat>, reports: bool)

  function NewTemplate(s: State, i: Instance): Instance {
    if PhaseOf(s.spec, s.revision).StageCredentials? then i else i.(template := Mount(s.spec))
  }

  /** The Pod templates of the first n instances; a change in phase 1 keeps the old volume. */
  function WithTemplates(s: State, n: nat): (r: seq<Instance>)
    ensures |r| == |s.instances|
    ensures forall i :: 0 <= i < |r| ==> r[i] == if i < n then NewTemplate(s, s.instances[i]) else s.instances[i]
  {
    seq(|s.instances|, i requires 0 <= i < |s.instances| => if i < n then NewTemplate(s, s.instances[i])
        else s.instances[i])
  }

  /** A CA from before stays where the new settings have none. */
  function Copied(files: Files, v: Vault): Files {
    Files(Some(v.token), if v.HasCA() then Some(v.ca) else files.ca)
  }

  function Written(files: Files, v: Vault, write: Write): Files {
    match write
    case Nothing => files
    case Token => files.(token := Some(v.token))
    case TornToken => files.(token := None)
    case TornCA => Files(Some(v.token), if v.HasCA() then None else files.ca)
  }

  /** The copies are complete on the first n instances, and the next one has what was written so far. */
  function WithStaged(instances: seq<Instance>, v: Vault, n: nat, write: Write): (r: seq<Instance>)
    ensures |r| == |instances|
    ensures forall i :: 0 <= i < |r| ==>
              r[i] == instances[i].(staged := if i < n then Copied(instances[i].staged, v)
                                              else if i == n then Written(instances[i].staged, v, write)
                                              else instances[i].staged)
  {
    seq(|instances|, i requires 0 <= i < |instances| =>
      instances[i].(staged := if i < n then Copied(instances[i].staged, v)
                              else if i == n then Written(instances[i].staged, v, write)
                              else instances[i].staged))
  }

  function Cleaned(s: State, cleaned: set<nat>): (r: State)
    ensures r == s.(instances := r.instances) && |r.instances| == |s.instances|
    ensures forall i :: 0 <= i < |s.instances| ==>
              r.instances[i] == if i in cleaned then s.instances[i].(staged := NO_FILES) else s.instances[i]
  {
    s.(instances := seq(|s.instances|, i requires 0 <= i < |s.instances| =>
      if i in cleaned then s.instances[i].(staged := NO_FILES) else s.instances[i]))
  }

  function WithRestarts(instances: seq<Instance>, pods: set<nat>): (r: seq<Instance>)
    ensures |r| == |instances|
    ensures forall i :: 0 <= i < |r| ==> r[i] == if i in pods then Restarted(instances[i]) else instances[i]
  {
    seq(|instances|, i requires 0 <= i < |instances| => if i in pods then Restarted(instances[i]) else instances[i])
  }

  predicate AllMatch(instances: seq<Instance>) {
    forall i :: 0 <= i < |instances| ==> instances[i].mounted == instances[i].template
  }

  function Failed(s: State, reports: bool): State { if reports then s.(ready := false) else s }

  /** With a revision recorded the provider is changed, which fails where there is none. */
  predicate Refused(s: State) { s.provider.None? && !s.revision.NoRevision? }

  function Repointed(s: State, staged: bool, progress: Progress, reports: bool): State {
    var done := s.(provider := Some(Names(s.spec, staged)));
    if progress.SQLFails? || Refused(s) then Failed(s, reports)
    else if progress.LosesReply? then Failed(done, reports)
    else if progress.LosesStatus? then done
    else done.(revision := if staged then Temp(s.spec) else Standard(s.spec), ready := !staged)
  }

  function Providers(s: State, progress: Progress, cleaned: set<nat>, reports: bool): State {
    if !AllMatch(s.instances) then s
    else match PhaseOf(s.spec, s.revision)
      case InitialSetup => Repointed(s, false, progress, reports)
      // Staged copies are removed only on the way to a condition that is not True yet.
      case Configured => if s.ready then s else Cleaned(s, cleaned).(ready := !progress.LosesStatus?)
      case Finalize =>
        var done := Repointed(s, false, progress, reports);
        if progress.SQLFails? || progress.LosesReply? || Refused(s) then done else Cleaned(done, cleaned)
      case StageCredentials =>
        if progress.Staged? then
          Failed(s.(instances := WithStaged(s.instances, s.spec, progress.n, progress.write)), reports)
        else
          Repointed(s.(instances := WithStaged(s.instances, s.spec, |s.instances|, Nothing)), true, progress, reports)
  }

  function Next(s: State, e: Event): State {
    match e
    case EditSpec(v) => s.(spec := v)
    case Restarts(pods) => s.(instances := WithRestarts(s.instances, pods))
    case Reconcile(progress, cleaned, reports) =>
      if progress.Templates? then s.(instances := WithTemplates(s, progress.n))
      else Providers(s.(instances := WithTemplates(s, |s.instances|)), progress, cleaned, reports)
  }

  // ----- When the key stays readable -----

  /** Staging these settings over the copies of a vault keeps what the provider reads of it. */
  predicate KeepsCopies(spec: Vault, vault: Vault) {
    spec.token == vault.token && (spec.HasCA() && vault.HasCA() ==> spec.ca == vault.ca)
  }

  /** What spec, recorded revision, provider and condition tell about the reconciles to come. */
  predicate IsSafe(s: State, torn: bool) {
    s.provider.None? ||
    var names := s.provider.value;
    if PhaseOf(s.spec, s.revision).StageCredentials? then !torn && (names.staged ==> KeepsCopies(s.spec, names.vault))
    else if names.staged then PhaseOf(s.spec, s.revision).Configured? ==> s.ready
    else Hold(Mount(s.spec), names.vault)
  }

  predicate Tears(e: Event) {
    e.Reconcile? && e.progress.Staged? && (e.progress.write.TornToken? || e.progress.write.TornCA?)
  }

  predicate NamesCopies(s: State) { s.provider.Some? && s.provider.value.staged }

  lemma TemplatesKeepKey(s: State, n: nat)
    requires KeyIsReadable(s) && IsSafe(s, false)
    ensures KeyIsReadable(s.(instances := WithTemplates(s, n)))
  {
  }

  lemma ProvidersKeepKey(s: State, e: Event, torn: bool)
    requires e.Reconcile? && !e.progress.Templates? && KeyIsReadable(s) && IsSafe(s, torn)
    requires Tears(e) ==> torn || !NamesCopies(s)
    requires !PhaseOf(s.spec, s.revision).StageCredentials? ==>
               forall i :: 0 <= i < |s.instances| ==> s.instances[i].template == Mount(s.spec)
    ensures var t := Providers(s, e.progress, e.cleaned, e.reports); KeyIsReadable(t) && IsSafe(t, torn)
  {
    hide KeyIsReadable;
    var t := Providers(s, e.progress, e.cleaned, e.reports);
    if AllMatch(s.instances) {
      match PhaseOf(s.spec, s.revision)
      case Configured =>
        if !s.ready {
          CleaningKeepsKey(s, e.cleaned);
          SameKey(Cleaned(s, e.cleaned), t);
        }
      case StageCredentials =>
        if e.progress.Staged? {
          StagingKeepsKey(s, e.progress.n, e.progress.write);
          SameKey(s.(instances := WithStaged(s.instances, s.spec, e.progress.n, e.progress.write)), t);
        } else {
          StagingKeepsKey(s, |s.instances|, Nothing);
          RepointingKeepsKey(s.(instances := WithStaged(s.instances, s.spec, |s.instances|, Nothing)), true, e);
        }
      case _ =>
        RepointingKeepsKey(s, false, e);
        var done := Repointed(s, false, e.progress, e.reports);
        if !NamesCopies(done) { CleaningKeepsKey(done, e.cleaned); }
    }
  }

  /** Where the copies or the mounts are those of the spec, the provider may be pointed at them. */
  lemma RepointingKeepsKey(s: State, staged: bool, e: Event)
    requires e.Reconcile? && KeyIsReadable(s)
    requires forall i :: 0 <= i < |s.instances| ==> CanReadAgain(Names(s.spec, staged), s.instances[i])
    ensures KeyIsReadable(Repointed(s, staged, e.progress, e.reports))
  {
  }

  lemma CleaningKeepsKey(s: State, cleaned: set<nat>)
    requires KeyIsReadable(s) && !NamesCopies(s)
    ensures KeyIsReadable(Cleaned(s, cleaned))
  {
  }

  lemma SameKey(s: State, t: State)
    requires s.provider == t.provider && s.instances == t.instances
    ensures KeyIsReadable(s) <==> KeyIsReadable(t)
  {
  }

  lemma StagingKeepsKey(s: State, n: nat, write: Write)
    requires KeyIsReadable(s) && PhaseOf(s.spec, s.revision).StageCredentials?
    requires NamesCopies(s) ==> KeepsCopies(s.spec, s.provider.value.vault) && !write.TornToken? && !write.TornCA?
    ensures KeyIsReadable(s.(instances := WithStaged(s.instances, s.spec, n, write)))
  {
  }

  lemma StepKeepsKey(s: State, e: Event, torn: bool)
    requires KeyIsReadable(s) && IsSafe(s, torn)
    requires e.EditSpec? ==> IsSafe(s.(spec := e.vault), torn)
    requires Tears(e) ==> torn || !NamesCopies(s)
    ensures KeyIsReadable(Next(s, e)) && IsSafe(Next(s, e), torn)
  {
    hide Providers, KeyIsReadable;
    match e
    case EditSpec(v) => SameProvider(s, v);
    case Restarts(pods) => RestartsKeepKey(s, pods);
    case Reconcile(progress, _, _) =>
      TemplatesKeepKey(s, if progress.Templates? then progress.n else |s.instances|);
      if !progress.Templates? {
        ProvidersKeepKey(s.(instances := WithTemplates(s, |s.instances|)), e, torn);
      }
  }

  lemma SameProvider(s: State, v: Vault)
    ensures KeyIsReadable(s.(spec := v)) <==> KeyIsReadable(s)
  {
  }

  lemma RestartsKeepKey(s: State, pods: set<nat>)
    requires KeyIsReadable(s)
    ensures KeyIsReadable(s.(instances := WithRestarts(s.instances, pods)))
  {
  }

  function After(s: State, events: seq<Event>): State
    decreases |events|
  {
    if events == [] then s else After(Next(s, events[0]), events[1..])
  }

  /** Restarts and reconciles, and files are torn only if torn says so. */
  ghost predicate WithoutEdits(events: seq<Event>, torn: bool) {
    forall i :: 0 <= i < |events| ==> !events[i].EditSpec? && (Tears(events[i]) ==> torn)
  }

  lemma {:induction false} SafeStaysReadable(s: State, events: seq<Event>, torn: bool)
    requires KeyIsReadable(s) && IsSafe(s, torn) && WithoutEdits(events, torn)
    ensures KeyIsReadable(After(s, events))
    decreases |events|
  {
    hide Next, IsSafe, KeyIsReadable;
    if events != [] {
      StepKeepsKey(s, events[0], torn);
      SafeStaysReadable(Next(s, events[0]), events[1..], torn);
    }
  }

  function Below(n: nat): (r: set<nat>)
    ensures forall i: nat :: i in r <==> i < n
  {
    if n == 0 then {} else Below(n - 1) + {n - 1}
  }

  function All(s: State): set<nat> { Below(|s.instances|) }

  /** The templates are written and every Pod restarts. */
  lemma Rolled(s: State) returns (t: State)
    ensures t == After(s, [Reconcile(Templates(|s.instances|), {}, true), Restarts(All(s))])
    ensures t == s.(instances := t.instances) && |t.instances| == |s.instances| && AllMatch(t.instances)
    ensures forall i :: 0 <= i < |t.instances| ==> t.instances[i] == Restarted(NewTemplate(s, s.instances[i]))
    ensures WithTemplates(t, |t.instances|) == t.instances
  {
    var first, second := Reconcile(Templates(|s.instances|), {}, true), Restarts(All(s));
    assert [first, second][1..] == [second];
    t := Next(Next(s, first), second);
    assert After(s, [first, second]) == After(Next(s, first), [second]) == After(t, []);
  }

  /** From an unsafe state a reconcile, restarts and at most two more reconciles lose the key. */
  lemma UnsafeLosesKey(s: State, torn: bool) returns (events: seq<Event>)
    requires s.instances != [] && KeyIsReadable(s) && !IsSafe(s, torn)
    ensures WithoutEdits(events, torn) && !KeyIsReadable(After(s, events))
  {
    hide KeyIsReadable, After, WithTemplates;
    var roll := [Reconcile(Templates(|s.instances|), {}, true), Restarts(All(s))];
    var t := Rolled(s);
    var names := s.provider.value;
    if !PhaseOf(s.spec, s.revision).StageCredentials? && !names.staged {
      events := roll;
      Unreadable(t);
    } else if !PhaseOf(s.spec, s.revision).StageCredentials? {
      events := roll + [Reconcile(Finishes, {0}, true)];
      AfterMore(s, roll, events[2]);
      Unreadable(Next(t, events[2]));
    } else if names.staged {
      events := roll + [Reconcile(if torn then Staged(0, TornToken) else Staged(1, Nothing), {}, true)];
      AfterMore(s, roll, events[2]);
      Unreadable(Next(t, events[2]));
    } else {
      events := roll + [Reconcile(LosesStatus, {}, true)];
      AfterMore(s, roll, events[2]);
      var u := Next(t, events[2]);
      assert u == t.(instances := u.instances, provider := Some(Names(s.spec, true)));
      assert WithTemplates(u, |u.instances|) == u.instances;
      var tear := Reconcile(Staged(0, TornToken), {}, true);
      AfterMore(s, events, tear);
      events := events + [tear];
      Unreadable(Next(u, tear));
    }
  }

  lemma Unreadable(s: State)
    requires s.provider.Some? && s.instances != [] && !CanRead(s.provider.value, s.instances[0])
    ensures !KeyIsReadable(s)
  {
    assert !CanReadAgain(s.provider.value, s.instances[0]);
  }

  lemma {:induction false} AfterMore(s: State, events: seq<Event>, e: Event)
    ensures After(s, events + [e]) == Next(After(s, events), e)
    decreases |events|
  {
    hide Next;
    if events == [] {
      assert [e][1..] == [];
      assert After(s, [e]) == After(Next(s, e), []);
    } else {
      AfterMore(Next(s, events[0]), events[1..], e);
      assert (events + [e])[1..] == events[1..] + [e];
    }
  }

  /**
   * The key stays readable through all restarts and reconciles to come, wherever they fail and
   * whatever replies and status get lost, exactly if the state is safe. This is for every
   * state, also one whose recorded revision lags behind.
   */
  lemma StaysReadableExactlyWhenSafe(s: State, torn: bool)
    requires s.instances != [] && KeyIsReadable(s)
    ensures (forall events: seq<Event> :: WithoutEdits(events, torn) ==> KeyIsReadable(After(s, events)))
            <==> IsSafe(s, torn)
  {
    hide KeyIsReadable, IsSafe, After, WithoutEdits;
    if IsSafe(s, torn) {
      forall events: seq<Event> | WithoutEdits(events, torn)
        ensures KeyIsReadable(After(s, events))
      {
        SafeStaysReadable(s, events, torn);
      }
    } else {
      var events := UnsafeLosesKey(s, torn);
    }
  }

  // ----- Whole runs -----

  ghost predicate IsRun(states: seq<State>, events: seq<Event>) {
    && |states| == |events| + 1
    && states[0].revision.NoRevision? && states[0].provider.None?
    && forall k :: 0 <= k < |events| ==> states[k + 1] == Next(states[k], events[k])
  }

  /** What the revision tells about the provider, although it may lag behind. */
  predicate Recorded(s: State) {
    if s.provider.None? then s.revision.NoRevision?
    else if s.provider.value.staged then !s.revision.NoRevision?
    else s.revision.NoRevision? || s.provider.value.vault == s.revision.vault
  }

  lemma StepKeepsRecorded(s: State, e: Event)
    requires Recorded(s)
    ensures Recorded(Next(s, e))
  {
  }

  ghost predicate Inv(s: State) { KeyIsReadable(s) && IsSafe(s, false) && Recorded(s) }

  /** Edits lead to safe states, and no file is torn while the provider names the copies. */
  predicate IsCareful(s: State, e: Event) {
    && (e.EditSpec? ==> IsSafe(s.(spec := e.vault), false))
    && (Tears(e) ==> !NamesCopies(s))
  }

  /**
   * In every run, wherever reconciles stop and whatever replies and status get lost, every
   * instance can always fetch the key, if the spec is edited carefully.
   */
  lemma {:induction false} KeyStaysReadable(states: seq<State>, events: seq<Event>, k: nat)
    requires IsRun(states, events) && k < |states|
    requires forall j :: 0 <= j < k ==> IsCareful(states[j], events[j])
    ensures Inv(states[k]) && KeyIsReadable(states[k])
  {
    hide Next, IsSafe, Recorded;
    if k > 0 {
      KeyStaysReadable(states, events, k - 1);
      StepKeepsKey(states[k - 1], events[k - 1], false);
      StepKeepsRecorded(states[k - 1], events[k - 1]);
    } else {
      assert IsSafe(states[0], false) && Recorded(states[0]) by {
        NothingIsSafe(states[0]);
      }
    }
  }

  lemma NothingIsSafe(s: State)
    requires s.revision.NoRevision? && s.provider.None?
    ensures IsSafe(s, false) && Recorded(s)
  {
  }

  /**
   * The spec may be edited to anything while the provider names mounted credentials and a
   * revision is recorded, or before there is a provider.
   */
  predicate MayEdit(s: State) {
    s.provider.None? || (!s.provider.value.staged && !s.revision.NoRevision?)
  }

  /** Settings with a token of their own. */
  function OtherVault(a: Vault, b: Vault): (c: Vault)
    ensures c.token != a.token && c.token != b.token
  {
    a.(token := Secret(a.token.name + b.token.name + "x", ""))
  }

  lemma EveryEditIsSafeExactlyWhenAllowed(s: State)
    requires Inv(s)
    ensures (forall v: Vault :: IsSafe(s.(spec := v), false)) <==> MayEdit(s)
  {
    if !MayEdit(s) {
      var v := OtherVault(s.provider.value.vault, if s.revision.NoRevision? then s.spec else s.revision.vault);
      assert !IsSafe(s.(spec := v), false);
    }
  }

  /** With the revision of the spec recorded, exactly the changes that are not stuck may be edited to anything. */
  lemma ConfiguredMayBeEdited(s: State)
    requires Inv(s) && PhaseOf(s.spec, s.revision).Configured?
    ensures MayEdit(s) <==> !Stuck(s)
  {
  }

  /** The volume is never released before the provider has been pointed elsewhere. */
  lemma VolumeIsHeld(s: State, i: nat, e: Event)
    requires Inv(s) && i < |s.instances| && s.provider.Some? && !s.provider.value.staged && e.Reconcile?
    ensures Hold(Next(s, e).instances[i].template, s.provider.value.vault)
  {
    assert CanReadAgain(s.provider.value, s.instances[i]);
  }

  // ----- Progress -----

  /** A reconcile that finishes, and a restart of every Pod. */
  function Round(s: State): State { Next(Next(s, Reconcile(Finishes, All(s), true)), Restarts(All(s))) }

  predicate Settled(s: State) {
    && s.revision == Standard(s.spec) && s.provider == Some(Names(s.spec, false)) && Fresh(s)
  }

  /** The templates and Pods carry the Secret of the spec. */
  predicate Fresh(s: State) {
    forall i :: 0 <= i < |s.instances| ==> s.instances[i].template == s.instances[i].mounted == Mount(s.spec)
  }

  /**
   * The revision tells that the spec is configured, but the provider names something else. Or
   * there is a revision and no provider.
   */
  predicate Stuck(s: State) {
    (s.revision == Standard(s.spec) && s.provider != Some(Names(s.spec, false))) || Refused(s)
  }

  lemma RoundMatches(s: State)
    ensures AllMatch(Round(s).instances) && Round(s).spec == s.spec && (Stuck(Round(s)) <==> Stuck(s))
  {
  }

  lemma RoundAdvances(s: State)
    requires AllMatch(s.instances) && !Stuck(s)
    ensures PhaseOf(s.spec, s.revision).StageCredentials? ==> Round(s).revision == Temp(s.spec)
    ensures (s.revision.NoRevision? || s.revision == Temp(s.spec)) ==>
              Settled(Round(s)) || (Round(s).revision == s.revision && Fresh(Round(s)))
    ensures (s.revision.NoRevision? || s.revision == Temp(s.spec)) && Fresh(s) ==> Settled(Round(s))
    ensures s.revision == Standard(s.spec) ==> Settled(Round(s))
  {
  }

  /**
   * From every state, however a change was interrupted and whatever was lost, four rounds settle
   * it exactly if it is not stuck.
   */
  lemma FourRoundsSettle(s: State)
    ensures Settled(Round(Round(Round(Round(s))))) <==> !Stuck(s)
  {
    hide Round, Settled, Fresh, AllMatch;
    var s1 := Round(s);
    var s2 := Round(s1);
    var s3 := Round(s2);
    RoundMatches(s);
    RoundMatches(s1);
    RoundMatches(s2);
    RoundMatches(s3);
    if Stuck(s) {
      StuckIsNotSettled(Round(s3));
    } else {
      RoundAdvances(s1);
      if Settled(s2) {
        SettledStays(s2);
        SettledStays(s3);
      } else {
        RoundAdvances(s2);
        if Settled(s3) {
          SettledStays(s3);
        } else {
          RoundAdvances(s3);
        }
      }
    }
  }

  lemma StuckIsNotSettled(s: State)
    requires Stuck(s)
    ensures !Settled(s)
  {
  }

  lemma SettledStays(s: State)
    requires Settled(s)
    ensures Settled(Round(s))
  {
  }

  /** The spec is edited only while it may be edited to anything. */
  predicate IsPatient(s: State, e: Event) {
    (e.EditSpec? ==> MayEdit(s)) && (Tears(e) ==> !NamesCopies(s))
  }

  lemma PatientStepIsNotStuck(s: State, e: Event)
    requires Recorded(s) && !Stuck(s) && IsPatient(s, e)
    ensures !Stuck(Next(s, e))
  {
  }

  /** In every run with such edits four rounds settle the spec, from any moment on. */
  lemma {:induction false} PatientRunsSettle(states: seq<State>, events: seq<Event>, k: nat)
    requires IsRun(states, events) && k < |states|
    requires forall j :: 0 <= j < k ==> IsPatient(states[j], events[j])
    ensures Inv(states[k]) && !Stuck(states[k]) && Settled(Round(Round(Round(Round(states[k])))))
  {
    hide Next, Round, Settled, IsSafe, MayEdit, KeyIsReadable;
    if k > 0 {
      PatientRunsSettle(states, events, k - 1);
      var s, e := states[k - 1], events[k - 1];
      if e.EditSpec? { EveryEditIsSafeExactlyWhenAllowed(s); }
      StepKeepsKey(s, e, false);
      StepKeepsRecorded(s, e);
      PatientStepIsNotStuck(s, e);
    } else {
      KeyStaysReadable(states, events, 0);
    }
    FourRoundsSettle(states[k]);
  }

  // ----- The statements and the volume -----

  const TOKEN_COPY := "/pgdata/tde-new-token"
  const CA_COPY := "/pgdata/tde-new-ca.crt"
  const MOUNT_PATH := "/pgconf/tde/"

  function ProviderOf(names: Names): VaultProvider.Provider {
    var v := names.vault;
    VaultProvider.Provider(v.host, v.mountPath, if names.staged then TOKEN_COPY else MOUNT_PATH + v.token.key,
      if !v.HasCA() then "" else if names.staged then CA_COPY else MOUNT_PATH + v.ca.key)
  }

  function Named(provider: Option<Names>): Option<VaultProvider.Provider> {
    if provider.None? then None else Some(ProviderOf(provider.value))
  }

  /** The statements, each of which may fail, repoint the provider as a step of the runs does. */
  method Repoint(db: VaultProvider.PostgreSQL, s: State, staged: bool, key: string, f: VaultProvider.Faults)
    returns (progress: Progress)
    requires db.tde.provider == Named(s.provider)
    modifies db
    ensures progress.SQLFails? || progress.LosesReply? || progress.Finishes?
    ensures forall reports :: db.tde.provider == Named(Repointed(s, staged, progress, reports).provider)
    ensures progress.Finishes? <==> old(VaultProvider.Succeeds(db.tde, ProviderOf(Names(s.spec, staged)), key,
                                                               !s.revision.NoRevision?, f))
  {
    var spec := ProviderOf(Names(s.spec, staged));
    var outcome := VaultProvider.ReconcileVaultProvider(db, !s.revision.NoRevision?, spec, key, f);
    progress := if outcome.Done? then Finishes else if db.tde.provider == Some(spec) then LosesReply else SQLFails;
  }

  /** The volume of a Pod spec, where content tells how the files of a volume are written down. */
  ghost predicate HasVolume(volumes: seq<TDEVolume.Named>, content: Files -> string, files: Files) {
    TDEVolume.Find(volumes, TDEVolume.VOLUME) == Some(TDEVolume.Named(TDEVolume.VOLUME, content(files)))
  }

  /** Preserving the old volume in phase 1, and only then, gives the template that a step of the runs gives. */
  lemma TemplateHasVolume(s: State, i: Instance, content: Files -> string, volumes: seq<TDEVolume.Named>,
      existing: seq<TDEVolume.Named>)
    requires HasVolume(volumes, content, Mount(s.spec)) && HasVolume(existing, content, i.template)
    ensures var kept := TDEVolume.Find(existing, TDEVolume.VOLUME);
            HasVolume(if PhaseOf(s.spec, s.revision).StageCredentials? then TDEVolume.KeptVolumes(volumes, kept)
                      else volumes, content, NewTemplate(s, i).template)
  {
    TDEVolume.PutIsFound(volumes, TDEVolume.Find(existing, TDEVolume.VOLUME).value);
  }

  // ----- Where the key is lost -----

  /** An edit to settings with other credentials while the provider names the staged copies. */
  lemma EditDuringChangeLosesKey(a: Vault, b: Vault, c: Vault) returns (states: seq<State>, events: seq<Event>)
    requires a != b && !KeepsCopies(c, b)
    ensures IsRun(states, events) && |events| == 5
    ensures events[3].EditSpec? && !IsCareful(states[3], events[3])
    ensures forall j :: 0 <= j < 5 && j != 3 ==> IsCareful(states[j], events[j])
    ensures !KeyIsReadable(states[5])
  {
    var start := State(a, NoRevision, false, None, [Instance(Mount(a), Mount(a), NO_FILES)]);
    events := [Reconcile(Finishes, {0}, true), EditSpec(b), Reconcile(Finishes, {0}, true), EditSpec(c),
        Reconcile(Staged(1, Nothing), {0}, true)];
    var s1 := Next(start, events[0]);
    assert s1 == State(a, Standard(a), true, Some(Names(a, false)), [Instance(Mount(a), Mount(a), NO_FILES)]);
    var s2 := Next(s1, events[1]);
    var s3 := Next(s2, events[2]);
    assert s3 == State(b, Temp(b), false, Some(Names(b, true)), [Instance(Mount(a), Mount(a), Mount(b))]);
    var s4 := Next(s3, events[3]);
    var s5 := Next(s4, events[4]);
    assert s5.instances == [Instance(Mount(a), Mount(a), Copied(Mount(b), c))];
    assert !CanReadAgain(s5.provider.value, s5.instances[0]);
    states := [start, s1, s2, s3, s4, s5];
  }

  /**
   * Phase 1 fails once and says so, its second try loses the status, and the spec goes back. The
   * recorded revision is the one of the spec, so the copies that the provider names are removed.
   */
  lemma LostStatusLosesKey(a: Vault, b: Vault) returns (states: seq<State>, events: seq<Event>)
    requires a != b
    ensures IsRun(states, events) && |events| == 6
    ensures events[4] == EditSpec(a) && !IsCareful(states[4], events[4])
    ensures forall j :: 0 <= j < 6 && j != 4 ==> IsCareful(states[j], events[j])
    ensures PhaseOf(states[5].spec, states[5].revision).Configured? && Stuck(states[5]) && !KeyIsReadable(states[6])
  {
    var start := State(a, NoRevision, false, None, [Instance(Mount(a), Mount(a), NO_FILES)]);
    events := [Reconcile(Finishes, {0}, true), EditSpec(b), Reconcile(SQLFails, {0}, true),
        Reconcile(LosesStatus, {0}, true), EditSpec(a), Reconcile(Finishes, {0}, true)];
    var s1 := Next(start, events[0]);
    assert s1 == State(a, Standard(a), true, Some(Names(a, false)), [Instance(Mount(a), Mount(a), NO_FILES)]);
    var s2 := Next(s1, events[1]);
    var s3 := Next(s2, events[2]);
    assert s3 == State(b, Standard(a), false, Some(Names(a, false)), [Instance(Mount(a), Mount(a), Mount(b))]);
    var s4 := Next(s3, events[3]);
    assert s4 == State(b, Standard(a), false, Some(Names(b, true)), [Instance(Mount(a), Mount(a), Mount(b))]);
    var s5 := Next(s4, events[4]);
    var s6 := Next(s5, events[5]);
    assert s6.instances == [Instance(Mount(a), Mount(a), NO_FILES)];
    assert !CanReadAgain(s6.provider.value, s6.instances[0]);
    states := [start, s1, s2, s3, s4, s5, s6];
  }

  /** Phase 1 loses the status, so it is repeated, and tears the copy of the token that the provider names. */
  lemma TornCopyLosesKey(a: Vault, b: Vault) returns (states: seq<State>, events: seq<Event>)
    requires a != b
    ensures IsRun(states, events) && |events| == 4
    ensures events[1] == EditSpec(b) && IsCareful(states[1], events[1])
    ensures Tears(events[3]) && !KeyIsReadable(states[4])
  {
    var start := State(a, NoRevision, false, None, [Instance(Mount(a), Mount(a), NO_FILES)]);
    events := [Reconcile(Finishes, {0}, true), EditSpec(b), Reconcile(LosesStatus, {0}, true),
        Reconcile(Staged(0, TornToken), {0}, true)];
    var s1 := Next(start, events[0]);
    assert s1 == State(a, Standard(a), true, Some(Names(a, false)), [Instance(Mount(a), Mount(a), NO_FILES)]);
    var s2 := Next(s1, events[1]);
    var s3 := Next(s2, events[2]);
    assert s3 == State(b, Standard(a), true, Some(Names(b, true)), [Instance(Mount(a), Mount(a), Mount(b))]);
    var s4 := Next(s3, events[3]);
    assert !CanReadAgain(s4.provider.value, s4.instances[0]);
    states := [start, s1, s2, s3, s4];
  }
}
