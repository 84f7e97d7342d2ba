/** Driving pg_tde's key provider towards the spec by statements that may each fail (internal/pgtde/postgres.go). */
module VaultProvider {
  import opened Options

  // Where the provider looks: the vault, and the files with its credentials.
  datatype Provider = Provider(host: string, mountPath: string, tokenPath: string, caPath: string)

  // A key lives in a vault.
  datatype Key = Key(host: string, mountPath: string, name: string)

  datatype TDE = TDE(provider: Option<Provider>, keys: set<Key>, defaultKey: Option<string>)

  // A statement can fail without effect, or lose its connection once it took effect.
  datatype Fault = NoFault | FailsBefore | FailsAfter

  datatype Faults = Faults(add: Fault, change: Fault, create: Fault, setDefault: Fault)

  const NO_FAULTS := Faults(NoFault, NoFault, NoFault, NoFault)

  datatype Outcome = Done | AddFailed | ChangeFailed | CreateFailed | SetFailed

  function KeyAt(p: Provider, name: string): Key { Key(p.host, p.mountPath, name) }

  /** The state after a statement that PostgreSQL accepts or refuses, and whether it reported success. */
  function Run(before: TDE, after: TDE, accepted: bool, fault: Fault): (TDE, bool) {
    if !accepted || fault.FailsBefore? then (before, false) else (after, fault.NoFault?)
  }

  /** A provider can be added only where there is none. */
  function Add(t: TDE, p: Provider, fault: Fault): (TDE, bool) {
    Run(t, t.(provider := Some(p)), t.provider.None?, fault)
  }

  function Change(t: TDE, p: Provider, fault: Fault): (TDE, bool) {
    Run(t, t.(provider := Some(p)), t.provider.Some?, fault)
  }

  /** A key can be created only once in the vault of the provider. */
  function Create(t: TDE, name: string, fault: Fault): (TDE, bool) {
    if t.provider.None? then (t, false)
    else Run(t, t.(keys := t.keys + {KeyAt(t.provider.value, name)}), KeyAt(t.provider.value, name) !in t.keys, fault)
  }

  function SetDefault(t: TDE, name: string, fault: Fault): (TDE, bool) {
    if t.provider.None? then (t, false)
    else Run(t, t.(defaultKey := Some(name)), KeyAt(t.provider.value, name) in t.keys, fault)
  }

  class PostgreSQL {
    var tde: TDE

    constructor (t: TDE)
      ensures tde == t
    {
      tde := t;
    }

    method AddProvider(p: Provider, fault: Fault) returns (ok: bool)
      modifies this
      ensures (tde, ok) == Add(old(tde), p, fault)
    {
      var r := Add(tde, p, fault);
      tde, ok := r.0, r.1;
    }

    method ChangeProvider(p: Provider, fault: Fault) returns (ok: bool)
      modifies this
      ensures (tde, ok) == Change(old(tde), p, fault)
    {
      var r := Change(tde, p, fault);
      tde, ok := r.0, r.1;
    }

    method CreateKey(name: string, fault: Fault) returns (ok: bool)
      modifies this
      ensures (tde, ok) == Create(old(tde), name, fault)
    {
      var r := Create(tde, name, fault);
      tde, ok := r.0, r.1;
    }

    method SetDefaultKey(name: string, fault: Fault) returns (ok: bool)
      modifies this
      ensures (tde, ok) == SetDefault(old(tde), name, fault)
    {
      var r := SetDefault(tde, name, fault);
      tde, ok := r.0, r.1;
    }
  }

  /** The provider and the default key are the ones of the spec, and the key can be fetched. */
  predicate Ready(t: TDE, spec: Provider, key: string) {
    t.provider == Some(spec) && t.defaultKey == Some(key) && KeyAt(spec, key) in t.keys
  }

  /**
   * The provider is pointed at the spec by one of two statements, and the key is usable or not.
   * Which statements fail decides the outcome; what was there before only decides which of them
   * PostgreSQL accepts.
   */
  predicate Succeeds(t: TDE, spec: Provider, key: string, configured: bool, f: Faults) {
    var added := t.provider.None? && f.add.NoFault?;
    var changed := (t.provider.Some? || f.add.FailsAfter?) && f.change.NoFault?;
    if configured then t.provider.Some? && f.change.NoFault?
    else && (added || changed)
         && (KeyAt(spec, key) in t.keys || !f.create.FailsBefore?)
         && f.setDefault.NoFault?
  }

  /**
   * Sets up the provider and the default key, or only repoints the provider of a cluster that
   * is configured already.
   */
  method ReconcileVaultProvider(db: PostgreSQL, configured: bool, spec: Provider, key: string, f: Faults)
    returns (outcome: Outcome)
    modifies db
    ensures outcome.Done? <==> old(Succeeds(db.tde, spec, key, configured, f))
    ensures outcome.Done? ==> db.tde.provider == Some(spec) && (!configured ==> Ready(db.tde, spec, key))
    // Retries converge: an error leaves the provider as it was or as the spec has it.
    ensures db.tde.provider == old(db.tde.provider) || db.tde.provider == Some(spec)
    ensures old(db.tde.keys) <= db.tde.keys <= old(db.tde.keys) + {KeyAt(spec, key)}
    ensures db.tde.defaultKey == old(db.tde.defaultKey) || Ready(db.tde, spec, key)
    ensures configured ==> db.tde == old(db.tde).(provider := db.tde.provider)
    ensures configured && old(db.tde.provider.None?) ==> db.tde == old(db.tde)
    // The first failure is the one that is reported.
    ensures !configured ==> (outcome.AddFailed? <==>
              !old((db.tde.provider.None? && f.add.NoFault?)
                   || ((db.tde.provider.Some? || f.add.FailsAfter?) && f.change.NoFault?)))
    ensures outcome.ChangeFailed? <==> configured && !old(Succeeds(db.tde, spec, key, configured, f))
    ensures outcome.SetFailed? ==> old(KeyAt(spec, key) !in db.tde.keys) && f.create.NoFault?
  {
    if configured {
      var ok := db.ChangeProvider(spec, f.change);
      return if ok then Done else ChangeFailed;
    }
    var added := db.AddProvider(spec, f.add);
    if !added {
      var changed := db.ChangeProvider(spec, f.change);
      if !changed {
        return AddFailed;
      }
    }
    var created := db.CreateKey(key, f.create);
    var set_ := db.SetDefaultKey(key, f.setDefault);
    if !set_ {
      return if !created then CreateFailed else SetFailed;
    }
    return Done;
  }

  /** No fault means success, from any state; a configured cluster needs a provider to change. */
  lemma WithoutFaultsItSucceeds(t: TDE, spec: Provider, key: string)
    ensures Succeeds(t, spec, key, false, NO_FAULTS)
    ensures Succeeds(t, spec, key, true, NO_FAULTS) <==> t.provider.Some?
  {
  }

  /**
   * Reconciles until one try succeeds. Whatever an older cluster left behind, failed tries leave
   * the provider as it was or as the spec has it, add no key but the cluster's, and are over with
   * the first one in which nothing fails.
   */
  method RetryUntilItWorks(db: PostgreSQL, spec: Provider, key: string, tries: seq<Faults>) returns (done: bool)
    modifies db
    ensures done ==> Ready(db.tde, spec, key)
    ensures NO_FAULTS in tries ==> done
    ensures db.tde.provider == old(db.tde.provider) || db.tde.provider == Some(spec)
    ensures old(db.tde.keys) <= db.tde.keys <= old(db.tde.keys) + {KeyAt(spec, key)}
    ensures db.tde.defaultKey == old(db.tde.defaultKey) || db.tde.defaultKey == Some(key)
  {
    for i := 0 to |tries|
      invariant NO_FAULTS !in tries[..i]
      invariant db.tde.provider == old(db.tde.provider) || db.tde.provider == Some(spec)
      invariant old(db.tde.keys) <= db.tde.keys <= old(db.tde.keys) + {KeyAt(spec, key)}
      invariant db.tde.defaultKey == old(db.tde.defaultKey) || db.tde.defaultKey == Some(key)
    {
      WithoutFaultsItSucceeds(db.tde, spec, key);
      var outcome := ReconcileVaultProvider(db, false, spec, key, tries[i]);
      if outcome.Done? {
        return true;
      }
      assert tries[..i + 1] == tries[..i] + [tries[i]];
    }
    assert tries[..|tries|] == tries;
    return false;
  }
}
