/** The cert-manager objects of a cluster (percona/certmanager/certmanager.go). */
module CertManager {
  import opened Options

  datatype OwnerRef = OwnerRef(group: string, kind: string, name: string, uid: string)

  datatype IssuerRef = IssuerRef(name: string, kind: string, group: string)

  datatype IssuerSpec = SelfSigned | SignedBy(caSecret: string) | OtherSpec(text: string)

  // managed says that the object carries the operator's managed-by label.
  datatype Issuer = Issuer(owners: seq<OwnerRef>, managed: bool, spec: IssuerSpec)

  // rest is every other field of the Certificate.
  datatype Certificate = Certificate(owners: seq<OwnerRef>, duration: Option<int>, issuer: IssuerRef, rest: string)

  // What the API server holds. Issuers and Certificates have a namespace. writes counts accepted requests.
  datatype Api = Api(clusterIssuers: map<string, Issuer>, issuers: map<(string, string), Issuer>,
                     certificates: map<(string, string), Certificate>, writes: nat)

  datatype Cluster = Cluster(name: string, namespace: string, uid: string, auto: bool, issuerConf: Option<IssuerRef>,
                             caDuration: Option<int>, certDuration: Option<int>)

  // Requests that fail: reading a ClusterIssuer is forbidden or fails, another read fails, a write fails.
  datatype Faults = Faults(forbidden: bool, getClusterIssuer: bool, get: bool, write: bool)

  datatype Mode = ManagedNamespaced | ManagedCluster | External

  datatype Outcome<T> = Ok(value: T) | Failed

  const ISSUER := "Issuer"
  const CLUSTER_ISSUER := "ClusterIssuer"
  const GROUP := "cert-manager.io"
  const OWNER_GROUP := "upstream.pgv2.percona.com"
  const OWNER_KIND := "PostgresCluster"
  const DEFAULT_CERT_DURATION := 365 * 24 * 3600

  // ----- Modes -----

  function ModeOf(api: Api, c: Cluster, f: Faults): Outcome<Mode> {
    if !c.auto || c.issuerConf.None? then Ok(ManagedNamespaced)
    else
      var ic := c.issuerConf.value;
      if ic.kind == "" || ic.kind == ISSUER then Ok(ManagedNamespaced)
      else if ic.kind != CLUSTER_ISSUER then Ok(External)
      else if f.forbidden then Ok(External)
      else if f.getClusterIssuer then Failed
      else if ic.name !in api.clusterIssuers then Ok(ManagedCluster)
      else if api.clusterIssuers[ic.name].managed then Ok(ManagedCluster)
      else Ok(External)
  }

  function TLSIssuerName(c: Cluster): string {
    if c.issuerConf.Some? && c.issuerConf.value.name != "" then c.issuerConf.value.name else c.name + "-tls-issuer"
  }

  /** The issuer that signs the leaf certificates. */
  function IssuerRefOf(c: Cluster, mode: Mode): IssuerRef
    requires mode != ManagedNamespaced ==> c.issuerConf.Some?
  {
    match mode
    case External =>
      var ic := c.issuerConf.value;
      IssuerRef(ic.name, ic.kind, if ic.group == "" then GROUP else ic.group)
    case ManagedCluster => IssuerRef(c.issuerConf.value.name, CLUSTER_ISSUER, GROUP)
    case ManagedNamespaced => IssuerRef(TLSIssuerName(c), ISSUER, GROUP)
  }

  // ----- Owner references -----

  function OwnReference(c: Cluster): OwnerRef { OwnerRef(OWNER_GROUP, OWNER_KIND, c.name, c.uid) }

  /** References are compared by group, kind and name. */
  predicate HasOwner(owners: seq<OwnerRef>, c: Cluster) {
    exists i :: 0 <= i < |owners| && owners[i].group == OWNER_GROUP && owners[i].kind == OWNER_KIND
        && owners[i].name == c.name
  }

  function Owned(owners: seq<OwnerRef>, c: Cluster): seq<OwnerRef> {
    if HasOwner(owners, c) then owners else [OwnReference(c)]
  }

  // ----- Issuers -----

  function PutIssuer(api: Api, key: (string, string), issuer: Issuer): Api {
    api.(issuers := api.issuers[key := issuer], writes := api.writes + 1)
  }

  function PutClusterIssuer(api: Api, name: string, issuer: Issuer): Api {
    api.(clusterIssuers := api.clusterIssuers[name := issuer], writes := api.writes + 1)
  }

  function PutCertificate(api: Api, key: (string, string), cert: Certificate): Api {
    api.(certificates := api.certificates[key := cert], writes := api.writes + 1)
  }

  /** Creates a namespaced Issuer, or makes the cluster the owner of the one that is there. */
  function ApplyNamespaced(api: Api, c: Cluster, name: string, spec: IssuerSpec, f: Faults): (Api, bool) {
    if f.get then (api, false)
    else if (c.namespace, name) in api.issuers then
      var existing := api.issuers[(c.namespace, name)];
      if HasOwner(existing.owners, c) then (api, true)
      else if f.write then (api, false)
      else (PutIssuer(api, (c.namespace, name), existing.(owners := [OwnReference(c)])), true)
    else if f.write then (api, false)
    else (PutIssuer(api, (c.namespace, name), Issuer([OwnReference(c)], false, spec)), true)
  }

  /** Creates a ClusterIssuer with the managed-by label. One that is there stays as it is. */
  function ApplyClusterScoped(api: Api, name: string, spec: IssuerSpec, f: Faults): (Api, bool) {
    if f.get then (api, false)
    else if name in api.clusterIssuers then (api, true)
    else if f.write then (api, false)
    else (PutClusterIssuer(api, name, Issuer([], true, spec)), true)
  }

  function ApplyIssuerEffect(api: Api, c: Cluster, f: Faults): (Api, bool) {
    var mode := ModeOf(api, c, f);
    if mode.Failed? then (api, false)
    else match mode.value
      case External => (api, true)
      case ManagedCluster => ApplyClusterScoped(api, c.issuerConf.value.name,
          SignedBy(c.issuerConf.value.name + "-ca-cert"), f)
      case ManagedNamespaced => ApplyNamespaced(api, c, TLSIssuerName(c), SignedBy(c.name + "-cluster-ca-cert"), f)
  }

  function ApplyCAIssuerEffect(api: Api, c: Cluster, f: Faults): (Api, bool) {
    var mode := ModeOf(api, c, f);
    if mode.Failed? then (api, false)
    else match mode.value
      case External => (api, true)
      case ManagedCluster => ApplyClusterScoped(api, c.issuerConf.value.name + "-ca-issuer", SelfSigned, f)
      case ManagedNamespaced => ApplyNamespaced(api, c, c.name + "-ca-issuer", SelfSigned, f)
  }

  // ----- Certificates -----

  // What a certificate should be. Without an owner, any number of clusters may share it.
  datatype Wanted = Wanted(owned: bool, duration: int, issuer: Option<IssuerRef>, created: Certificate)

  /** The certificate that is there, brought in line with what is wanted. */
  function Aligned(existing: Certificate, c: Cluster, w: Wanted): Certificate {
    Certificate(
      if w.owned then Owned(existing.owners, c) else existing.owners,
      if existing.duration.Some? then Some(w.duration) else None,
      if w.issuer.Some? then w.issuer.value else existing.issuer,
      existing.rest)
  }

  function ApplyCertificate(api: Api, c: Cluster, key: (string, string), w: Wanted, f: Faults): (Api, bool) {
    if f.get then (api, false)
    else if key in api.certificates then
      var aligned := Aligned(api.certificates[key], c, w);
      if aligned == api.certificates[key] then (api, true)
      else if f.write then (api, false)
      else (PutCertificate(api, key, aligned), true)
    else if f.write then (api, false)
    else (PutCertificate(api, key, w.created), true)
  }

  function DurationOr(d: Option<int>): int { if d.Some? then d.value else DEFAULT_CERT_DURATION }

  function WantedCA(c: Cluster, clusterScoped: bool, rest: string): Wanted
    requires clusterScoped ==> c.issuerConf.Some?
  {
    var issuer := if clusterScoped then IssuerRef(c.issuerConf.value.name + "-ca-issuer", CLUSTER_ISSUER, "")
                  else IssuerRef(c.name + "-ca-issuer", ISSUER, "");
    Wanted(!clusterScoped, DurationOr(c.caDuration), None,
           Certificate(if clusterScoped then [] else [OwnReference(c)], Some(DurationOr(c.caDuration)), issuer, rest))
  }

  function CAKey(c: Cluster, clusterScoped: bool, sharedNamespace: string): (string, string)
    requires clusterScoped ==> c.issuerConf.Some?
  {
    if clusterScoped then (sharedNamespace, c.issuerConf.value.name + "-ca-cert")
        else (c.namespace, c.name + "-cluster-ca-cert")
  }

  function ApplyCACertificateEffect(api: Api, c: Cluster, sharedNamespace: string, rest: string, f: Faults): (Api,
      bool) {
    var mode := ModeOf(api, c, f);
    if mode.Failed? then (api, false)
    else if mode.value.External? then (api, true)
    else
      var clusterScoped := mode.value.ManagedCluster?;
      ApplyCertificate(api, c, CAKey(c, clusterScoped, sharedNamespace), WantedCA(c, clusterScoped, rest), f)
  }

  function WantedLeaf(c: Cluster, mode: Mode, rest: string): Wanted
    requires mode != ManagedNamespaced ==> c.issuerConf.Some?
  {
    var issuer := IssuerRefOf(c, mode);
    Wanted(true, DurationOr(c.certDuration), Some(issuer),
           Certificate([OwnReference(c)], Some(DurationOr(c.certDuration)), issuer, rest))
  }

  function ApplyLeafEffect(api: Api, c: Cluster, dnsNames: seq<string>, rest: string, f: Faults): (Api, bool) {
    if dnsNames == [] then (api, false)
    else
      var mode := ModeOf(api, c, f);
      if mode.Failed? then (api, false)
      else ApplyCertificate(api, c, (c.namespace, c.name + "-cluster-cert"), WantedLeaf(c, mode.value, rest), f)
  }

  // ----- The controller -----

  /** A Certificate that was read, to be changed in place and written back. */
  class CertificateObject {
    var owners: seq<OwnerRef>
    var duration: Option<int>
    var issuer: IssuerRef
    var rest: string

    constructor (read: Certificate)
      ensures AsValue() == read
    {
      owners, duration, issuer, rest := read.owners, read.duration, read.issuer, read.rest;
    }

    function AsValue(): Certificate
      reads this
    {
      Certificate(owners, duration, issuer, rest)
    }

    /** Sets what differs from what is wanted. */
    method Align(c: Cluster, w: Wanted) returns (needsUpdate: bool)
      modifies this
      ensures AsValue() == Aligned(old(AsValue()), c, w)
      ensures needsUpdate <==> AsValue() != old(AsValue())
    {
      needsUpdate := false;
      if w.owned {
        if !HasOwner(owners, c) {
          owners := [OwnReference(c)];
          needsUpdate := true;
          assert HasOwner([OwnReference(c)], c) by { assert [OwnReference(c)][0] == OwnReference(c); }
        }
      }
      if duration.Some? && duration.value != w.duration {
        duration := Some(w.duration);
        needsUpdate := true;
      }
      if w.issuer.Some? && issuer != w.issuer.value {
        issuer := w.issuer.value;
        needsUpdate := true;
      }
    }
  }

  class Controller {
    var api: Api

    constructor (api: Api)
      ensures this.api == api
    {
      this.api := api;
    }

    method ResolveIssuerMode(c: Cluster, f: Faults) returns (mode: Outcome<Mode>)
      ensures mode == ModeOf(api, c, f)
    {
      if !c.auto || c.issuerConf.None? {
        return Ok(ManagedNamespaced);
      }
      var ic := c.issuerConf.value;
      if ic.kind == "" || ic.kind == ISSUER {
        return Ok(ManagedNamespaced);
      } else if ic.kind == CLUSTER_ISSUER {
        if f.forbidden {
          return Ok(External);
        } else if f.getClusterIssuer {
          return Failed;
        } else if ic.name in api.clusterIssuers {
          return Ok(if api.clusterIssuers[ic.name].managed then ManagedCluster else External);
        }
        return Ok(ManagedCluster);
      }
      return Ok(External);
    }

    method EnsureClusterIssuer(name: string, spec: IssuerSpec, f: Faults) returns (ok: bool)
      modifies this
      ensures (api, ok) == ApplyClusterScoped(old(api), name, spec, f)
    {
      if f.get {
        return false;
      }
      if name in api.clusterIssuers {
        return true;
      }
      if f.write {
        return false;
      }
      api := PutClusterIssuer(api, name, Issuer([], true, spec));
      return true;
    }

    method EnsureIssuer(c: Cluster, name: string, spec: IssuerSpec, f: Faults) returns (ok: bool)
      modifies this
      ensures (api, ok) == ApplyNamespaced(old(api), c, name, spec, f)
    {
      if f.get {
        return false;
      }
      if (c.namespace, name) in api.issuers {
        var existing := api.issuers[(c.namespace, name)];
        if HasOwner(existing.owners, c) {
          return true;
        }
        if f.write {
          return false;
        }
        api := PutIssuer(api, (c.namespace, name), existing.(owners := [OwnReference(c)]));
        return true;
      }
      if f.write {
        return false;
      }
      api := PutIssuer(api, (c.namespace, name), Issuer([OwnReference(c)], false, spec));
      return true;
    }

    method ApplyIssuer(c: Cluster, f: Faults) returns (ok: bool)
      modifies this
      ensures (api, ok) == ApplyIssuerEffect(old(api), c, f)
    {
      var mode := ResolveIssuerMode(c, f);
      if mode.Failed? {
        return false;
      }
      match mode.value {
        case External => ok := true;
        case ManagedCluster =>
          ok := EnsureClusterIssuer(c.issuerConf.value.name, SignedBy(c.issuerConf.value.name + "-ca-cert"), f);
        case ManagedNamespaced =>
          ok := EnsureIssuer(c, TLSIssuerName(c), SignedBy(c.name + "-cluster-ca-cert"), f);
      }
    }

    method ApplyCAIssuer(c: Cluster, f: Faults) returns (ok: bool)
      modifies this
      ensures (api, ok) == ApplyCAIssuerEffect(old(api), c, f)
    {
      var mode := ResolveIssuerMode(c, f);
      if mode.Failed? {
        return false;
      }
      match mode.value {
        case External => ok := true;
        case ManagedCluster => ok := EnsureClusterIssuer(c.issuerConf.value.name + "-ca-issuer", SelfSigned, f);
        case ManagedNamespaced => ok := EnsureIssuer(c, c.name + "-ca-issuer", SelfSigned, f);
      }
    }

    method EnsureCertificate(c: Cluster, key: (string, string), w: Wanted, f: Faults) returns (ok: bool)
      modifies this
      ensures (api, ok) == ApplyCertificate(old(api), c, key, w, f)
    {
      if f.get {
        return false;
      }
      if key in api.certificates {
        var existing := new CertificateObject(api.certificates[key]);
        var needsUpdate := existing.Align(c, w);
        if !needsUpdate {
          return true;
        }
        if f.write {
          return false;
        }
        api := PutCertificate(api, key, existing.AsValue());
        return true;
      }
      if f.write {
        return false;
      }
      api := PutCertificate(api, key, w.created);
      return true;
    }

    method ApplyCACertificate(c: Cluster, sharedNamespace: string, rest: string, f: Faults) returns (ok: bool)
      modifies this
      ensures (api, ok) == ApplyCACertificateEffect(old(api), c, sharedNamespace, rest, f)
    {
      var mode := ResolveIssuerMode(c, f);
      if mode.Failed? {
        return false;
      }
      if mode.value.External? {
        return true;
      }
      var clusterScoped := mode.value.ManagedCluster?;
      ok := EnsureCertificate(c, CAKey(c, clusterScoped, sharedNamespace), WantedCA(c, clusterScoped, rest), f);
    }

    method ApplyClusterCertificate(c: Cluster, dnsNames: seq<string>, rest: string, f: Faults) returns (ok: bool)
      modifies this
      ensures (api, ok) == ApplyLeafEffect(old(api), c, dnsNames, rest, f)
    {
      if |dnsNames| == 0 {
        return false;
      }
      var mode := ResolveIssuerMode(c, f);
      if mode.Failed? {
        return false;
      }
      ok := EnsureCertificate(c, (c.namespace, c.name + "-cluster-cert"), WantedLeaf(c, mode.value, rest), f);
    }
  }

  // ----- What holds across calls -----

  // Any of the calls, for any cluster.
  datatype Call =
    | CallIssuer(c: Cluster)
    | CallCAIssuer(c: Cluster)
    | CallCA(c: Cluster, sharedNamespace: string, rest: string)
    | CallLeaf(c: Cluster, dnsNames: seq<string>, rest: string)

  function Effect(api: Api, call: Call, f: Faults): (Api, bool) {
    match call
    case CallIssuer(c) => ApplyIssuerEffect(api, c, f)
    case CallCAIssuer(c) => ApplyCAIssuerEffect(api, c, f)
    case CallCA(c, ns, rest) => ApplyCACertificateEffect(api, c, ns, rest, f)
    case CallLeaf(c, names, rest) => ApplyLeafEffect(api, c, names, rest, f)
  }

  function Run(api: Api, calls: seq<(Call, Faults)>): Api
    decreases |calls|
  {
    if calls == [] then api else Run(Effect(api, calls[0].0, calls[0].1).0, calls[1..])
  }

  /** A ClusterIssuer that exists is never changed or deleted, and every one that appears has the label. */
  lemma {:induction false} ClusterIssuersAreKept(api: Api, calls: seq<(Call, Faults)>, name: string)
    ensures name in api.clusterIssuers ==>
              name in Run(api, calls).clusterIssuers && Run(api, calls).clusterIssuers[name] == api.clusterIssuers[name]
    ensures name !in api.clusterIssuers && name in Run(api, calls).clusterIssuers ==>
              Run(api, calls).clusterIssuers[name].managed
    decreases |calls|
  {
    hide ApplyCertificate, ApplyNamespaced, Effect;
    if calls != [] {
      var next := Effect(api, calls[0].0, calls[0].1).0;
      EffectKeepsClusterIssuers(api, calls[0].0, calls[0].1, name);
      ClusterIssuersAreKept(next, calls[1..], name);
    }
  }

  lemma EffectKeepsClusterIssuers(api: Api, call: Call, f: Faults, name: string)
    ensures var next := Effect(api, call, f).0;
            && (name in api.clusterIssuers ==>
                  name in next.clusterIssuers && next.clusterIssuers[name] == api.clusterIssuers[name])
            && (name !in api.clusterIssuers && name in next.clusterIssuers ==> next.clusterIssuers[name].managed)
  {
    hide Aligned, HasOwner;
  }

  /**
   * The mode of a cluster is the same after any calls of the operator, for this cluster or
   * another, as long as the permission to read is: what the operator creates, it recognises.
   */
  lemma ModeIsStable(api: Api, calls: seq<(Call, Faults)>, c: Cluster, f: Faults)
    ensures ModeOf(Run(api, calls), c, f) == ModeOf(api, c, f)
  {
    if c.issuerConf.Some? {
      ClusterIssuersAreKept(api, calls, c.issuerConf.value.name);
    }
  }

  /** With an external issuer nothing is written but the leaf certificates. */
  lemma ExternalIsLeftAlone(api: Api, call: Call, f: Faults)
    requires ModeOf(api, call.c, f) == Ok(External)
    ensures !call.CallLeaf? ==> Effect(api, call, f) == (api, true)
    ensures Effect(api, call, f).0.clusterIssuers == api.clusterIssuers && Effect(api, call, f).0.issuers == api.issuers
  {
    hide Aligned, HasOwner;
  }

  lemma OwnedIsOwned(owners: seq<OwnerRef>, c: Cluster)
    ensures HasOwner(Owned(owners, c), c) && Owned(Owned(owners, c), c) == Owned(owners, c)
    ensures HasOwner([OwnReference(c)], c)
  {
    assert [OwnReference(c)][0] == OwnReference(c);
  }

  /** Once a call succeeded, the same call writes nothing, whatever was there before the first one. */
  lemma SecondCallWritesNothing(api: Api, call: Call, f: Faults, g: Faults)
    requires Effect(api, call, f).1 && g.forbidden == f.forbidden
    ensures Effect(Effect(api, call, f).0, call, g).0 == Effect(api, call, f).0
  {
    hide ModeOf, HasOwner, IssuerRefOf;
    var next := Effect(api, call, f).0;
    OwnedIsOwned([], call.c);
    SameMode(api, call, f, g);
    if call.CallCA? || call.CallLeaf? {
      AlignedIsAligned(api, call, f);
    }
  }

  lemma SameMode(api: Api, call: Call, f: Faults, g: Faults)
    requires g.forbidden == f.forbidden && ModeOf(api, call.c, f).Ok?
    ensures ModeOf(Effect(api, call, f).0, call.c, g).Failed?
            || ModeOf(Effect(api, call, f).0, call.c, g) == ModeOf(api, call.c, f)
  {
    hide Effect;
    if call.c.issuerConf.Some? {
      EffectKeepsClusterIssuers(api, call, f, call.c.issuerConf.value.name);
    }
  }

  lemma AlignedIsAligned(api: Api, call: Call, f: Faults)
    requires call.CallCA? || call.CallLeaf?
    ensures forall cert: Certificate, w: Wanted ::
              Aligned(Aligned(cert, call.c, w), call.c, w) == Aligned(cert, call.c, w)
    ensures forall mode: Mode, rest: string ::
              (mode == ManagedNamespaced || call.c.issuerConf.Some?) ==>
                Aligned(WantedLeaf(call.c, mode, rest).created, call.c, WantedLeaf(call.c, mode, rest))
                == WantedLeaf(call.c, mode, rest).created
    ensures forall scoped: bool, rest: string ::
              (!scoped || call.c.issuerConf.Some?) ==>
                Aligned(WantedCA(call.c, scoped, rest).created, call.c, WantedCA(call.c, scoped, rest))
                == WantedCA(call.c, scoped, rest).created
  {
    hide HasOwner, IssuerRefOf;
    OwnedIsOwned([], call.c);
  }

  /** What a successful call leaves of a certificate that was there: everything but owner, duration and issuer. */
  lemma OtherFieldsAreKept(api: Api, call: Call, f: Faults, key: (string, string))
    requires key in api.certificates
    ensures var next := Effect(api, call, f).0;
            && key in next.certificates
            && next.certificates[key].rest == api.certificates[key].rest
            && (api.certificates[key].duration.None? ==> next.certificates[key].duration.None?)
            && (next.certificates[key].owners == api.certificates[key].owners
                || (!HasOwner(api.certificates[key].owners, call.c)
                    && next.certificates[key].owners == [OwnReference(call.c)]))
  {
    hide ModeOf, HasOwner, IssuerRefOf;
  }

  /** Becoming the owner drops every other owner: they stay exactly if the cluster is one already, or there is none. */
  lemma OtherOwnersAreDropped(existing: Certificate, c: Cluster, w: Wanted, other: OwnerRef)
    requires w.owned && other in existing.owners && other != OwnReference(c)
    ensures other in Aligned(existing, c, w).owners <==> HasOwner(existing.owners, c)
  {
    hide HasOwner;
    assert [OwnReference(c)][0] == OwnReference(c);
  }

  /**
   * References are compared without their UID. A cluster that was deleted and made again is
   * not the owner of what its predecessor left behind.
   */
  lemma PredecessorStaysOwner(existing: Certificate, c: Cluster, w: Wanted)
    requires w.owned
    ensures OwnReference(c) in Aligned(existing, c, w).owners
            <==> OwnReference(c) in existing.owners || !HasOwner(existing.owners, c)
  {
    assert [OwnReference(c)][0] == OwnReference(c);
  }
}
