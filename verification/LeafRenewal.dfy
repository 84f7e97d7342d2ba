/** When leaf certificates are replaced (internal/pki/pki.go, internal/pki/common.go). Times are in nanoseconds. */
module LeafRenewal {
  import opened Options

  const SECOND := 1_000_000_000
  const HOUR := 3600 * SECOND
  const YEAR := 365 * 24 * HOUR
  const RENEWAL_RATIO := 3

  // A certificate and its key. Its times are whole seconds. goodPath says that the signature and
  // the extensions verify against the root, goodKey that the key fits, and the two flags are the
  // ones of the certificate.
  datatype Leaf = Leaf(notBefore: int, notAfter: int, commonName: string, dnsNames: seq<string>,
                       goodPath: bool, goodKey: bool, constrained: bool, authority: bool)

  /** An encoded certificate keeps no fraction of a second. */
  function WholeSeconds(t: int): int { t / SECOND * SECOND }

  function Generate(commonName: string, dnsNames: seq<string>, now: int): Leaf {
    Leaf(WholeSeconds(now - HOUR), WholeSeconds(now + YEAR), commonName, dnsNames, true, true, true, false)
  }

  /** Go divides durations towards zero. */
  function Quotient(a: int, b: int): int
    requires b > 0
  {
    if a >= 0 then a / b else -(-a / b)
  }

  function RenewalTime(leaf: Leaf): int { leaf.notAfter - Quotient(leaf.notAfter - leaf.notBefore, RENEWAL_RATIO) }

  predicate IsValid(leaf: Leaf, now: int) {
    && leaf.goodPath && leaf.notBefore <= now <= leaf.notAfter
    && leaf.constrained && !leaf.authority && leaf.goodKey
    && now < RenewalTime(leaf)
  }

  predicate HasSubject(leaf: Leaf, commonName: string, dnsNames: seq<string>) {
    leaf.commonName == commonName && leaf.dnsNames == dnsNames
  }

  function Regenerated(leaf: Option<Leaf>, commonName: string, dnsNames: seq<string>, now: int): Leaf {
    if leaf.Some? && IsValid(leaf.value, now) && HasSubject(leaf.value, commonName, dnsNames) then leaf.value
    else Generate(commonName, dnsNames, now)
  }

  method CheckSubject(leaf: Leaf, commonName: string, dnsNames: seq<string>) returns (ok: bool)
    ensures ok <==> HasSubject(leaf, commonName, dnsNames)
  {
    ok := leaf.commonName == commonName && |leaf.dnsNames| == |dnsNames|;
    for i := 0 to |dnsNames|
      invariant ok <==>
                && leaf.commonName == commonName && |leaf.dnsNames| == |dnsNames|
                && leaf.dnsNames[..i] == dnsNames[..i]
    {
      if ok {
        assert leaf.dnsNames[..i + 1] == leaf.dnsNames[..i] + [leaf.dnsNames[i]];
        assert dnsNames[..i + 1] == dnsNames[..i] + [dnsNames[i]];
      } else if |leaf.dnsNames| == |dnsNames| {
        assert leaf.dnsNames[..i + 1][..i] == leaf.dnsNames[..i] && dnsNames[..i + 1][..i] == dnsNames[..i];
      }
      ok := ok && leaf.dnsNames[i] == dnsNames[i];
    }
    assert |leaf.dnsNames| == |dnsNames| ==>
             leaf.dnsNames[..|dnsNames|] == leaf.dnsNames && dnsNames[..|dnsNames|] == dnsNames;
  }

  method CheckLeaf(leaf: Leaf, now: int) returns (ok: bool)
    ensures ok <==> IsValid(leaf, now)
  {
    ok := leaf.goodPath && leaf.notBefore <= now <= leaf.notAfter;
    ok := ok && leaf.constrained && !leaf.authority;
    ok := ok && leaf.goodKey;
    var renewalDuration := Quotient(leaf.notAfter - leaf.notBefore, RENEWAL_RATIO);
    ok := ok && now < leaf.notAfter - renewalDuration;
  }

  method RegenerateLeafWhenNecessary(leaf: Option<Leaf>, commonName: string, dnsNames: seq<string>, now: int)
    returns (r: Leaf)
    ensures r == Regenerated(leaf, commonName, dnsNames, now)
    ensures HasSubject(r, commonName, dnsNames) && IsValid(r, now) && now < RenewalTime(r)
  {
    GeneratedIsValid(commonName, dnsNames, now);
    if leaf.Some? {
      var ok := CheckLeaf(leaf.value, now);
      if ok {
        ok := CheckSubject(leaf.value, commonName, dnsNames);
      }
      if ok {
        return leaf.value;
      }
    }
    return Generate(commonName, dnsNames, now);
  }

  /** Two thirds of a leaf's life, one hour of which is over when it is made. */
  const LIFE := (2 * YEAR - HOUR) / RENEWAL_RATIO

  lemma WholeSecondsShift(t: int, d: int)
    requires d % SECOND == 0
    ensures WholeSeconds(t + d) == WholeSeconds(t) + d
  {
    assert (t + d) / SECOND == t / SECOND + d / SECOND;
  }

  lemma RenewalOfGenerated(commonName: string, dnsNames: seq<string>, now: int)
    ensures RenewalTime(Generate(commonName, dnsNames, now)) == WholeSeconds(now) + LIFE
  {
    WholeSecondsShift(now, YEAR);
    WholeSecondsShift(now, -HOUR);
    assert (YEAR + HOUR) % RENEWAL_RATIO == 0 && YEAR - (YEAR + HOUR) / RENEWAL_RATIO == LIFE;
  }

  lemma GeneratedIsValid(commonName: string, dnsNames: seq<string>, now: int)
    ensures IsValid(Generate(commonName, dnsNames, now), now)
  {
    RenewalOfGenerated(commonName, dnsNames, now);
    WholeSecondsShift(now, YEAR);
    WholeSecondsShift(now, -HOUR);
    assert WholeSeconds(now) <= now < WholeSeconds(now) + SECOND;
  }

  // ----- Along a clock -----

  function Before(first: Option<Leaf>, leaves: seq<Leaf>, i: nat): Option<Leaf>
    requires i <= |leaves|
  {
    if i == 0 then first else Some(leaves[i - 1])
  }

  /** The leaf after each reconcile, with a fixed subject. */
  ghost predicate IsHistory(first: Option<Leaf>, leaves: seq<Leaf>, clock: seq<int>, commonName: string,
      dnsNames: seq<string>) {
    && |leaves| == |clock|
    && (forall i, j :: 0 <= i < j < |clock| ==> clock[i] <= clock[j])
    && forall i :: 0 <= i < |clock| ==>
         leaves[i] == Regenerated(Before(first, leaves, i), commonName, dnsNames, clock[i])
  }

  /** The i-th reconcile made a new leaf. */
  predicate IsNew(first: Option<Leaf>, leaves: seq<Leaf>, clock: seq<int>, commonName: string, dnsNames: seq<string>,
      i: nat)
    requires i < |leaves| == |clock|
  {
    var before := Before(first, leaves, i);
    before.None? || !IsValid(before.value, clock[i]) || !HasSubject(before.value, commonName, dnsNames)
  }

  lemma EveryLeafIsGood(first: Option<Leaf>, leaves: seq<Leaf>, clock: seq<int>, commonName: string,
      dnsNames: seq<string>, i: nat)
    requires IsHistory(first, leaves, clock, commonName, dnsNames) && i < |leaves|
    ensures HasSubject(leaves[i], commonName, dnsNames) && IsValid(leaves[i], clock[i])
            && clock[i] < RenewalTime(leaves[i])
  {
    GeneratedIsValid(commonName, dnsNames, clock[i]);
    assert leaves[i] == Regenerated(Before(first, leaves, i), commonName, dnsNames, clock[i]);
  }

  /** A leaf made by this package is kept until its renewal time. */
  lemma GeneratedIsKept(commonName: string, dnsNames: seq<string>, made: int, now: int)
    requires made <= now < WholeSeconds(made) + LIFE
    ensures IsValid(Generate(commonName, dnsNames, made), now)
  {
    RenewalOfGenerated(commonName, dnsNames, made);
    WholeSecondsShift(made, YEAR);
    WholeSecondsShift(made, -HOUR);
  }

  lemma HistoryStep(first: Option<Leaf>, leaves: seq<Leaf>, clock: seq<int>, commonName: string, dnsNames: seq<string>,
                    i: nat, k: nat)
    requires IsHistory(first, leaves, clock, commonName, dnsNames) && i <= k < |leaves|
    ensures |clock| == |leaves| && clock[i] <= clock[k] && (k > 0 ==> clock[k - 1] <= clock[k])
    ensures IsNew(first, leaves, clock, commonName, dnsNames, k) ==>
            leaves[k] == Generate(commonName, dnsNames, clock[k])
    ensures !IsNew(first, leaves, clock, commonName, dnsNames, k) && k > 0 ==> leaves[k] == leaves[k - 1]
  {
    hide IsValid, Generate, HasSubject;
    assert leaves[k] == Regenerated(Before(first, leaves, k), commonName, dnsNames, clock[k]);
  }

  /** Until its renewal time nothing follows a new leaf but itself. */
  lemma {:induction false} KeptFrom(first: Option<Leaf>, leaves: seq<Leaf>, clock: seq<int>, commonName: string,
      dnsNames: seq<string>,
                                    i: nat, k: nat)
    requires IsHistory(first, leaves, clock, commonName, dnsNames) && i <= k < |leaves| == |clock|
    requires IsNew(first, leaves, clock, commonName, dnsNames, i)
    requires clock[k] < WholeSeconds(clock[i]) + LIFE
    ensures leaves[k] == Generate(commonName, dnsNames, clock[i])
    ensures i < k ==> !IsNew(first, leaves, clock, commonName, dnsNames, k)
  {
    hide IsHistory, IsNew, WholeSeconds, Generate;
    HistoryStep(first, leaves, clock, commonName, dnsNames, i, k);
    if i < k {
      KeptFrom(first, leaves, clock, commonName, dnsNames, i, k - 1);
      NotNew(first, leaves, clock, commonName, dnsNames, clock[i], k);
    }
  }

  lemma NotNew(first: Option<Leaf>, leaves: seq<Leaf>, clock: seq<int>, commonName: string, dnsNames: seq<string>,
      made: int, k: nat)
    requires 0 < k < |leaves| == |clock| && leaves[k - 1] == Generate(commonName, dnsNames, made)
    requires made <= clock[k] < WholeSeconds(made) + LIFE
    ensures !IsNew(first, leaves, clock, commonName, dnsNames, k)
  {
    hide IsValid, Generate, WholeSeconds;
    GeneratedIsKept(commonName, dnsNames, made, clock[k]);
    GeneratedSubject(commonName, dnsNames, made);
  }

  lemma GeneratedSubject(commonName: string, dnsNames: seq<string>, now: int)
    ensures HasSubject(Generate(commonName, dnsNames, now), commonName, dnsNames)
  {
  }

  /**
   * A leaf is replaced no sooner than two thirds of a year less twenty minutes after it was made,
   * counted from the whole second in which it was made.
   */
  lemma RenewalsAreFarApart(first: Option<Leaf>, leaves: seq<Leaf>, clock: seq<int>, commonName: string,
      dnsNames: seq<string>,
                            i: nat, k: nat)
    requires IsHistory(first, leaves, clock, commonName, dnsNames) && i < k < |leaves|
    requires IsNew(first, leaves, clock, commonName, dnsNames, i)
             && IsNew(first, leaves, clock, commonName, dnsNames, k)
    ensures clock[k] >= WholeSeconds(clock[i]) + LIFE > clock[i] + LIFE - SECOND
  {
    if clock[k] < WholeSeconds(clock[i]) + LIFE {
      KeptFrom(first, leaves, clock, commonName, dnsNames, i, k);
    }
  }

  /**
   * The full distance between a leaf and the next is kept for every clock exactly if the first
   * was made at a whole second, since an encoded certificate drops the fraction.
   */
  lemma FullDistanceFromWholeSeconds(commonName: string, dnsNames: seq<string>, made: int)
    ensures (forall now :: made <= now < made + LIFE ==> IsValid(Generate(commonName, dnsNames, made), now))
            <==> made % SECOND == 0
  {
    hide IsValid, Generate;
    if made % SECOND == 0 {
      forall now | made <= now < made + LIFE ensures IsValid(Generate(commonName, dnsNames, made), now) {
        GeneratedIsKept(commonName, dnsNames, made, now);
      }
    } else {
      var now := WholeSeconds(made) + LIFE;
      RenewalOfGenerated(commonName, dnsNames, made);
      TooLate(Generate(commonName, dnsNames, made), now);
      assert made <= now < made + LIFE;
    }
  }

  lemma TooLate(leaf: Leaf, now: int)
    requires RenewalTime(leaf) <= now
    ensures !IsValid(leaf, now)
  {
  }
}
