/** Deterministic DNS-safe names (internal/naming/dns.go). Names are sequences of ASCII characters. */
module Naming {
  /** The universal limit of a DNS-1123 label. */
  const MAX_DNS_SAFE_LENGTH := 63

  /** Removes every trailing hyphen. */
  function TrimRightHyphens(name: string): (r: string)
    ensures r <= name
    ensures r == "" || r[|r| - 1] != '-'
  {
    if name != "" && name[|name| - 1] == '-' then TrimRightHyphens(name[..|name| - 1]) else name
  }

  /** The 32-bit FNV-1a hash, continued from h. */
  function Fnv1a(name: string, h: bv32): bv32 {
    if name == "" then h
    else Fnv1a(name[1..], (h ^ ((name[0] as int % 256) as bv32)) * 16777619)
  }

  /** Decimal digits of n. */
  function Decimal(n: nat): (r: string)
    ensures |r| > 0
  {
    if n < 10 then ["0123456789"[n]] else Decimal(n / 10) + ["0123456789"[n % 10]]
  }

  const SAFE_ALPHABET := "bcdfghjklmnpqrstvwxz2456789"

  /** The encoding Kubernetes uses to keep bad words out of generated suffixes. */
  function SafeEncode(s: string): (r: string)
    ensures |r| == |s|
    ensures forall i :: 0 <= i < |r| ==> r[i] in SAFE_ALPHABET
  {
    seq(|s|, i requires 0 <= i < |s| => SAFE_ALPHABET[(s[i] as int) % 27])
  }

  /** The suffix for a hash. The source slices the first four characters. */
  function Suffix(hash: nat): string {
    var encoded := SafeEncode(Decimal(hash));
    if |encoded| < 4 then encoded else encoded[..4]
  }

  function HashSuffix(name: string): string { Suffix(Fnv1a(name, 2166136261) as int) }

  function SafeDNSUniqueName(name: string): string {
    var trimmed := TrimRightHyphens(name);
    if |trimmed| <= MAX_DNS_SAFE_LENGTH then trimmed
    else TrimRightHyphens(trimmed[..MAX_DNS_SAFE_LENGTH - 5]) + "-" + HashSuffix(trimmed)
  }

  predicate IsAlphanumeric(c: char) { 'a' <= c <= 'z' || '0' <= c <= '9' }

  /** A DNS-1123 label: at most 63 lower-case letters, digits and hyphens, with no hyphen at either end. */
  predicate IsLabel(name: string) {
    && 0 < |name| <= MAX_DNS_SAFE_LENGTH
    && (forall i :: 0 <= i < |name| ==> IsAlphanumeric(name[i]) || name[i] == '-')
    && IsAlphanumeric(name[0]) && IsAlphanumeric(name[|name| - 1])
  }

  /** The characters of a label at any length, with a letter or digit in front. */
  predicate HasLabelCharacters(name: string) {
    && name != "" && IsAlphanumeric(name[0])
    && forall i :: 0 <= i < |name| ==> IsAlphanumeric(name[i]) || name[i] == '-'
  }

  lemma SuffixIsAlphanumeric(hash: nat)
    ensures 0 < |Suffix(hash)| <= 4
    ensures forall i :: 0 <= i < |Suffix(hash)| ==> IsAlphanumeric(Suffix(hash)[i])
  {
    hide Decimal, SafeEncode;
    var encoded := SafeEncode(Decimal(hash));
    forall i | 0 <= i < |Suffix(hash)| ensures IsAlphanumeric(Suffix(hash)[i]) {
      assert Suffix(hash)[i] == encoded[i];
      AlphabetIsAlphanumeric(encoded[i]);
    }
  }

  lemma AlphabetIsAlphanumeric(c: char)
    requires c in SAFE_ALPHABET
    ensures IsAlphanumeric(c)
  {
  }

  /** The source slices four characters off the encoded hash, which is possible exactly for a hash of four digits. */
  lemma SuffixIsWhole(hash: nat)
    ensures |Suffix(hash)| == 4 <==> hash >= 1000
  {
    hide SafeEncode;
    FourDigits(hash);
  }

  lemma FourDigits(n: nat)
    ensures |Decimal(n)| >= 4 <==> n >= 1000
  {
    if n >= 10 {
      assert |Decimal(n)| == |Decimal(n / 10)| + 1;
      if n >= 100 {
        assert |Decimal(n / 10)| == |Decimal(n / 100)| + 1;
        if n >= 1000 {
          assert |Decimal(n / 100)| == |Decimal(n / 1000)| + 1;
        }
      }
    }
  }

  lemma TrimKeepsFirst(name: string)
    requires name != "" && name[0] != '-'
    ensures TrimRightHyphens(name) != ""
  {
  }

  /** A name with the characters of a label, however long, becomes a label. */
  lemma SafeDNSUniqueNameIsSafe(name: string)
    requires HasLabelCharacters(name)
    ensures IsLabel(SafeDNSUniqueName(name))
  {
    hide Suffix, Fnv1a;
    var trimmed := TrimRightHyphens(name);
    TrimKeepsFirst(name);
    if |trimmed| > MAX_DNS_SAFE_LENGTH {
      var head := TrimRightHyphens(trimmed[..MAX_DNS_SAFE_LENGTH - 5]);
      TrimKeepsFirst(trimmed[..MAX_DNS_SAFE_LENGTH - 5]);
      SuffixIsAlphanumeric(Fnv1a(trimmed, 2166136261) as int);
      Hyphenated(head, HashSuffix(trimmed));
    }
  }

  lemma Hyphenated(head: string, suffix: string)
    requires HasLabelCharacters(head) && |head| <= MAX_DNS_SAFE_LENGTH - 5 && 0 < |suffix| <= 4
    requires forall i :: 0 <= i < |suffix| ==> IsAlphanumeric(suffix[i])
    ensures IsLabel(head + "-" + suffix)
  {
    var r := head + "-" + suffix;
    assert r[0] == head[0] && r[|r| - 1] == suffix[|suffix| - 1];
  }

  /** Whatever the input, the result is short enough and does not end with a hyphen. */
  lemma SafeDNSUniqueNameFits(name: string)
    ensures var r := SafeDNSUniqueName(name);
            |r| <= MAX_DNS_SAFE_LENGTH && (r == "" || r[|r| - 1] != '-')
  {
    hide Suffix, Fnv1a;
    var trimmed := TrimRightHyphens(name);
    if |trimmed| > MAX_DNS_SAFE_LENGTH {
      SuffixIsAlphanumeric(Fnv1a(trimmed, 2166136261) as int);
      var r, suffix := SafeDNSUniqueName(name), HashSuffix(trimmed);
      assert r[|r| - 1] == suffix[|suffix| - 1];
    }
  }

  /**
   * A name that is already safe is kept, so the function is injective on safe names. Distinct
   * safe StatefulSet names therefore give distinct Job names.
   */
  lemma SafeDNSUniqueNameKeepsSafeNames(name: string)
    ensures SafeDNSUniqueName(name) == name
            <==> |name| <= MAX_DNS_SAFE_LENGTH && (name == "" || name[|name| - 1] != '-')
  {
    SafeDNSUniqueNameFits(name);
  }
}
