/** Certificates in PEM bundles (internal/pki/encoding.go). Text is taken as the blocks in it and what lies between. */
module PemBundle {
  import opened Options

  datatype Kind = CertificateBlock | KeyBlock | OtherBlock

  datatype Item = Junk(text: string) | Block(kind: Kind, bytes: seq<bv8>)

  // The first certificate of a bundle, and the encoding of those after it.
  datatype Certificate = Certificate(raw: Option<seq<bv8>>, chain: seq<Item>)

  /** Skips what is no block. */
  function Decode(data: seq<Item>): (r: (Option<Item>, seq<Item>))
    ensures r.0.Some? ==> r.0.value.Block? && |r.1| < |data|
  {
    if data == [] then (None, [])
    else if data[0].Block? then (Some(data[0]), data[1..])
    else Decode(data[1..])
  }

  function Certificates(data: seq<Item>): seq<Item> {
    if data == [] then []
    else (if data[0].Block? && data[0].kind.CertificateBlock? then [data[0]] else []) + Certificates(data[1..])
  }

  function FirstBlock(data: seq<Item>): Option<Item> { Decode(data).0 }

  method UnmarshalText(data: seq<Item>, parses: seq<bv8> -> bool) returns (r: Option<Certificate>)
    ensures r.Some? <==> var b := FirstBlock(data); b.Some? && b.value.kind.CertificateBlock? && parses(b.value.bytes)
    ensures r.Some? ==> r.value.raw.Some? && Marshal(r.value) == Certificates(data)
  {
    hide Decode, Certificates;
    var d := Decode(data);
    var block, rest := d.0, d.1;
    if block.None? || !block.value.kind.CertificateBlock? {
      return None;
    }
    if !parses(block.value.bytes) {
      return None;
    }
    DecodeSkipsNoCertificate(data);
    var chain := ReadChain(rest);
    return Some(Certificate(Some(block.value.bytes), chain));
  }

  /** Keeps every certificate in the rest of the data. */
  method ReadChain(data: seq<Item>) returns (chain: seq<Item>)
    ensures chain == Certificates(data)
  {
    hide Decode, Certificates;
    var rest := data;
    chain := [];
    assert chain + Certificates(rest) == Certificates(rest);
    while true
      invariant chain + Certificates(rest) == Certificates(data)
      decreases |rest|
    {
      DecodeSkipsNoCertificate(rest);
      var next := Decode(rest);
      if next.0.None? {
        assert chain + [] == chain;
        break;
      }
      if next.0.value.kind.CertificateBlock? {
        assert chain + ([next.0.value] + Certificates(next.1)) == (chain + [next.0.value]) + Certificates(next.1);
        chain := chain + [next.0.value];
      } else {
        assert [] + Certificates(next.1) == Certificates(next.1);
      }
      rest := next.1;
    }
  }

  lemma {:induction false} DecodeSkipsNoCertificate(data: seq<Item>)
    ensures var d := Decode(data);
            Certificates(data)
            == if d.0.None? then []
               else (if d.0.value.kind.CertificateBlock? then [d.0.value] else []) + Certificates(d.1)
  {
    if data != [] && !data[0].Block? {
      DecodeSkipsNoCertificate(data[1..]);
    }
  }

  function Marshal(c: Certificate): seq<Item> {
    if c.raw.None? then [] else [Block(CertificateBlock, c.raw.value)] + c.chain
  }

  /** What a parsed certificate looks like: everything in its chain is a certificate. */
  predicate IsBundle(c: Certificate) {
    c.raw.Some? && forall i :: 0 <= i < |c.chain| ==> c.chain[i].Block? && c.chain[i].kind.CertificateBlock?
  }

  lemma {:induction false} OnlyCertificates(items: seq<Item>)
    requires forall i :: 0 <= i < |items| ==> items[i].Block? && items[i].kind.CertificateBlock?
    ensures Certificates(items) == items
  {
    if items != [] {
      OnlyCertificates(items[1..]);
      assert [items[0]] + items[1..] == items;
    }
  }

  /** The text of a bundle is read back as that bundle. */
  method RoundTrip(c: Certificate, parses: seq<bv8> -> bool) returns (r: Option<Certificate>)
    requires IsBundle(c) && parses(c.raw.value)
    ensures r == Some(c)
  {
    var data := Marshal(c);
    assert FirstBlock(data) == Some(data[0]);
    r := UnmarshalText(data, parses);
    OnlyCertificates(data);
    assert Marshal(r.value)[1..] == r.value.chain && data[1..] == c.chain;
  }

  /**
   * Whatever lies between the blocks, and whatever other blocks there are behind the first one,
   * a bundle is exactly its certificates in order. A certificate behind a key is not found.
   */
  lemma {:induction false} BetweenDoesNotMatter(a: seq<Item>, b: seq<Item>, junk: Item)
    requires !(junk.Block? && junk.kind.CertificateBlock?)
    ensures Certificates(a + [junk] + b) == Certificates(a + b)
  {
    if a == [] {
      assert a + [junk] + b == [junk] + b && ([junk] + b)[1..] == b && a + b == b;
    } else {
      assert (a + [junk] + b)[1..] == a[1..] + [junk] + b && (a + b)[1..] == a[1..] + b;
      BetweenDoesNotMatter(a[1..], b, junk);
    }
  }
}
