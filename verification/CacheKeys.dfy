/** Cache keys (cache/cache.go, CacheKey). `fqdn` stands for the DNS library's function that completes a domain name
    to its trailing dot; the results hold for any such function. */
module CacheKeys {
  import opened Text
  import opened Dns

  const SUFFIX_A := ":1"
  const SUFFIX_AAAA := ":28"
  const SUFFIX_CNAME := ":5"
  const SUFFIX_MX := ":15"
  const SUFFIX_TXT := ":16"

  function CacheKey(fqdn: string -> string, domain: string, qtype: Uint16): string {
    var name := fqdn(domain);
    match qtype
    case 1 => name + SUFFIX_A
    case 28 => name + SUFFIX_AAAA
    case 5 => name + SUFFIX_CNAME
    case 15 => name + SUFFIX_MX
    case 16 => name + SUFFIX_TXT
    case _ => name + ":" + Decimal(qtype)
  }

  /** The precomputed suffixes agree with decimal printing, so every branch builds the same form of key. */
  lemma KeyForm(fqdn: string -> string, domain: string, qtype: Uint16)
    ensures CacheKey(fqdn, domain, qtype) == fqdn(domain) + (":" + Decimal(qtype))
  {
    assert Decimal(1) == "1" && Decimal(5) == "5";
    assert Decimal(15) == Decimal(1) + "5" && Decimal(16) == Decimal(1) + "6";
    assert Decimal(2) == "2" && Decimal(28) == Decimal(2) + "8";
  }

  /** A name, a colon and digits can be taken apart in one way only, even when the name holds colons. */
  lemma SplitsUniquely(a: string, p: string, b: string, q: string)
    requires forall c :: c in p || c in q ==> '0' <= c <= '9'
    requires a + (":" + p) == b + (":" + q)
    ensures a == b && p == q
  {
    var k, l := a + (":" + p), b + (":" + q);
    forall i | |a| < i < |k| ensures k[i] != ':' {
      assert k[i] == p[i - |a| - 1] && p[i - |a| - 1] in p;
    }
    forall i | |b| < i < |l| ensures l[i] != ':' {
      assert l[i] == q[i - |b| - 1] && q[i - |b| - 1] in q;
    }
    assert k[|a|] == ':' && l[|b|] == ':';
    assert |a| == |b|;
    assert a == k[..|a|] && b == l[..|b|];
    assert p == k[|a| + 1..] && q == l[|b| + 1..];
  }

  /** Two questions share a key exactly when they agree on the completed name and the type. */
  lemma KeysEqualIff(fqdn: string -> string, d1: string, q1: Uint16, d2: string, q2: Uint16)
    ensures CacheKey(fqdn, d1, q1) == CacheKey(fqdn, d2, q2) <==> fqdn(d1) == fqdn(d2) && q1 == q2
  {
    hide CacheKey;
    KeyForm(fqdn, d1, q1);
    KeyForm(fqdn, d2, q2);
    if CacheKey(fqdn, d1, q1) == CacheKey(fqdn, d2, q2) {
      SplitsUniquely(fqdn(d1), Decimal(q1), fqdn(d2), Decimal(q2));
      DecimalDenotes(q1);
      DecimalDenotes(q2);
    }
  }

  /** If completing a name is idempotent, a name and its completed form have the same key. */
  lemma CompletedNameSameKey(fqdn: string -> string, domain: string, qtype: Uint16)
    requires fqdn(fqdn(domain)) == fqdn(domain)
    ensures CacheKey(fqdn, fqdn(domain), qtype) == CacheKey(fqdn, domain, qtype)
  {
  }

  /** The reserved capacity suffices: a key has at most six bytes more than the completed name. */
  lemma KeyLength(fqdn: string -> string, domain: string, qtype: Uint16)
    ensures ByteLen(CacheKey(fqdn, domain, qtype)) <= ByteLen(fqdn(domain)) + 6
  {
    hide CacheKey;
    var digits := Decimal(qtype);
    KeyForm(fqdn, domain, qtype);
    ByteLenConcat(fqdn(domain), ":" + digits);
    ByteLenAscii(":" + digits);
    assert PowerOfTen(5) == 100_000 by {
      assert PowerOfTen(1) == 10 && PowerOfTen(2) == 100 && PowerOfTen(3) == 1000;
      assert PowerOfTen(4) == 10_000;
    }
    DecimalLength(qtype, 5);
  }
}
