/** IPv4 addresses and CIDR blocks as the data plane compares them (section 3.1 of RFC 4632).
    An address is the host-order 32-bit word; masking with `~0 << (32 - len)` is written with
    division, so `Mask(a, len)` is the C expression `a & mask` and `HostBits` is `a & ~mask`. */
module Ipv4 {
  import opened Arith

  const ADDR_SPACE: nat := 0x1_0000_0000

  datatype Cidr = Cidr(len: nat, addr: nat)

  function Pow2(n: nat): (p: nat)
    ensures p > 0
  {
    if n == 0 then 1 else 2 * Pow2(n - 1)
  }

  /** The number of addresses in a block; a length beyond 32, which Valid excludes, counts as 32. */
  function Span(len: nat): (p: nat)
    ensures p > 0
  {
    if len <= 32 then Pow2(32 - len) else 1
  }

  function Mask(a: nat, len: nat): nat
  {
    FloorTo(a, Span(len))
  }

  predicate Valid(c: Cidr) { c.len <= 32 && c.addr < ADDR_SPACE }

  /** global_entry_valid: a legal prefix length and no host bits. */
  predicate Canonical(c: Cidr) { Valid(c) && c.addr % Span(c.len) == 0 }

  /** The block contains the address: they agree on the first `len` bits. */
  predicate Contains(c: Cidr, ip: nat)
  {
    ip / Span(c.len) == c.addr / Span(c.len)
  }

  /** Some block of the list contains the address. */
  predicate Listed(cs: seq<Cidr>, ip: nat)
  {
    exists i :: 0 <= i < |cs| && Contains(cs[i], ip)
  }

  /** Two blocks share an address exactly when one of them contains the other's network address. */
  predicate Overlap(a: Cidr, b: Cidr)
  {
    Contains(a, b.addr) || Contains(b, a.addr)
  }

  /** The block with its host bits cleared, as a trie or `ip_network(strict=False)` reads it. */
  function Canon(c: Cidr): Cidr
  {
    Cidr(c.len, Mask(c.addr, c.len))
  }

  lemma CanonFacts(c: Cidr)
    requires Valid(c)
    ensures Canonical(Canon(c))
    ensures forall ip: nat :: Contains(Canon(c), ip) <==> Contains(c, ip)
  {
    MaskFacts(c.addr, c.len);
  }

  lemma MaskFacts(a: nat, len: nat)
    ensures Mask(a, len) <= a < Mask(a, len) + Span(len)
    ensures Mask(a, len) / Span(len) == a / Span(len)
    ensures Mask(a, len) % Span(len) == 0
  {
    FloorToFacts(a, Span(len));
  }

  lemma ContainsIffSameMask(c: Cidr, ip: nat)
    ensures Contains(c, ip) <==> Mask(ip, c.len) == Mask(c.addr, c.len)
  {
    MaskFacts(ip, c.len);
    MaskFacts(c.addr, c.len);
  }

  /** A canonical block is the half-open range starting at its address. */
  lemma ContainsIffInRange(c: Cidr, ip: nat)
    requires Canonical(c)
    ensures Contains(c, ip) <==> c.addr <= ip < c.addr + Span(c.len)
  {
    var d := Span(c.len);
    var q := c.addr / d;
    DivBounds(ip, d);
    assert c.addr == q * d && (q + 1) * d == c.addr + d by {
      DivBounds(c.addr, d);
      assert c.addr == q * d + c.addr % d;
    }
    if c.addr <= ip < c.addr + d {
      DivAtLeast(ip, d, q);
      DivAtMost(ip, d, q);
    }
  }

  lemma {:induction false} Pow2Add(a: nat, b: nat)
    ensures Pow2(a + b) == Pow2(a) * Pow2(b)
  {
    if a > 0 {
      Pow2Add(a - 1, b);
      assert Pow2(a + b) == 2 * Pow2(a - 1 + b);
    }
  }

  lemma Pow2Values()
    ensures Pow2(8) == 0x100 && Pow2(16) == 0x1_0000 && Pow2(24) == 0x100_0000 && Pow2(32) == ADDR_SPACE
  {
    assert Pow2(4) == 2 * Pow2(3) && Pow2(3) == 2 * Pow2(2) && Pow2(2) == 2 * Pow2(1) && Pow2(1) == 2;
    Pow2Add(4, 4);
    Pow2Add(8, 8);
    Pow2Add(8, 16);
    Pow2Add(16, 16);
  }

  lemma {:induction false} Pow2Mono(a: nat, b: nat)
    requires a <= b
    ensures Pow2(a) <= Pow2(b)
  {
    Pow2Add(a, b - a);
    MulLe(1, Pow2(b - a), Pow2(a));
  }

  /** Agreement on a longer prefix implies agreement on every shorter one. */
  lemma LongerPrefixAgrees(x: nat, y: nat, len: nat, shorter: nat)
    requires shorter <= len <= 32
    requires x / Span(len) == y / Span(len)
    ensures x / Span(shorter) == y / Span(shorter)
  {
    Pow2Add(32 - len, len - shorter);
    DivDiv(x, Span(len), Pow2(len - shorter));
    DivDiv(y, Span(len), Pow2(len - shorter));
  }

  /** Two blocks that hold a common address overlap. */
  lemma CommonAddressOverlaps(a: Cidr, b: Cidr, ip: nat)
    requires Valid(a) && Valid(b)
    requires Contains(a, ip) && Contains(b, ip)
    ensures Overlap(a, b)
  {
    if a.len <= b.len {
      LongerPrefixAgrees(ip, b.addr, b.len, a.len);
    } else {
      LongerPrefixAgrees(ip, a.addr, a.len, b.len);
    }
  }
}
