/** The "global changed" flag of a feed run (control-plane/app/services/feed_reconcile.py). A run lists
    the global CIDRs before and after and compares the digests of the two listings. A real run lists
    both in the database's order of networks; a dry run lists the prospective set in the order of the
    texts. The order of texts is taken to be the character order of the C collation, and a digest to be
    an injective function of the listed texts, so it is modelled by them. */
module DryFlag {
  import opened Arith
  import opened Ipv4
  import opened DenyStore

  // ----- The text of a CIDR -----

  predicate IsDigit(c: char) { '0' <= c <= '9' }

  function Decimal(n: nat): (s: string)
    ensures s != [] && forall i :: 0 <= i < |s| ==> IsDigit(s[i])
  {
    var last := [('0' as int + n % 10) as char];
    if n < 10 then last else Decimal(n / 10) + last
  }

  lemma {:induction false} DecimalInjective(m: nat, n: nat)
    requires Decimal(m) == Decimal(n)
    ensures m == n
  {
    var s, t := Decimal(m), Decimal(n);
    assert s[|s| - 1] == t[|t| - 1];
    assert m % 10 == n % 10;
    if m >= 10 && n >= 10 {
      assert Decimal(m / 10) == s[..|s| - 1] == t[..|t| - 1] == Decimal(n / 10);
      DecimalInjective(m / 10, n / 10);
    }
  }

  /** Two texts that agree agree up to the first separator and after it. */
  lemma SplitAt(a: string, b: string, c: string, d: string, sep: char)
    requires !IsDigit(sep) && a + [sep] + b == c + [sep] + d
    requires (forall i :: 0 <= i < |a| ==> IsDigit(a[i])) && (forall i :: 0 <= i < |c| ==> IsDigit(c[i]))
    ensures a == c && b == d
  {
    var s, t := a + [sep] + b, c + [sep] + d;
    assert s[|a|] == sep && t[|c|] == sep;
    assert forall i :: 0 <= i < |a| ==> s[i] == a[i];
    assert forall i :: 0 <= i < |c| ==> t[i] == c[i];
    assert |a| == |c|;
    assert a == s[..|a|] && c == t[..|c|];
    assert b == s[|a| + 1..] && d == t[|c| + 1..];
  }

  function Octet(addr: nat, i: nat): nat
    requires i < 4
  {
    match i
    case 0 => addr / 0x100_0000
    case 1 => addr / 0x1_0000 % 0x100
    case 2 => addr / 0x100 % 0x100
    case 3 => addr % 0x100
  }

  /** The octets from `i` on, separated by dots, then the prefix length. */
  function TextFrom(c: Cidr, i: nat): string
    requires i < 4
    decreases 4 - i
  {
    if i == 3 then Decimal(Octet(c.addr, 3)) + ['/'] + Decimal(c.len)
    else Decimal(Octet(c.addr, i)) + ['.'] + TextFrom(c, i + 1)
  }

  function Text(c: Cidr): string { TextFrom(c, 0) }

  lemma {:induction false} TextFromInjective(a: Cidr, b: Cidr, i: nat)
    requires i < 4 && TextFrom(a, i) == TextFrom(b, i)
    ensures a.len == b.len && forall j :: i <= j < 4 ==> Octet(a.addr, j) == Octet(b.addr, j)
    decreases 4 - i
  {
    hide Octet;
    var x, y := Octet(a.addr, i), Octet(b.addr, i);
    if i == 3 {
      SplitAt(Decimal(x), Decimal(a.len), Decimal(y), Decimal(b.len), '/');
      DecimalInjective(a.len, b.len);
    } else {
      SplitAt(Decimal(x), TextFrom(a, i + 1), Decimal(y), TextFrom(b, i + 1), '.');
      TextFromInjective(a, b, i + 1);
    }
    DecimalInjective(x, y);
  }

  lemma AddressOfOctets(addr: nat)
    ensures addr == 0x100_0000 * Octet(addr, 0) + 0x1_0000 * Octet(addr, 1) + 0x100 * Octet(addr, 2) + Octet(addr, 3)
  {
    var x := addr / 0x100;
    var y := x / 0x100;
    assert addr / 0x1_0000 == y && addr / 0x100_0000 == y / 0x100;
  }

  /** No two CIDRs have the same text. */
  lemma TextInjective(a: Cidr, b: Cidr)
    requires Text(a) == Text(b)
    ensures a == b
  {
    TextFromInjective(a, b, 0);
    hide TextFrom;
    assert Octet(a.addr, 0) == Octet(b.addr, 0) && Octet(a.addr, 1) == Octet(b.addr, 1);
    assert Octet(a.addr, 2) == Octet(b.addr, 2) && Octet(a.addr, 3) == Octet(b.addr, 3);
    AddressOfOctets(a.addr);
    AddressOfOctets(b.addr);
    hide Octet;
  }

  // ----- The two orders -----

  predicate TextLess(s: string, t: string)
  {
    t != [] && (s == [] || s[0] < t[0] || (s[0] == t[0] && TextLess(s[1..], t[1..])))
  }

  lemma {:induction false} TextTotal(s: string, t: string)
    ensures s == t || TextLess(s, t) || TextLess(t, s)
    ensures TextLess(s, t) ==> s != t && !TextLess(t, s)
  {
    if s != [] && t != [] {
      TextTotal(s[1..], t[1..]);
      assert s == [s[0]] + s[1..] && t == [t[0]] + t[1..];
    }
  }

  lemma {:induction false} TextTransitive(s: string, t: string, u: string)
    requires TextLess(s, t) && TextLess(t, u)
    ensures TextLess(s, u)
  {
    if s != [] && s[0] == t[0] == u[0] {
      TextTransitive(s[1..], t[1..], u[1..]);
    }
  }

  /** The database's order of networks: the common prefix, then the prefix length, then the address. */
  predicate NetworkLess(a: Cidr, b: Cidr)
  {
    var m := Min(a.len, b.len);
    if Mask(a.addr, m) != Mask(b.addr, m) then Mask(a.addr, m) < Mask(b.addr, m)
    else if a.len != b.len then a.len < b.len
    else a.addr < b.addr
  }

  predicate LexLess(a: Cidr, b: Cidr) { a.addr < b.addr || (a.addr == b.addr && a.len < b.len) }

  lemma MaskCompares(x: nat, y: nat, len: nat)
    requires x % Span(len) == 0
    ensures Mask(x, len) == x
    ensures x < Mask(y, len) ==> x < y
    ensures Mask(y, len) < x ==> y < x
    ensures Mask(y, len) <= y
  {
    hide Span;
    FloorOfMultiple(x, Span(len));
    FloorCompares(x, y, Span(len));
  }

  lemma FloorCompares(x: nat, y: nat, d: nat)
    requires d > 0 && FloorTo(x, d) == x
    ensures FloorTo(y, d) < x ==> y < x
    ensures FloorTo(y, d) <= y
  {
    DivBounds(y, d);
    DivBounds(x, d);
    if FloorTo(y, d) < x && x <= y {
      DivMono(x, y, d);
      MulLe(x / d, y / d, d);
      assert false;
    }
  }

  lemma DivMono(x: nat, y: nat, d: nat)
    requires d > 0 && x <= y
    ensures x / d <= y / d
  {
    DivBounds(x, d);
    DivAtLeast(y, d, x / d);
  }

  /** Networks without host bits are ordered by address, then by prefix length. */
  lemma NetworkIsLex(a: Cidr, b: Cidr)
    requires Canonical(a) && Canonical(b)
    ensures NetworkLess(a, b) <==> LexLess(a, b)
  {
    hide Mask;
    hide Span;
    MaskCompares(a.addr, b.addr, a.len);
    MaskCompares(b.addr, a.addr, b.len);
  }

  datatype Order = ByNetwork | ByText

  predicate Less(o: Order, a: Cidr, b: Cidr)
  {
    match o case ByNetwork => NetworkLess(a, b) case ByText => TextLess(Text(a), Text(b))
  }

  ghost predicate AllCanonical(s: set<Cidr>) { forall c :: c in s ==> Canonical(c) }

  lemma LessTotal(o: Order, a: Cidr, b: Cidr)
    requires Canonical(a) && Canonical(b)
    ensures a == b || Less(o, a, b) || Less(o, b, a)
    ensures Less(o, a, b) ==> a != b && !Less(o, b, a)
  {
    hide Text;
    hide NetworkLess;
    hide Canonical;
    if o == ByNetwork {
      NetworkIsLex(a, b);
      NetworkIsLex(b, a);
    } else {
      TextTotal(Text(a), Text(b));
      if Text(a) == Text(b) {
        TextInjective(a, b);
      }
    }
  }

  lemma LessTransitive(o: Order, a: Cidr, b: Cidr, c: Cidr)
    requires Canonical(a) && Canonical(b) && Canonical(c) && Less(o, a, b) && Less(o, b, c)
    ensures Less(o, a, c)
  {
    hide Text;
    hide NetworkLess;
    hide Canonical;
    if o == ByNetwork {
      NetworkIsLex(a, b);
      NetworkIsLex(b, c);
      NetworkIsLex(a, c);
    } else {
      TextTransitive(Text(a), Text(b), Text(c));
    }
  }

  // ----- Listings -----

  predicate Least(o: Order, s: set<Cidr>, c: Cidr) { c in s && forall d :: d in s && d != c ==> Less(o, c, d) }

  lemma {:induction false} LeastExists(o: Order, s: set<Cidr>)
    requires AllCanonical(s) && s != {}
    ensures exists c :: Least(o, s, c)
    decreases |s|
  {
    hide Less;
    var x :| x in s;
    if s == {x} {
      assert Least(o, s, x);
    } else {
      assert s - {x} != {};
      LeastExists(o, s - {x});
      var c :| Least(o, s - {x}, c);
      LessTotal(o, x, c);
      if Less(o, c, x) {
        assert Least(o, s, c);
      } else {
        forall d | d in s && d != x ensures Less(o, x, d) {
          if d != c {
            LessTransitive(o, x, c, d);
          }
        }
        assert Least(o, s, x);
      }
    }
  }

  /** SELECT ... ORDER BY: the members from the least on. */
  ghost function Listing(o: Order, s: set<Cidr>): (out: seq<Cidr>)
    requires AllCanonical(s)
    decreases |s|
  {
    if s == {} then [] else
      LeastExists(o, s);
      var c :| Least(o, s, c);
      [c] + Listing(o, s - {c})
  }

  ghost predicate Ascending(o: Order, cs: seq<Cidr>)
  {
    forall i, j :: 0 <= i < j < |cs| ==> Less(o, cs[i], cs[j])
  }

  ghost predicate Holds(cs: seq<Cidr>, s: set<Cidr>) { forall c :: c in cs <==> c in s }

  lemma {:induction false} ListingAscends(o: Order, s: set<Cidr>)
    requires AllCanonical(s)
    ensures Ascending(o, Listing(o, s)) && Holds(Listing(o, s), s)
    decreases |s|
  {
    hide Less;
    if s != {} {
      LeastExists(o, s);
      var c := Listing(o, s)[0];
      assert Least(o, s, c) && Listing(o, s) == [c] + Listing(o, s - {c});
      hide Listing;
      ListingAscends(o, s - {c});
      LeastFirst(o, c, Listing(o, s - {c}), s);
    }
  }

  lemma LeastFirst(o: Order, c: Cidr, cs: seq<Cidr>, s: set<Cidr>)
    requires Least(o, s, c) && Ascending(o, cs) && Holds(cs, s - {c})
    ensures Ascending(o, [c] + cs) && Holds([c] + cs, s)
  {
    hide Less;
    forall j | 0 <= j < |cs| ensures Less(o, c, cs[j]) {
      assert cs[j] in s - {c};
    }
  }

  lemma EmptyListsNothing(cs: seq<Cidr>, s: set<Cidr>)
    requires Holds(cs, s)
    ensures cs == [] <==> s == {}
  {
    if cs != [] {
      assert cs[0] in s;
    }
  }

  /** There is one ascending listing of a set. */
  lemma {:induction false} OneListing(o: Order, cs: seq<Cidr>, ds: seq<Cidr>, s: set<Cidr>)
    requires AllCanonical(s) && Ascending(o, cs) && Ascending(o, ds) && Holds(cs, s) && Holds(ds, s)
    ensures cs == ds
    decreases |cs|
  {
    hide Less;
    EmptyListsNothing(cs, s);
    EmptyListsNothing(ds, s);
    if cs != [] {
      FirstIsSame(o, cs, ds, s);
      var c := cs[0];
      TailHolds(o, cs, s);
      TailHolds(o, ds, s);
      OneListing(o, cs[1..], ds[1..], s - {c});
      assert cs == [c] + cs[1..] && ds == [c] + ds[1..];
    }
  }

  lemma FirstIsSame(o: Order, cs: seq<Cidr>, ds: seq<Cidr>, s: set<Cidr>)
    requires AllCanonical(s) && Ascending(o, cs) && Ascending(o, ds) && Holds(cs, s) && Holds(ds, s)
    requires cs != [] && ds != []
    ensures cs[0] == ds[0]
  {
    hide Less;
    assert cs[0] in s && ds[0] in s;
    assert cs[0] in ds && ds[0] in cs;
    LessTotal(o, cs[0], ds[0]);
  }

  lemma TailHolds(o: Order, cs: seq<Cidr>, s: set<Cidr>)
    requires AllCanonical(s) && Ascending(o, cs) && Holds(cs, s) && cs != []
    ensures Ascending(o, cs[1..]) && Holds(cs[1..], s - {cs[0]})
  {
    hide Less;
    assert cs == [cs[0]] + cs[1..];
    assert cs[0] in s;
    forall j | 0 < j < |cs| ensures cs[j] != cs[0] {
      assert cs[j] in s;
      LessTotal(o, cs[0], cs[j]);
    }
    assert cs[0] !in cs[1..];
    forall c ensures c in cs[1..] <==> c in s - {cs[0]} {
      assert c in cs <==> c in s;
    }
  }

  // ----- The flag -----

  /** What a digest is taken of. */
  ghost function Texts(cs: seq<Cidr>): (out: seq<string>)
    ensures |out| == |cs| && forall i :: 0 <= i < |cs| ==> out[i] == Text(cs[i])
  {
    seq(|cs|, i requires 0 <= i < |cs| => Text(cs[i]))
  }

  lemma TextsInjective(cs: seq<Cidr>, ds: seq<Cidr>)
    requires Texts(cs) == Texts(ds)
    ensures cs == ds
  {
    hide Text;
    assert |cs| == |ds|;
    forall i | 0 <= i < |cs| ensures cs[i] == ds[i] {
      assert Texts(cs)[i] == Texts(ds)[i];
      TextInjective(cs[i], ds[i]);
    }
  }

  /** The flag of a real run: both listings are in the order of networks. */
  ghost predicate RealFlag(before: set<Cidr>, after: set<Cidr>)
    requires AllCanonical(before) && AllCanonical(after)
  {
    Texts(Listing(ByNetwork, before)) != Texts(Listing(ByNetwork, after))
  }

  /** The flag of a dry run: the prospective set is listed in the order of the texts. */
  ghost predicate ProspectiveFlag(before: set<Cidr>, after: set<Cidr>)
    requires AllCanonical(before) && AllCanonical(after)
  {
    Texts(Listing(ByNetwork, before)) != Texts(Listing(ByText, after))
  }

  /** Equal listings list equal sets, whatever the orders. */
  lemma SameTextsSameSet(o: Order, q: Order, s: set<Cidr>, t: set<Cidr>)
    requires AllCanonical(s) && AllCanonical(t) && Texts(Listing(o, s)) == Texts(Listing(q, t))
    ensures s == t && Listing(o, s) == Listing(q, t)
  {
    hide Text;
    hide Less;
    hide Texts;
    hide Listing;
    TextsInjective(Listing(o, s), Listing(q, t));
    ListingAscends(o, s);
    ListingAscends(q, t);
    forall c ensures c in s <==> c in t {
      assert c in Listing(o, s) <==> c in s;
      assert c in Listing(q, t) <==> c in t;
    }
  }

  /** A real run's flag is always right. */
  lemma RealFlagIsRight(before: set<Cidr>, after: set<Cidr>)
    requires AllCanonical(before) && AllCanonical(after)
    ensures RealFlag(before, after) <==> before != after
  {
    hide Listing;
    hide Texts;
    if !RealFlag(before, after) {
      SameTextsSameSet(ByNetwork, ByNetwork, before, after);
    }
  }

  /** No pair of members is ordered one way as networks and the other way as texts. */
  ghost predicate OrdersAgree(s: set<Cidr>)
  {
    forall a, b :: a in s && b in s && Less(ByNetwork, a, b) ==> Less(ByText, a, b)
  }

  lemma SameListingIff(s: set<Cidr>)
    requires AllCanonical(s)
    ensures Listing(ByNetwork, s) == Listing(ByText, s) <==> OrdersAgree(s)
  {
    hide Less;
    hide Listing;
    var cs, ds := Listing(ByNetwork, s), Listing(ByText, s);
    ListingAscends(ByNetwork, s);
    ListingAscends(ByText, s);
    if OrdersAgree(s) {
      forall i, j | 0 <= i < j < |cs| ensures Less(ByText, cs[i], cs[j]) {
        assert cs[i] in s && cs[j] in s;
      }
      OneListing(ByText, cs, ds, s);
    }
    if cs == ds {
      forall a, b | a in s && b in s && Less(ByNetwork, a, b) ensures Less(ByText, a, b) {
        assert a in cs && b in cs;
        var i :| 0 <= i < |cs| && cs[i] == a;
        var j :| 0 <= j < |cs| && cs[j] == b;
        LessTotal(ByNetwork, a, b);
        assert i < j;
      }
    }
  }

  /** A dry run's flag is right exactly when the set does change or the two orders agree on its members. */
  lemma DryFlagRightIff(before: set<Cidr>, after: set<Cidr>)
    requires AllCanonical(before) && AllCanonical(after)
    ensures (ProspectiveFlag(before, after) <==> before != after) <==> (before != after || OrdersAgree(before))
  {
    hide Listing;
    hide Texts;
    hide OrdersAgree;
    if !ProspectiveFlag(before, after) {
      SameTextsSameSet(ByNetwork, ByText, before, after);
    }
    SameListingIff(before);
  }

  /** What the two kinds of run report for the same parsed feed: the dry run's flag is the real run's
      flag exactly when the run changes the set or the orders agree on it. */
  lemma DryRunReportsIff(s: Store, source: nat, deletion: bool, cidrs: set<Cidr>)
    requires Provenance(s) && AllCanonical(Cidrs(s)) && AllCanonical(cidrs)
    requires Reconcile(s, source, deletion, cidrs).1 == Done
    ensures AllCanonical(Cidrs(Reconcile(s, source, deletion, cidrs).0)) && AllCanonical(DryRun(s, source, deletion, cidrs).0)
    ensures var before, after := Cidrs(s), Cidrs(Reconcile(s, source, deletion, cidrs).0);
            (ProspectiveFlag(before, DryRun(s, source, deletion, cidrs).0) <==> RealFlag(before, after))
            <==> (before != after || OrdersAgree(before))
  {
    hide ProspectiveFlag;
    hide RealFlag;
    hide OrdersAgree;
    hide Provenance;
    hide Asserted;
    DryRunPredicts(s, source, deletion, cidrs);
    var before, after := Cidrs(s), Cidrs(Reconcile(s, source, deletion, cidrs).0);
    assert AllCanonical(after);
    hide Reconcile;
    hide DryRun;
    DryFlagRightIff(before, after);
    RealFlagIsRight(before, after);
  }

  /** 2.0.0.0/8 precedes 10.0.0.0/8 as a network and follows it as a text: an unchanged list of these two
      is reported as changed. */
  lemma DryFlagWrong()
    ensures var both := {Cidr(8, 0x0200_0000), Cidr(8, 0x0a00_0000)};
            AllCanonical(both) && ProspectiveFlag(both, both)
  {
    var two, ten := Cidr(8, 0x0200_0000), Cidr(8, 0x0a00_0000);
    var both := {two, ten};
    EighthsCanonical();
    assert Less(ByNetwork, two, ten) by { NetworkIsLex(two, ten); }
    assert !Less(ByText, two, ten) by { TwoAfterTen(); }
    hide Less;
    assert !OrdersAgree(both);
    DryFlagRightIff(both, both);
  }

  lemma EighthsCanonical()
    ensures Canonical(Cidr(8, 0x0200_0000)) && Canonical(Cidr(8, 0x0a00_0000))
  {
    Pow2Values();
    hide Pow2;
  }

  lemma TwoAfterTen()
    ensures !TextLess(Text(Cidr(8, 0x0200_0000)), Text(Cidr(8, 0x0a00_0000)))
  {
    var two, ten := Cidr(8, 0x0200_0000), Cidr(8, 0x0a00_0000);
    assert Octet(two.addr, 0) == 2 && Octet(ten.addr, 0) == 10;
    assert Decimal(2) == ['2'] && Decimal(10) == Decimal(1) + ['0'] && Decimal(1) == ['1'];
    assert Text(two)[0] == '2' && Text(ten)[0] == '1';
  }
}
