/** The whitelist loop of apply_write_service counts with a 16-bit index against a 32-bit length
    (data-plane/tools/xdpgw-apply.c). When is it left, with every write succeeding? */
module WhitelistLoop {
  import opened Wrappers
  import opened Arith
  import opened Wire
  import opened Ipv4
  import opened Snapshot
  import opened ApplyPlan

  /** Inside the loop at an index, past its end, or refused at an illegal prefix length. */
  datatype Place = At(i: nat) | Past | Refused

  function Round(wl: seq<Cidr>, p: Place): Place
  {
    match p
    case At(i) => if i >= |wl| then Past else if wl[i].len > 32 then Refused else At(WlIndexAfter(i))
    case _ => p
  }

  function PlaceAfter(wl: seq<Cidr>, rounds: nat): Place
  {
    if rounds == 0 then At(0) else Round(wl, PlaceAfter(wl, rounds - 1))
  }

  ghost predicate Leaves(wl: seq<Cidr>)
  {
    exists rounds: nat :: !PlaceAfter(wl, rounds).At?
  }

  /** The loop comes to its end. */
  ghost predicate Passes(wl: seq<Cidr>)
  {
    exists rounds: nat :: PlaceAfter(wl, rounds).Past?
  }

  lemma {:induction false} Reaches(wl: seq<Cidr>, i: nat)
    requires i <= |wl| && i <= WL_MAX && forall j :: 0 <= j < i ==> wl[j].len <= 32
    ensures PlaceAfter(wl, i) == At(i)
  {
    if i > 0 {
      Reaches(wl, i - 1);
    }
  }

  lemma {:induction false} GoesRound(wl: seq<Cidr>, rounds: nat)
    requires !WlEnds(wl)
    ensures PlaceAfter(wl, rounds) == At(rounds % (WL_MAX + 1))
  {
    if rounds > 0 {
      GoesRound(wl, rounds - 1);
      var i := (rounds - 1) % (WL_MAX + 1);
      assert wl[i].len <= 32;
      NextIndex(rounds);
    }
  }

  lemma NextIndex(rounds: nat)
    requires rounds > 0
    ensures WlIndexAfter((rounds - 1) % (WL_MAX + 1)) == rounds % (WL_MAX + 1)
  {
  }

  /** The first index the loop cannot pass. */
  lemma {:induction false} FirstStop(wl: seq<Cidr>, i: nat) returns (f: nat)
    requires i <= WL_MAX && i <= |wl| && (|wl| <= WL_MAX || exists j :: i <= j <= WL_MAX && wl[j].len > 32)
    requires forall j :: 0 <= j < i ==> wl[j].len <= 32
    ensures f <= WL_MAX && f <= |wl| && (forall j :: 0 <= j < f ==> wl[j].len <= 32)
    ensures f == |wl| || wl[f].len > 32
    decreases WL_MAX - i
  {
    if i == |wl| || wl[i].len > 32 {
      f := i;
    } else {
      f := FirstStop(wl, i + 1);
    }
  }

  /** The loop is left if and only if the list has at most 65535 entries or an illegal prefix length
      among its first 65536; it reaches its end exactly for lists that pass. */
  lemma LeavesIff(wl: seq<Cidr>)
    ensures Leaves(wl) <==> WlEnds(wl)
    ensures Passes(wl) <==> WlOk(wl)
  {
    if WlEnds(wl) {
      var f := FirstStop(wl, 0);
      Reaches(wl, f);
      assert !PlaceAfter(wl, f + 1).At?;
      if f == |wl| {
        assert PlaceAfter(wl, f + 1).Past?;
        assert Passes(wl);
        forall c | c in wl ensures c.len <= 32 {
          var j :| 0 <= j < |wl| && wl[j] == c;
        }
      } else {
        forall rounds: nat ensures !PlaceAfter(wl, rounds).Past? {
          StaysRefused(wl, f, rounds);
        }
        assert wl[f] in wl;
      }
    } else {
      forall rounds: nat ensures PlaceAfter(wl, rounds).At? {
        GoesRound(wl, rounds);
      }
    }
  }

  lemma {:induction false} StaysRefused(wl: seq<Cidr>, f: nat, rounds: nat)
    requires f < |wl| && f <= WL_MAX && wl[f].len > 32 && forall j :: 0 <= j < f ==> wl[j].len <= 32
    ensures PlaceAfter(wl, rounds) == if rounds <= f then At(rounds) else Refused
  {
    if rounds > 0 {
      StaysRefused(wl, f, rounds - 1);
    }
  }

  // ----- A list the parser accepts and the loop never leaves -----

  function Copies(c: Cidr, n: nat): (cs: seq<Cidr>)
    ensures |cs| == n && forall i :: 0 <= i < n ==> cs[i] == c
  {
    if n == 0 then [] else Copies(c, n - 1) + [c]
  }

  /** One service with 65536 times the source 192.0.2.1/32 on its whitelist. */
  function EndlessService(): Service
  {
    Service(Cidr(32, 0xcb00_7101), 1, 1, 1, 0, 0, 0, 0, 0, 0, 0, 0, [], Copies(Cidr(32, 0xc000_0201), WL_MAX + 1))
  }

  lemma FieldLimits()
    ensures Limit(1) == 0x100 && Limit(2) == 0x1_0000 && Limit(4) == 0x1_0000_0000 && Limit(8) >= 0x1_0000_0000
  {
    assert Limit(2) == 256 * Limit(1) && Limit(3) == 256 * Limit(2) && Limit(4) == 256 * Limit(3);
    assert Limit(5) == 256 * Limit(4) && Limit(6) == 256 * Limit(5) && Limit(7) == 256 * Limit(6) && Limit(8) == 256 * Limit(7);
  }

  /** The parser returns the snapshot, its head is acceptable, and the loop over it never ends. */
  lemma EndlessSnapshot()
    ensures var node := ServiceFull([EndlessService()]);
            Decode(Encode(node)) == Some(node) && HeadOk(EndlessService()) && !Leaves(EndlessService().wl)
  {
    hide Copies;
    hide Encode;
    hide Decode;
    hide BlocksOk;
    hide BlocksOf;
    hide Leaves;
    var s := EndlessService();
    LeavesIff(s.wl);
    EndlessFits();
    EndlessSize();
    assert InBounds(ServiceFull([s]));
    DecodeEncode(ServiceFull([s]));
  }

  lemma EndlessFits()
    ensures FormatOk(SERVICE_FORMAT) && BlocksOk(SERVICE_FORMAT, BlocksOf([EndlessService()]))
  {
    hide Copies;
    FieldLimits();
    ServiceFormatOk();
  }

  lemma {:induction false} SizeBounded(layout: seq<Field>)
    requires forall i :: 0 <= i < |layout| ==> Width(layout[i]) <= 8
    ensures Size(layout) <= 8 * |layout|
  {
    if layout != [] {
      SizeBounded(layout[1..]);
    }
  }

  lemma OneBlockSize(m: Format, k: Block)
    requires BlockShaped(m, k)
    ensures PackBlocks(m, [k]) == PackBlock(m, k)
    ensures |PackBlock(m, k)| == Size(m.head) + |k.first| * Size(m.first) + Size(m.tally) + |k.second| * Size(m.second)
  {
    PackAllSize(m.first, k.first);
    PackAllSize(m.second, k.second);
    assert [k][1..] == [];
    assert PackBlock(m, k) + [] == PackBlock(m, k);
  }

  lemma OneServiceEncoded(s: Service)
    ensures |Encode(ServiceFull([s]))| == 16 + Size(U32_LAYOUT) + |PackBlock(SERVICE_FORMAT, BlockOf(s))|
  {
    hide PackBlock;
    hide PackBlocks;
    hide BlockOf;
    hide Pack;
    hide Size;
    assert [s][1..] == [];
    assert BlocksOf([s]) == [BlockOf(s)];
    OneBlockSize(SERVICE_FORMAT, BlockOf(s));
  }

  /** A generous bound on the size of a snapshot of one service. */
  lemma OneServiceSize(s: Service)
    ensures |Encode(ServiceFull([s]))| <= 200 + |s.rules| * 48 + |s.wl| * 8
  {
    hide PackBlock;
    hide BlockOf;
    hide Encode;
    hide Size;
    OneServiceEncoded(s);
    OneBlockSize(SERVICE_FORMAT, BlockOf(s));
    BlockCounts(s);
    LayoutSizes();
    MulLe(Size(RULE_LAYOUT), 48, |s.rules|);
  }

  lemma BlockCounts(s: Service)
    ensures |BlockOf(s).first| == |s.rules| && |BlockOf(s).second| == |s.wl|
  {
  }

  lemma LayoutSizes()
    ensures Size(SERVICE_LAYOUT) <= 120 && Size(U32_LAYOUT) <= 8 && Size(RULE_LAYOUT) <= 48 && Size(CIDR_LAYOUT) == 8
  {
    hide Size;
    SizeBounded(SERVICE_LAYOUT);
    SizeBounded(U32_LAYOUT);
    SizeBounded(RULE_LAYOUT);
    CidrSize();
  }

  lemma EndlessSize()
    ensures |Encode(ServiceFull([EndlessService()]))| <= MAX_BYTES
  {
    hide Copies;
    hide Encode;
    OneServiceSize(EndlessService());
  }
}
