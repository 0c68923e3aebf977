/** The published byte layout of a snapshot (data-plane/src/apply_snapshot.h), written out field by field,
    and the proof that the encoder produces it. */
module WireContract {
  import opened Wire
  import opened Ipv4
  import opened Snapshot

  // ----- Bytes of one number -----

  function U8(v: nat): seq<Byte> { [v % 256] }

  function Le16(v: nat): seq<Byte> { [v % 256, v / 256 % 256] }

  function Le32(v: nat): seq<Byte> { [v % 256, v / 256 % 256, v / 65536 % 256, v / 16777216 % 256] }

  function Le64(v: nat): seq<Byte> { Le32(v) + Le32(v / 0x1_0000_0000) }

  function Be32(v: nat): seq<Byte> { [v / 16777216 % 256, v / 65536 % 256, v / 256 % 256, v % 256] }

  lemma PutsNumbers(v: nat)
    ensures PutLe(v, 1) == U8(v) && PutLe(v, 2) == Le16(v) && PutLe(v, 4) == Le32(v) && Put(Be4, v) == Be32(v)
  {
    var a, b, c := v / 256, v / 256 / 256, v / 256 / 256 / 256;
    assert b == v / 65536 && c == v / 16777216;
    assert PutLe(c, 1) == [c % 256] + PutLe(c / 256, 0);
    assert PutLe(b, 2) == [b % 256] + PutLe(c, 1);
    assert PutLe(a, 3) == [a % 256] + PutLe(b, 2);
    assert PutLe(v, 4) == [v % 256] + PutLe(a, 3);
    assert PutLe(a, 1) == [a % 256] + PutLe(b, 0);
    assert PutLe(v, 2) == [v % 256] + PutLe(a, 1);
    assert PutLe(v, 1) == [v % 256] + PutLe(a, 0);
  }

  lemma PutsLong(v: nat)
    ensures PutLe(v, 8) == Le64(v)
  {
    var a, b, c, d := v / 256, v / 256 / 256, v / 256 / 256 / 256, v / 256 / 256 / 256 / 256;
    assert b == v / 65536 && c == v / 16777216 && d == v / 0x1_0000_0000;
    PutsNumbers(d);
    assert PutLe(c, 5) == [c % 256] + PutLe(d, 4);
    assert PutLe(b, 6) == [b % 256] + PutLe(c, 5);
    assert PutLe(a, 7) == [a % 256] + PutLe(b, 6);
    assert PutLe(v, 8) == [v % 256] + PutLe(a, 7);
    hide PutLe;
    assert Le32(v) == [v % 256, a % 256, b % 256, c % 256];
    hide Le32;
  }

  // ----- Records -----

  function CidrBytes(c: Cidr): seq<Byte> { Le32(c.len) + Be32(c.addr) }

  function RuleBytes(r: Rule): seq<Byte>
  {
    Le16(r.srcLo) + Le16(r.srcHi) + Le16(r.dstLo) + Le16(r.dstHi) + U8(r.proto) + U8(r.flags)
  }

  function CidrsBytes(cs: seq<Cidr>): seq<Byte> { if cs == [] then [] else CidrBytes(cs[0]) + CidrsBytes(cs[1..]) }

  function RulesBytes(rs: seq<Rule>): seq<Byte> { if rs == [] then [] else RuleBytes(rs[0]) + RulesBytes(rs[1..]) }

  /** The fixed part of a service record in its three stretches. */
  function NameBytes(s: Service): seq<Byte>
  {
    Le32(s.dst.len) + (Be32(s.dst.addr) + (Le32(s.dpId) + (U8(s.enabled) + (U8(s.wlFlags) + U8(0)))))
  }

  function PlanBytes(s: Service): seq<Byte>
  {
    Le64(s.committed) + (Le64(s.ceiling) + (Le64(s.vipPps) + (Le64(s.vipBps) + U8(s.vipFlags))))
  }

  function LimitBytes(s: Service): seq<Byte> { Le64(s.svcPps) + (Le64(s.svcBps) + (U8(s.svcFlags) + Le16(|s.rules|))) }

  function ServiceBytes(s: Service): seq<Byte>
  {
    NameBytes(s) + (PlanBytes(s) + LimitBytes(s)) + (RulesBytes(s.rules) + (Le32(|s.wl|) + CidrsBytes(s.wl)))
  }

  function ServicesBytes(ss: seq<Service>): seq<Byte> { if ss == [] then [] else ServiceBytes(ss[0]) + ServicesBytes(ss[1..]) }

  function HeadBytes(kind: nat): seq<Byte> { [0x58, 0x44, 0x50, 0x47, 0x57, 0x41, 0x50, 0x31] + Le32(4) + Le32(kind) }

  function BodyBytes(s: Snapshot): seq<Byte>
  {
    match s
    case ServiceFull(ss) => Le32(|ss|) + ServicesBytes(ss)
    case GlobalDeny(rev, es) => Le64(rev) + Le32(|es|) + CidrsBytes(es)
  }

  /** The whole file: services are kind 1, a deny list kind 2. */
  function FileBytes(s: Snapshot): seq<Byte> { HeadBytes(if s.ServiceFull? then 1 else 2) + BodyBytes(s) }

  // ----- The encoder writes them -----

  lemma PackFirst(f: Field, v: nat, layout: seq<Field>, rec: seq<nat>)
    requires |rec| == |layout|
    ensures Pack([f] + layout, [v] + rec) == Put(f, v) + Pack(layout, rec)
  {
    assert ([f] + layout)[1..] == layout && ([v] + rec)[1..] == rec;
  }

  lemma {:induction false} PackAppend(a: seq<Field>, x: seq<nat>, b: seq<Field>, y: seq<nat>)
    requires |a| == |x| && |b| == |y|
    ensures Pack(a + b, x + y) == Pack(a, x) + Pack(b, y)
    decreases a
  {
    if a == [] {
      assert a + b == b && x + y == y;
    } else {
      assert (a + b)[1..] == a[1..] + b && (x + y)[1..] == x[1..] + y;
      PackAppend(a[1..], x[1..], b, y);
    }
  }

  lemma PackOne(f: Field, v: nat)
    ensures Pack([f], [v]) == Put(f, v)
  {
    assert [f][1..] == [] && [v][1..] == [];
  }

  lemma PackTwo(f: Field, v: nat, g: Field, w: nat)
    ensures Pack([f, g], [v, w]) == Put(f, v) + Put(g, w)
  {
    PackFirst(f, v, [g], [w]);
    PackOne(g, w);
    assert [f, g] == [f] + [g] && [v, w] == [v] + [w];
  }

  lemma PacksCidr(c: Cidr)
    ensures Pack(CIDR_LAYOUT, OfCidr(c)) == CidrBytes(c)
  {
    PackTwo(Le(4), c.len, Be4, c.addr);
    PutsNumbers(c.len);
    PutsNumbers(c.addr);
  }

  lemma PacksRule(r: Rule)
    ensures Pack(RULE_LAYOUT, OfRule(r)) == RuleBytes(r)
  {
    PackTwo(Le(2), r.srcLo, Le(2), r.srcHi);
    PackTwo(Le(2), r.dstLo, Le(2), r.dstHi);
    PackTwo(Le(1), r.proto, Le(1), r.flags);
    PackAppend([Le(2), Le(2)], [r.dstLo, r.dstHi], [Le(1), Le(1)], [r.proto, r.flags]);
    PackAppend([Le(2), Le(2)], [r.srcLo, r.srcHi], [Le(2), Le(2)] + [Le(1), Le(1)], [r.dstLo, r.dstHi] + [r.proto, r.flags]);
    assert RULE_LAYOUT == [Le(2), Le(2)] + ([Le(2), Le(2)] + [Le(1), Le(1)]);
    assert OfRule(r) == [r.srcLo, r.srcHi] + ([r.dstLo, r.dstHi] + [r.proto, r.flags]);
    hide Pack;
    PutsNumbers(r.srcLo);
    PutsNumbers(r.srcHi);
    PutsNumbers(r.dstLo);
    PutsNumbers(r.dstHi);
    PutsNumbers(r.proto);
    PutsNumbers(r.flags);
    hide PutLe;
    hide Le16;
    hide U8;
  }

  lemma {:induction false} PacksCidrs(cs: seq<Cidr>)
    ensures PackAll(CIDR_LAYOUT, OfCidrs(cs)) == CidrsBytes(cs)
  {
    hide Pack;
    if cs != [] {
      PacksCidr(cs[0]);
      PacksCidrs(cs[1..]);
      assert OfCidrs(cs)[1..] == OfCidrs(cs[1..]);
    }
  }

  lemma {:induction false} PacksRules(rs: seq<Rule>)
    ensures PackAll(RULE_LAYOUT, OfRules(rs)) == RulesBytes(rs)
  {
    hide Pack;
    if rs != [] {
      PacksRule(rs[0]);
      PacksRules(rs[1..]);
      assert OfRules(rs)[1..] == OfRules(rs[1..]);
    }
  }

  const NAME_LAYOUT: seq<Field> := [Le(4), Be4, Le(4), Le(1), Le(1), Le(1)]
  const PLAN_LAYOUT: seq<Field> := [Le(8), Le(8), Le(8), Le(8), Le(1)]
  const LIMIT_LAYOUT: seq<Field> := [Le(8), Le(8), Le(1), Le(2)]

  lemma PacksName(s: Service)
    ensures Pack(NAME_LAYOUT, [s.dst.len, s.dst.addr, s.dpId, s.enabled, s.wlFlags, 0]) == NameBytes(s)
  {
    var t := [s.dpId, s.enabled, s.wlFlags, 0];
    PackTwo(Le(1), s.wlFlags, Le(1), 0);
    PackFirst(Le(1), s.enabled, [Le(1), Le(1)], [s.wlFlags, 0]);
    PackFirst(Le(4), s.dpId, [Le(1)] + [Le(1), Le(1)], [s.enabled] + [s.wlFlags, 0]);
    PackFirst(Be4, s.dst.addr, [Le(4)] + ([Le(1)] + [Le(1), Le(1)]), [s.dpId] + ([s.enabled] + [s.wlFlags, 0]));
    PackFirst(Le(4), s.dst.len, [Be4] + ([Le(4)] + ([Le(1)] + [Le(1), Le(1)])),
              [s.dst.addr] + ([s.dpId] + ([s.enabled] + [s.wlFlags, 0])));
    assert NAME_LAYOUT == [Le(4)] + ([Be4] + ([Le(4)] + ([Le(1)] + [Le(1), Le(1)])));
    assert [s.dst.len, s.dst.addr, s.dpId, s.enabled, s.wlFlags, 0]
           == [s.dst.len] + ([s.dst.addr] + ([s.dpId] + ([s.enabled] + [s.wlFlags, 0])));
    hide Pack;
    PutsNumbers(s.dst.len);
    PutsNumbers(s.dst.addr);
    PutsNumbers(s.dpId);
    PutsNumbers(s.enabled);
    PutsNumbers(s.wlFlags);
    PutsNumbers(0);
    hide PutLe;
    hide Le32;
    hide Be32;
    hide U8;
  }

  lemma PacksPlan(s: Service)
    ensures Pack(PLAN_LAYOUT, [s.committed, s.ceiling, s.vipPps, s.vipBps, s.vipFlags]) == PlanBytes(s)
  {
    PackTwo(Le(8), s.vipBps, Le(1), s.vipFlags);
    PackFirst(Le(8), s.vipPps, [Le(8), Le(1)], [s.vipBps, s.vipFlags]);
    PackFirst(Le(8), s.ceiling, [Le(8)] + [Le(8), Le(1)], [s.vipPps] + [s.vipBps, s.vipFlags]);
    PackFirst(Le(8), s.committed, [Le(8)] + ([Le(8)] + [Le(8), Le(1)]), [s.ceiling] + ([s.vipPps] + [s.vipBps, s.vipFlags]));
    assert PLAN_LAYOUT == [Le(8)] + ([Le(8)] + ([Le(8)] + [Le(8), Le(1)]));
    assert [s.committed, s.ceiling, s.vipPps, s.vipBps, s.vipFlags]
           == [s.committed] + ([s.ceiling] + ([s.vipPps] + [s.vipBps, s.vipFlags]));
    hide Pack;
    PutsLong(s.committed);
    PutsLong(s.ceiling);
    PutsLong(s.vipPps);
    PutsLong(s.vipBps);
    PutsNumbers(s.vipFlags);
    hide PutLe;
    hide Le64;
    hide U8;
  }

  lemma PacksLimit(s: Service)
    ensures Pack(LIMIT_LAYOUT, [s.svcPps, s.svcBps, s.svcFlags, |s.rules|]) == LimitBytes(s)
  {
    PackTwo(Le(1), s.svcFlags, Le(2), |s.rules|);
    PackFirst(Le(8), s.svcBps, [Le(1), Le(2)], [s.svcFlags, |s.rules|]);
    PackFirst(Le(8), s.svcPps, [Le(8)] + [Le(1), Le(2)], [s.svcBps] + [s.svcFlags, |s.rules|]);
    assert LIMIT_LAYOUT == [Le(8)] + ([Le(8)] + [Le(1), Le(2)]);
    assert [s.svcPps, s.svcBps, s.svcFlags, |s.rules|] == [s.svcPps] + ([s.svcBps] + [s.svcFlags, |s.rules|]);
    hide Pack;
    PutsLong(s.svcPps);
    PutsLong(s.svcBps);
    PutsNumbers(s.svcFlags);
    PutsNumbers(|s.rules|);
    hide PutLe;
    hide Le64;
    hide Le16;
    hide U8;
  }

  lemma LayoutSplits()
    ensures SERVICE_LAYOUT == NAME_LAYOUT + (PLAN_LAYOUT + LIMIT_LAYOUT)
  {
  }

  lemma FieldsSplit(s: Service)
    ensures OfService(s) == [s.dst.len, s.dst.addr, s.dpId, s.enabled, s.wlFlags, 0]
                            + ([s.committed, s.ceiling, s.vipPps, s.vipBps, s.vipFlags]
                               + [s.svcPps, s.svcBps, s.svcFlags, |s.rules|])
  {
  }

  lemma PackThree(a: seq<Field>, x: seq<nat>, b: seq<Field>, y: seq<nat>, c: seq<Field>, z: seq<nat>)
    requires |a| == |x| && |b| == |y| && |c| == |z|
    ensures Pack(a + (b + c), x + (y + z)) == Pack(a, x) + (Pack(b, y) + Pack(c, z))
  {
    hide Pack;
    PackAppend(b, y, c, z);
    PackAppend(a, x, b + c, y + z);
  }

  lemma PacksHead(s: Service)
    ensures Pack(SERVICE_LAYOUT, OfService(s)) == NameBytes(s) + (PlanBytes(s) + LimitBytes(s))
  {
    LayoutSplits();
    FieldsSplit(s);
    PackThree(NAME_LAYOUT, [s.dst.len, s.dst.addr, s.dpId, s.enabled, s.wlFlags, 0],
              PLAN_LAYOUT, [s.committed, s.ceiling, s.vipPps, s.vipBps, s.vipFlags],
              LIMIT_LAYOUT, [s.svcPps, s.svcBps, s.svcFlags, |s.rules|]);
    hide Pack;
    hide NameBytes;
    hide PlanBytes;
    hide LimitBytes;
    hide OfService;
    PacksName(s);
    PacksPlan(s);
    PacksLimit(s);
  }

  lemma PacksTally(n: nat)
    ensures Pack(U32_LAYOUT, [n]) == Le32(n)
  {
    PackOne(Le(4), n);
    PutsNumbers(n);
  }

  lemma FormatParts()
    ensures SERVICE_FORMAT.head == SERVICE_LAYOUT && SERVICE_FORMAT.first == RULE_LAYOUT
    ensures SERVICE_FORMAT.tally == U32_LAYOUT && SERVICE_FORMAT.second == CIDR_LAYOUT
  {
  }

  lemma BlockParts(s: Service)
    ensures BlockOf(s).fields == OfService(s) && BlockOf(s).first == OfRules(s.rules) && BlockOf(s).second == OfCidrs(s.wl)
  {
    hide OfService;
    hide OfRules;
    hide OfCidrs;
  }

  lemma PacksParts(m: Format, k: Block, head: seq<Byte>, first: seq<Byte>, tally: seq<Byte>, second: seq<Byte>)
    requires BlockShaped(m, k) && Pack(m.head, k.fields) == head && PackAll(m.first, k.first) == first
    requires Pack(m.tally, [|k.second|]) == tally && PackAll(m.second, k.second) == second
    ensures PackBlock(m, k) == head + (first + (tally + second))
  {
    hide Pack;
    hide PackAll;
  }

  lemma PacksService(s: Service)
    ensures PackBlock(SERVICE_FORMAT, BlockOf(s)) == ServiceBytes(s)
  {
    FormatParts();
    BlockParts(s);
    PacksHead(s);
    PacksRules(s.rules);
    PacksCidrs(s.wl);
    PacksTally(|s.wl|);
    hide Pack;
    hide PackAll;
    hide BlockOf;
    hide NameBytes;
    hide PlanBytes;
    hide LimitBytes;
    hide RulesBytes;
    hide CidrsBytes;
    hide Le32;
    hide SERVICE_FORMAT;
    hide SERVICE_LAYOUT;
    hide RULE_LAYOUT;
    hide CIDR_LAYOUT;
    hide U32_LAYOUT;
    PacksParts(SERVICE_FORMAT, BlockOf(s), NameBytes(s) + (PlanBytes(s) + LimitBytes(s)), RulesBytes(s.rules), Le32(|s.wl|),
               CidrsBytes(s.wl));
    hide PackBlock;
  }

  lemma {:induction false} PacksServices(ss: seq<Service>)
    ensures PackBlocks(SERVICE_FORMAT, BlocksOf(ss)) == ServicesBytes(ss)
  {
    hide PackBlock;
    hide ServiceBytes;
    hide BlockOf;
    if ss != [] {
      PacksService(ss[0]);
      PacksServices(ss[1..]);
      assert BlocksOf(ss)[1..] == BlocksOf(ss[1..]);
    }
  }

  lemma PacksFileHead(kind: nat)
    ensures EncodeHead(kind) == HeadBytes(kind)
  {
    PackTwo(Le(4), SCHEMA_VERSION, Le(4), kind);
    PutsNumbers(4);
    PutsNumbers(kind);
    hide Pack;
    hide PutLe;
    hide Le32;
  }

  lemma EncodesBody(s: Snapshot)
    ensures EncodeBody(s) == BodyBytes(s)
  {
    if s.ServiceFull? {
      PacksTally(|s.services|);
      PacksServices(s.services);
    } else {
      PacksCounts(s.revision, |s.entries|);
      PacksCidrs(s.entries);
    }
    hide Pack;
    hide PackBlocks;
    hide PackAll;
    hide ServicesBytes;
    hide CidrsBytes;
    hide BlocksOf;
    hide OfCidrs;
    hide Le32;
    hide Le64;
    hide SERVICE_FORMAT;
    hide CIDR_LAYOUT;
    hide U32_LAYOUT;
    hide GLOBAL_LAYOUT;
  }

  /** Main theorem: every snapshot is encoded in the published layout, byte for byte. */
  lemma EncodesTheContract(s: Snapshot)
    ensures Encode(s) == FileBytes(s)
  {
    hide EncodeHead;
    hide EncodeBody;
    hide HeadBytes;
    hide BodyBytes;
    PacksFileHead(KindOf(s));
    EncodesBody(s);
  }

  lemma PacksCounts(revision: nat, n: nat)
    ensures Pack(GLOBAL_LAYOUT, [revision, n]) == Le64(revision) + Le32(n)
  {
    PackTwo(Le(8), revision, Le(4), n);
    PutsLong(revision);
    PutsNumbers(n);
  }

  /** The fixed sizes the layout announces. */
  lemma FixedSizes(s: Service, r: Rule, c: Cidr)
    ensures |NameBytes(s) + PlanBytes(s) + LimitBytes(s)| == 67 && |RuleBytes(r)| == 10 && |CidrBytes(c)| == 8
  {
  }
}
