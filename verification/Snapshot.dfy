/** The apply snapshot: what the control plane writes (control-plane/app/worker/applier.py) and
    what the apply helper reads (data-plane/tools/xdpgw-apply.c), byte for byte. */
module Snapshot {
  import opened Wrappers
  import opened Wire
  import opened Ipv4

  const MAGIC: seq<Byte> := [0x58, 0x44, 0x50, 0x47, 0x57, 0x41, 0x50, 0x31]  // "XDPGWAP1"
  const SCHEMA_VERSION: nat := 4
  const KIND_SERVICE_FULL: nat := 1
  const KIND_GLOBAL_DENY: nat := 2
  const HEADER_SIZE: nat := 16
  const MAX_BYTES: nat := 64 * 1024 * 1024
  const MAX_SERVICES: nat := 65536
  const MAX_LIST_ENTRIES: nat := 1048576
  const MAX_GLOBAL_ENTRIES: nat := 1048576
  const RULE_MAX: nat := 16

  datatype Rule = Rule(srcLo: nat, srcHi: nat, dstLo: nat, dstHi: nat, proto: nat, flags: nat)

  datatype Service = Service(
    dst: Cidr, dpId: nat, enabled: nat, wlFlags: nat, committed: nat, ceiling: nat,
    vipPps: nat, vipBps: nat, vipFlags: nat, svcPps: nat, svcBps: nat, svcFlags: nat,
    rules: seq<Rule>, wl: seq<Cidr>)

  datatype Snapshot =
    | ServiceFull(services: seq<Service>)
    | GlobalDeny(revision: nat, entries: seq<Cidr>)

  const U32_LAYOUT: seq<Field> := [Le(4)]
  const HEAD_LAYOUT: seq<Field> := [Le(4), Le(4)]
  const GLOBAL_LAYOUT: seq<Field> := [Le(8), Le(4)]
  const CIDR_LAYOUT: seq<Field> := [Le(4), Be4]
  const RULE_LAYOUT: seq<Field> := [Le(2), Le(2), Le(2), Le(2), Le(1), Le(1)]
  const SERVICE_LAYOUT: seq<Field> :=
    [Le(4), Be4, Le(4), Le(1), Le(1), Le(1), Le(8), Le(8), Le(8), Le(8), Le(1), Le(8), Le(8), Le(1), Le(2)]

  /** A service record: byte 5 of the head is reserved, field 14 counts the rules. */
  const SERVICE_FORMAT: Format :=
    Format(SERVICE_LAYOUT, 5, 14, RULE_LAYOUT, RULE_MAX, U32_LAYOUT, CIDR_LAYOUT, MAX_LIST_ENTRIES)

  // ----- Records and their field values -----

  function OfCidr(c: Cidr): seq<nat> { [c.len, c.addr] }

  function ToCidr(r: seq<nat>): Cidr
    requires |r| == 2
  {
    Cidr(r[0], r[1])
  }

  function OfRule(r: Rule): seq<nat> { [r.srcLo, r.srcHi, r.dstLo, r.dstHi, r.proto, r.flags] }

  function ToRule(r: seq<nat>): Rule
    requires |r| == 6
  {
    Rule(r[0], r[1], r[2], r[3], r[4], r[5])
  }

  /** The fixed part of a service record; the sixth byte is reserved and written as zero. */
  function OfService(s: Service): (r: seq<nat>)
    ensures |r| == |SERVICE_LAYOUT|
  {
    [s.dst.len, s.dst.addr, s.dpId, s.enabled, s.wlFlags, 0, s.committed, s.ceiling, s.vipPps, s.vipBps,
     s.vipFlags, s.svcPps, s.svcBps, s.svcFlags, |s.rules|]
  }

  function ToService(r: seq<nat>, rules: seq<Rule>, wl: seq<Cidr>): Service
    requires |r| == |SERVICE_LAYOUT|
  {
    Service(Cidr(r[0], r[1]), r[2], r[3], r[4], r[6], r[7], r[8], r[9], r[10], r[11], r[12], r[13], rules, wl)
  }

  function OfCidrs(cs: seq<Cidr>): (r: seq<seq<nat>>)
    ensures |r| == |cs| && forall i :: 0 <= i < |r| ==> r[i] == OfCidr(cs[i])
  {
    seq(|cs|, i requires 0 <= i < |cs| => OfCidr(cs[i]))
  }

  function ToCidrs(rs: seq<seq<nat>>): (cs: seq<Cidr>)
    requires forall i :: 0 <= i < |rs| ==> |rs[i]| == 2
    ensures |cs| == |rs| && forall i :: 0 <= i < |rs| ==> cs[i] == ToCidr(rs[i])
  {
    seq(|rs|, i requires 0 <= i < |rs| => ToCidr(rs[i]))
  }

  function OfRules(rs: seq<Rule>): (r: seq<seq<nat>>)
    ensures |r| == |rs| && forall i :: 0 <= i < |r| ==> r[i] == OfRule(rs[i])
  {
    seq(|rs|, i requires 0 <= i < |rs| => OfRule(rs[i]))
  }

  function ToRules(rs: seq<seq<nat>>): (r: seq<Rule>)
    requires forall i :: 0 <= i < |rs| ==> |rs[i]| == 6
    ensures |r| == |rs| && forall i :: 0 <= i < |rs| ==> r[i] == ToRule(rs[i])
  {
    seq(|rs|, i requires 0 <= i < |rs| => ToRule(rs[i]))
  }

  function BlockOf(s: Service): (k: Block)
    ensures BlockShaped(SERVICE_FORMAT, k)
  {
    Block(OfService(s), OfRules(s.rules), OfCidrs(s.wl))
  }

  function ServiceOf(k: Block): Service
    requires BlockShaped(SERVICE_FORMAT, k)
  {
    ToService(k.fields, ToRules(k.first), ToCidrs(k.second))
  }

  function BlocksOf(ss: seq<Service>): (ks: seq<Block>)
    ensures |ks| == |ss| && BlocksShaped(SERVICE_FORMAT, ks)
  {
    if ss == [] then [] else
      var ks := BlocksOf(ss[1..]);
      assert ([BlockOf(ss[0])] + ks)[1..] == ks;
      [BlockOf(ss[0])] + ks
  }

  function ServicesOf(ks: seq<Block>): (ss: seq<Service>)
    requires BlocksShaped(SERVICE_FORMAT, ks)
    ensures |ss| == |ks|
  {
    if ks == [] then [] else [ServiceOf(ks[0])] + ServicesOf(ks[1..])
  }

  lemma ServiceOfBlockOf(s: Service)
    ensures ServiceOf(BlockOf(s)) == s
  {
    assert ToRules(OfRules(s.rules)) == s.rules;
    assert ToCidrs(OfCidrs(s.wl)) == s.wl;
  }

  lemma BlockOfServiceOf(k: Block)
    requires BlockShaped(SERVICE_FORMAT, k)
    requires k.fields[5] == 0 && k.fields[14] == |k.first|
    ensures BlockOf(ServiceOf(k)) == k
  {
    forall i | 0 <= i < |k.first| ensures OfRule(ToRule(k.first[i])) == k.first[i] {}
    assert OfRules(ToRules(k.first)) == k.first;
    CidrsBack(k.second);
    assert OfService(ServiceOf(k)) == k.fields;
  }

  lemma CidrsBack(rs: seq<seq<nat>>)
    requires forall i :: 0 <= i < |rs| ==> |rs[i]| == 2
    ensures OfCidrs(ToCidrs(rs)) == rs
  {
    forall i | 0 <= i < |rs| ensures OfCidr(ToCidr(rs[i])) == rs[i] {}
  }

  lemma {:induction false} ServicesOfBlocksOf(ss: seq<Service>)
    ensures ServicesOf(BlocksOf(ss)) == ss
  {
    hide BlockOf;
    hide ServiceOf;
    if ss != [] {
      ServiceOfBlockOf(ss[0]);
      ServicesOfBlocksOf(ss[1..]);
      assert BlocksOf(ss)[1..] == BlocksOf(ss[1..]);
    }
  }

  lemma {:induction false} BlocksOfServicesOf(ks: seq<Block>)
    requires FormatOk(SERVICE_FORMAT)
    requires BlocksShaped(SERVICE_FORMAT, ks) && BlocksOk(SERVICE_FORMAT, ks)
    ensures BlocksOf(ServicesOf(ks)) == ks
  {
    hide BlockOf;
    hide ServiceOf;
    if ks != [] {
      BlockOfServiceOf(ks[0]);
      BlocksOfServicesOf(ks[1..]);
      assert ServicesOf(ks)[1..] == ServicesOf(ks[1..]);
    }
  }

  // ----- In-bounds snapshots -----

  lemma ServiceFormatOk()
    ensures FormatOk(SERVICE_FORMAT)
  {
    U32Limit();
  }

  lemma U32Limit()
    ensures Limit(4) == 0x1_0000_0000
  {
    assert Limit(4) == 256 * Limit(3) && Limit(3) == 256 * Limit(2) && Limit(2) == 256 * Limit(1) && Limit(1) == 256;
  }

  /** global_entries_sorted: by prefix length, then by address bytes. */
  predicate Before(a: Cidr, b: Cidr)
  {
    a.len < b.len || (a.len == b.len && a.addr < b.addr)
  }

  predicate EntriesOk(es: seq<Cidr>)
  {
    && (forall i :: 0 <= i < |es| ==> Canonical(es[i]))
    && (forall i :: 0 < i < |es| ==> Before(es[i - 1], es[i]))
  }

  /** What the wire can carry and the helper accepts: field widths, list limits, a zero reserved
      byte, and strictly sorted canonical global entries. */
  ghost predicate InBounds(s: Snapshot)
  {
    && |Encode(s)| <= MAX_BYTES
    && match s
       case ServiceFull(ss) =>
         FormatOk(SERVICE_FORMAT) && |ss| <= MAX_SERVICES && BlocksOk(SERVICE_FORMAT, BlocksOf(ss))
       case GlobalDeny(rev, es) =>
         Fits(GLOBAL_LAYOUT, [rev, |es|]) && |es| <= MAX_GLOBAL_ENTRIES && EntriesOk(es)
  }

  // ----- Encoding and decoding -----

  function EncodeHead(kind: nat): (b: seq<Byte>)
    ensures |b| == 16 && b[..8] == MAGIC
  {
    HeadSize();
    MAGIC + Pack(HEAD_LAYOUT, [SCHEMA_VERSION, kind])
  }

  lemma HeadSize()
    ensures Size(HEAD_LAYOUT) == 8
  {
    assert Size(HEAD_LAYOUT) == 4 + Size(HEAD_LAYOUT[1..]);
    assert HEAD_LAYOUT[1..] == [Le(4)];
  }

  function EncodeBody(s: Snapshot): seq<Byte>
  {
    match s
    case ServiceFull(ss) => Pack(U32_LAYOUT, [|ss|]) + PackBlocks(SERVICE_FORMAT, BlocksOf(ss))
    case GlobalDeny(rev, es) => Pack(GLOBAL_LAYOUT, [rev, |es|]) + PackAll(CIDR_LAYOUT, OfCidrs(es))
  }

  function KindOf(s: Snapshot): nat
  {
    if s.ServiceFull? then KIND_SERVICE_FULL else KIND_GLOBAL_DENY
  }

  /** serialize_node_snapshot and serialize_global_snapshot. */
  function Encode(s: Snapshot): seq<Byte>
  {
    EncodeHead(KindOf(s)) + EncodeBody(s)
  }

  function DecodeServiceFull(b: seq<Byte>): Option<Snapshot>
  {
    match Unpack(U32_LAYOUT, b)
    case None => None
    case Some((n, b1)) =>
      ServiceFormatOk();
      if n[0] > MAX_SERVICES then None else
      match UnpackBlocks(SERVICE_FORMAT, b1, n[0])
      case None => None
      case Some((ks, rest)) =>
        BlocksBackTrip(SERVICE_FORMAT, b1, n[0]);
        if rest == [] then Some(ServiceFull(ServicesOf(ks))) else None
  }

  function DecodeGlobalDeny(b: seq<Byte>): Option<Snapshot>
  {
    match Unpack(GLOBAL_LAYOUT, b)
    case None => None
    case Some((h, b1)) =>
      if h[1] > MAX_GLOBAL_ENTRIES || h[1] > |b1| / 8 then None else
      match UnpackAll(CIDR_LAYOUT, b1, h[1])
      case None => None
      case Some((es, rest)) =>
        if EntriesOk(ToCidrs(es)) && rest == [] then Some(GlobalDeny(h[0], ToCidrs(es))) else None
  }

  /** parse_snapshot on the bytes of the file. */
  function Decode(b: seq<Byte>): Option<Snapshot>
  {
    if |b| < HEADER_SIZE || |b| > MAX_BYTES || b[..8] != MAGIC then None
    else
      match Unpack(HEAD_LAYOUT, b[8..])
      case None => None
      case Some((h, rest)) =>
        if h[0] != SCHEMA_VERSION then None
        else if h[1] == KIND_SERVICE_FULL then DecodeServiceFull(rest)
        else if h[1] == KIND_GLOBAL_DENY then DecodeGlobalDeny(rest)
        else None
  }

  // ----- Encoding then decoding -----

  lemma HeaderRoundTrip(kind: nat, body: seq<Byte>)
    requires kind <= 2
    ensures var b := EncodeHead(kind) + body;
            b[..8] == MAGIC && Unpack(HEAD_LAYOUT, b[8..]) == Some(([SCHEMA_VERSION, kind], body))
  {
    var b := EncodeHead(kind) + body;
    U32Limit();
    HeadSize();
    RecordRoundTrip(HEAD_LAYOUT, [SCHEMA_VERSION, kind], body);
    assert b[8..] == Pack(HEAD_LAYOUT, [SCHEMA_VERSION, kind]) + body;
  }

  lemma DecodeServiceBody(ss: seq<Service>, extra: seq<Byte>)
    requires InBounds(ServiceFull(ss))
    ensures DecodeServiceFull(EncodeBody(ServiceFull(ss)) + extra)
            == if extra == [] then Some(ServiceFull(ss)) else None
  {
    hide PackBlocks;
    hide UnpackBlocks;
    hide BlocksOf;
    var body := PackBlocks(SERVICE_FORMAT, BlocksOf(ss)) + extra;
    U32Limit();
    RecordRoundTrip(U32_LAYOUT, [|ss|], body);
    Regroup3(Pack(U32_LAYOUT, [|ss|]), PackBlocks(SERVICE_FORMAT, BlocksOf(ss)), extra);
    BlocksRoundTrip(SERVICE_FORMAT, BlocksOf(ss), extra);
    ServicesOfBlocksOf(ss);
  }

  lemma EntriesFit(es: seq<Cidr>)
    requires EntriesOk(es)
    ensures AllFit(CIDR_LAYOUT, OfCidrs(es))
  {
    U32Limit();
    forall i | 0 <= i < |es|
      ensures Fits(CIDR_LAYOUT, OfCidrs(es)[i])
    {
      assert Canonical(es[i]);
    }
  }

  lemma CidrSize()
    ensures Size(CIDR_LAYOUT) == 8
  {
    assert Size(CIDR_LAYOUT) == 4 + Size(CIDR_LAYOUT[1..]);
    assert CIDR_LAYOUT[1..] == [Be4];
  }

  lemma DecodeGlobalBody(rev: nat, es: seq<Cidr>, extra: seq<Byte>)
    requires InBounds(GlobalDeny(rev, es))
    ensures DecodeGlobalDeny(EncodeBody(GlobalDeny(rev, es)) + extra)
            == if extra == [] then Some(GlobalDeny(rev, es)) else None
  {
    hide PackAll;
    hide UnpackAll;
    var list := PackAll(CIDR_LAYOUT, OfCidrs(es));
    RecordRoundTrip(GLOBAL_LAYOUT, [rev, |es|], list + extra);
    Regroup3(Pack(GLOBAL_LAYOUT, [rev, |es|]), list, extra);
    EntriesFit(es);
    CidrSize();
    PackAllSize(CIDR_LAYOUT, OfCidrs(es));
    RecordsRoundTrip(CIDR_LAYOUT, OfCidrs(es), extra);
    assert ToCidrs(OfCidrs(es)) == es;
  }

  lemma DecodeEncoded(s: Snapshot, extra: seq<Byte>)
    requires InBounds(s) && |Encode(s) + extra| <= MAX_BYTES
    ensures Decode(Encode(s) + extra) == if extra == [] then Some(s) else None
  {
    hide EncodeHead;
    hide EncodeBody;
    hide DecodeServiceFull;
    hide DecodeGlobalDeny;
    var head, body := EncodeHead(KindOf(s)), EncodeBody(s) + extra;
    HeaderRoundTrip(KindOf(s), body);
    Regroup3(head, EncodeBody(s), extra);
    match s
    case ServiceFull(ss) => DecodeServiceBody(ss, extra);
    case GlobalDeny(rev, es) => DecodeGlobalBody(rev, es, extra);
  }

  /** Parsing a serialized snapshot returns it. */
  lemma DecodeEncode(s: Snapshot)
    requires InBounds(s)
    ensures Decode(Encode(s)) == Some(s)
  {
    assert Encode(s) + [] == Encode(s);
    DecodeEncoded(s, []);
  }

  // ----- Decoding then encoding -----

  lemma ServiceBodyBackTrip(b: seq<Byte>)
    requires DecodeServiceFull(b).Some?
    ensures var s := DecodeServiceFull(b).value;
            && s.ServiceFull? && EncodeBody(s) == b
            && FormatOk(SERVICE_FORMAT) && |s.services| <= MAX_SERVICES && BlocksOk(SERVICE_FORMAT, BlocksOf(s.services))
  {
    hide PackBlocks;
    hide UnpackBlocks;
    hide BlocksOf;
    ServiceFormatOk();
    RecordBackTrip(U32_LAYOUT, b);
    var (n, b1) := Unpack(U32_LAYOUT, b).value;
    assert n == [n[0]];
    BlocksBackTrip(SERVICE_FORMAT, b1, n[0]);
    var (ks, rest) := UnpackBlocks(SERVICE_FORMAT, b1, n[0]).value;
    BlocksOfServicesOf(ks);
    assert PackBlocks(SERVICE_FORMAT, ks) + [] == PackBlocks(SERVICE_FORMAT, ks);
  }

  lemma GlobalBodyBackTrip(b: seq<Byte>)
    requires DecodeGlobalDeny(b).Some?
    ensures var s := DecodeGlobalDeny(b).value;
            && s.GlobalDeny? && EncodeBody(s) == b
            && Fits(GLOBAL_LAYOUT, [s.revision, |s.entries|])
            && |s.entries| <= MAX_GLOBAL_ENTRIES && EntriesOk(s.entries)
  {
    hide PackAll;
    hide UnpackAll;
    RecordBackTrip(GLOBAL_LAYOUT, b);
    var (h, b1) := Unpack(GLOBAL_LAYOUT, b).value;
    assert h == [h[0], h[1]];
    RecordsBackTrip(CIDR_LAYOUT, b1, h[1]);
    var (es, rest) := UnpackAll(CIDR_LAYOUT, b1, h[1]).value;
    CidrsBack(es);
    assert PackAll(CIDR_LAYOUT, es) + [] == PackAll(CIDR_LAYOUT, es);
  }

  /** Every accepted byte string is the encoding of what was parsed. */
  lemma EncodeDecode(b: seq<Byte>)
    requires Decode(b).Some?
    ensures InBounds(Decode(b).value) && Encode(Decode(b).value) == b
  {
    hide EncodeBody;
    hide DecodeServiceFull;
    hide DecodeGlobalDeny;
    RecordBackTrip(HEAD_LAYOUT, b[8..]);
    var (h, rest) := Unpack(HEAD_LAYOUT, b[8..]).value;
    assert h == [h[0], h[1]];
    if h[1] == KIND_SERVICE_FULL {
      ServiceBodyBackTrip(rest);
    } else {
      GlobalBodyBackTrip(rest);
    }
    assert EncodeHead(h[1]) + rest == b by {
      Regroup3(MAGIC, Pack(HEAD_LAYOUT, h), rest);
      assert b == b[..8] + b[8..];
    }
  }

  // ----- Consequences -----

  /** Adding bytes to a valid snapshot gives a string the helper rejects. */
  lemma ExtensionRejected(b: seq<Byte>, extra: seq<Byte>)
    requires Decode(b).Some? && extra != []
    ensures Decode(b + extra).None?
  {
    EncodeDecode(b);
    if |b + extra| <= MAX_BYTES {
      DecodeEncoded(Decode(b).value, extra);
    }
  }

  /** Cutting bytes off a valid snapshot gives a string the helper rejects. */
  lemma TruncationRejected(b: seq<Byte>, k: nat)
    requires Decode(b).Some? && k < |b|
    ensures Decode(b[..k]).None?
  {
    assert b == b[..k] + b[k..];
    if Decode(b[..k]).Some? {
      ExtensionRejected(b[..k], b[k..]);
    }
  }
}
