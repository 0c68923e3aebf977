/** Service records as operators write them, what they mean for a packet, and how the control plane
    turns them into a snapshot (control-plane/app/worker/applier.py). */
module Policy {
  import opened Wrappers
  import opened Ipv4
  import opened Snapshot
  import opened Pipeline

  datatype Proto = AnyProto | Icmp | Tcp | Udp

  datatype AllowRule = AllowRule(
    priority: int, enabled: bool, proto: Proto,
    srcLo: Option<nat>, srcHi: Option<nat>, dstLo: Option<nat>, dstHi: Option<nat>)

  datatype Plan = Plan(committed: nat, ceiling: nat)

  datatype Record = Record(
    dpId: nat, enabled: bool, cidr: Cidr,
    vipPps: Option<nat>, vipBps: Option<nat>, svcPps: Option<nat>, svcBps: Option<nat>,
    plan: Option<Plan>, rules: seq<AllowRule>, whitelist: seq<Cidr>)

  // ----- Meaning -----

  predicate InPorts(port: nat, lo: Option<nat>, hi: Option<nat>)
  {
    (lo.Some? ==> lo.value <= port) && (hi.Some? ==> port <= hi.value)
  }

  /** Ports restrict only rules that name TCP or UDP. */
  predicate Allows(r: AllowRule, p: Packet)
  {
    && r.enabled
    && match r.proto
       case AnyProto => p.proto in {PROTO_TCP, PROTO_UDP, PROTO_ICMP}
       case Icmp => p.proto == PROTO_ICMP
       case Tcp => p.proto == PROTO_TCP && InPorts(p.sport, r.srcLo, r.srcHi) && InPorts(p.dport, r.dstLo, r.dstHi)
       case Udp => p.proto == PROTO_UDP && InPorts(p.sport, r.srcLo, r.srcHi) && InPorts(p.dport, r.dstLo, r.dstHi)
  }

  /** The allowing rule of least priority number. */
  function Best(rules: seq<AllowRule>, p: Packet): (r: Option<AllowRule>)
    ensures r.None? <==> forall x :: x in rules ==> !Allows(x, p)
    ensures r.Some? ==> r.value in rules && Allows(r.value, p)
                        && forall x :: x in rules && Allows(x, p) ==> r.value.priority <= x.priority
  {
    if rules == [] then None
    else
      var rest := Best(rules[1..], p);
      if Allows(rules[0], p) && (rest.None? || rules[0].priority <= rest.value.priority) then Some(rules[0]) else rest
  }

  /** UDP services that answer small questions with large replies: QOTD, CHARGEN, DNS, portmapper, NTP,
      NetBIOS, SNMP, CLDAP, RIP, SSDP, mDNS and memcached. */
  const AMPLIFIERS: set<nat> := {17, 19, 53, 111, 123, 137, 161, 389, 520, 1900, 5353, 11211}

  /** Reserved source blocks. */
  const BOGONS: seq<Cidr> := [
    Cidr(8, 0x0000_0000), Cidr(8, 0x0a00_0000), Cidr(10, 0x6440_0000), Cidr(8, 0x7f00_0000),
    Cidr(16, 0xa9fe_0000), Cidr(12, 0xac10_0000), Cidr(24, 0xc000_0000), Cidr(24, 0xc000_0200),
    Cidr(16, 0xc0a8_0000), Cidr(15, 0xc612_0000), Cidr(24, 0xc633_6400), Cidr(24, 0xcb00_7100),
    Cidr(4, 0xe000_0000), Cidr(4, 0xf000_0000)]

  /** The enabled record whose block contains the destination. */
  function Owner(rs: seq<Record>, dst: nat): (r: Option<Record>)
    ensures r.Some? ==> r.value in rs && r.value.enabled && Contains(r.value.cidr, dst)
    ensures r.None? ==> forall x :: x in rs && x.enabled ==> !Contains(x.cidr, dst)
  {
    if rs == [] then None
    else if rs[0].enabled && Contains(rs[0].cidr, dst) then Some(rs[0])
    else Owner(rs[1..], dst)
  }

  /** What the records say should happen, given the buckets' answers. */
  datatype Ruling = Ruling(used: seq<Stage>, owner: Option<Record>, rule: Option<AllowRule>, out: Outcome)

  function Halt(r: Record, rule: Option<AllowRule>, reason: Reason): Ruling { Ruling([], Some(r), rule, Drop(reason)) }

  function After(s: Stage, x: Ruling): Ruling { x.(used := [s] + x.used) }

  function Send(r: Record, rule: Option<AllowRule>, way: Way, hops: set<nat>): Ruling
  {
    Ruling([], Some(r), rule, if r.dpId in hops then Redirect(way) else Drop(NexthopUnresolved))
  }

  /** Ask one bucket: a full state map is a map error, a refusal has the stage's own reason. */
  function Ask(s: Stage, a: Stage -> Answer, r: Record, rule: Option<AllowRule>, no: Ruling, yes: Ruling): Ruling
  {
    After(s, match a(s) case Full => Halt(r, rule, MapError) case Refuse => no case Pass => yes)
  }

  function Share(r: Record, rule: Option<AllowRule>, a: Stage -> Answer, hops: set<nat>): Ruling
  {
    Ask(Committed, a, r, rule,
        Ask(Burst, a, r, rule, Halt(r, rule, ServiceCeilingDrop),
            Ask(Headroom, a, r, rule, Halt(r, rule, CongestionDrop), Send(r, rule, ViaBurst, hops))),
        Send(r, rule, ViaCommitted, hops))
  }

  function Limited(r: Record, rule: Option<AllowRule>, a: Stage -> Answer, hops: set<nat>): Ruling
  {
    if r.svcPps.None? && r.svcBps.None? then Share(r, rule, a, hops)
    else Ask(Limit, a, r, rule, Halt(r, rule, RateLimitDrop), Share(r, rule, a, hops))
  }

  /** The common path: attack filters, global deny list, allow rules. */
  ghost function Filtered(r: Record, deny: seq<Cidr>, blocked: set<nat>, p: Packet, a: Stage -> Answer, hops: set<nat>): Ruling
  {
    if p.proto == PROTO_UDP && p.sport in AMPLIFIERS then Halt(r, None, UdpAmplificationDrop)
    else if Listed(BOGONS, p.src) then Halt(r, None, BogonDrop)
    else if p.proto == PROTO_UDP && p.sport in blocked then Halt(r, None, UdpAmplificationDrop)
    else if Listed(deny, p.src) then Halt(r, None, BlacklistDrop)
    else
      var best := Best(r.rules, p);
      if best.None? then Halt(r, None, NotAllowed) else Limited(r, best, a, hops)
  }

  /** A source on the service's own whitelist skips the filters if the service sells VIP rates. */
  ghost function Ruled(rs: seq<Record>, deny: seq<Cidr>, blocked: set<nat>, p: Packet, a: Stage -> Answer, hops: set<nat>): Ruling
  {
    var owner := Owner(rs, p.dst);
    if owner.None? then Ruling([], None, None, Drop(ServiceMiss))
    else
      var r := owner.value;
      Ask(Cap, a, r, None, Halt(r, None, IngressCapDrop),
          if Listed(r.whitelist, p.src) && (r.vipPps.Some? || r.vipBps.Some?)
          then Ask(Vip, a, r, None, Halt(r, None, VipCeilingDrop), Send(r, None, ViaVip, hops))
          else Filtered(r, deny, blocked, p, a, hops))
  }

  // ----- Compilation -----

  function ProtoNumber(x: Proto): nat
  {
    match x case AnyProto => 0 case Icmp => PROTO_ICMP case Tcp => PROTO_TCP case Udp => PROTO_UDP
  }

  function OrZero(x: Option<nat>): nat { if x.Some? then x.value else 0 }

  function SetFlagsOf(pps: Option<nat>, bps: Option<nat>): nat
  {
    (if pps.Some? then 1 else 0) + (if bps.Some? then 2 else 0)
  }

  function CompileRule(r: AllowRule): Rule
  {
    Rule(OrZero(r.srcLo), if r.srcHi.Some? then r.srcHi.value else 65535,
         OrZero(r.dstLo), if r.dstHi.Some? then r.dstHi.value else 65535,
         ProtoNumber(r.proto), if r.enabled then 1 else 0)
  }

  function InsertRule(r: AllowRule, rs: seq<AllowRule>): seq<AllowRule>
  {
    if rs == [] || r.priority <= rs[0].priority then [r] + rs else [rs[0]] + InsertRule(r, rs[1..])
  }

  function ByPriority(rs: seq<AllowRule>): seq<AllowRule>
  {
    if rs == [] then [] else InsertRule(rs[0], ByPriority(rs[1..]))
  }

  function CompileRules(rs: seq<AllowRule>): (out: seq<Rule>)
    ensures |out| == |rs| && forall i :: 0 <= i < |rs| ==> out[i] == CompileRule(rs[i])
  {
    seq(|rs|, i requires 0 <= i < |rs| => CompileRule(rs[i]))
  }

  function Canons(cs: seq<Cidr>): (out: seq<Cidr>)
    ensures |out| == |cs| && forall i :: 0 <= i < |cs| ==> out[i] == Canon(cs[i])
  {
    seq(|cs|, i requires 0 <= i < |cs| => Canon(cs[i]))
  }

  predicate HasBroad(cs: seq<Cidr>) { exists i :: 0 <= i < |cs| && cs[i].len < 24 }

  function ListFlags(cs: seq<Cidr>): nat
  {
    if cs == [] then 0 else if HasBroad(cs) then 3 else 1
  }

  function CompileRecord(r: Record): Service
  {
    Service(
      Canon(r.cidr), r.dpId, if r.enabled then 1 else 0, ListFlags(r.whitelist),
      if r.plan.Some? then r.plan.value.committed else 0, if r.plan.Some? then r.plan.value.ceiling else 0,
      OrZero(r.vipPps), OrZero(r.vipBps), SetFlagsOf(r.vipPps, r.vipBps),
      OrZero(r.svcPps), OrZero(r.svcBps), SetFlagsOf(r.svcPps, r.svcBps),
      CompileRules(ByPriority(r.rules)), Canons(r.whitelist))
  }

  /** load_node_config keeps the enabled records. */
  function Active(rs: seq<Record>): (out: seq<Record>)
    ensures forall r :: r in out <==> r in rs && r.enabled
  {
    if rs == [] then [] else (if rs[0].enabled then [rs[0]] else []) + Active(rs[1..])
  }

  function CompileNode(rs: seq<Record>): (out: seq<Service>)
    ensures |out| == |Active(rs)| && forall i :: 0 <= i < |out| ==> out[i] == CompileRecord(Active(rs)[i])
  {
    seq(|Active(rs)|, i requires 0 <= i < |Active(rs)| => CompileRecord(Active(rs)[i]))
  }

  // ----- What the database guarantees -----

  predicate RecordOk(r: Record)
  {
    && Valid(r.cidr) && (forall c :: c in r.whitelist ==> Valid(c))
    && (forall x, y :: x in r.rules && y in r.rules && x != y ==> x.priority != y.priority)
  }

  /** Enabled services have their own data-plane id and do not overlap. */
  ghost predicate RecordsOk(rs: seq<Record>)
  {
    && (forall r :: r in rs && r.enabled ==> RecordOk(r))
    && (forall x, y :: x in rs && y in rs && x.enabled && y.enabled && x != y ==>
          x.dpId != y.dpId && !Overlap(x.cidr, y.cidr))
  }
}
