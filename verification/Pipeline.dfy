/** What the packet path decides for one IPv4 packet, stage by stage, from the slot it read and the
    answers of the token buckets (data-plane/src/xdp_gateway.bpf.c, whitelist.h, blacklist.h,
    rules.h, fairness.h). */
module Pipeline {
  import opened Wrappers
  import opened Arith
  import opened Ipv4
  import opened Snapshot
  import opened Bpf
  import opened DenyList
  import opened BlockedPorts
  import opened ApplyPlan
  import opened ApplyEffect

  const PROTO_ICMP: nat := 1
  const PROTO_TCP: nat := 6
  const PROTO_UDP: nat := 17

  datatype Reason =
    | Ipv6Unsupported | UnsupportedEthertype | MalformedIpv4 | FragmentUnsupported | BogonDrop | ServiceMiss
    | ServiceDisabled | UdpAmplificationDrop | BlacklistDrop | NotAllowed | RateLimitDrop | ServiceCeilingDrop
    | CongestionDrop | IngressCapDrop | VipCeilingDrop | MapError | NexthopUnresolved

  /** The bucket checks, in the order a packet can meet them. */
  datatype Stage = Cap | Vip | Limit | Committed | Burst | Headroom

  /** A bucket admits, refuses, or could not be stored because its map is full. */
  datatype Answer = Pass | Refuse | Full

  datatype Way = ViaVip | ViaCommitted | ViaBurst

  datatype Outcome = Drop(reason: Reason) | Redirect(way: Way)

  /** `wlFp` and `gblFp` are what the two bloom filters answer for keys that were never inserted. */
  datatype Packet = Packet(src: nat, dst: nat, proto: nat, sport: nat, dport: nat, wlFp: bool, gblFp: bool)

  predicate PacketOk(p: Packet) { p.src < ADDR_SPACE && p.dst < ADDR_SPACE && p.sport < 65536 && p.dport < 65536 }

  /** The buckets charged, the service id attributed (0 for none), the matched rule, the outcome. */
  datatype Path = Path(used: seq<Stage>, id: nat, rule: Option<nat>, out: Outcome)

  function Stop(id: nat, rule: Option<nat>, reason: Reason): Path { Path([], id, rule, Drop(reason)) }

  function Then(s: Stage, p: Path): Path { p.(used := [s] + p.used) }

  /** redirect_out: an unresolved next hop drops, fail-closed. */
  function RedirectOut(id: nat, rule: Option<nat>, way: Way, hops: set<nat>): Path
  {
    if id in hops then Path([], id, rule, Redirect(way)) else Stop(id, rule, NexthopUnresolved)
  }

  // ----- Map lookups through one slot -----

  function ServiceAt(v: SlotView, dst: nat): Option<Val>
    requires Total(v)
  {
    var r := LpmLookup(v.inner[ServiceMap], 0, dst, 32);
    if r.Some? && r.value.SvcVal? then r else None
  }

  function FairAt(v: SlotView, id: nat): Option<Val>
    requires Total(v)
  {
    var m := v.inner[FairMap];
    if Id(id) in m && m[Id(id)].FairVal? then Some(m[Id(id)]) else None
  }

  function RulesAt(v: SlotView, id: nat): Option<seq<Rule>>
    requires Total(v)
  {
    var m := v.inner[RuleBlockMap];
    if Id(id) in m && m[Id(id)].RuleBlock? then Some(m[Id(id)].rules) else None
  }

  function RatesAt(m: Inner, id: nat): Option<Val>
  {
    if Id(id) in m && m[Id(id)].Rates? then Some(m[Id(id)]) else None
  }

  predicate PpsSet(flags: nat) { flags % 2 == 1 }

  predicate BpsSet(flags: nat) { flags / 2 % 2 == 1 }

  predicate AnySet(flags: nat) { PpsSet(flags) || BpsSet(flags) }

  // ----- Rule matching -----

  predicate ProtoMatches(r: Rule, p: Packet)
  {
    if r.proto == 0 then p.proto == PROTO_TCP || p.proto == PROTO_UDP || p.proto == PROTO_ICMP else p.proto == r.proto
  }

  predicate PortsMatch(r: Rule, p: Packet)
  {
    (r.proto == PROTO_TCP || r.proto == PROTO_UDP) ==> r.srcLo <= p.sport <= r.srcHi && r.dstLo <= p.dport <= r.dstHi
  }

  predicate RuleMatches(r: Rule, p: Packet)
  {
    r.flags % 2 == 1 && ProtoMatches(r, p) && PortsMatch(r, p)
  }

  function FirstMatch(rules: seq<Rule>, p: Packet): (r: Option<nat>)
    ensures r.Some? ==> r.value < |rules| && RuleMatches(rules[r.value], p)
                        && forall j :: 0 <= j < r.value ==> !RuleMatches(rules[j], p)
    ensures r.None? ==> forall j :: 0 <= j < |rules| ==> !RuleMatches(rules[j], p)
  {
    if rules == [] then None
    else if RuleMatches(rules[0], p) then Some(0)
    else
      var rest := FirstMatch(rules[1..], p);
      assert forall j :: 0 < j < |rules| ==> rules[j] == rules[1..][j - 1];
      if rest.Some? then Some(rest.value + 1) else None
  }

  // ----- Source tests that need no map -----

  predicate AmpPort(sport: nat)
  {
    || sport == 17 || sport == 19 || sport == 53 || sport == 111 || sport == 123 || sport == 137
    || sport == 161 || sport == 389 || sport == 520 || sport == 1900 || sport == 5353 || sport == 11211
  }

  /** bogon_src: one mask-and-compare per reserved block. */
  predicate Bogon(src: nat)
  {
    || Mask(src, 8) == 0x0000_0000 || Mask(src, 8) == 0x0a00_0000 || Mask(src, 10) == 0x6440_0000
    || Mask(src, 8) == 0x7f00_0000 || Mask(src, 16) == 0xa9fe_0000 || Mask(src, 12) == 0xac10_0000
    || Mask(src, 24) == 0xc000_0000 || Mask(src, 24) == 0xc000_0200 || Mask(src, 16) == 0xc0a8_0000
    || Mask(src, 15) == 0xc612_0000 || Mask(src, 24) == 0xc633_6400 || Mask(src, 24) == 0xcb00_7100
    || Mask(src, 4) == 0xe000_0000 || Mask(src, 4) == 0xf000_0000
  }

  // ----- Stages, last to first -----

  /** The node-wide step of fair_admit_stage. */
  function NodeStep(id: nat, rule: Option<nat>, a: Stage -> Answer, hops: set<nat>): Path
  {
    Then(Headroom,
      match a(Headroom)
      case Full => Stop(id, rule, MapError)
      case Refuse => Stop(id, rule, CongestionDrop)
      case Pass => RedirectOut(id, rule, ViaBurst, hops))
  }

  /** The burst step: within the service's ceiling, the packet still needs node headroom. */
  function BurstStep(id: nat, rule: Option<nat>, a: Stage -> Answer, hops: set<nat>): Path
  {
    Then(Burst,
      match a(Burst)
      case Full => Stop(id, rule, MapError)
      case Refuse => Stop(id, rule, ServiceCeilingDrop)
      case Pass => NodeStep(id, rule, a, hops))
  }

  /** fair_admit_stage: committed share, then service burst, then node headroom. */
  function Ladder(v: SlotView, id: nat, rule: Option<nat>, a: Stage -> Answer, hops: set<nat>): Path
    requires Total(v)
  {
    if FairAt(v, id).None? then Stop(id, rule, MapError)
    else
      Then(Committed,
        match a(Committed)
        case Full => Stop(id, rule, MapError)
        case Pass => RedirectOut(id, rule, ViaCommitted, hops)
        case Refuse => BurstStep(id, rule, a, hops))
  }

  /** The service rate limit in front of the ladder; no configuration means no limit. */
  function LimitStage(v: SlotView, id: nat, rule: Option<nat>, a: Stage -> Answer, hops: set<nat>): Path
    requires Total(v)
  {
    var cfg := RatesAt(v.inner[SvcRlMap], id);
    if cfg.None? || !AnySet(cfg.value.flags) then Ladder(v, id, rule, a, hops)
    else
      Then(Limit,
        match a(Limit)
        case Full => Stop(id, rule, MapError)
        case Refuse => Stop(id, rule, RateLimitDrop)
        case Pass => Ladder(v, id, rule, a, hops))
  }

  /** allow_rule_stage. */
  function AllowStage(v: SlotView, id: nat, p: Packet, a: Stage -> Answer, hops: set<nat>): Path
    requires Total(v)
  {
    match RulesAt(v, id)
    case None => Stop(id, None, NotAllowed)
    case Some(rules) =>
      var hit := FirstMatch(rules[..Min(|rules|, RULE_MAX)], p);
      if hit.None? then Stop(id, None, NotAllowed) else LimitStage(v, id, hit, a, hops)
  }

  /** deny_filter_stage. */
  function DenyStage(v: SlotView, id: nat, p: Packet, a: Stage -> Answer, hops: set<nat>): Path
    requires Total(v) && PacketOk(p)
  {
    if p.proto == PROTO_UDP && AmpPort(p.sport) then Stop(id, None, UdpAmplificationDrop)
    else if Bogon(p.src) then Stop(id, None, BogonDrop)
    else if p.proto == PROTO_UDP && PortBlocked(v.inner[PortsMap], p.sport).None? then Stop(id, None, MapError)
    else if p.proto == PROTO_UDP && PortBlocked(v.inner[PortsMap], p.sport).value then Stop(id, None, UdpAmplificationDrop)
    else if DenyHit(v.flags, v.inner[GblBloomMap], v.inner[GblLpmMap], p.src, p.gblFp) then Stop(id, None, BlacklistDrop)
    else AllowStage(v, id, p, a, hops)
  }

  /** whitelist_stage up to the trie answer. */
  predicate WhitelistHit(v: SlotView, id: nat, wlFlags: nat, p: Packet)
    requires Total(v)
  {
    && WlActive(wlFlags)
    && (WlBroad(wlFlags) || Bloom(id, Mask(p.src, WL_BLOOM_PREFIX)) in v.inner[WlBloomMap] || p.wlFp)
    && LpmLookup(v.inner[WlLpmMap], id, p.src, 32).Some?
  }

  /** whitelist_stage: a listed source takes the VIP path, if the service has VIP rates. */
  function WhitelistStage(v: SlotView, id: nat, wlFlags: nat, p: Packet, a: Stage -> Answer, hops: set<nat>): Path
    requires Total(v) && PacketOk(p)
  {
    if !WhitelistHit(v, id, wlFlags, p) then DenyStage(v, id, p, a, hops)
    else
      var cfg := RatesAt(v.inner[VipMap], id);
      if cfg.None? then Stop(id, None, MapError)
      else if !AnySet(cfg.value.flags) then DenyStage(v, id, p, a, hops)
      else
        Then(Vip,
          match a(Vip)
          case Full => Stop(id, None, MapError)
          case Refuse => Stop(id, None, VipCeilingDrop)
          case Pass => RedirectOut(id, None, ViaVip, hops))
  }

  /** ingress_cap_stage. */
  function CapStage(v: SlotView, id: nat, wlFlags: nat, p: Packet, a: Stage -> Answer, hops: set<nat>): Path
    requires Total(v) && PacketOk(p)
  {
    if FairAt(v, id).None? then Stop(id, None, MapError)
    else
      Then(Cap,
        match a(Cap)
        case Full => Stop(id, None, MapError)
        case Refuse => Stop(id, None, IngressCapDrop)
        case Pass => WhitelistStage(v, id, wlFlags, p, a, hops))
  }

  /** service_lookup_redirect. */
  function Decide(v: SlotView, p: Packet, a: Stage -> Answer, hops: set<nat>): Path
    requires Total(v) && PacketOk(p)
  {
    match ServiceAt(v, p.dst)
    case None => Stop(0, None, ServiceMiss)
    case Some(s) =>
      if s.enabled == 0 then Stop(s.serviceId, None, ServiceDisabled) else CapStage(v, s.serviceId, s.wlFlags, p, a, hops)
  }
}
