/** Packets on one CPU: the per-CPU bucket maps each stage charges (data-plane/src/fairness.h,
    svc_ratelimit.h, whitelist.h), and the stages as they run, one after the other. */
module Cpu {
  import opened Wrappers
  import opened Arith
  import opened Snapshot
  import opened Bpf
  import opened DenyList
  import opened BlockedPorts
  import opened TokenBucket
  import opened ApplyEffect
  import opened Pipeline

  const STATE_MAX: nat := 1024

  /** Each stage reads the clock for itself. */
  datatype Times = Times(cap: nat, vip: nat, limit: nat, committed: nat, burst: nat, headroom: nat)

  datatype Input = Input(p: Packet, len: nat, t: Times)

  type Rows = map<nat, Bucket>

  datatype State = State(cap: Rows, vip: Rows, limit: Rows, committed: Rows, burst: Rows, node: Bucket)

  /** What a packet finds when it arrives: the slot it reads, the resolved next hops, the CPU count. */
  datatype Env = Env(v: SlotView, hops: set<nat>, ncpus: nat)

  ghost predicate EnvOk(e: Env) { Total(e.v) && e.ncpus > 0 }

  function TimeAt(t: Times, s: Stage): nat
  {
    match s
    case Cap => t.cap case Vip => t.vip case Limit => t.limit
    case Committed => t.committed case Burst => t.burst case Headroom => t.headroom
  }

  function RowsAt(c: State, s: Stage): Rows
  {
    match s
    case Cap => c.cap case Vip => c.vip case Limit => c.limit
    case Committed => c.committed case Burst => c.burst case Headroom => map[]
  }

  /** The node bucket is an array element: it always exists. */
  function RowAt(c: State, s: Stage, id: nat): Option<Bucket>
  {
    if s == Headroom then Some(c.node) else if id in RowsAt(c, s) then Some(RowsAt(c, s)[id]) else None
  }

  function SetRow(c: State, s: Stage, id: nat, b: Bucket): State
  {
    match s
    case Cap => c.(cap := c.cap[id := b])
    case Vip => c.(vip := c.vip[id := b])
    case Limit => c.(limit := c.limit[id := b])
    case Committed => c.(committed := c.committed[id := b])
    case Burst => c.(burst := c.burst[id := b])
    case Headroom => c.(node := b)
  }

  function RatesConfig(r: Option<Val>): Config
    requires r.Some? ==> r.value.Rates?
  {
    if r.None? then Config(0, false, false, 0, 0)
    else Config(r.value.version, PpsSet(r.value.flags), BpsSet(r.value.flags), r.value.pps, r.value.bps)
  }

  /** The configuration a stage charges against. */
  function ConfigAt(v: SlotView, id: nat, s: Stage): Config
    requires Total(v)
  {
    var f := FairAt(v, id);
    match s
    case Vip => RatesConfig(RatesAt(v.inner[VipMap], id))
    case Limit => RatesConfig(RatesAt(v.inner[SvcRlMap], id))
    case Headroom => Config(v.node.version, false, true, 0, v.node.headroom)
    case Cap => if f.None? then RatesConfig(None) else Config(f.value.version, true, true, f.value.capPps, f.value.capBps)
    case Committed => if f.None? then RatesConfig(None) else Config(f.value.version, false, true, 0, f.value.committed)
    case Burst => if f.None? then RatesConfig(None) else Config(f.value.version, false, true, 0, f.value.burst)
  }

  /** A new row needs a free entry in the stage's state map. */
  predicate NoRoom(c: State, s: Stage, id: nat)
  {
    RowAt(c, s, id).None? && |RowsAt(c, s)| >= STATE_MAX
  }

  function AdmitAt(c: State, e: Env, id: nat, s: Stage, x: Input): (Bucket, bool)
    requires EnvOk(e)
  {
    Admit(RowAt(c, s, id), ConfigAt(e.v, id, s), Arrival(TimeAt(x.t, s), x.len), e.ncpus)
  }

  function AnswerAt(c: State, e: Env, id: nat, s: Stage, x: Input): Answer
    requires EnvOk(e)
  {
    if NoRoom(c, s, id) then Full else if AdmitAt(c, e, id, s, x).1 then Pass else Refuse
  }

  function Charge(c: State, e: Env, id: nat, s: Stage, x: Input): State
    requires EnvOk(e)
  {
    if NoRoom(c, s, id) then c else SetRow(c, s, id, AdmitAt(c, e, id, s, x).0)
  }

  function ChargeAll(c: State, e: Env, id: nat, used: seq<Stage>, x: Input): State
    requires EnvOk(e)
    decreases used
  {
    if used == [] then c else ChargeAll(Charge(c, e, id, used[0], x), e, id, used[1..], x)
  }

  function IdOf(v: SlotView, dst: nat): nat
    requires Total(v)
  {
    var s := ServiceAt(v, dst);
    if s.None? then 0 else s.value.serviceId
  }

  function Answers(c: State, e: Env, id: nat, x: Input): Stage -> Answer
    requires EnvOk(e)
  {
    s => AnswerAt(c, e, id, s, x)
  }

  function PathOf(c: State, e: Env, x: Input): Path
    requires EnvOk(e) && PacketOk(x.p)
  {
    Decide(e.v, x.p, Answers(c, e, IdOf(e.v, x.p.dst), x), e.hops)
  }

  function Step(c: State, e: Env, x: Input): State
    requires EnvOk(e) && PacketOk(x.p)
  {
    ChargeAll(c, e, IdOf(e.v, x.p.dst), PathOf(c, e, x).used, x)
  }

  // ----- Stages depend only on their own buckets -----

  lemma SetRowFrame(c: State, s: Stage, id: nat, b: Bucket, t: Stage)
    requires s != t
    ensures RowsAt(SetRow(c, s, id, b), t) == RowsAt(c, t)
    ensures forall i :: RowAt(SetRow(c, s, id, b), t, i) == RowAt(c, t, i)
  {
  }

  lemma OtherStageUnmoved(c: State, e: Env, id: nat, s: Stage, t: Stage, x: Input)
    requires EnvOk(e) && s != t
    ensures AnswerAt(Charge(c, e, id, s, x), e, id, t, x) == AnswerAt(c, e, id, t, x)
  {
    hide Admit;
    hide ConfigAt;
    hide SetRow;
    hide RowAt;
    SetRowFrame(c, s, id, AdmitAt(c, e, id, s, x).0, t);
  }

  /** Charging one stage changes no other stage's answer. */
  lemma AnswersAfter(c: State, e: Env, id: nat, s: Stage, x: Input)
    requires EnvOk(e)
    ensures forall t :: t != s ==> Answers(Charge(c, e, id, s, x), e, id, x)(t) == Answers(c, e, id, x)(t)
  {
    hide AnswerAt;
    hide Charge;
    forall t | t != s ensures Answers(Charge(c, e, id, s, x), e, id, x)(t) == Answers(c, e, id, x)(t) {
      OtherStageUnmoved(c, e, id, s, t, x);
    }
  }

  lemma ChargeThen(c: State, e: Env, id: nat, s: Stage, p: Path, x: Input)
    requires EnvOk(e)
    ensures ChargeAll(c, e, id, Then(s, p).used, x) == ChargeAll(Charge(c, e, id, s, x), e, id, p.used, x)
  {
    assert ([s] + p.used)[1..] == p.used;
  }

  ghost predicate Later(a: Stage -> Answer, b: Stage -> Answer)
  {
    a(Committed) == b(Committed) && a(Burst) == b(Burst) && a(Headroom) == b(Headroom)
  }

  lemma LadderSame(v: SlotView, id: nat, rule: Option<nat>, a: Stage -> Answer, b: Stage -> Answer, hops: set<nat>)
    requires Total(v) && Later(a, b)
    ensures Ladder(v, id, rule, a, hops) == Ladder(v, id, rule, b, hops)
  {
  }

  lemma LimitSame(v: SlotView, id: nat, rule: Option<nat>, a: Stage -> Answer, b: Stage -> Answer, hops: set<nat>)
    requires Total(v) && Later(a, b) && a(Limit) == b(Limit)
    ensures LimitStage(v, id, rule, a, hops) == LimitStage(v, id, rule, b, hops)
  {
    LadderSame(v, id, rule, a, b, hops);
    hide Ladder;
  }

  lemma DenySame(v: SlotView, id: nat, p: Packet, a: Stage -> Answer, b: Stage -> Answer, hops: set<nat>)
    requires Total(v) && PacketOk(p) && Later(a, b) && a(Limit) == b(Limit)
    ensures DenyStage(v, id, p, a, hops) == DenyStage(v, id, p, b, hops)
  {
    hide LimitStage;
    hide FirstMatch;
    hide DenyHit;
    hide Bogon;
    hide AmpPort;
    forall rule: Option<nat> ensures LimitStage(v, id, rule, a, hops) == LimitStage(v, id, rule, b, hops) {
      LimitSame(v, id, rule, a, b, hops);
    }
  }

  lemma WhitelistSame(v: SlotView, id: nat, wl: nat, p: Packet, a: Stage -> Answer, b: Stage -> Answer, hops: set<nat>)
    requires Total(v) && PacketOk(p) && Later(a, b) && a(Limit) == b(Limit) && a(Vip) == b(Vip)
    ensures WhitelistStage(v, id, wl, p, a, hops) == WhitelistStage(v, id, wl, p, b, hops)
  {
    DenySame(v, id, p, a, b, hops);
    hide DenyStage;
    hide WhitelistHit;
  }

  // ----- The program -----

  class PacketPath {
    var cap: Rows
    var vip: Rows
    var limit: Rows
    var committed: Rows
    var burst: Rows
    var node: Bucket

    ghost function View(): State
      reads this
    {
      State(cap, vip, limit, committed, burst, node)
    }

    /** Empty state maps and a zeroed node bucket, as the loader leaves them. */
    constructor ()
      ensures View() == State(map[], map[], map[], map[], map[], Bucket(0, 0, 0, 0))
    {
      cap, vip, limit, committed, burst, node := map[], map[], map[], map[], map[], Bucket(0, 0, 0, 0);
    }

    function Rows(s: Stage): map<nat, Bucket>
      reads this
    {
      match s
      case Cap => cap case Vip => vip case Limit => limit
      case Committed => committed case Burst => burst case Headroom => map[]
    }

    method Store(s: Stage, id: nat, b: Bucket)
      modifies this
      ensures View() == SetRow(old(View()), s, id, b)
    {
      match s
      case Cap => cap := cap[id := b];
      case Vip => vip := vip[id := b];
      case Limit => limit := limit[id := b];
      case Committed => committed := committed[id := b];
      case Burst => burst := burst[id := b];
      case Headroom => node := b;
    }

    /** fair_cap_admit, vip_bucket_admit, svc_rl_admit, fair_committed_admit, fair_burst_admit and
        fair_node_admit: find the bucket or make one, bring it up to date, take the tokens. */
    method Offer(e: Env, id: nat, s: Stage, x: Input) returns (r: Answer)
      requires EnvOk(e)
      modifies this
      ensures r == AnswerAt(old(View()), e, id, s, x) && View() == Charge(old(View()), e, id, s, x)
    {
      hide ConfigAt;
      var cfg, now := ConfigAt(e.v, id, s), TimeAt(x.t, s);
      var bucket: RlBucket;
      var admitted: bool;
      if s == Headroom {
        bucket := new RlBucket.Of(node);
        admitted := bucket.Offer(cfg, now, x.len, e.ncpus);
      } else if id in Rows(s) {
        bucket := new RlBucket.Of(Rows(s)[id]);
        admitted := bucket.Offer(cfg, now, x.len, e.ncpus);
      } else {
        bucket := new RlBucket(cfg, now, e.ncpus);
        admitted := bucket.Take(cfg, x.len);
        if |Rows(s)| >= STATE_MAX { return Full; }
      }
      Store(s, id, Bucket(bucket.version, bucket.last, bucket.pps, bucket.bps));
      r := if admitted then Pass else Refuse;
    }

    method NodeAdmit(e: Env, id: nat, rule: Option<nat>, x: Input) returns (r: Path)
      requires EnvOk(e)
      modifies this
      ensures r == NodeStep(id, rule, Answers(old(View()), e, id, x), e.hops)
      ensures View() == ChargeAll(old(View()), e, id, r.used, x)
    {
      hide AnswerAt;
      hide Charge;
      var a := Offer(e, id, Headroom, x);
      var rest := match a
        case Full => Stop(id, rule, MapError)
        case Refuse => Stop(id, rule, CongestionDrop)
        case Pass => RedirectOut(id, rule, ViaBurst, e.hops);
      ChargeThen(old(View()), e, id, Headroom, rest, x);
      r := Then(Headroom, rest);
    }

    method BurstAdmit(e: Env, id: nat, rule: Option<nat>, x: Input) returns (r: Path)
      requires EnvOk(e)
      modifies this
      ensures r == BurstStep(id, rule, Answers(old(View()), e, id, x), e.hops)
      ensures View() == ChargeAll(old(View()), e, id, r.used, x)
    {
      hide AnswerAt;
      hide Charge;
      hide ChargeAll;
      var a := Offer(e, id, Burst, x);
      ghost var before, after := Answers(old(View()), e, id, x), Answers(View(), e, id, x);
      AnswersAfter(old(View()), e, id, Burst, x);
      assert a == before(Burst) && after(Headroom) == before(Headroom);
      match a {
        case Full => r := Stop(id, rule, MapError);
        case Refuse => r := Stop(id, rule, ServiceCeilingDrop);
        case Pass => r := NodeAdmit(e, id, rule, x);
      }
      ChargeNone(old(View()), e, id, Burst, x);
      ChargeThen(old(View()), e, id, Burst, r, x);
      r := Then(Burst, r);
    }

    /** fair_admit_stage. */
    method FairAdmit(e: Env, id: nat, rule: Option<nat>, x: Input) returns (r: Path)
      requires EnvOk(e)
      modifies this
      ensures r == Ladder(e.v, id, rule, Answers(old(View()), e, id, x), e.hops)
      ensures View() == ChargeAll(old(View()), e, id, r.used, x)
    {
      hide AnswerAt;
      hide Charge;
      if FairAt(e.v, id).None? { return Stop(id, rule, MapError); }
      var a := Offer(e, id, Committed, x);
      ghost var before, after := Answers(old(View()), e, id, x), Answers(View(), e, id, x);
      AnswersAfter(old(View()), e, id, Committed, x);
      assert a == before(Committed) && after(Burst) == before(Burst) && after(Headroom) == before(Headroom);
      match a {
        case Full => r := Stop(id, rule, MapError);
        case Pass => r := RedirectOut(id, rule, ViaCommitted, e.hops);
        case Refuse => r := BurstAdmit(e, id, rule, x);
      }
      ChargeThen(old(View()), e, id, Committed, r, x);
      r := Then(Committed, r);
    }

    /** The rule loop and the service rate limit of allow_rule_stage. */
    method AllowRules(e: Env, id: nat, x: Input) returns (r: Path)
      requires EnvOk(e)
      modifies this
      ensures r == AllowStage(e.v, id, x.p, Answers(old(View()), e, id, x), e.hops)
      ensures View() == ChargeAll(old(View()), e, id, r.used, x)
    {
      hide AnswerAt;
      hide Charge;
      hide RuleMatches;
      hide LimitStage;
      var block := RulesAt(e.v, id);
      if block.None? { return Stop(id, None, NotAllowed); }
      var count := Min(|block.value|, RULE_MAX);
      ghost var rules := block.value[..count];
      for i := 0 to count
        invariant View() == old(View())
        invariant forall j :: 0 <= j < i ==> !RuleMatches(rules[j], x.p)
      {
        assert rules[i] == block.value[i];
        if RuleMatches(block.value[i], x.p) {
          FirstMatchIs(rules, x.p, i);
          r := LimitAndAdmit(e, id, Some(i), x);
          return;
        }
      }
      assert FirstMatch(rules, x.p).None?;
      r := Stop(id, None, NotAllowed);
    }

    method LimitAndAdmit(e: Env, id: nat, rule: Option<nat>, x: Input) returns (r: Path)
      requires EnvOk(e)
      modifies this
      ensures r == LimitStage(e.v, id, rule, Answers(old(View()), e, id, x), e.hops)
      ensures View() == ChargeAll(old(View()), e, id, r.used, x)
    {
      hide AnswerAt;
      hide Charge;
      hide Ladder;
      hide ChargeAll;
      var cfg := RatesAt(e.v.inner[SvcRlMap], id);
      if cfg.None? || !AnySet(cfg.value.flags) {
        r := FairAdmit(e, id, rule, x);
        return;
      }
      var a := Offer(e, id, Limit, x);
      ghost var before, after := Answers(old(View()), e, id, x), Answers(View(), e, id, x);
      AnswersAfter(old(View()), e, id, Limit, x);
      LadderSame(e.v, id, rule, after, before, e.hops);
      assert a == before(Limit);
      match a {
        case Full => r := Stop(id, rule, MapError);
        case Refuse => r := Stop(id, rule, RateLimitDrop);
        case Pass => r := FairAdmit(e, id, rule, x);
      }
      ChargeNone(old(View()), e, id, Limit, x);
      ChargeThen(old(View()), e, id, Limit, r, x);
      r := Then(Limit, r);
    }

    /** deny_filter_stage. */
    method DenyFilter(e: Env, id: nat, x: Input) returns (r: Path)
      requires EnvOk(e) && PacketOk(x.p)
      modifies this
      ensures r == DenyStage(e.v, id, x.p, Answers(old(View()), e, id, x), e.hops)
      ensures View() == ChargeAll(old(View()), e, id, r.used, x)
    {
      hide AllowStage;
      hide Bogon;
      hide AmpPort;
      hide LpmLookup;
      hide AnswerAt;
      var p := x.p;
      if p.proto == PROTO_UDP && AmpPort(p.sport) { return Stop(id, None, UdpAmplificationDrop); }
      if Bogon(p.src) { return Stop(id, None, BogonDrop); }
      if p.proto == PROTO_UDP {
        var word := PortBlocked(e.v.inner[PortsMap], p.sport);
        if word.None? { return Stop(id, None, MapError); }
        if word.value { return Stop(id, None, UdpAmplificationDrop); }
      }
      if DenyHit(e.v.flags, e.v.inner[GblBloomMap], e.v.inner[GblLpmMap], p.src, p.gblFp) {
        return Stop(id, None, BlacklistDrop);
      }
      r := AllowRules(e, id, x);
    }

    /** whitelist_stage. */
    method Whitelist(e: Env, id: nat, wlFlags: nat, x: Input) returns (r: Path)
      requires EnvOk(e) && PacketOk(x.p)
      modifies this
      ensures r == WhitelistStage(e.v, id, wlFlags, x.p, Answers(old(View()), e, id, x), e.hops)
      ensures View() == ChargeAll(old(View()), e, id, r.used, x)
    {
      hide DenyStage;
      hide WhitelistHit;
      hide AnswerAt;
      hide Charge;
      if !WhitelistHit(e.v, id, wlFlags, x.p) {
        r := DenyFilter(e, id, x);
        return;
      }
      var cfg := RatesAt(e.v.inner[VipMap], id);
      if cfg.None? { return Stop(id, None, MapError); }
      if !AnySet(cfg.value.flags) {
        r := DenyFilter(e, id, x);
        return;
      }
      var a := Offer(e, id, Vip, x);
      r := match a
        case Full => Stop(id, None, MapError)
        case Refuse => Stop(id, None, VipCeilingDrop)
        case Pass => RedirectOut(id, None, ViaVip, e.hops);
      ChargeThen(old(View()), e, id, Vip, r, x);
      r := Then(Vip, r);
    }

    /** ingress_cap_stage and what follows it. */
    method CapThenWhitelist(e: Env, id: nat, wlFlags: nat, x: Input) returns (r: Path)
      requires EnvOk(e) && PacketOk(x.p)
      modifies this
      ensures r == CapStage(e.v, id, wlFlags, x.p, Answers(old(View()), e, id, x), e.hops)
      ensures View() == ChargeAll(old(View()), e, id, r.used, x)
    {
      hide WhitelistStage;
      hide AnswerAt;
      hide Charge;
      if FairAt(e.v, id).None? { return Stop(id, None, MapError); }
      var a := Offer(e, id, Cap, x);
      ghost var before, after := Answers(old(View()), e, id, x), Answers(View(), e, id, x);
      AnswersAfter(old(View()), e, id, Cap, x);
      WhitelistSame(e.v, id, wlFlags, x.p, after, before, e.hops);
      assert a == before(Cap);
      match a {
        case Full => r := Stop(id, None, MapError);
        case Refuse => r := Stop(id, None, IngressCapDrop);
        case Pass => r := Whitelist(e, id, wlFlags, x);
      }
      ChargeThen(old(View()), e, id, Cap, r, x);
      r := Then(Cap, r);
    }

    /** service_lookup_redirect: the stages run one after the other decide and charge exactly as Decide
        says for the answers the buckets would have given before the packet. */
    method Handle(e: Env, x: Input) returns (r: Path)
      requires EnvOk(e) && PacketOk(x.p)
      modifies this
      ensures r == PathOf(old(View()), e, x) && View() == Step(old(View()), e, x)
    {
      hide CapStage;
      hide LpmLookup;
      hide AnswerAt;
      hide Charge;
      var service := ServiceAt(e.v, x.p.dst);
      if service.None? { return Stop(0, None, ServiceMiss); }
      var id := service.value.serviceId;
      if service.value.enabled == 0 { return Stop(id, None, ServiceDisabled); }
      r := CapThenWhitelist(e, id, service.value.wlFlags, x);
    }
  }

  lemma ChargeNone(c: State, e: Env, id: nat, s: Stage, x: Input)
    requires EnvOk(e)
    ensures ChargeAll(Charge(c, e, id, s, x), e, id, [], x) == Charge(c, e, id, s, x)
  {
  }

  lemma {:induction false} FirstMatchIs(rules: seq<Rule>, p: Packet, i: nat)
    requires i < |rules| && RuleMatches(rules[i], p) && forall j :: 0 <= j < i ==> !RuleMatches(rules[j], p)
    ensures FirstMatch(rules, p) == Some(i)
  {
    hide RuleMatches;
  }
}
