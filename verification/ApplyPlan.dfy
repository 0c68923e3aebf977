/** What an apply writes, in order: one element per bpf(2) call of the helper
    (data-plane/tools/xdpgw-apply.c), computed from the snapshot and the state it starts from. */
module ApplyPlan {
  import opened Arith
  import opened Ipv4
  import opened Snapshot
  import opened Bpf
  import opened DenyList
  import opened TokenBucket
  import opened FairBudget

  const WL_BLOOM_PREFIX: nat := 24

  /** The largest value of the 16-bit whitelist index. */
  const WL_MAX: nat := 65535

  /** The environment of one helper: node settings, of which it rejects zero `k` and `refPkt`, and how
      many rounds of a whitelist loop that never ends it makes before it is killed. */
  datatype Knobs = Knobs(capacity: nat, k: nat, refPkt: nat, patience: nat)

  predicate KnobsOk(n: Knobs) { n.k > 0 && n.refPkt > 0 && n.capacity <= FAIR_RATE_MAX }

  predicate WlActive(flags: nat) { flags % 2 == 1 }

  predicate WlBroad(flags: nat) { flags / 2 % 2 == 1 }

  // ----- Entries written for one service -----

  /** The checks at the head of apply_write_service. */
  predicate HeadOk(s: Service)
  {
    s.dst.len <= 32 && s.dpId != 0 && s.enabled <= 1 && |s.rules| <= RULE_MAX && s.committed <= s.ceiling
  }

  /** The whitelist loop comes to its end: the list fits the index and every prefix length is legal. */
  predicate WlOk(wl: seq<Cidr>) { |wl| <= WL_MAX && forall c :: c in wl ==> c.len <= 32 }

  /** The whitelist loop is left at all, at its end or at an illegal prefix length it can reach. */
  predicate WlEnds(wl: seq<Cidr>)
  {
    |wl| <= WL_MAX || exists i :: 0 <= i <= WL_MAX && wl[i].len > 32
  }

  predicate ServiceOk(s: Service) { HeadOk(s) && WlOk(s.wl) }

  function WlEntryPuts(dp: nat, c: Cidr): seq<Put>
  {
    (if c.len >= WL_BLOOM_PREFIX then [Put(WlBloomMap, Bloom(dp, Mask(c.addr, WL_BLOOM_PREFIX)), Present)] else [])
    + [Put(WlLpmMap, Lpm(dp, Canon(c)), Present)]
  }

  function WlIndexAfter(i: nat): nat { (i + 1) % (WL_MAX + 1) }

  /** The first `rounds` rounds of the whitelist loop from index `i`. */
  function WlLoop(dp: nat, wl: seq<Cidr>, i: nat, rounds: nat): seq<Put>
    decreases rounds
  {
    if rounds == 0 || i >= |wl| || wl[i].len > 32 then []
    else WlEntryPuts(dp, wl[i]) + WlLoop(dp, wl, WlIndexAfter(i), rounds - 1)
  }

  /** A whitelist loop that is left, which is at the first impossible prefix length or the end. */
  function WlPuts(dp: nat, wl: seq<Cidr>): seq<Put>
  {
    if wl == [] || wl[0].len > 32 then [] else WlEntryPuts(dp, wl[0]) + WlPuts(dp, wl[1..])
  }

  /** What the whitelist loop writes before it is left or killed. */
  function WlWrites(dp: nat, wl: seq<Cidr>, patience: nat): seq<Put>
  {
    if WlEnds(wl) then WlPuts(dp, wl) else WlLoop(dp, wl, 0, patience)
  }

  function ServiceEntry(s: Service): Val { SvcVal(s.dpId, s.enabled, s.wlFlags) }

  function RuleEntry(s: Service): Val { RuleBlock(CONFIG_VERSION, s.rules) }

  function VipEntry(s: Service): Val { Rates(CONFIG_VERSION, s.vipFlags, s.vipPps, s.vipBps) }

  function SvcRlEntry(s: Service): Val { Rates(CONFIG_VERSION, s.svcFlags, s.svcPps, s.svcBps) }

  function FairEntry(s: Service, n: Knobs): Val
    requires KnobsOk(n)
  {
    var b := BudgetOf(s.committed, s.ceiling, n.k, n.refPkt);
    FairVal(CONFIG_VERSION, b.committed, b.burst, b.capBps, b.capPps)
  }

  function RatePuts(s: Service, n: Knobs): seq<Put>
    requires KnobsOk(n)
  {
    (if WlActive(s.wlFlags) then [Put(VipMap, Id(s.dpId), VipEntry(s))] else [])
    + [Put(SvcRlMap, Id(s.dpId), SvcRlEntry(s)), Put(FairMap, Id(s.dpId), FairEntry(s, n))]
  }

  /** apply_write_service: the puts it performs before it finishes or refuses. */
  function ServicePuts(s: Service, n: Knobs): seq<Put>
    requires KnobsOk(n)
  {
    if !HeadOk(s) then []
    else
      [Put(ServiceMap, Lpm(0, Canon(s.dst)), ServiceEntry(s)), Put(RuleBlockMap, Id(s.dpId), RuleEntry(s))]
      + (WlWrites(s.dpId, s.wl, n.patience) + if WlOk(s.wl) then RatePuts(s, n) else [])
  }

  function NodePuts(ss: seq<Service>, n: Knobs): seq<Put>
    requires KnobsOk(n)
  {
    if ss == [] then []
    else ServicePuts(ss[0], n) + if ServiceOk(ss[0]) then NodePuts(ss[1..], n) else []
  }

  predicate NodeOk(ss: seq<Service>) { forall s :: s in ss ==> ServiceOk(s) }

  /** The saturating total of clamped committed rates. */
  function SumCommitted(ss: seq<Service>): nat
  {
    if ss == [] then 0
    else Min(SumCommitted(ss[..|ss| - 1]) + ClampRate(ss[|ss| - 1].committed), U64 - 1)
  }

  function NodeEntry(ss: seq<Service>, n: Knobs): NodeConfig
  {
    NodeConfig(CONFIG_VERSION, Headroom(n.capacity, SumCommitted(ss)))
  }

  // ----- Read-back of the service maps -----

  /** verify_slot for one service. */
  predicate VerifyService(services: Inner, rules: Inner, s: Service)
    requires s.dst.len <= 32
  {
    s.enabled == 0 ||
    (var v := LpmLookup(services, 0, s.dst.addr, s.dst.len);
     && v.Some? && v.value.SvcVal?
     && v.value.serviceId == s.dpId && v.value.enabled != 0 && v.value.wlFlags == s.wlFlags
     && Id(s.dpId) in rules && rules[Id(s.dpId)].RuleBlock?
     && rules[Id(s.dpId)].version == CONFIG_VERSION && |rules[Id(s.dpId)].rules| == |s.rules|)
  }

  predicate VerifyNode(services: Inner, rules: Inner, ss: seq<Service>)
    requires NodeOk(ss)
  {
    forall s :: s in ss ==> VerifyService(services, rules, s)
  }

  // ----- Whole applies -----

  const SERVICE_LIST: seq<Outer> := [ServiceMap, RuleBlockMap, WlBloomMap, WlLpmMap, VipMap, SvcRlMap, FairMap]
  const FEED_LIST: seq<Outer> := [GblBloomMap, GblLpmMap, PortsMap]
  const GLOBAL_LIST: seq<Outer> := [GblBloomMap, GblLpmMap]

  ghost predicate Covers(own: seq<Outer>, kept: seq<Outer>)
  {
    forall o: Outer :: o in own <==> o !in kept
  }

  lemma ServiceListsCover()
    ensures Covers(SERVICE_LIST, FEED_LIST)
    ensures forall o :: o in SERVICE_LIST <==> IsService(o)
  {
    forall o: Outer ensures (o in SERVICE_LIST <==> IsService(o)) && (o in FEED_LIST <==> !IsService(o)) {
      match o
      case ServiceMap => assert SERVICE_LIST[0] == o;
      case RuleBlockMap => assert SERVICE_LIST[1] == o;
      case WlBloomMap => assert SERVICE_LIST[2] == o;
      case WlLpmMap => assert SERVICE_LIST[3] == o;
      case VipMap => assert SERVICE_LIST[4] == o;
      case SvcRlMap => assert SERVICE_LIST[5] == o;
      case FairMap => assert SERVICE_LIST[6] == o;
      case GblBloomMap => assert FEED_LIST[0] == o;
      case GblLpmMap => assert FEED_LIST[1] == o;
      case PortsMap => assert FEED_LIST[2] == o;
    }
  }

  lemma GlobalListsCover()
    ensures Covers(GLOBAL_LIST, SERVICE_LIST + [PortsMap])
    ensures forall o :: o in GLOBAL_LIST <==> IsGlobal(o)
  {
    ServiceListsCover();
    forall o: Outer ensures (o in GLOBAL_LIST <==> IsGlobal(o)) && (o in SERVICE_LIST + [PortsMap] <==> !IsGlobal(o)) {
      assert GLOBAL_LIST[0] == GblBloomMap && GLOBAL_LIST[1] == GblLpmMap;
      assert o in SERVICE_LIST + [PortsMap] <==> o in SERVICE_LIST || o in [PortsMap];
    }
  }

  function Creates(ids: map<Outer, MapId>, os: seq<Outer>): (ws: seq<Write>)
    requires forall o :: o in os ==> o in ids
    ensures |ws| == |os| && forall i :: 0 <= i < |os| ==> ws[i] == Create(ids[os[i]])
  {
    seq(|os|, i requires 0 <= i < |os| => Create(ids[os[i]]))
  }

  /** Installing the inner maps `ids` into slot `b`; carrying forward passes the other slot's ids. */
  function Installs(b: nat, ids: map<Outer, MapId>, os: seq<Outer>): (ws: seq<Write>)
    requires forall o :: o in os ==> o in ids
    ensures |ws| == |os| && forall i :: 0 <= i < |os| ==> ws[i] == Install(b, os[i], ids[os[i]])
  {
    seq(|os|, i requires 0 <= i < |os| => Install(b, os[i], ids[os[i]]))
  }

  function Stores(ids: map<Outer, MapId>, ps: seq<Put>): (ws: seq<Write>)
    requires forall p :: p in ps ==> p.outer in ids
    ensures |ws| == |ps| && forall i :: 0 <= i < |ps| ==> ws[i] == Store(ids[ps[i].outer], ps[i].key, ps[i].val)
  {
    seq(|ps|, i requires 0 <= i < |ps| => Store(ids[ps[i].outer], ps[i].key, ps[i].val))
  }

  function CommitOf(k: Kernel): Write
    requires k.active < SLOTS
  {
    Commit(Inactive(k), (k.version + 1) % U32)
  }

  function ServiceTail(k: Kernel, ss: seq<Service>, n: Knobs, ids: map<Outer, MapId>): seq<Write>
    requires KnobsOk(n) && |k.slots| == SLOTS && k.active < SLOTS
    requires (forall o: Outer :: o in k.slots[k.active].inner) && (forall o :: o in SERVICE_LIST ==> o in ids)
  {
    [SetNode(Inactive(k), NodeEntry(ss, n))] + Installs(Inactive(k), ids, SERVICE_LIST)
    + Installs(Inactive(k), k.slots[k.active].inner, FEED_LIST)
    + [SetFlags(Inactive(k), k.slots[k.active].flags)]
  }

  /** apply_node_cfg: fresh service maps, deny-list maps carried forward, read-back, flip. */
  function ServicePlan(k: Kernel, ss: seq<Service>, n: Knobs, ids: map<Outer, MapId>): seq<Write>
    requires KnobsOk(n) && |k.slots| == SLOTS && k.active < SLOTS
    requires (forall o: Outer :: o in k.slots[k.active].inner) && (forall o :: o in SERVICE_LIST ==> o in ids)
  {
    var ps := NodePuts(ss, n);
    NodePutsOuters(ss, n);
    ServiceListsCover();
    Creates(ids, SERVICE_LIST) + Stores(ids, ps)
    + if NodeOk(ss) then
        ServiceTail(k, ss, n, ids)
        + if VerifyNode(Contents(ps, ServiceMap), Contents(ps, RuleBlockMap), ss) then [CommitOf(k)] else []
      else []
  }

  function GlobalHead(k: Kernel): seq<Write>
    requires |k.slots| == SLOTS && k.active < SLOTS
    requires forall o: Outer :: o in k.slots[k.active].inner
  {
    Installs(Inactive(k), k.slots[k.active].inner, SERVICE_LIST + [PortsMap])
    + [SetNode(Inactive(k), k.slots[k.active].node)]
  }

  /** apply_global_deny_cfg: service maps carried forward, fresh filter and trie, read-back, flip. */
  function GlobalPlan(k: Kernel, es: seq<Cidr>, ids: map<Outer, MapId>): seq<Write>
    requires |k.slots| == SLOTS && k.active < SLOTS
    requires (forall o: Outer :: o in k.slots[k.active].inner) && (forall o :: o in GLOBAL_LIST ==> o in ids)
  {
    GlobalPutsOuters(es, FlagsFor(es).broad);
    GlobalListsCover();
    GlobalHead(k)
    + if |es| <= MAX_GLOBAL_ENTRIES && EntriesOk(es) then
        Creates(ids, GLOBAL_LIST) + Stores(ids, GlobalPuts(es, FlagsFor(es).broad))
        + [SetFlags(Inactive(k), FlagsFor(es))] + Installs(Inactive(k), ids, GLOBAL_LIST) + [CommitOf(k)]
      else []
  }

  lemma {:induction false} WlPutsOuters(dp: nat, wl: seq<Cidr>)
    ensures forall p :: p in WlPuts(dp, wl) ==> p.outer in {WlBloomMap, WlLpmMap} && p.val == Present
    decreases wl
  {
    if wl != [] {
      WlPutsOuters(dp, wl[1..]);
    }
  }

  lemma {:induction false} WlLoopOuters(dp: nat, wl: seq<Cidr>, i: nat, rounds: nat)
    ensures forall p :: p in WlLoop(dp, wl, i, rounds) ==> IsService(p.outer)
    decreases rounds
  {
    if rounds > 0 {
      WlLoopOuters(dp, wl, WlIndexAfter(i), rounds - 1);
    }
  }

  lemma {:induction false} NodePutsOuters(ss: seq<Service>, n: Knobs)
    requires KnobsOk(n)
    ensures forall p :: p in NodePuts(ss, n) ==> IsService(p.outer)
  {
    hide ServicePuts;
    if ss != [] {
      ServicePutsOuters(ss[0], n);
      NodePutsOuters(ss[1..], n);
    }
  }

  lemma ServicePutsOuters(s: Service, n: Knobs)
    requires KnobsOk(n)
    ensures forall p :: p in ServicePuts(s, n) ==> IsService(p.outer)
  {
    hide WlPuts;
    hide WlLoop;
    hide FairEntry;
    hide Canon;
    WlPutsOuters(s.dpId, s.wl);
    WlLoopOuters(s.dpId, s.wl, 0, n.patience);
  }

  lemma {:induction false} GlobalPutsOuters(es: seq<Cidr>, broad: bool)
    ensures forall p :: p in GlobalPuts(es, broad) ==> IsGlobal(p.outer)
  {
    if es != [] {
      GlobalPutsOuters(es[1..], broad);
    }
  }
}
