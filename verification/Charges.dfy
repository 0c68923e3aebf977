/** What a packet is charged: the rates of the stored record, and no others, reach the token buckets. */
module Charges {
  import opened Wrappers
  import opened Arith
  import opened Ipv4
  import opened Snapshot
  import opened SnapshotIo
  import opened Bpf
  import opened BlockedPorts
  import opened TokenBucket
  import opened FairBudget
  import opened ApplyPlan
  import opened ApplyEffect
  import opened ApplyRuns
  import opened PortRuns
  import opened Pipeline
  import opened Policy
  import opened Meaning
  import opened Delivery
  import opened Cpu
  import opened Capacity

  // ----- What a record sells -----

  /** A limit in the dimensions the record names, with the record's own values. */
  function Named(pps: Option<nat>, bps: Option<nat>): Config
  {
    Config(1, pps.Some?, bps.Some?, if pps.Some? then pps.value else 0, if bps.Some? then bps.value else 0)
  }

  function Promised(r: Record): nat { if r.plan.None? then 0 else Min(r.plan.value.committed, 16_000_000_000) }

  function Ceiling(r: Record): nat { if r.plan.None? then 0 else Min(r.plan.value.ceiling, 16_000_000_000) }

  function BytesOnly(rate: nat): Config { Config(1, false, true, 0, rate) }

  /** What each stage may let through for a record; `room` is the node's share. */
  function Sold(r: Record, n: Knobs, room: nat, s: Stage): Config
    requires KnobsOk(n)
  {
    match s
    case Cap => var cap := Min(Ceiling(r) * n.k, 16_000_000_000); Config(1, true, true, cap / n.refPkt, cap)
    case Vip => if r.whitelist == [] then Config(0, false, false, 0, 0) else Named(r.vipPps, r.vipBps)
    case Limit => Named(r.svcPps, r.svcBps)
    case Committed => BytesOnly(Promised(r))
    case Burst => BytesOnly(if Ceiling(r) > Promised(r) then Ceiling(r) - Promised(r) else 0)
    case Headroom => BytesOnly(room)
  }

  function AllPromised(rs: seq<Record>): nat
  {
    if rs == [] then 0 else (if rs[0].enabled then Promised(rs[0]) else 0) + AllPromised(rs[1..])
  }

  /** What the node has left to share after all promises. */
  function Spare(capacity: nat, rs: seq<Record>): nat
  {
    if capacity > AllPromised(rs) then capacity - AllPromised(rs) else 0
  }

  // ----- The slot charges what was sold -----

  lemma FlagsName(pps: Option<nat>, bps: Option<nat>)
    ensures PpsSet(SetFlagsOf(pps, bps)) <==> pps.Some?
    ensures BpsSet(SetFlagsOf(pps, bps)) <==> bps.Some?
  {
  }

  lemma OwnFair(v: SlotView, rs: seq<Record>, n: Knobs, r: Record)
    requires KnobsOk(n) && RecordsOk(rs) && ShowsServices(v, CompileNode(rs), n) && r in rs && r.enabled
    ensures FairAt(v, r.dpId) == Some(FairEntry(CompileRecord(r), n)) && CompileRecord(r).committed <= CompileRecord(r).ceiling
  {
    hide Contents;
    hide NodePuts;
    hide Meaning.Distinct;
    hide RecordsOk;
    hide CompileRecord;
    hide BudgetOf;
    CompiledDistinct(rs);
    CompiledIn(rs, r);
    CompiledId(r);
    var s, ss := CompileRecord(r), CompileNode(rs);
    assert ServiceOk(s);
    hide NodeOk;
    OwnEntryStored(ss, n, s, Put(FairMap, Id(s.dpId), FairEntry(s, n)));
  }

  lemma NoVipWithoutList(v: SlotView, rs: seq<Record>, n: Knobs, r: Record)
    requires KnobsOk(n) && RecordsOk(rs) && ShowsServices(v, CompileNode(rs), n) && r in rs && r.enabled
    requires !WlActive(CompileRecord(r).wlFlags)
    ensures RatesAt(v.inner[VipMap], r.dpId) == None
  {
    hide Contents;
    hide NodePuts;
    hide NodeOk;
    hide RecordsOk;
    hide CompileRecord;
    hide FairEntry;
    CompiledDistinct(rs);
    CompiledIn(rs, r);
    CompiledId(r);
    var s, ss := CompileRecord(r), CompileNode(rs);
    var m := Contents(NodePuts(ss, n), VipMap);
    assert v.inner[VipMap] == m;
    if Id(r.dpId) in m {
      StoredIsOwn(ss, n, VipMap, Id(r.dpId));
      assert false;
    }
  }

  lemma ListIsActive(r: Record)
    ensures WlActive(CompileRecord(r).wlFlags) <==> r.whitelist != []
  {
    hide ByPriority;
  }

  lemma CompiledRates(r: Record)
    ensures var s := CompileRecord(r);
            && SvcRlEntry(s) == Rates(1, SetFlagsOf(r.svcPps, r.svcBps), Named(r.svcPps, r.svcBps).pps, Named(r.svcPps, r.svcBps).bps)
            && VipEntry(s) == Rates(1, SetFlagsOf(r.vipPps, r.vipBps), Named(r.vipPps, r.vipBps).pps, Named(r.vipPps, r.vipBps).bps)
            && ClampRate(s.committed) == Promised(r) && ClampRate(s.ceiling) == Ceiling(r)
  {
    hide ByPriority;
    hide SetFlagsOf;
  }

  /** Main theorem on rates: every service stage charges the record's own rates, in the dimensions the
      record names. */
  lemma ChargesWhatIsSold(v: SlotView, rs: seq<Record>, n: Knobs, r: Record, room: nat, s: Stage)
    requires KnobsOk(n) && RecordsOk(rs) && ShowsServices(v, CompileNode(rs), n) && r in rs && r.enabled && s != Headroom
    ensures ConfigAt(v, r.dpId, s) == Sold(r, n, room, s)
  {
    OwnerConfigured(v, rs, n, r);
    OwnFair(v, rs, n, r);
    CompiledRates(r);
    ListIsActive(r);
    FlagsName(r.svcPps, r.svcBps);
    FlagsName(r.vipPps, r.vipBps);
    if s == Vip && r.whitelist == [] {
      NoVipWithoutList(v, rs, n, r);
    }
    var c := CompileRecord(r);
    BudgetSplitsCeiling(c.committed, c.ceiling, n.k, n.refPkt);
    hide CompileRecord;
    hide SetFlagsOf;
    hide RecordsOk;
    hide FairAt;
    hide RatesAt;
    hide RulesAt;
    hide RateProduct;
  }

  lemma CommittedSnoc(ss: seq<Service>, s: Service)
    ensures SumCommitted(ss + [s]) == Min(SumCommitted(ss) + ClampRate(s.committed), U64 - 1)
  {
    assert (ss + [s])[..|ss|] == ss;
  }

  lemma TotalStep(rest: seq<Record>, r: Record)
    requires SumCommitted(CompileNode(rest)) == Min(AllPromised(rest), U64 - 1)
    ensures SumCommitted(CompileNode(rest + [r])) == Min(AllPromised(rest + [r]), U64 - 1)
  {
    hide AllPromised;
    hide SumCommitted;
    hide CompileNode;
    hide CompileRecord;
    hide Promised;
    hide ClampRate;
    PromisedSnoc(rest, r);
    CompileSnoc(rest, r);
    if r.enabled {
      CommittedIsPromised(r);
      CommittedSnoc(CompileNode(rest), CompileRecord(r));
    } else {
      assert CompileNode(rest) + [] == CompileNode(rest);
    }
  }

  lemma NothingPromised()
    ensures SumCommitted(CompileNode([])) == 0 && AllPromised([]) == 0
  {
  }

  lemma {:induction false} TotalIsPromised(rs: seq<Record>)
    ensures SumCommitted(CompileNode(rs)) == Min(AllPromised(rs), U64 - 1)
    decreases |rs|
  {
    hide AllPromised;
    hide SumCommitted;
    hide CompileNode;
    if rs == [] {
      NothingPromised();
    } else {
      var rest, r := rs[..|rs| - 1], rs[|rs| - 1];
      assert rs == rest + [r];
      TotalIsPromised(rest);
      TotalStep(rest, r);
    }
  }

  lemma CommittedIsPromised(r: Record)
    ensures ClampRate(CompileRecord(r).committed) == Promised(r)
  {
    CompiledRates(r);
    hide CompileRecord;
  }

  lemma {:induction false} PromisedSnoc(rs: seq<Record>, r: Record)
    ensures AllPromised(rs + [r]) == AllPromised(rs) + if r.enabled then Promised(r) else 0
  {
    hide Promised;
    if rs == [] {
      assert rs + [r] == [r];
    } else {
      assert (rs + [r])[1..] == rs[1..] + [r];
      PromisedSnoc(rs[1..], r);
    }
  }

  lemma {:induction false} ActiveSnoc(rs: seq<Record>, r: Record)
    ensures Active(rs + [r]) == Active(rs) + if r.enabled then [r] else []
  {
    if rs == [] {
      assert rs + [r] == [r];
    } else {
      assert (rs + [r])[1..] == rs[1..] + [r];
      ActiveSnoc(rs[1..], r);
    }
  }

  lemma CompileSnoc(rs: seq<Record>, r: Record)
    ensures CompileNode(rs + [r]) == CompileNode(rs) + if r.enabled then [CompileRecord(r)] else []
  {
    hide CompileRecord;
    ActiveSnoc(rs, r);
  }

  /** The node bucket shares what the capacity leaves after the promises to all enabled records. */
  lemma NodeSharesTheRest(v: SlotView, rs: seq<Record>, n: Knobs, id: nat)
    requires KnobsOk(n) && Total(v) && v.node == NodeEntry(CompileNode(rs), n)
    ensures ConfigAt(v, id, Headroom) == BytesOnly(Spare(n.capacity, rs))
  {
    TotalIsPromised(rs);
    hide SumCommitted;
    hide AllPromised;
    hide CompileNode;
  }

  // ----- Decisions and charges -----

  /** What the owner's bucket of a stage answers when it is charged what was sold. */
  function SoldAnswer(c: State, r: Record, n: Knobs, room: nat, x: Input, ncpus: nat, s: Stage): Answer
    requires KnobsOk(n) && ncpus > 0
  {
    if NoRoom(c, s, r.dpId) then Full
    else if Admit(RowAt(c, s, r.dpId), Sold(r, n, room, s), Arrival(TimeAt(x.t, s), x.len), ncpus).1 then Pass else Refuse
  }

  function SoldAnswers(c: State, rs: seq<Record>, n: Knobs, x: Input, ncpus: nat): Stage -> Answer
    requires KnobsOk(n) && ncpus > 0
  {
    s => if Owner(rs, x.p.dst).None? then Pass
         else SoldAnswer(c, Owner(rs, x.p.dst).value, n, Spare(n.capacity, rs), x, ncpus, s)
  }

  lemma LimitedPointwise(r: Record, rule: Option<AllowRule>, a: Stage -> Answer, b: Stage -> Answer, hops: set<nat>)
    requires forall s: Stage :: a(s) == b(s)
    ensures Limited(r, rule, a, hops) == Limited(r, rule, b, hops)
  {
  }

  lemma RuledPointwise(rs: seq<Record>, deny: seq<Cidr>, blocked: set<nat>, p: Packet, a: Stage -> Answer, b: Stage -> Answer,
                       hops: set<nat>)
    requires Owner(rs, p.dst).Some? ==> forall s: Stage :: a(s) == b(s)
    ensures Ruled(rs, deny, blocked, p, a, hops) == Ruled(rs, deny, blocked, p, b, hops)
  {
    hide Listed;
    hide Best;
    hide Limited;
    hide AmpPort;
    hide Owner;
    if Owner(rs, p.dst).Some? {
      var r := Owner(rs, p.dst).value;
      LimitedPointwise(r, Best(r.rules, p), a, b, hops);
    }
  }

  ghost predicate Shows(e: Env, rs: seq<Record>, n: Knobs, deny: seq<Cidr>, blocked: set<nat>)
  {
    && EnvOk(e) && KnobsOk(n) && RecordsOk(rs) && ShowsServices(e.v, CompileNode(rs), n)
    && e.v.node == NodeEntry(CompileNode(rs), n)
    && ShowsDeny(e.v, deny) && EntriesOk(deny) && ShowsPorts(e.v, blocked)
  }

  lemma AnswersAreSold(c: State, e: Env, rs: seq<Record>, n: Knobs, x: Input, s: Stage)
    requires EnvOk(e) && KnobsOk(n) && RecordsOk(rs) && ShowsServices(e.v, CompileNode(rs), n) && PacketOk(x.p)
    requires e.v.node == NodeEntry(CompileNode(rs), n) && Owner(rs, x.p.dst).Some?
    ensures var r := Owner(rs, x.p.dst).value;
            && IdOf(e.v, x.p.dst) == r.dpId && ConfigAt(e.v, r.dpId, s) == Sold(r, n, Spare(n.capacity, rs), s)
            && Answers(c, e, r.dpId, x)(s) == SoldAnswers(c, rs, n, x, e.ncpus)(s)
  {
    hide Sold;
    hide ConfigAt;
    hide Admit;
    hide RecordsOk;
    hide NoRoom;
    hide Contents;
    hide NodePuts;
    var r := Owner(rs, x.p.dst).value;
    OwnerFound(e.v, rs, n, x.p.dst);
    CompiledId(r);
    hide CompileNode;
    hide CompileRecord;
    if s == Headroom {
      NodeSharesTheRest(e.v, rs, n, r.dpId);
      HeadroomSold(r, n, Spare(n.capacity, rs));
    } else {
      ChargesWhatIsSold(e.v, rs, n, r, Spare(n.capacity, rs), s);
    }
    hide Owner;
    hide Spare;
  }

  lemma HeadroomSold(r: Record, n: Knobs, room: nat)
    requires KnobsOk(n)
    ensures Sold(r, n, room, Headroom) == BytesOnly(room)
  {
  }

  /** Main theorem on one packet: with the buckets of one CPU in any state, it is treated as the records
      say when each bucket is asked for what was sold; and every bucket it uses is charged that. */
  lemma PacketsPayWhatIsSold(c: State, e: Env, x: Input, rs: seq<Record>, n: Knobs, deny: seq<Cidr>, blocked: set<nat>)
    requires Shows(e, rs, n, deny, blocked) && PacketOk(x.p)
    ensures Agrees(PathOf(c, e, x), Ruled(rs, deny, blocked, x.p, SoldAnswers(c, rs, n, x, e.ncpus), e.hops))
    ensures forall t: Stage :: Owner(rs, x.p.dst).Some? ==>
              var r := Owner(rs, x.p.dst).value;
              RowAt(Step(c, e, x), t, r.dpId) ==
                if t in PathOf(c, e, x).used && !NoRoom(c, t, r.dpId)
                then Some(Admit(RowAt(c, t, r.dpId), Sold(r, n, Spare(n.capacity, rs), t), Arrival(TimeAt(x.t, t), x.len), e.ncpus).0)
                else RowAt(c, t, r.dpId)
  {
    hide RecordsOk;
    hide ShowsServices;
    hide ShowsDeny;
    hide ShowsPorts;
    hide EntriesOk;
    hide Decide;
    hide Ruled;
    hide Agrees;
    hide Owner;
    hide Sold;
    hide Admit;
    hide ConfigAt;
    hide NodeEntry;
    hide Spare;
    hide IdOf;
    var id := IdOf(e.v, x.p.dst);
    var a, b := Answers(c, e, id, x), SoldAnswers(c, rs, n, x, e.ncpus);
    forall s: Stage | Owner(rs, x.p.dst).Some?
      ensures a(s) == b(s) && id == Owner(rs, x.p.dst).value.dpId
              && ConfigAt(e.v, id, s) == Sold(Owner(rs, x.p.dst).value, n, Spare(n.capacity, rs), s)
    {
      AnswersAreSold(c, e, rs, n, x, s);
    }
    hide SoldAnswers;
    CompilationPreservesMeaning(e.v, rs, n, deny, blocked, x.p, a, e.hops);
    RuledPointwise(rs, deny, blocked, x.p, a, b, e.hops);
    DecideShaped(e.v, x.p, a, e.hops);
    forall t: Stage | Owner(rs, x.p.dst).Some?
      ensures RowAt(Step(c, e, x), t, id) ==
                if t in PathOf(c, e, x).used && !NoRoom(c, t, id) then Some(AdmitAt(c, e, id, t, x).0) else RowAt(c, t, id)
    {
      ChargeAllRow(c, e, id, PathOf(c, e, x).used, x, t, id);
    }
    hide ChargeAll;
  }

  /** End to end, with real buckets: in every state reached from the loader in which services have been
      committed, every packet on a CPU is ruled, and charged, by the records, CIDRs and ports in force. */
  lemma GatewayChargesRecords(m: ApplyRuns.Node, es: seq<Event>, rs: seq<Record>, revision: nat, cidrs: seq<Cidr>,
                              c: State, x: Input, hops: set<nat>, ncpus: nat)
    requires Loaded(m) && PacketOk(x.p) && ncpus > 0 && LastService(ApplyRuns.Committed(m, es)).Some?
    requires ServicesSent(ApplyRuns.Committed(m, es), rs) && DenySent(ApplyRuns.Committed(m, es), revision, cidrs)
    ensures var k, n := ApplyRuns.Run(m, es).k, LastService(ApplyRuns.Committed(m, es)).value.1;
            && Ok(k) && KnobsOk(n)
            && var e := Env(View(k, k.active), hops, ncpus);
               && Agrees(PathOf(c, e, x), Ruled(rs, cidrs, LivePorts(k), x.p, SoldAnswers(c, rs, n, x, ncpus), hops))
               && forall r, s: Stage :: r in rs && r.enabled && s != Headroom ==>
                    ConfigAt(e.v, r.dpId, s) == Sold(r, n, Spare(n.capacity, rs), s)
  {
    hide ApplyRuns.Committed;
    hide Loaded;
    hide ServicesSent;
    hide DenySent;
    hide Ruled;
    hide Agrees;
    hide RecordsOk;
    hide ShowsServices;
    hide ShowsDeny;
    hide ShowsPorts;
    hide EntriesOk;
    hide CompileNode;
    hide Sorted;
    hide AllWords;
    hide BlockedBy;
    hide ApplyRuns.Run;
    hide Sold;
    hide SoldAnswers;
    hide ConfigAt;
    hide PathOf;
    hide Step;
    hide Spare;
    hide NodeEntry;
    hide LastService;
    LoadedIsInv(m);
    var done := ApplyRuns.Committed(m, es);
    var n := LastService(done).value.1;
    var any := SomeKnobs();
    LiveShowsLast(m, es, any);
    InForceArrives(done, n, rs, revision, cidrs);
    PortsFromLoader(m, es);
    var k := ApplyRuns.Run(m, es).k;
    var e := Env(View(k, k.active), hops, ncpus);
    AllWordsShow(e.v);
    assert Shows(e, rs, n, Sorted(cidrs), LivePorts(k));
    PacketsPayWhatIsSold(c, e, x, rs, n, Sorted(cidrs), LivePorts(k));
    RuledIgnoresOrder(rs, cidrs, LivePorts(k), x.p, SoldAnswers(c, rs, n, x, ncpus), hops);
    forall r, s: Stage | r in rs && r.enabled && s != Headroom
      ensures ConfigAt(e.v, r.dpId, s) == Sold(r, n, Spare(n.capacity, rs), s)
    {
      ChargesWhatIsSold(e.v, rs, n, r, Spare(n.capacity, rs), s);
    }
  }
}
