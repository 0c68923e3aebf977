/** Committed bandwidth is isolated: what one service's packets meet before the node bucket does not
    depend on what other services send or how they are configured. */
module Isolation {
  import opened Wrappers
  import opened Arith
  import opened Ipv4
  import opened Bpf
  import opened TokenBucket
  import opened ApplyEffect
  import opened Pipeline
  import opened Cpu

  /** Two environments agree on everything that concerns one service; the node headroom may differ. */
  ghost predicate SameFor(e: Env, f: Env, id: nat)
  {
    && EnvOk(e) && EnvOk(f) && e.ncpus == f.ncpus && (id in e.hops <==> id in f.hops)
    && (forall dst: nat :: IdOf(e.v, dst) == id || IdOf(f.v, dst) == id ==> ServiceAt(e.v, dst) == ServiceAt(f.v, dst))
    && SameLists(e.v, f.v, id) && SameConfigs(e.v, f.v, id)
    && e.v.flags == f.v.flags && forall o: Outer :: !IsService(o) ==> e.v.inner[o] == f.v.inner[o]
  }

  ghost predicate SameConfigs(v: SlotView, w: SlotView, id: nat)
    requires Total(v) && Total(w)
  {
    && FairAt(v, id) == FairAt(w, id) && RulesAt(v, id) == RulesAt(w, id)
    && RatesAt(v.inner[VipMap], id) == RatesAt(w.inner[VipMap], id)
    && RatesAt(v.inner[SvcRlMap], id) == RatesAt(w.inner[SvcRlMap], id)
  }

  ghost predicate SameLists(v: SlotView, w: SlotView, id: nat)
    requires Total(v) && Total(w)
  {
    && (forall src: nat :: Bloom(id, src) in v.inner[WlBloomMap] <==> Bloom(id, src) in w.inner[WlBloomMap])
    && (forall c: Cidr :: Lpm(id, c) in v.inner[WlLpmMap] <==> Lpm(id, c) in w.inner[WlLpmMap])
  }

  ghost predicate BeforeNode(a: Stage -> Answer, b: Stage -> Answer)
  {
    forall s: Stage :: s != Headroom ==> a(s) == b(s)
  }

  /** The same decision up to the node bucket: same buckets charged, same service and rule, and the
      same outcome unless the node bucket was asked. */
  ghost predicate SameUpToNode(x: Path, y: Path)
  {
    x.used == y.used && x.id == y.id && x.rule == y.rule && (Headroom !in x.used ==> x.out == y.out)
  }

  lemma {:induction false} LpmSameNamespace(m: Inner, m': Inner, ns: nat, ip: nat, len: nat)
    requires len <= 32 && forall c: Cidr :: Lpm(ns, c) in m <==> Lpm(ns, c) in m'
    ensures LpmLookup(m, ns, ip, len).Some? <==> LpmLookup(m', ns, ip, len).Some?
  {
    if len > 0 {
      LpmSameNamespace(m, m', ns, ip, len - 1);
    }
  }

  lemma LadderIsolated(v: SlotView, w: SlotView, id: nat, rule: Option<nat>, a: Stage -> Answer, b: Stage -> Answer,
                       h: set<nat>, g: set<nat>)
    requires Total(v) && Total(w) && SameConfigs(v, w, id) && BeforeNode(a, b) && (id in h <==> id in g)
    ensures SameUpToNode(LimitStage(v, id, rule, a, h), LimitStage(w, id, rule, b, g))
  {
    assert a(Limit) == b(Limit) && a(Committed) == b(Committed);
    hide FairAt;
    hide RatesAt;
    hide BurstStep;
    hide SameUpToNode;
    hide Then;
    hide Stop;
    hide RedirectOut;
    BurstIsolated(id, rule, a, b, h, g);
    StopSame(id, rule, h, g);
    ThenSame(Committed,
             match a(Committed) case Full => Stop(id, rule, MapError) case Pass => RedirectOut(id, rule, ViaCommitted, h)
                                case Refuse => BurstStep(id, rule, a, h),
             match b(Committed) case Full => Stop(id, rule, MapError) case Pass => RedirectOut(id, rule, ViaCommitted, g)
                                case Refuse => BurstStep(id, rule, b, g));
    assert SameUpToNode(Ladder(v, id, rule, a, h), Ladder(w, id, rule, b, g));
    hide Ladder;
    ThenSame(Limit,
             match a(Limit) case Full => Stop(id, rule, MapError) case Refuse => Stop(id, rule, RateLimitDrop)
                            case Pass => Ladder(v, id, rule, a, h),
             match b(Limit) case Full => Stop(id, rule, MapError) case Refuse => Stop(id, rule, RateLimitDrop)
                            case Pass => Ladder(w, id, rule, b, g));
  }

  lemma NodeStepIsolated(id: nat, rule: Option<nat>, a: Stage -> Answer, b: Stage -> Answer, h: set<nat>, g: set<nat>)
    ensures SameUpToNode(NodeStep(id, rule, a, h), NodeStep(id, rule, b, g))
  {
    assert Headroom in [Headroom] + [];
  }

  lemma BurstIsolated(id: nat, rule: Option<nat>, a: Stage -> Answer, b: Stage -> Answer, h: set<nat>, g: set<nat>)
    requires BeforeNode(a, b) && (id in h <==> id in g)
    ensures SameUpToNode(BurstStep(id, rule, a, h), BurstStep(id, rule, b, g))
  {
    NodeStepIsolated(id, rule, a, b, h, g);
    hide NodeStep;
    assert a(Burst) == b(Burst);
  }

  lemma DenyIsolated(e: Env, f: Env, id: nat, p: Packet, a: Stage -> Answer, b: Stage -> Answer)
    requires SameFor(e, f, id) && PacketOk(p) && BeforeNode(a, b)
    ensures EnvOk(e) && EnvOk(f)
    ensures SameUpToNode(DenyStage(e.v, id, p, a, e.hops), DenyStage(f.v, id, p, b, f.hops))
  {
    hide LimitStage;
    hide FirstMatch;
    hide LpmLookup;
    hide Bogon;
    hide AmpPort;
    hide SameLists;
    hide ServiceAt;
    assert e.v.inner[PortsMap] == f.v.inner[PortsMap] && e.v.inner[GblBloomMap] == f.v.inner[GblBloomMap]
           && e.v.inner[GblLpmMap] == f.v.inner[GblLpmMap];
    forall rule: Option<nat>
      ensures SameUpToNode(LimitStage(e.v, id, rule, a, e.hops), LimitStage(f.v, id, rule, b, f.hops))
    {
      LadderIsolated(e.v, f.v, id, rule, a, b, e.hops, f.hops);
    }
  }

  lemma HitIsolated(e: Env, f: Env, id: nat, wl: nat, p: Packet)
    requires SameFor(e, f, id)
    ensures EnvOk(e) && EnvOk(f) && (WhitelistHit(e.v, id, wl, p) <==> WhitelistHit(f.v, id, wl, p))
  {
    hide LpmLookup;
    hide ServiceAt;
    hide SameConfigs;
    LpmSameNamespace(e.v.inner[WlLpmMap], f.v.inner[WlLpmMap], id, p.src, 32);
  }

  lemma ThenSame(s: Stage, x: Path, y: Path)
    requires SameUpToNode(x, y) && s != Headroom
    ensures SameUpToNode(Then(s, x), Then(s, y))
  {
    assert Headroom in [s] + x.used <==> Headroom in x.used;
  }

  lemma StopSame(id: nat, rule: Option<nat>, h: set<nat>, g: set<nat>)
    requires id in h <==> id in g
    ensures forall reason :: SameUpToNode(Stop(id, rule, reason), Stop(id, rule, reason))
    ensures forall way :: SameUpToNode(RedirectOut(id, rule, way, h), RedirectOut(id, rule, way, g))
  {
  }

  lemma ServiceConfigsSame(e: Env, f: Env, id: nat)
    requires SameFor(e, f, id)
    ensures EnvOk(e) && EnvOk(f) && (id in e.hops <==> id in f.hops)
    ensures FairAt(e.v, id) == FairAt(f.v, id)
    ensures RatesAt(e.v.inner[VipMap], id) == RatesAt(f.v.inner[VipMap], id)
  {
    hide ServiceAt;
    hide SameLists;
  }

  lemma WhitelistIsolated(e: Env, f: Env, id: nat, wl: nat, p: Packet, a: Stage -> Answer, b: Stage -> Answer)
    requires SameFor(e, f, id) && PacketOk(p) && BeforeNode(a, b)
    ensures EnvOk(e) && EnvOk(f)
    ensures SameUpToNode(WhitelistStage(e.v, id, wl, p, a, e.hops), WhitelistStage(f.v, id, wl, p, b, f.hops))
  {
    hide SameFor;
    hide DenyStage;
    hide WhitelistHit;
    hide RatesAt;
    hide SameUpToNode;
    hide Then;
    hide Stop;
    hide RedirectOut;
    DenyIsolated(e, f, id, p, a, b);
    HitIsolated(e, f, id, wl, p);
    ServiceConfigsSame(e, f, id);
    StopSame(id, None, e.hops, f.hops);
    assert a(Vip) == b(Vip);
    ThenSame(Vip,
             match a(Vip) case Full => Stop(id, None, MapError) case Refuse => Stop(id, None, VipCeilingDrop)
                          case Pass => RedirectOut(id, None, ViaVip, e.hops),
             match b(Vip) case Full => Stop(id, None, MapError) case Refuse => Stop(id, None, VipCeilingDrop)
                          case Pass => RedirectOut(id, None, ViaVip, f.hops));
  }

  lemma CapIsolated(e: Env, f: Env, id: nat, wl: nat, p: Packet, a: Stage -> Answer, b: Stage -> Answer)
    requires SameFor(e, f, id) && PacketOk(p) && BeforeNode(a, b)
    ensures EnvOk(e) && EnvOk(f)
    ensures SameUpToNode(CapStage(e.v, id, wl, p, a, e.hops), CapStage(f.v, id, wl, p, b, f.hops))
  {
    hide SameFor;
    hide WhitelistStage;
    hide FairAt;
    hide SameUpToNode;
    hide Then;
    hide Stop;
    ServiceConfigsSame(e, f, id);
    WhitelistIsolated(e, f, id, wl, p, a, b);
    StopSame(id, None, e.hops, f.hops);
    assert a(Cap) == b(Cap);
    ThenSame(Cap,
             match a(Cap) case Full => Stop(id, None, MapError) case Refuse => Stop(id, None, IngressCapDrop)
                          case Pass => WhitelistStage(e.v, id, wl, p, a, e.hops),
             match b(Cap) case Full => Stop(id, None, MapError) case Refuse => Stop(id, None, IngressCapDrop)
                          case Pass => WhitelistStage(f.v, id, wl, p, b, f.hops));
  }

  /** One packet, two environments that agree on its service. */
  lemma DecisionIsolated(e: Env, f: Env, p: Packet, a: Stage -> Answer, b: Stage -> Answer)
    requires EnvOk(e) && SameFor(e, f, IdOf(e.v, p.dst)) && PacketOk(p) && BeforeNode(a, b)
    ensures SameUpToNode(Decide(e.v, p, a, e.hops), Decide(f.v, p, b, f.hops))
  {
    hide CapStage;
    hide SameLists;
    hide SameConfigs;
    hide LpmLookup;
    var id := IdOf(e.v, p.dst);
    assert ServiceAt(e.v, p.dst) == ServiceAt(f.v, p.dst);
    var s := ServiceAt(e.v, p.dst);
    if s.Some? {
      CapIsolated(e, f, id, s.value.wlFlags, p, a, b);
    }
  }

  // ----- State maps -----

  ghost predicate Within(c: State, ids: set<nat>)
  {
    |ids| <= STATE_MAX && forall s: Stage :: RowsAt(c, s).Keys <= ids
  }

  lemma NeverNoRoom(c: State, ids: set<nat>, s: Stage, id: nat)
    requires Within(c, ids) && id in ids
    ensures !NoRoom(c, s, id)
  {
    var keys := RowsAt(c, s).Keys;
    if id !in keys {
      SmallerSet(keys + {id}, ids);
    }
  }

  /** The state maps never outgrow their size, whatever services are met. */
  ghost predicate RowsFit(c: State) { forall s: Stage :: |RowsAt(c, s)| <= STATE_MAX }

  lemma ChargeFits(c: State, e: Env, id: nat, s: Stage, x: Input)
    requires EnvOk(e) && RowsFit(c)
    ensures RowsFit(Charge(c, e, id, s, x))
  {
    hide AdmitAt;
    var c' := Charge(c, e, id, s, x);
    forall t: Stage ensures |RowsAt(c', t)| <= STATE_MAX {
      var m, m' := RowsAt(c, t), RowsAt(c', t);
      assert |m| <= STATE_MAX;
      if t == s && s != Headroom && !NoRoom(c, s, id) {
        var b := AdmitAt(c, e, id, s, x).0;
        assert m' == m[id := b];
        GrownMap(m, id, b);
      }
    }
  }

  lemma GrownMap(m: Rows, id: nat, b: Bucket)
    ensures |m[id := b]| == if id in m then |m| else |m| + 1
  {
    assert m[id := b].Keys == m.Keys + {id};
    assert |m[id := b]| == |m[id := b].Keys| && |m| == |m.Keys|;
  }

  lemma {:induction false} ChargeAllFits(c: State, e: Env, id: nat, used: seq<Stage>, x: Input)
    requires EnvOk(e) && RowsFit(c)
    ensures RowsFit(ChargeAll(c, e, id, used, x))
    decreases used
  {
    hide Charge;
    hide RowsFit;
    if used != [] {
      ChargeFits(c, e, id, used[0], x);
      ChargeAllFits(Charge(c, e, id, used[0], x), e, id, used[1..], x);
    }
  }

  lemma StepFits(c: State, e: Env, x: Input)
    requires EnvOk(e) && PacketOk(x.p) && RowsFit(c)
    ensures RowsFit(Step(c, e, x))
  {
    hide RowsFit;
    hide ChargeAll;
    hide PathOf;
    ChargeAllFits(c, e, IdOf(e.v, x.p.dst), PathOf(c, e, x).used, x);
  }

  ghost predicate SameRows(c: State, d: State, id: nat)
  {
    forall s: Stage :: s != Headroom ==> RowAt(c, s, id) == RowAt(d, s, id)
  }

  lemma ConfigsIsolated(e: Env, f: Env, id: nat, s: Stage)
    requires SameFor(e, f, id) && s != Headroom
    ensures ConfigAt(e.v, id, s) == ConfigAt(f.v, id, s)
  {
    hide SameLists;
    hide ServiceAt;
  }

  lemma AdmitIsolated(c: State, d: State, e: Env, f: Env, id: nat, s: Stage, x: Input)
    requires SameFor(e, f, id) && SameRows(c, d, id) && s != Headroom
    ensures AdmitAt(c, e, id, s, x) == AdmitAt(d, f, id, s, x)
  {
    ConfigsIsolated(e, f, id, s);
    hide SameConfigs;
    hide SameLists;
    hide ConfigAt;
    hide Admit;
    hide ServiceAt;
  }

  lemma AnswersIsolated(c: State, d: State, e: Env, f: Env, id: nat, x: Input, ids: set<nat>, jds: set<nat>)
    requires SameFor(e, f, id) && SameRows(c, d, id)
    requires Within(c, ids) && id in ids && Within(d, jds) && id in jds
    ensures BeforeNode(Answers(c, e, id, x), Answers(d, f, id, x))
  {
    hide AdmitAt;
    hide SameFor;
    hide Within;
    hide SameRows;
    hide NoRoom;
    assert EnvOk(e) && EnvOk(f) by { EnvsOk(e, f, id); }
    forall s: Stage | s != Headroom ensures Answers(c, e, id, x)(s) == Answers(d, f, id, x)(s) {
      AdmitIsolated(c, d, e, f, id, s, x);
      NeverNoRoom(c, ids, s, id);
      NeverNoRoom(d, jds, s, id);
    }
  }

  lemma EnvsOk(e: Env, f: Env, id: nat)
    requires SameFor(e, f, id)
    ensures EnvOk(e) && EnvOk(f)
  {
  }

  lemma SetRowAt(c: State, s: Stage, id: nat, b: Bucket, t: Stage, i: nat)
    ensures RowAt(SetRow(c, s, id, b), t, i) == if t == s && (i == id || s == Headroom) then Some(b) else RowAt(c, t, i)
  {
  }

  lemma ChargeKeepsWithin(c: State, e: Env, id: nat, s: Stage, x: Input, ids: set<nat>)
    requires EnvOk(e) && Within(c, ids) && id in ids
    ensures Within(Charge(c, e, id, s, x), ids)
  {
    hide AdmitAt;
    hide NoRoom;
    var b := AdmitAt(c, e, id, s, x).0;
    forall t: Stage ensures RowsAt(SetRow(c, s, id, b), t).Keys <= ids {
      assert RowsAt(c, t).Keys <= ids;
    }
  }

  lemma {:induction false} ChargeAllKeepsWithin(c: State, e: Env, id: nat, used: seq<Stage>, x: Input, ids: set<nat>)
    requires EnvOk(e) && Within(c, ids) && (used != [] ==> id in ids)
    ensures Within(ChargeAll(c, e, id, used, x), ids)
    decreases used
  {
    hide Charge;
    hide Within;
    if used != [] {
      ChargeKeepsWithin(c, e, id, used[0], x, ids);
      ChargeAllKeepsWithin(Charge(c, e, id, used[0], x), e, id, used[1..], x, ids);
    }
  }

  /** Charging one service leaves every other service's rows. */
  lemma {:induction false} ChargeAllElsewhere(c: State, e: Env, id: nat, used: seq<Stage>, x: Input, other: nat)
    requires EnvOk(e) && other != id
    ensures SameRows(c, ChargeAll(c, e, id, used, x), other)
    decreases used
  {
    hide AdmitAt;
    hide NoRoom;
    hide RowAt;
    if used != [] {
      var s := used[0];
      forall t: Stage | t != Headroom ensures RowAt(c, t, other) == RowAt(Charge(c, e, id, s, x), t, other) {
        SetRowAt(c, s, id, AdmitAt(c, e, id, s, x).0, t, other);
      }
      hide Charge;
      ChargeAllElsewhere(Charge(c, e, id, s, x), e, id, used[1..], x, other);
    }
  }

  lemma ChargeIsolated(c: State, d: State, e: Env, f: Env, id: nat, s: Stage, x: Input, ids: set<nat>, jds: set<nat>)
    requires SameFor(e, f, id) && SameRows(c, d, id)
    requires Within(c, ids) && id in ids && Within(d, jds) && id in jds
    ensures EnvOk(e) && EnvOk(f) && SameRows(Charge(c, e, id, s, x), Charge(d, f, id, s, x), id)
  {
    EnvsOk(e, f, id);
    hide AdmitAt;
    hide SameFor;
    hide Within;
    hide NoRoom;
    hide SetRow;
    hide RowAt;
    NeverNoRoom(c, ids, s, id);
    NeverNoRoom(d, jds, s, id);
    forall t: Stage | t != Headroom ensures RowAt(Charge(c, e, id, s, x), t, id) == RowAt(Charge(d, f, id, s, x), t, id) {
      SetRowAt(c, s, id, AdmitAt(c, e, id, s, x).0, t, id);
      SetRowAt(d, s, id, AdmitAt(d, f, id, s, x).0, t, id);
      if s != Headroom {
        AdmitIsolated(c, d, e, f, id, s, x);
      }
    }
  }

  lemma {:induction false} ChargeAllIsolated(c: State, d: State, e: Env, f: Env, id: nat, used: seq<Stage>, x: Input,
                                             ids: set<nat>, jds: set<nat>)
    requires SameFor(e, f, id) && SameRows(c, d, id)
    requires Within(c, ids) && id in ids && Within(d, jds) && id in jds
    ensures EnvOk(e) && EnvOk(f) && SameRows(ChargeAll(c, e, id, used, x), ChargeAll(d, f, id, used, x), id)
    decreases used
  {
    EnvsOk(e, f, id);
    hide Charge;
    hide SameFor;
    hide Within;
    hide SameRows;
    if used != [] {
      var s := used[0];
      ChargeIsolated(c, d, e, f, id, s, x, ids, jds);
      ChargeKeepsWithin(c, e, id, s, x, ids);
      ChargeKeepsWithin(d, f, id, s, x, jds);
      ChargeAllIsolated(Charge(c, e, id, s, x), Charge(d, f, id, s, x), e, f, id, used[1..], x, ids, jds);
    }
  }

  // ----- Whole runs -----

  datatype Item = Item(e: Env, x: Input)

  /** Every service met by the packet is one of `ids`, so its buckets fit the state maps. */
  ghost predicate ItemOk(it: Item, ids: set<nat>)
  {
    EnvOk(it.e) && PacketOk(it.x.p) && (ServiceAt(it.e.v, it.x.p.dst).Some? ==> IdOf(it.e.v, it.x.p.dst) in ids)
  }

  ghost predicate ItemsOk(its: seq<Item>, ids: set<nat>)
  {
    forall it :: it in its ==> ItemOk(it, ids)
  }

  ghost predicate Mine(it: Item, id: nat)
    requires EnvOk(it.e)
  {
    ServiceAt(it.e.v, it.x.p.dst).Some? && IdOf(it.e.v, it.x.p.dst) == id
  }

  ghost function RunAll(c: State, its: seq<Item>, ids: set<nat>): State
    requires ItemsOk(its, ids)
    decreases its
  {
    if its == [] then c else
      assert ItemOk(its[0], ids) && forall it :: it in its[1..] ==> it in its;
      RunAll(Step(c, its[0].e, its[0].x), its[1..], ids)
  }

  /** The packets of one service, in order. */
  ghost function Only(its: seq<Item>, id: nat, ids: set<nat>): seq<Item>
    requires ItemsOk(its, ids)
    decreases its
  {
    if its == [] then [] else
      assert ItemOk(its[0], ids) && forall it :: it in its[1..] ==> it in its;
      (if Mine(its[0], id) then [its[0]] else []) + Only(its[1..], id, ids)
  }

  /** What was decided for the packets of one service during a run. */
  ghost function PathsOf(c: State, its: seq<Item>, id: nat, ids: set<nat>): (ps: seq<Path>)
    requires ItemsOk(its, ids)
    ensures |ps| == |Only(its, id, ids)|
    decreases its
  {
    if its == [] then [] else
      assert ItemOk(its[0], ids) && forall it :: it in its[1..] ==> it in its;
      (if Mine(its[0], id) then [PathOf(c, its[0].e, its[0].x)] else [])
      + PathsOf(Step(c, its[0].e, its[0].x), its[1..], id, ids)
  }

  ghost predicate Alike(its: seq<Item>, jts: seq<Item>, id: nat)
  {
    |its| == |jts| && forall i :: 0 <= i < |its| ==> its[i].x == jts[i].x && SameFor(its[i].e, jts[i].e, id)
  }

  lemma StepKeepsWithin(c: State, it: Item, ids: set<nat>)
    requires Within(c, ids) && ItemOk(it, ids)
    ensures Within(Step(c, it.e, it.x), ids)
  {
    hide Within;
    hide CapStage;
    hide ChargeAll;
    hide ServiceAt;
    ChargeAllKeepsWithin(c, it.e, IdOf(it.e.v, it.x.p.dst), PathOf(c, it.e, it.x).used, it.x, ids);
  }

  lemma StepElsewhere(c: State, it: Item, id: nat, ids: set<nat>)
    requires ItemOk(it, ids) && !Mine(it, id)
    ensures SameRows(c, Step(c, it.e, it.x), id)
  {
    hide CapStage;
    hide ServiceAt;
    hide Charge;
    var own := IdOf(it.e.v, it.x.p.dst);
    if ServiceAt(it.e.v, it.x.p.dst).Some? {
      hide ChargeAll;
      ChargeAllElsewhere(c, it.e, own, PathOf(c, it.e, it.x).used, it.x, id);
    }
  }

  lemma StepIsolated(c: State, d: State, it: Item, jt: Item, id: nat, ids: set<nat>, jds: set<nat>)
    requires Within(c, ids) && Within(d, jds) && ItemOk(it, ids) && ItemOk(jt, jds)
    requires Mine(it, id) && Mine(jt, id) && it.x == jt.x && SameFor(it.e, jt.e, id) && SameRows(c, d, id)
    ensures SameUpToNode(PathOf(c, it.e, it.x), PathOf(d, jt.e, jt.x))
    ensures SameRows(Step(c, it.e, it.x), Step(d, jt.e, jt.x), id)
  {
    hide Within;
    hide SameRows;
    hide SameFor;
    hide Decide;
    hide ChargeAll;
    hide ServiceAt;
    AnswersIsolated(c, d, it.e, jt.e, id, it.x, ids, jds);
    DecisionIsolated(it.e, jt.e, it.x.p, Answers(c, it.e, id, it.x), Answers(d, jt.e, id, it.x));
    ChargeAllIsolated(c, d, it.e, jt.e, id, PathOf(c, it.e, it.x).used, it.x, ids, jds);
  }

  lemma SameRowsChain(c: State, d: State, b: State, id: nat)
    requires SameRows(c, d, id)
    ensures SameRows(c, b, id) ==> SameRows(b, d, id)
    ensures SameRows(d, b, id) ==> SameRows(c, b, id)
  {
    hide RowAt;
  }

  lemma Uncons(its: seq<Item>, id: nat, ids: set<nat>, c: State)
    requires its != [] && ItemsOk(its, ids)
    ensures ItemOk(its[0], ids) && ItemsOk(its[1..], ids)
    ensures var next := Step(c, its[0].e, its[0].x);
            var only, paths := Only(its[1..], id, ids), PathsOf(next, its[1..], id, ids);
            && RunAll(c, its, ids) == RunAll(next, its[1..], ids)
            && Only(its, id, ids) == (if Mine(its[0], id) then [its[0]] + only else only)
            && PathsOf(c, its, id, ids) ==
               (if Mine(its[0], id) then [PathOf(c, its[0].e, its[0].x)] + paths else paths)
  {
    hide Step;
    hide PathOf;
    hide Mine;
    hide ItemOk;
    assert forall it :: it in its[1..] ==> it in its;
    assert its[0] in its;
  }

  lemma AlikeTail(a: Item, b: Item, its: seq<Item>, jts: seq<Item>, id: nat)
    requires Alike([a] + its, [b] + jts, id)
    ensures a.x == b.x && SameFor(a.e, b.e, id) && Alike(its, jts, id)
  {
    hide SameFor;
    assert ([a] + its)[0] == a && ([b] + jts)[0] == b;
    forall i | 0 <= i < |its| ensures its[i].x == jts[i].x && SameFor(its[i].e, jts[i].e, id) {
      assert ([a] + its)[i + 1] == its[i] && ([b] + jts)[i + 1] == jts[i];
    }
  }

  ghost predicate AllSame(p: seq<Path>, q: seq<Path>)
  {
    |p| == |q| && forall i :: 0 <= i < |p| ==> SameUpToNode(p[i], q[i])
  }

  lemma AllSameCons(x: Path, y: Path, p: seq<Path>, q: seq<Path>)
    requires SameUpToNode(x, y) && AllSame(p, q)
    ensures AllSame([x] + p, [y] + q)
  {
    hide SameUpToNode;
  }

  /** Main theorem: in any two runs whose packets for service `id` agree, with whatever other packets
      and configurations around them, every decision for `id` before the node bucket is identical. */
  lemma {:induction false} Isolated(c: State, d: State, its: seq<Item>, jts: seq<Item>, id: nat, ids: set<nat>, jds: set<nat>)
    requires Within(c, ids) && Within(d, jds) && ItemsOk(its, ids) && ItemsOk(jts, jds)
    requires SameRows(c, d, id) && Alike(Only(its, id, ids), Only(jts, id, jds), id)
    ensures AllSame(PathsOf(c, its, id, ids), PathsOf(d, jts, id, jds))
    ensures SameRows(RunAll(c, its, ids), RunAll(d, jts, jds), id)
    decreases |its| + |jts|
  {
    hide Within;
    hide SameRows;
    hide Step;
    hide PathOf;
    hide Mine;
    hide Only;
    hide PathsOf;
    hide RunAll;
    hide ItemsOk;
    hide AllSame;
    if its != [] {
      Uncons(its, id, ids, c);
      StepKeepsWithin(c, its[0], ids);
    }
    if jts != [] {
      Uncons(jts, id, jds, d);
      StepKeepsWithin(d, jts[0], jds);
    }
    if its != [] && !Mine(its[0], id) {
      SkipFirst(c, d, its, jts, id, ids, jds);
      Isolated(Step(c, its[0].e, its[0].x), d, its[1..], jts, id, ids, jds);
    } else if jts != [] && !Mine(jts[0], id) {
      SkipSecond(c, d, its, jts, id, ids, jds);
      Isolated(c, Step(d, jts[0].e, jts[0].x), its, jts[1..], id, ids, jds);
    } else if its != [] && jts != [] {
      AlikeTail(its[0], jts[0], Only(its[1..], id, ids), Only(jts[1..], id, jds), id);
      StepIsolated(c, d, its[0], jts[0], id, ids, jds);
      var c', d' := Step(c, its[0].e, its[0].x), Step(d, jts[0].e, jts[0].x);
      Isolated(c', d', its[1..], jts[1..], id, ids, jds);
      AllSameCons(PathOf(c, its[0].e, its[0].x), PathOf(d, jts[0].e, jts[0].x),
                  PathsOf(c', its[1..], id, ids), PathsOf(d', jts[1..], id, jds));
    } else {
      NothingLeft(c, d, its, jts, id, ids, jds);
    }
  }

  lemma SkipFirst(c: State, d: State, its: seq<Item>, jts: seq<Item>, id: nat, ids: set<nat>, jds: set<nat>)
    requires its != [] && ItemsOk(its, ids) && ItemOk(its[0], ids) && !Mine(its[0], id)
    requires SameRows(c, d, id)
    ensures SameRows(Step(c, its[0].e, its[0].x), d, id)
  {
    hide SameRows;
    hide Step;
    hide Mine;
    StepElsewhere(c, its[0], id, ids);
    SameRowsChain(c, d, Step(c, its[0].e, its[0].x), id);
  }

  lemma SkipSecond(c: State, d: State, its: seq<Item>, jts: seq<Item>, id: nat, ids: set<nat>, jds: set<nat>)
    requires jts != [] && ItemOk(jts[0], jds) && !Mine(jts[0], id)
    requires SameRows(c, d, id)
    ensures SameRows(c, Step(d, jts[0].e, jts[0].x), id)
  {
    hide SameRows;
    hide Step;
    hide Mine;
    StepElsewhere(d, jts[0], id, jds);
    SameRowsChain(c, d, Step(d, jts[0].e, jts[0].x), id);
  }

  lemma NothingLeft(c: State, d: State, its: seq<Item>, jts: seq<Item>, id: nat, ids: set<nat>, jds: set<nat>)
    requires ItemsOk(its, ids) && ItemsOk(jts, jds) && (its == [] || jts == [])
    requires its != [] ==> ItemOk(its[0], ids) && Mine(its[0], id)
    requires jts != [] ==> ItemOk(jts[0], jds) && Mine(jts[0], id)
    requires SameRows(c, d, id) && Alike(Only(its, id, ids), Only(jts, id, jds), id)
    ensures AllSame(PathsOf(c, its, id, ids), PathsOf(d, jts, id, jds))
    ensures SameRows(RunAll(c, its, ids), RunAll(d, jts, jds), id)
  {
    hide SameRows;
    hide Step;
    hide PathOf;
    hide Mine;
    hide SameFor;
    assert its == [] && jts == [];
  }
}
