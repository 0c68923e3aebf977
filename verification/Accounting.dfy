/** Packet accounting: record_drop (data-plane/src/drop_reason.h), the per-service rows
    (data-plane/src/svc_stat.h), the bypass counter (data-plane/src/node_control.h), and the frame
    dispatch of xdp_gateway (data-plane/src/xdp_gateway.bpf.c). */
module Accounting {
  import opened Wrappers
  import opened Arith
  import opened Bpf
  import opened DenyList
  import opened ApplyEffect
  import opened Pipeline
  import opened Cpu

  const REASON_COUNT: nat := 17
  const REASON_CAP: nat := 32
  const STAT_MAX: nat := 1024

  function Code(r: Reason): (n: nat)
    ensures n < REASON_COUNT
  {
    match r
    case Ipv6Unsupported => 0 case UnsupportedEthertype => 1 case MalformedIpv4 => 2 case FragmentUnsupported => 3
    case BogonDrop => 4 case ServiceMiss => 5 case ServiceDisabled => 6 case UdpAmplificationDrop => 7
    case BlacklistDrop => 8 case NotAllowed => 9 case RateLimitDrop => 10 case ServiceCeilingDrop => 11
    case CongestionDrop => 12 case IngressCapDrop => 13 case VipCeilingDrop => 14 case MapError => 15
    case NexthopUnresolved => 16
  }

  /** A frame as the header parsers classify it. */
  datatype Frame = BadEthernet | Ipv6 | Arp | OtherEthertype | Fragment | BadIpv4 | Good(x: Input)

  datatype Fate = Dropped(id: nat, reason: Reason) | Clean(id: nat) | Bypassed | ArpSent

  datatype Arrived = Arrived(e: Env, bypass: bool, frame: Frame)

  ghost predicate ArrivedOk(f: Arrived) { EnvOk(f.e) && (f.frame.Good? ==> PacketOk(f.frame.x.p)) }

  function FateOf(c: State, f: Arrived): Fate
    requires ArrivedOk(f)
  {
    match f.frame
    case BadEthernet => Dropped(0, UnsupportedEthertype)
    case Ipv6 => Dropped(0, Ipv6Unsupported)
    case Arp => ArpSent
    case OtherEthertype => Dropped(0, UnsupportedEthertype)
    case Fragment => Dropped(0, FragmentUnsupported)
    case BadIpv4 => Dropped(0, MalformedIpv4)
    case Good(x) =>
      if f.bypass then Bypassed
      else
        var p := PathOf(c, f.e, x);
        if p.out.Drop? then Dropped(p.id, p.out.reason) else Clean(p.id)
  }

  function Next(c: State, f: Arrived): State
    requires ArrivedOk(f)
  {
    if f.frame.Good? && !f.bypass then Step(c, f.e, f.frame.x) else c
  }

  // ----- Counters -----

  datatype SvcStat = SvcStat(clean: nat, drops: nat, byReason: seq<nat>)

  datatype Stats = Stats(drops: seq<nat>, svc: map<nat, SvcStat>, bypass: nat)

  function Zeros(n: nat): (s: seq<nat>)
    ensures |s| == n && (forall i :: 0 <= i < n ==> s[i] == 0) && Sum(s) == 0
  {
    if n == 0 then [] else Zeros(n - 1) + [0]
  }

  function NoTraffic(): (r: SvcStat)
    ensures |r.byReason| == REASON_CAP && Sum(r.byReason) == 0 && r.clean == r.drops == 0
  {
    SvcStat(0, 0, Zeros(REASON_CAP))
  }

  function Sum(s: seq<nat>): nat
  {
    if s == [] then 0 else Sum(s[..|s| - 1]) + s[|s| - 1]
  }

  lemma {:induction false} SumBump(s: seq<nat>, i: nat)
    requires i < |s|
    ensures Sum(s[i := s[i] + 1]) == Sum(s) + 1
  {
    var t := s[i := s[i] + 1];
    if i == |s| - 1 {
      assert t[..|s| - 1] == s[..|s| - 1];
    } else {
      assert t[..|s| - 1] == s[..|s| - 1][i := s[i] + 1];
      SumBump(s[..|s| - 1], i);
    }
  }

  /** svc_stat_get: an existing row, a fresh one if the map has room, or none. */
  function StatRow(svc: map<nat, SvcStat>, id: nat): Option<SvcStat>
  {
    if id in svc then Some(svc[id]) else if |svc| < STAT_MAX then Some(NoTraffic()) else None
  }

  function CountDrop(r: SvcStat, code: nat): SvcStat
    requires code < |r.byReason|
  {
    SvcStat(r.clean, r.drops + 1, r.byReason[code := r.byReason[code] + 1])
  }

  ghost predicate StatsOk(st: Stats)
  {
    |st.drops| == REASON_CAP && forall id :: id in st.svc ==> |st.svc[id].byReason| == REASON_CAP
  }

  /** What the counters record for one fate; service id 0 has no row. */
  function Record(st: Stats, fate: Fate): Stats
    requires StatsOk(st)
  {
    match fate
    case Dropped(id, reason) =>
      var row := StatRow(st.svc, id);
      Stats(st.drops[Code(reason) := st.drops[Code(reason)] + 1],
            if id == 0 || row.None? then st.svc else st.svc[id := CountDrop(row.value, Code(reason))], st.bypass)
    case Clean(id) =>
      var row := StatRow(st.svc, id);
      if id == 0 || row.None? then st else st.(svc := st.svc[id := row.value.(clean := row.value.clean + 1)])
    case Bypassed => st.(bypass := st.bypass + 1)
    case ArpSent => st
  }

  class Counters {
    const counter: array<nat>
    var svc: map<nat, SvcStat>
    var bypass: nat

    ghost function View(): Stats
      reads this, counter
    {
      Stats(counter[..], svc, bypass)
    }

    ghost predicate Valid()
      reads this, counter
    {
      StatsOk(View())
    }

    constructor ()
      ensures Valid() && fresh(counter) && View() == NoStats()
    {
      counter := new nat[REASON_CAP](_ => 0);
      svc, bypass := map[], 0;
      new;
      assert counter[..] == Zeros(REASON_CAP);
    }

    /** record_drop: an unknown reason code counts as a map error. */
    method RecordDrop(id: nat, code: nat)
      requires Valid()
      modifies this, counter
      ensures Valid()
      ensures forall r: Reason :: Code(r) == (if code < REASON_COUNT then code else Code(MapError)) ==>
                View() == Record(old(View()), Dropped(id, r))
    {
      var key := code;
      if key >= REASON_COUNT { key := Code(MapError); }
      counter[key] := counter[key] + 1;
      assert counter[..] == old(counter[..])[key := old(counter[..])[key] + 1];
      if id == 0 { return; }
      var row := StatRow(svc, id);
      if row.Some? { svc := svc[id := CountDrop(row.value, key)]; }
    }

    /** svc_stat_clean. */
    method CountClean(id: nat)
      requires Valid()
      modifies `svc
      ensures Valid() && View() == Record(old(View()), Clean(id))
    {
      if id == 0 { return; }
      var row := StatRow(svc, id);
      if row.Some? { svc := svc[id := row.value.(clean := row.value.clean + 1)]; }
    }

    method CountBypass()
      requires Valid()
      modifies `bypass
      ensures Valid() && View() == Record(old(View()), Bypassed)
    {
      bypass := bypass + 1;
    }
  }

  lemma ArpCountsNothing(st: Stats)
    requires StatsOk(st)
    ensures Record(st, ArpSent) == st
  {
  }

  /** xdp_gateway: dispatch on the frame, then account for what happened to it. */
  method XdpGateway(path: PacketPath, counters: Counters, f: Arrived) returns (fate: Fate)
    requires ArrivedOk(f) && counters.Valid()
    modifies path, counters, counters.counter
    ensures counters.Valid() && fate == FateOf(old(path.View()), f)
    ensures path.View() == Next(old(path.View()), f) && counters.View() == Record(old(counters.View()), fate)
  {
    hide PathOf;
    hide Step;
    hide Record;
    hide StatsOk;
    hide Code;
    match f.frame
    case BadEthernet =>
      fate := Dropped(0, UnsupportedEthertype);
      counters.RecordDrop(0, Code(UnsupportedEthertype));
    case Ipv6 =>
      fate := Dropped(0, Ipv6Unsupported);
      counters.RecordDrop(0, Code(Ipv6Unsupported));
    case Arp =>
      fate := ArpSent;
      ArpCountsNothing(counters.View());
    case OtherEthertype =>
      fate := Dropped(0, UnsupportedEthertype);
      counters.RecordDrop(0, Code(UnsupportedEthertype));
    case Fragment =>
      fate := Dropped(0, FragmentUnsupported);
      counters.RecordDrop(0, Code(FragmentUnsupported));
    case BadIpv4 =>
      fate := Dropped(0, MalformedIpv4);
      counters.RecordDrop(0, Code(MalformedIpv4));
    case Good(x) =>
      if f.bypass {
        counters.CountBypass();
        return Bypassed;
      }
      var p := path.Handle(f.e, x);
      if p.out.Drop? {
        fate := Dropped(p.id, p.out.reason);
        counters.RecordDrop(p.id, Code(p.out.reason));
      } else {
        fate := Clean(p.id);
        counters.CountClean(p.id);
      }
  }

  // ----- Conservation -----

  function CleanCounts(svc: map<nat, SvcStat>): map<nat, nat>
  {
    map id | id in svc :: svc[id].clean
  }

  /** All packets the counters know of; `bound` exceeds every service id. */
  function Counted(st: Stats, bound: nat): nat
  {
    Sum(st.drops) + SumBelow(CleanCounts(st.svc), bound) + st.bypass
  }

  /** Rows exist only for services in `ids`, which fit the map and are below the bound. */
  ghost predicate Roomy(st: Stats, ids: set<nat>, bound: nat)
  {
    && StatsOk(st) && |ids| <= STAT_MAX && 0 !in ids && st.svc.Keys <= ids
    && forall id :: id in ids ==> id < bound
  }

  ghost predicate FateIn(fate: Fate, ids: set<nat>)
  {
    match fate
    case Dropped(id, _) => id == 0 || id in ids
    case Clean(id) => id in ids
    case _ => true
  }

  lemma RowExists(st: Stats, ids: set<nat>, bound: nat, id: nat)
    requires Roomy(st, ids, bound) && id in ids
    ensures StatRow(st.svc, id).Some?
  {
    if id !in st.svc {
      var keys := st.svc.Keys;
      assert ids == (keys + {id}) + (ids - (keys + {id}));
      assert |keys + {id}| <= |ids|;
    }
  }

  lemma RecordKeepsRoomy(st: Stats, fate: Fate, ids: set<nat>, bound: nat)
    requires Roomy(st, ids, bound) && FateIn(fate, ids)
    ensures Roomy(Record(st, fate), ids, bound)
  {
  }

  lemma DropCountsOne(st: Stats, id: nat, reason: Reason, ids: set<nat>, bound: nat)
    requires Roomy(st, ids, bound) && (id == 0 || id in ids)
    ensures Counted(Record(st, Dropped(id, reason)), bound) == Counted(st, bound) + 1
  {
    hide Sum;
    hide SumBelow;
    hide Zeros;
    SumBump(st.drops, Code(reason));
    if id != 0 {
      RowExists(st, ids, bound, id);
      var row := StatRow(st.svc, id).value;
      assert CleanCounts(Record(st, Dropped(id, reason)).svc) == CleanCounts(st.svc)[id := row.clean];
      SumBelowUpdate(CleanCounts(st.svc), id, row.clean, bound);
    }
  }

  lemma CleanCountsOne(st: Stats, id: nat, ids: set<nat>, bound: nat)
    requires Roomy(st, ids, bound) && id in ids
    ensures Counted(Record(st, Clean(id)), bound) == Counted(st, bound) + 1
  {
    hide Sum;
    hide SumBelow;
    hide Zeros;
    RowExists(st, ids, bound, id);
    var row := StatRow(st.svc, id).value;
    assert CleanCounts(Record(st, Clean(id)).svc) == CleanCounts(st.svc)[id := row.clean + 1];
    SumBelowUpdate(CleanCounts(st.svc), id, row.clean + 1, bound);
  }

  /** Each frame adds exactly one to the counters, except an ARP redirect, which no counter sees. */
  lemma RecordCountsOne(st: Stats, fate: Fate, ids: set<nat>, bound: nat)
    requires Roomy(st, ids, bound) && FateIn(fate, ids)
    ensures Counted(Record(st, fate), bound) == Counted(st, bound) + if fate.ArpSent? then 0 else 1
  {
    hide Sum;
    hide SumBelow;
    hide StatRow;
    match fate
    case Dropped(id, reason) => DropCountsOne(st, id, reason, ids, bound);
    case Clean(id) => CleanCountsOne(st, id, ids, bound);
    case _ =>
  }

  // ----- Whole runs -----

  /** Every matched service has an id in `ids`. */
  ghost predicate ArrivalsOk(fs: seq<Arrived>, ids: set<nat>)
  {
    forall f :: f in fs ==> ArrivedOk(f) && IdsKnown(f.e.v, ids)
  }

  ghost predicate IdsKnown(v: SlotView, ids: set<nat>)
    requires Total(v)
  {
    forall dst: nat :: ServiceAt(v, dst).Some? ==> ServiceAt(v, dst).value.serviceId in ids
  }

  ghost function Fates(c: State, fs: seq<Arrived>, ids: set<nat>): (out: seq<Fate>)
    requires ArrivalsOk(fs, ids)
    ensures |out| == |fs|
    decreases fs
  {
    if fs == [] then [] else
      assert ArrivedOk(fs[0]) && forall f :: f in fs[1..] ==> f in fs;
      [FateOf(c, fs[0])] + Fates(Next(c, fs[0]), fs[1..], ids)
  }

  ghost function RecordAll(st: Stats, out: seq<Fate>, ids: set<nat>, bound: nat): Stats
    requires Roomy(st, ids, bound) && forall x :: x in out ==> FateIn(x, ids)
    decreases out
  {
    if out == [] then st else
      assert FateIn(out[0], ids);
      RecordKeepsRoomy(st, out[0], ids, bound);
      RecordAll(Record(st, out[0]), out[1..], ids, bound)
  }

  ghost function Arps(out: seq<Fate>): nat
  {
    if out == [] then 0 else (if out[0].ArpSent? then 1 else 0) + Arps(out[1..])
  }

  ghost function ArpFrames(fs: seq<Arrived>): nat
  {
    if fs == [] then 0 else (if fs[0].frame.Arp? then 1 else 0) + ArpFrames(fs[1..])
  }

  lemma {:induction false} ArpsAreFrames(c: State, fs: seq<Arrived>, ids: set<nat>)
    requires ArrivalsOk(fs, ids)
    ensures Arps(Fates(c, fs, ids)) == ArpFrames(fs)
    decreases fs
  {
    hide PathOf;
    hide Next;
    hide IdsKnown;
    if fs != [] {
      assert fs[0] in fs && forall f :: f in fs[1..] ==> f in fs;
      ArpsAreFrames(Next(c, fs[0]), fs[1..], ids);
      var out := Fates(c, fs, ids);
      assert out[0] == FateOf(c, fs[0]) && out[1..] == Fates(Next(c, fs[0]), fs[1..], ids);
    }
  }

  predicate Belongs(x: Fate, id: nat) { (x.Dropped? || x.Clean?) && x.id == id }

  ghost function Matched(out: seq<Fate>, id: nat): nat
  {
    if out == [] then 0 else (if Belongs(out[0], id) then 1 else 0) + Matched(out[1..], id)
  }

  lemma DecideKeepsId(v: SlotView, p: Packet, a: Stage -> Answer, hops: set<nat>)
    requires Total(v) && PacketOk(p)
    ensures Decide(v, p, a, hops).id == IdOf(v, p.dst)
    ensures Decide(v, p, a, hops).out.Redirect? ==> ServiceAt(v, p.dst).Some?
  {
    hide LpmLookup;
    hide FirstMatch;
    hide Bogon;
    hide AmpPort;
    hide DenyHit;
    hide WhitelistHit;
    var s := ServiceAt(v, p.dst);
    if s.Some? {
      CapKeepsId(v, s.value.serviceId, s.value.wlFlags, p, a, hops);
    }
    hide CapStage;
  }

  lemma CapKeepsId(v: SlotView, id: nat, wl: nat, p: Packet, a: Stage -> Answer, hops: set<nat>)
    requires Total(v) && PacketOk(p)
    ensures CapStage(v, id, wl, p, a, hops).id == id
  {
    hide FirstMatch;
    hide Bogon;
    hide AmpPort;
    hide DenyHit;
    hide WhitelistHit;
    forall rule: Option<nat> ensures LimitStage(v, id, rule, a, hops).id == id {
    }
    hide LimitStage;
    assert AllowStage(v, id, p, a, hops).id == id;
    hide AllowStage;
    assert DenyStage(v, id, p, a, hops).id == id;
    hide DenyStage;
  }

  lemma FateKnown(c: State, f: Arrived, ids: set<nat>)
    requires ArrivedOk(f) && IdsKnown(f.e.v, ids)
    ensures FateIn(FateOf(c, f), ids)
  {
    if f.frame.Good? && !f.bypass {
      var x := f.frame.x;
      DecideKeepsId(f.e.v, x.p, Answers(c, f.e, IdOf(f.e.v, x.p.dst), x), f.e.hops);
    }
    hide Decide;
    hide ServiceAt;
  }

  lemma {:induction false} FatesKnown(c: State, fs: seq<Arrived>, ids: set<nat>)
    requires ArrivalsOk(fs, ids)
    ensures forall x :: x in Fates(c, fs, ids) ==> FateIn(x, ids)
    decreases fs
  {
    hide FateOf;
    hide Next;
    hide IdsKnown;
    hide FateIn;
    if fs != [] {
      assert fs[0] in fs && forall f :: f in fs[1..] ==> f in fs;
      FateKnown(c, fs[0], ids);
      FatesKnown(Next(c, fs[0]), fs[1..], ids);
    }
  }

  lemma {:induction false} RecordAllCounts(st: Stats, out: seq<Fate>, ids: set<nat>, bound: nat)
    requires Roomy(st, ids, bound) && forall x :: x in out ==> FateIn(x, ids)
    ensures Counted(RecordAll(st, out, ids, bound), bound) + Arps(out) == Counted(st, bound) + |out|
    decreases out
  {
    hide Counted;
    hide Record;
    hide Roomy;
    hide FateIn;
    if out != [] {
      assert out[0] in out && forall x :: x in out[1..] ==> x in out;
      RecordKeepsRoomy(st, out[0], ids, bound);
      RecordCountsOne(st, out[0], ids, bound);
      assert StatsOk(st) by { RoomyIsOk(st, ids, bound); }
      RecordAllCounts(Record(st, out[0]), out[1..], ids, bound);
    }
  }

  lemma RoomyIsOk(st: Stats, ids: set<nat>, bound: nat)
    requires Roomy(st, ids, bound)
    ensures StatsOk(st)
  {
  }

  function NoStats(): Stats { Stats(Zeros(REASON_CAP), map[], 0) }

  lemma NothingCounted(ids: set<nat>, bound: nat)
    requires |ids| <= STAT_MAX && 0 !in ids && forall id :: id in ids ==> id < bound
    ensures Roomy(NoStats(), ids, bound) && Counted(NoStats(), bound) == 0
  {
    assert CleanCounts(NoStats().svc) == map[];
    SumBelowEmpty(bound);
  }

  /** Main theorem, node level: over every run, the frames received are the drop counters plus the
      service clean counts plus the bypass count plus the ARP redirects. */
  lemma PacketsConserved(c: State, fs: seq<Arrived>, ids: set<nat>, bound: nat)
    requires ArrivalsOk(fs, ids) && |ids| <= STAT_MAX && 0 !in ids && forall id :: id in ids ==> id < bound
    ensures var out := Fates(c, fs, ids);
            && Roomy(NoStats(), ids, bound) && (forall x :: x in out ==> FateIn(x, ids))
            && |fs| == Counted(RecordAll(NoStats(), out, ids, bound), bound) + ArpFrames(fs)
  {
    hide Fates;
    hide RecordAll;
    hide FateIn;
    hide ArrivalsOk;
    hide Roomy;
    hide Counted;
    hide NoStats;
    hide Arps;
    FatesKnown(c, fs, ids);
    NothingCounted(ids, bound);
    RecordAllCounts(NoStats(), Fates(c, fs, ids), ids, bound);
    ArpsAreFrames(c, fs, ids);
  }

  // ----- Per service -----

  function RowTotal(st: Stats, id: nat): nat
  {
    if id in st.svc then st.svc[id].clean + st.svc[id].drops else 0
  }

  ghost predicate Split(st: Stats)
  {
    forall id :: id in st.svc ==> st.svc[id].drops == Sum(st.svc[id].byReason)
  }

  lemma RecordCountsService(st: Stats, fate: Fate, ids: set<nat>, bound: nat, id: nat)
    requires Roomy(st, ids, bound) && FateIn(fate, ids) && id in ids && Split(st)
    ensures RowTotal(Record(st, fate), id) == RowTotal(st, id) + (if Belongs(fate, id) then 1 else 0)
    ensures Split(Record(st, fate))
  {
    hide Zeros;
    RowExists(st, ids, bound, id);
    if (fate.Dropped? || fate.Clean?) && fate.id != 0 {
      RowExists(st, ids, bound, fate.id);
      var row := StatRow(st.svc, fate.id).value;
      if fate.Dropped? {
        SumBump(row.byReason, Code(fate.reason));
      }
      hide Sum;
    }
  }

  lemma {:induction false} RecordAllCountsService(st: Stats, out: seq<Fate>, ids: set<nat>, bound: nat, id: nat)
    requires Roomy(st, ids, bound) && (forall x :: x in out ==> FateIn(x, ids)) && id in ids && Split(st)
    ensures RowTotal(RecordAll(st, out, ids, bound), id) == RowTotal(st, id) + Matched(out, id)
    ensures Split(RecordAll(st, out, ids, bound))
    decreases out
  {
    hide Record;
    hide Roomy;
    hide FateIn;
    hide Split;
    hide RowTotal;
    if out != [] {
      assert out[0] in out && forall x :: x in out[1..] ==> x in out;
      RoomyIsOk(st, ids, bound);
      RecordKeepsRoomy(st, out[0], ids, bound);
      RecordCountsService(st, out[0], ids, bound, id);
      RecordAllCountsService(Record(st, out[0]), out[1..], ids, bound, id);
    }
  }

  /** The frame is an accepted IPv4 packet, the gateway is not bypassed, and the service lookup of its
      destination hits the service. */
  predicate AddressedTo(f: Arrived, id: nat)
    requires ArrivedOk(f)
  {
    f.frame.Good? && !f.bypass
    && ServiceAt(f.e.v, f.frame.x.p.dst).Some? && ServiceAt(f.e.v, f.frame.x.p.dst).value.serviceId == id
  }

  ghost function Addressed(fs: seq<Arrived>, ids: set<nat>, id: nat): nat
    requires ArrivalsOk(fs, ids)
    decreases fs
  {
    if fs == [] then 0 else
      assert ArrivedOk(fs[0]) && forall f :: f in fs[1..] ==> f in fs;
      (if AddressedTo(fs[0], id) then 1 else 0) + Addressed(fs[1..], ids, id)
  }

  /** The counted id is the id the lookup found. */
  lemma FateBelongs(c: State, f: Arrived, id: nat)
    requires ArrivedOk(f) && id != 0
    ensures Belongs(FateOf(c, f), id) <==> AddressedTo(f, id)
  {
    if f.frame.Good? && !f.bypass {
      var x := f.frame.x;
      DecideKeepsId(f.e.v, x.p, Answers(c, f.e, IdOf(f.e.v, x.p.dst), x), f.e.hops);
    }
    hide Decide;
    hide ServiceAt;
  }

  lemma {:induction false} MatchedIsAddressed(c: State, fs: seq<Arrived>, ids: set<nat>, id: nat)
    requires ArrivalsOk(fs, ids) && id != 0
    ensures Matched(Fates(c, fs, ids), id) == Addressed(fs, ids, id)
    decreases fs
  {
    hide FateOf;
    hide Next;
    hide IdsKnown;
    hide AddressedTo;
    hide Belongs;
    if fs != [] {
      assert fs[0] in fs && forall f :: f in fs[1..] ==> f in fs;
      FateBelongs(c, fs[0], id);
      MatchedIsAddressed(Next(c, fs[0]), fs[1..], ids, id);
      var out := Fates(c, fs, ids);
      assert out[0] == FateOf(c, fs[0]) && out[1..] == Fates(Next(c, fs[0]), fs[1..], ids);
    }
  }

  /** Main theorem, service level: counting from zero over every run of arrivals, a service's clean and
      dropped packets are exactly the packets whose lookup hit it, and its drops are the sum over reasons. */
  lemma ServicePacketsConserved(c: State, fs: seq<Arrived>, ids: set<nat>, bound: nat, id: nat)
    requires ArrivalsOk(fs, ids) && |ids| <= STAT_MAX && 0 !in ids && (forall i :: i in ids ==> i < bound) && id in ids
    ensures var out := Fates(c, fs, ids);
            && Roomy(NoStats(), ids, bound) && (forall x :: x in out ==> FateIn(x, ids))
            && var st := RecordAll(NoStats(), out, ids, bound);
               RowTotal(st, id) == Addressed(fs, ids, id) && Split(st)
  {
    hide Fates;
    hide RecordAll;
    hide FateIn;
    hide ArrivalsOk;
    hide Roomy;
    FatesKnown(c, fs, ids);
    NothingCounted(ids, bound);
    assert Split(NoStats()) && RowTotal(NoStats(), id) == 0;
    hide NoStats;
    hide Split;
    hide RowTotal;
    RecordAllCountsService(NoStats(), Fates(c, fs, ids), ids, bound, id);
    MatchedIsAddressed(c, fs, ids, id);
  }

  // ----- Each counter by itself -----

  /** The reasons in the order the counter interface has frozen. */
  const ABI: seq<Reason> := [
    Ipv6Unsupported, UnsupportedEthertype, MalformedIpv4, FragmentUnsupported, BogonDrop, ServiceMiss, ServiceDisabled,
    UdpAmplificationDrop, BlacklistDrop, NotAllowed, RateLimitDrop, ServiceCeilingDrop, CongestionDrop, IngressCapDrop,
    VipCeilingDrop, MapError, NexthopUnresolved]

  /** A reason's code is its place in the interface, so no two reasons share a counter. */
  lemma CodesAreAbi()
    ensures |ABI| == REASON_COUNT && (forall i :: 0 <= i < |ABI| ==> Code(ABI[i]) == i)
    ensures forall r: Reason :: ABI[Code(r)] == r
    ensures forall r: Reason, q: Reason :: Code(r) == Code(q) ==> r == q
  {
  }

  datatype Counter = NodeDrops(reason: Reason) | ServiceDrops(id: nat, reason: Reason) | ServiceClean(id: nat) | BypassCount

  function Read(st: Stats, k: Counter): nat
    requires StatsOk(st)
  {
    match k
    case NodeDrops(r) => st.drops[Code(r)]
    case ServiceDrops(id, r) => if id in st.svc then st.svc[id].byReason[Code(r)] else 0
    case ServiceClean(id) => if id in st.svc then st.svc[id].clean else 0
    case BypassCount => st.bypass
  }

  /** Which fates a counter is there for. */
  predicate CountedBy(x: Fate, k: Counter)
  {
    match k
    case NodeDrops(r) => x.Dropped? && x.reason == r
    case ServiceDrops(id, r) => x == Dropped(id, r)
    case ServiceClean(id) => x == Clean(id)
    case BypassCount => x.Bypassed?
  }

  ghost function Occurrences(out: seq<Fate>, k: Counter): nat
  {
    if out == [] then 0 else (if CountedBy(out[0], k) then 1 else 0) + Occurrences(out[1..], k)
  }

  ghost predicate KnownCounter(k: Counter, ids: set<nat>) { k.ServiceDrops? || k.ServiceClean? ==> k.id in ids }

  lemma RecordReads(st: Stats, fate: Fate, ids: set<nat>, bound: nat, k: Counter)
    requires Roomy(st, ids, bound) && FateIn(fate, ids) && KnownCounter(k, ids)
    ensures Read(Record(st, fate), k) == Read(st, k) + (if CountedBy(fate, k) then 1 else 0)
  {
    hide Zeros;
    hide Sum;
    CodesAreAbi();
    hide Code;
    if (fate.Dropped? || fate.Clean?) && fate.id != 0 {
      RowExists(st, ids, bound, fate.id);
      var row := StatRow(st.svc, fate.id).value;
      assert fate.id !in st.svc ==> row == NoTraffic();
    }
  }

  lemma {:induction false} RecordAllReads(st: Stats, out: seq<Fate>, ids: set<nat>, bound: nat, k: Counter)
    requires Roomy(st, ids, bound) && (forall x :: x in out ==> FateIn(x, ids)) && KnownCounter(k, ids)
    ensures StatsOk(st) && StatsOk(RecordAll(st, out, ids, bound))
    ensures Read(RecordAll(st, out, ids, bound), k) == Read(st, k) + Occurrences(out, k)
    decreases out
  {
    hide Record;
    hide Roomy;
    hide FateIn;
    hide Read;
    hide CountedBy;
    RoomyIsOk(st, ids, bound);
    if out != [] {
      assert out[0] in out && forall x :: x in out[1..] ==> x in out;
      RecordKeepsRoomy(st, out[0], ids, bound);
      RecordReads(st, out[0], ids, bound, k);
      RecordAllReads(Record(st, out[0]), out[1..], ids, bound, k);
    }
  }

  /** What a frame alone decides about its counter: a parse failure has the counter of its kind, a packet of a
      bypassed node the bypass counter. */
  predicate FrameCounts(f: Arrived, k: Counter)
  {
    match k
    case NodeDrops(UnsupportedEthertype) => f.frame.BadEthernet? || f.frame.OtherEthertype?
    case NodeDrops(Ipv6Unsupported) => f.frame.Ipv6?
    case NodeDrops(FragmentUnsupported) => f.frame.Fragment?
    case NodeDrops(MalformedIpv4) => f.frame.BadIpv4?
    case BypassCount => f.frame.Good? && f.bypass
    case _ => false
  }

  predicate ByFrame(k: Counter)
  {
    k.BypassCount? || (k.NodeDrops? && k.reason in {UnsupportedEthertype, Ipv6Unsupported, FragmentUnsupported, MalformedIpv4})
  }

  ghost function FramesFor(fs: seq<Arrived>, k: Counter): nat
  {
    if fs == [] then 0 else (if FrameCounts(fs[0], k) then 1 else 0) + FramesFor(fs[1..], k)
  }

  predicate ParseReason(o: Outcome)
  {
    o.Drop? && o.reason in {UnsupportedEthertype, Ipv6Unsupported, FragmentUnsupported, MalformedIpv4}
  }

  lemma LimitNotParse(v: SlotView, id: nat, rule: Option<nat>, a: Stage -> Answer, hops: set<nat>)
    requires Total(v)
    ensures !ParseReason(LimitStage(v, id, rule, a, hops).out)
  {
    hide FairAt;
    hide RatesAt;
  }

  /** The packet path has reasons of its own. */
  lemma DecideNotParse(v: SlotView, p: Packet, a: Stage -> Answer, hops: set<nat>)
    requires Total(v) && PacketOk(p)
    ensures !ParseReason(Decide(v, p, a, hops).out)
  {
    hide LpmLookup;
    hide FirstMatch;
    hide Bogon;
    hide AmpPort;
    hide DenyHit;
    hide WhitelistHit;
    hide FairAt;
    hide RatesAt;
    forall id: nat, rule: Option<nat> ensures !ParseReason(LimitStage(v, id, rule, a, hops).out) {
      LimitNotParse(v, id, rule, a, hops);
    }
    hide LimitStage;
    assert forall id: nat :: !ParseReason(DenyStage(v, id, p, a, hops).out);
    hide DenyStage;
  }

  lemma FateByFrame(c: State, f: Arrived, k: Counter)
    requires ArrivedOk(f) && ByFrame(k)
    ensures CountedBy(FateOf(c, f), k) <==> FrameCounts(f, k)
  {
    if f.frame.Good? && !f.bypass {
      var x := f.frame.x;
      DecideNotParse(f.e.v, x.p, Answers(c, f.e, IdOf(f.e.v, x.p.dst), x), f.e.hops);
    }
    hide Decide;
  }

  lemma {:induction false} OccurrencesByFrame(c: State, fs: seq<Arrived>, ids: set<nat>, k: Counter)
    requires ArrivalsOk(fs, ids) && ByFrame(k)
    ensures Occurrences(Fates(c, fs, ids), k) == FramesFor(fs, k)
    decreases fs
  {
    hide FateOf;
    hide Next;
    hide IdsKnown;
    hide CountedBy;
    hide FrameCounts;
    if fs != [] {
      assert fs[0] in fs && forall f :: f in fs[1..] ==> f in fs;
      FateByFrame(c, fs[0], k);
      OccurrencesByFrame(Next(c, fs[0]), fs[1..], ids, k);
      var out := Fates(c, fs, ids);
      assert out[0] == FateOf(c, fs[0]) && out[1..] == Fates(Next(c, fs[0]), fs[1..], ids);
    }
  }

  /** Main theorem, counter by counter: from zero, over every run of arrivals, each counter is the number of
      frames with its own fate; those of the parsers and of the bypass depend on the frames alone. */
  lemma CountersExact(c: State, fs: seq<Arrived>, ids: set<nat>, bound: nat, k: Counter)
    requires ArrivalsOk(fs, ids) && |ids| <= STAT_MAX && 0 !in ids && (forall i :: i in ids ==> i < bound) && KnownCounter(k, ids)
    ensures var out := Fates(c, fs, ids);
            && Roomy(NoStats(), ids, bound) && (forall x :: x in out ==> FateIn(x, ids))
            && var st := RecordAll(NoStats(), out, ids, bound);
               StatsOk(st) && Read(st, k) == Occurrences(out, k) && (ByFrame(k) ==> Read(st, k) == FramesFor(fs, k))
  {
    FatesKnown(c, fs, ids);
    NothingCounted(ids, bound);
    assert StatsOk(NoStats()) && Read(NoStats(), k) == 0;
    hide Fates;
    hide RecordAll;
    hide FateIn;
    hide ArrivalsOk;
    hide Roomy;
    hide NoStats;
    hide Read;
    hide StatsOk;
    RecordAllReads(NoStats(), Fates(c, fs, ids), ids, bound, k);
    if ByFrame(k) {
      OccurrencesByFrame(c, fs, ids, k);
    }
  }

  /** The statistics map never outgrows its size, whatever ids are met. */
  lemma RecordFits(st: Stats, fate: Fate)
    requires StatsOk(st) && |st.svc| <= STAT_MAX
    ensures |Record(st, fate).svc| <= STAT_MAX
  {
    if fate.Dropped? || fate.Clean? {
      var id := fate.id;
      var m := Record(st, fate).svc;
      assert m.Keys == st.svc.Keys || (m.Keys == st.svc.Keys + {id} && |st.svc| < STAT_MAX);
      assert |m| == |m.Keys| && |st.svc| == |st.svc.Keys|;
    }
  }
}
