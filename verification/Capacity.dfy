/** The fairness ladder as a whole: what all services together get through it on one CPU. */
module Capacity {
  import opened Wrappers
  import opened Arith
  import opened Bpf
  import opened DenyList
  import opened TokenBucket
  import opened FairBudget
  import opened Snapshot
  import opened ApplyPlan
  import opened Meaning
  import opened ApplyEffect
  import opened Pipeline
  import opened Cpu

  // ----- What a path charges -----

  function Rank(s: Stage): nat
  {
    match s case Cap => 0 case Vip => 1 case Limit => 2 case Committed => 3 case Burst => 4 case Headroom => 5
  }

  /** Stages are asked in pipeline order, each at most once. */
  ghost predicate Rising(used: seq<Stage>)
  {
    forall i, j :: 0 <= i < j < |used| ==> Rank(used[i]) < Rank(used[j])
  }

  ghost predicate From(used: seq<Stage>, low: nat)
  {
    Rising(used) && forall s :: s in used ==> Rank(s) >= low
  }

  /** A ladder redirect was paid for by the committed bucket or by the node bucket. */
  ghost predicate PaidFor(p: Path, a: Stage -> Answer)
  {
    && (p.out == Redirect(ViaCommitted) ==> Committed in p.used && a(Committed) == Pass)
    && (p.out == Redirect(ViaBurst) ==> Headroom in p.used && a(Headroom) == Pass)
  }

  ghost predicate Shaped(p: Path, a: Stage -> Answer, low: nat) { From(p.used, low) && PaidFor(p, a) }

  lemma ThenShaped(s: Stage, p: Path, a: Stage -> Answer)
    requires Shaped(p, a, Rank(s) + 1)
    ensures Shaped(Then(s, p), a, Rank(s))
  {
    var used := [s] + p.used;
    assert forall t :: t in p.used ==> t in used;
    forall i, j | 0 <= i < j < |used| ensures Rank(used[i]) < Rank(used[j]) {
      assert used[j] == p.used[j - 1] && p.used[j - 1] in p.used;
      if i > 0 {
        assert used[i] == p.used[i - 1];
      }
    }
  }

  lemma Lower(p: Path, a: Stage -> Answer, low: nat, lower: nat)
    requires Shaped(p, a, low) && lower <= low
    ensures Shaped(p, a, lower)
  {
  }

  lemma NodeShaped(id: nat, rule: Option<nat>, a: Stage -> Answer, hops: set<nat>)
    ensures Shaped(NodeStep(id, rule, a, hops), a, 5)
  {
    assert Headroom in [Headroom] + [];
  }

  lemma BurstShaped(id: nat, rule: Option<nat>, a: Stage -> Answer, hops: set<nat>)
    ensures Shaped(BurstStep(id, rule, a, hops), a, 4)
  {
    NodeShaped(id, rule, a, hops);
    if a(Burst) == Pass {
      ThenShaped(Burst, NodeStep(id, rule, a, hops), a);
    }
  }

  lemma LadderShaped(v: SlotView, id: nat, rule: Option<nat>, a: Stage -> Answer, hops: set<nat>)
    requires Total(v)
    ensures Shaped(Ladder(v, id, rule, a, hops), a, 3)
  {
    hide FairAt;
    hide BurstStep;
    BurstShaped(id, rule, a, hops);
    if a(Committed) == Refuse {
      ThenShaped(Committed, BurstStep(id, rule, a, hops), a);
    } else {
      assert Committed in [Committed] + [];
    }
  }

  lemma LimitShaped(v: SlotView, id: nat, rule: Option<nat>, a: Stage -> Answer, hops: set<nat>)
    requires Total(v)
    ensures Shaped(LimitStage(v, id, rule, a, hops), a, 2)
  {
    hide Ladder;
    hide RatesAt;
    LadderShaped(v, id, rule, a, hops);
    Lower(Ladder(v, id, rule, a, hops), a, 3, 2);
    if a(Limit) == Pass {
      ThenShaped(Limit, Ladder(v, id, rule, a, hops), a);
    }
  }

  lemma DenyShaped(v: SlotView, id: nat, p: Packet, a: Stage -> Answer, hops: set<nat>)
    requires Total(v) && PacketOk(p)
    ensures Shaped(DenyStage(v, id, p, a, hops), a, 2)
  {
    hide LimitStage;
    hide FirstMatch;
    hide DenyHit;
    hide Bogon;
    hide AmpPort;
    forall rule: Option<nat> ensures Shaped(LimitStage(v, id, rule, a, hops), a, 2) {
      LimitShaped(v, id, rule, a, hops);
    }
  }

  lemma WhitelistShaped(v: SlotView, id: nat, wl: nat, p: Packet, a: Stage -> Answer, hops: set<nat>)
    requires Total(v) && PacketOk(p)
    ensures Shaped(WhitelistStage(v, id, wl, p, a, hops), a, 1)
  {
    hide DenyStage;
    hide WhitelistHit;
    hide RatesAt;
    DenyShaped(v, id, p, a, hops);
    Lower(DenyStage(v, id, p, a, hops), a, 2, 1);
  }

  lemma DecideShaped(v: SlotView, p: Packet, a: Stage -> Answer, hops: set<nat>)
    requires Total(v) && PacketOk(p)
    ensures Shaped(Decide(v, p, a, hops), a, 0)
  {
    hide WhitelistStage;
    hide FairAt;
    hide LpmLookup;
    var s := ServiceAt(v, p.dst);
    if s.Some? {
      WhitelistShaped(v, s.value.serviceId, s.value.wlFlags, p, a, hops);
      if a(Cap) == Pass {
        ThenShaped(Cap, WhitelistStage(v, s.value.serviceId, s.value.wlFlags, p, a, hops), a);
      }
    }
  }

  // ----- What a step does to one row -----

  lemma ChargeRow(c: State, e: Env, id: nat, s: Stage, x: Input, t: Stage, i: nat)
    requires EnvOk(e)
    ensures RowAt(Charge(c, e, id, s, x), t, i) ==
            if t == s && (i == id || s == Headroom) && !NoRoom(c, s, id) then Some(AdmitAt(c, e, id, s, x).0) else RowAt(c, t, i)
  {
    hide AdmitAt;
    hide NoRoom;
  }

  /** A stage that is asked leaves the bucket its own admission computes; one that is not asked leaves it. */
  lemma {:induction false} ChargeAllRow(c: State, e: Env, id: nat, used: seq<Stage>, x: Input, t: Stage, i: nat)
    requires EnvOk(e) && Rising(used)
    ensures RowAt(ChargeAll(c, e, id, used, x), t, i) ==
            if t in used && (i == id || t == Headroom) && !NoRoom(c, t, id) then Some(AdmitAt(c, e, id, t, x).0)
            else RowAt(c, t, i)
    decreases used
  {
    if used != [] {
      var s, c' := used[0], Charge(c, e, id, used[0], x);
      ChargeRow(c, e, id, s, x, t, i);
      assert Rising(used[1..]);
      ChargeAllRow(c', e, id, used[1..], x, t, i);
      if s == t {
        assert forall k :: 0 <= k < |used| - 1 ==> used[1..][k] == used[k + 1];
        assert t !in used[1..];
      } else {
        SetRowFrame(c, s, id, AdmitAt(c, e, id, s, x).0, t);
        assert t in used <==> t in used[1..];
      }
      hide AdmitAt;
    }
  }

  // ----- What one bucket can still pay for -----

  /** The row was made under this configuration; any other is reset when it is next asked. */
  predicate Current(row: Option<Bucket>, cfg: Config) { row.Some? && row.value.version == cfg.version }

  function Held(row: Option<Bucket>, cfg: Config, ncpus: nat): nat
    requires ncpus > 0
  {
    if Current(row, cfg) then row.value.bps else TokenBucket.Burst(cfg.bps, ncpus)
  }

  /** Where the bucket's clock stands in the window. */
  function Since(row: Option<Bucket>, cfg: Config, from: nat, to: nat): (t: nat)
    requires from <= to
    ensures t <= to
  {
    if Current(row, cfg) then Min(row.value.last, to) else from
  }

  /** Bytes, scaled by the denominator, that a bucket can pay for until `to`: what it holds, and twice its
      share of the time since its own clock. */
  function Room(row: Option<Bucket>, cfg: Config, ncpus: nat, from: nat, to: nat): nat
    requires ncpus > 0 && from <= to
  {
    Held(row, cfg, ncpus) * Denom(ncpus) + 2 * (to - Since(row, cfg, from, to)) * cfg.bps
  }

  lemma RefillDoesNotAddRoom(b: Bucket, cfg: Config, now: nat, ncpus: nat, from: nat, to: nat)
    requires ncpus > 0 && cfg.bpsSet && b.version == cfg.version && from <= now <= to
    ensures Room(Some(Refill(b, cfg, now, ncpus)), cfg, ncpus, from, to) <= Room(Some(b), cfg, ncpus, from, to)
  {
    if now > b.last {
      var q := RefillBps(b, cfg, Elapsed(b, now), ncpus);
      var p := RefillPps(b, cfg, Elapsed(b, now), ncpus);
      var b', d := Refill(b, cfg, now, ncpus), Denom(ncpus);
      GrantIsPaidFor(b.bps, cfg.bps, TokenBucket.Burst(cfg.bps, ncpus), Elapsed(b, now), ncpus);
      assert b.last + q.1 <= b'.last <= now;
      hide RefillDim;
      GrantFits(b.bps, b'.bps, d, q.1, cfg.bps, to - b.last, to - b'.last);
    }
  }

  lemma GrantFits(tokens: nat, tokens': nat, d: nat, spent: nat, rate: nat, before: nat, after: nat)
    requires tokens <= tokens' && after + spent <= before
    requires tokens' > tokens ==> spent >= 1 && (tokens' - tokens) * d <= (spent + 1) * rate
    ensures tokens' * d + 2 * after * rate <= tokens * d + 2 * before * rate
  {
    MulLe(2 * after + 2 * spent, 2 * before, rate);
    assert (2 * after + 2 * spent) * rate == 2 * after * rate + 2 * spent * rate;
    assert tokens' * d == tokens * d + (tokens' - tokens) * d;
    if tokens' > tokens {
      MulLe(spent + 1, 2 * spent, rate);
    }
  }

  lemma ResetDoesNotAddRoom(row: Option<Bucket>, cfg: Config, now: nat, ncpus: nat, from: nat, to: nat)
    requires ncpus > 0 && !Current(row, cfg) && from <= now <= to
    ensures Room(Some(Reset(cfg, now, ncpus)), cfg, ncpus, from, to) <= Room(row, cfg, ncpus, from, to)
  {
    MulLe(2 * (to - now), 2 * (to - from), cfg.bps);
  }

  lemma ChargedFromRoom(row: Option<Bucket>, cfg: Config, now: nat, ncpus: nat, from: nat, to: nat)
    requires ncpus > 0 && cfg.bpsSet && from <= now <= to
    ensures Room(Some(Charged(row, cfg, now, ncpus)), cfg, ncpus, from, to) <= Room(row, cfg, ncpus, from, to)
  {
    if Current(row, cfg) {
      RefillDoesNotAddRoom(row.value, cfg, now, ncpus, from, to);
    } else {
      ResetDoesNotAddRoom(row, cfg, now, ncpus, from, to);
    }
    hide Room;
    hide Refill;
    hide Reset;
  }

  lemma ConsumedFromRoom(b: Bucket, cfg: Config, len: nat, ncpus: nat, from: nat, to: nat)
    requires ncpus > 0 && cfg.bpsSet && b.version == cfg.version && from <= to
    ensures Room(Some(Consume(b, cfg, len)), cfg, ncpus, from, to) + (if Fits(b, cfg, len) then len else 0) * Denom(ncpus)
            <= Room(Some(b), cfg, ncpus, from, to)
  {
    if Fits(b, cfg, len) {
      assert (b.bps - len) * Denom(ncpus) + len * Denom(ncpus) == b.bps * Denom(ncpus);
    }
  }

  /** Whatever a bucket's state, the bytes it admits come out of its room. */
  lemma AdmitPaysFromRoom(row: Option<Bucket>, cfg: Config, p: Arrival, ncpus: nat, from: nat, to: nat)
    requires ncpus > 0 && cfg.bpsSet && from <= p.now <= to
    ensures var a := Admit(row, cfg, p, ncpus);
            Room(Some(a.0), cfg, ncpus, from, to) + (if a.1 then p.len else 0) * Denom(ncpus) <= Room(row, cfg, ncpus, from, to)
  {
    hide Room;
    hide Charged;
    hide Consume;
    hide Fits;
    hide Denom;
    ChargedVersion(row, cfg, p.now, ncpus);
    ChargedFromRoom(row, cfg, p.now, ncpus, from, to);
    ConsumedFromRoom(Charged(row, cfg, p.now, ncpus), cfg, p.len, ncpus, from, to);
  }

  lemma ChargedVersion(row: Option<Bucket>, cfg: Config, now: nat, ncpus: nat)
    requires ncpus > 0
    ensures Charged(row, cfg, now, ncpus).version == cfg.version
  {
  }

  // ----- The room of a whole CPU -----

  function Share(e: Env, id: nat): Config
    requires EnvOk(e)
  {
    ConfigAt(e.v, id, Committed)
  }

  function NodeShare(e: Env): Config
    requires EnvOk(e)
  {
    ConfigAt(e.v, 0, Headroom)
  }

  function RoomAt(c: State, e: Env, id: nat, from: nat, to: nat): nat
    requires EnvOk(e) && from <= to
  {
    Room(RowAt(c, Committed, id), Share(e, id), e.ncpus, from, to)
  }

  function NodeRoom(c: State, e: Env, from: nat, to: nat): nat
    requires EnvOk(e) && from <= to
  {
    Room(Some(c.node), NodeShare(e), e.ncpus, from, to)
  }

  /** The room of every service the slot configures. */
  ghost function Rooms(c: State, e: Env, bound: nat, from: nat, to: nat): map<nat, nat>
    requires EnvOk(e) && from <= to
  {
    map id: nat | id < bound && FairAt(e.v, id).Some? :: RoomAt(c, e, id, from, to)
  }

  predicate InWindow(x: Input, from: nat, to: nat) { from <= x.t.committed <= to && from <= x.t.headroom <= to }

  /** What a packet gets through the ladder, by the bucket that paid. */
  function ByCommitted(c: State, e: Env, x: Input): nat
    requires EnvOk(e) && PacketOk(x.p)
  {
    if PathOf(c, e, x).out == Redirect(ViaCommitted) then x.len else 0
  }

  function ByNode(c: State, e: Env, x: Input): nat
    requires EnvOk(e) && PacketOk(x.p)
  {
    if PathOf(c, e, x).out == Redirect(ViaBurst) then x.len else 0
  }

  lemma OwnRoom(c: State, e: Env, x: Input, from: nat, to: nat)
    requires EnvOk(e) && PacketOk(x.p) && from <= to && InWindow(x, from, to)
    requires FairAt(e.v, IdOf(e.v, x.p.dst)).Some?
    ensures var id := IdOf(e.v, x.p.dst);
            RoomAt(Step(c, e, x), e, id, from, to) + ByCommitted(c, e, x) * Denom(e.ncpus) <= RoomAt(c, e, id, from, to)
  {
    hide Admit;
    hide Room;
    hide Decide;
    hide LpmLookup;
    var id, p := IdOf(e.v, x.p.dst), PathOf(c, e, x);
    DecideShaped(e.v, x.p, Answers(c, e, id, x), e.hops);
    ChargeAllRow(c, e, id, p.used, x, Committed, id);
    AdmitPaysFromRoom(RowAt(c, Committed, id), Share(e, id), Arrival(x.t.committed, x.len), e.ncpus, from, to);
    hide ChargeAll;
  }

  lemma OtherRoom(c: State, e: Env, x: Input, i: nat, from: nat, to: nat)
    requires EnvOk(e) && PacketOk(x.p) && from <= to && i != IdOf(e.v, x.p.dst)
    ensures RoomAt(Step(c, e, x), e, i, from, to) == RoomAt(c, e, i, from, to)
  {
    hide Room;
    hide Decide;
    hide LpmLookup;
    var id, p := IdOf(e.v, x.p.dst), PathOf(c, e, x);
    DecideShaped(e.v, x.p, Answers(c, e, id, x), e.hops);
    ChargeAllRow(c, e, id, p.used, x, Committed, i);
    hide ChargeAll;
  }

  lemma NodeRoomStep(c: State, e: Env, x: Input, from: nat, to: nat)
    requires EnvOk(e) && PacketOk(x.p) && from <= to && InWindow(x, from, to)
    ensures NodeRoom(Step(c, e, x), e, from, to) + ByNode(c, e, x) * Denom(e.ncpus) <= NodeRoom(c, e, from, to)
  {
    hide Admit;
    hide Room;
    hide Decide;
    hide LpmLookup;
    var id, p := IdOf(e.v, x.p.dst), PathOf(c, e, x);
    DecideShaped(e.v, x.p, Answers(c, e, id, x), e.hops);
    ChargeAllRow(c, e, id, p.used, x, Headroom, id);
    AdmitPaysFromRoom(Some(c.node), NodeShare(e), Arrival(x.t.headroom, x.len), e.ncpus, from, to);
    hide ChargeAll;
  }

  /** A packet of an unconfigured service charges nothing and goes nowhere. */
  lemma UnconfiguredStops(c: State, e: Env, x: Input)
    requires EnvOk(e) && PacketOk(x.p) && FairAt(e.v, IdOf(e.v, x.p.dst)).None?
    ensures PathOf(c, e, x).used == [] && PathOf(c, e, x).out.Drop? && Step(c, e, x) == c
  {
    hide WhitelistStage;
    hide LpmLookup;
    hide FairAt;
  }

  lemma RoomsStep(c: State, e: Env, x: Input, bound: nat, from: nat, to: nat)
    requires EnvOk(e) && PacketOk(x.p) && from <= to && InWindow(x, from, to) && IdOf(e.v, x.p.dst) < bound
    ensures SumBelow(Rooms(Step(c, e, x), e, bound, from, to), bound) + ByCommitted(c, e, x) * Denom(e.ncpus)
            <= SumBelow(Rooms(c, e, bound, from, to), bound)
  {
    hide SumBelow;
    hide RoomAt;
    hide IdOf;
    hide PathOf;
    hide Step;
    hide FairAt;
    var id := IdOf(e.v, x.p.dst);
    if FairAt(e.v, id).None? {
      UnconfiguredStops(c, e, x);
    } else {
      var m, m' := Rooms(c, e, bound, from, to), Rooms(Step(c, e, x), e, bound, from, to);
      forall i | i in m && i != id ensures m'[i] == m[i] {
        OtherRoom(c, e, x, i, from, to);
      }
      OwnRoom(c, e, x, from, to);
      assert m' == m[id := m'[id]];
      SumBelowUpdate(m, id, m'[id], bound);
    }
  }

  // ----- Whole runs -----

  ghost predicate InputsOk(xs: seq<Input>, e: Env, bound: nat)
    requires EnvOk(e)
  {
    forall x :: x in xs ==> PacketOk(x.p) && IdOf(e.v, x.p.dst) < bound
  }

  ghost predicate AllInWindow(xs: seq<Input>, from: nat, to: nat) { forall x :: x in xs ==> InWindow(x, from, to) }

  predicate ByLadder(o: Outcome) { o == Redirect(ViaCommitted) || o == Redirect(ViaBurst) }

  /** The bytes all services get through the ladder during a run. */
  ghost function LadderBytes(c: State, e: Env, xs: seq<Input>, bound: nat): nat
    requires EnvOk(e) && InputsOk(xs, e, bound)
    decreases xs
  {
    if xs == [] then 0 else
      assert xs[0] in xs && forall x :: x in xs[1..] ==> x in xs;
      (if ByLadder(PathOf(c, e, xs[0]).out) then xs[0].len else 0) + LadderBytes(Step(c, e, xs[0]), e, xs[1..], bound)
  }

  /** Main theorem: over every run on one CPU and from every state of its buckets, what all services get
      through the ladder is paid for: by the tokens the committed buckets and the node bucket hold, and
      twice their share of the time since each one's own clock. */
  lemma {:induction false} LadderBounded(c: State, e: Env, xs: seq<Input>, bound: nat, from: nat, to: nat)
    requires EnvOk(e) && InputsOk(xs, e, bound) && from <= to && AllInWindow(xs, from, to)
    ensures LadderBytes(c, e, xs, bound) * Denom(e.ncpus)
            <= SumBelow(Rooms(c, e, bound, from, to), bound) + NodeRoom(c, e, from, to)
    decreases xs
  {
    hide SumBelow;
    hide Rooms;
    hide NodeRoom;
    hide InWindow;
    hide PathOf;
    hide Step;
    hide IdOf;
    hide Denom;
    if xs != [] {
      var x, d := xs[0], Denom(e.ncpus);
      assert x in xs && forall y :: y in xs[1..] ==> y in xs;
      var c' := Step(c, e, x);
      RoomsStep(c, e, x, bound, from, to);
      NodeRoomStep(c, e, x, from, to);
      LadderBounded(c', e, xs[1..], bound, from, to);
      var m, n, rest := ByCommitted(c, e, x), ByNode(c, e, x), LadderBytes(c', e, xs[1..], bound);
      assert LadderBytes(c, e, xs, bound) == m + n + rest;
      assert (m + n + rest) * d == m * d + n * d + rest * d;
    }
  }

  // ----- Bounds -----

  lemma BurstShare(rate: nat, ncpus: nat)
    requires ncpus > 0
    ensures TokenBucket.Burst(rate, ncpus) * Denom(ncpus) <= NSEC_PER_SEC * rate + Denom(ncpus)
  {
    DivBounds(rate, ncpus);
    var q := rate / ncpus;
    assert TokenBucket.Burst(rate, ncpus) <= q + 1;
    MulLe(TokenBucket.Burst(rate, ncpus), q + 1, Denom(ncpus));
    assert q * Denom(ncpus) == NSEC_PER_SEC * (q * ncpus);
  }

  function CountBelow(m: map<nat, nat>, n: nat): nat
  {
    if n == 0 then 0 else CountBelow(m, n - 1) + if n - 1 in m then 1 else 0
  }

  lemma {:induction false} SumBounded(bytes: map<nat, nat>, rates: map<nat, nat>, n: nat, k: nat, d: nat)
    requires forall id :: 0 <= id < n && id in bytes ==> id in rates && bytes[id] <= k * rates[id] + d
    ensures SumBelow(bytes, n) <= k * SumBelow(rates, n) + d * CountBelow(rates, n)
  {
    if n > 0 {
      SumBounded(bytes, rates, n - 1, k, d);
      var s, t, c := SumBelow(bytes, n - 1), SumBelow(rates, n - 1), CountBelow(rates, n - 1);
      var x, y := if n - 1 in bytes then bytes[n - 1] else 0, if n - 1 in rates then rates[n - 1] else 0;
      SumTerm(s, t, c, x, y, k, d, if n - 1 in rates then 1 else 0);
    }
  }

  lemma SumTerm(s: nat, t: nat, c: nat, x: nat, y: nat, k: nat, d: nat, one: nat)
    requires s <= k * t + d * c && x <= k * y + d * one
    ensures s + x <= k * (t + y) + d * (c + one)
  {
    assert k * (t + y) == k * t + k * y;
    assert d * (c + one) == d * c + d * one;
  }

  /** The committed rates a slot configures, by service id. */
  ghost predicate RatesOf(rates: map<nat, nat>, e: Env)
    requires EnvOk(e)
  {
    forall id :: FairAt(e.v, id).Some? ==> id in rates && rates[id] == FairAt(e.v, id).value.committed
  }

  /** Every bucket in use holds at most its burst, and its clock has reached `from`. A CPU on which nothing
      has been used under this configuration is settled from any time on. */
  ghost predicate Settled(c: State, e: Env, from: nat)
    requires EnvOk(e)
  {
    && (forall id :: SettledRow(RowAt(c, Committed, id), Share(e, id), e.ncpus, from))
    && SettledRow(Some(c.node), NodeShare(e), e.ncpus, from)
  }

  predicate SettledRow(row: Option<Bucket>, cfg: Config, ncpus: nat, from: nat)
    requires ncpus > 0
  {
    Current(row, cfg) ==> row.value.bps <= TokenBucket.Burst(cfg.bps, ncpus) && from <= row.value.last
  }

  lemma AdmitKeepsSettled(row: Option<Bucket>, cfg: Config, p: Arrival, ncpus: nat, from: nat)
    requires ncpus > 0 && cfg.bpsSet && from <= p.now && SettledRow(row, cfg, ncpus, from)
    ensures SettledRow(Some(Admit(row, cfg, p, ncpus).0), cfg, ncpus, from)
  {
    hide TokenBucket.Burst;
  }

  lemma RowsStaySettled(c: State, e: Env, x: Input, i: nat, from: nat)
    requires EnvOk(e) && PacketOk(x.p) && from <= x.t.committed && from <= x.t.headroom && Settled(c, e, from)
    ensures SettledRow(RowAt(Step(c, e, x), Committed, i), Share(e, i), e.ncpus, from)
    ensures SettledRow(Some(Step(c, e, x).node), NodeShare(e), e.ncpus, from)
  {
    hide Admit;
    hide SettledRow;
    hide Decide;
    hide LpmLookup;
    hide FairAt;
    var id, p := IdOf(e.v, x.p.dst), PathOf(c, e, x);
    DecideShaped(e.v, x.p, Answers(c, e, id, x), e.hops);
    ChargeAllRow(c, e, id, p.used, x, Committed, i);
    ChargeAllRow(c, e, id, p.used, x, Headroom, id);
    AdmitKeepsSettled(Some(c.node), NodeShare(e), Arrival(x.t.headroom, x.len), e.ncpus, from);
    if FairAt(e.v, id).None? {
      UnconfiguredStops(c, e, x);
    } else {
      AdmitKeepsSettled(RowAt(c, Committed, id), Share(e, id), Arrival(x.t.committed, x.len), e.ncpus, from);
    }
    hide ChargeAll;
  }

  /** Settled buckets stay settled, so the bound applies to every stretch of a run on a CPU that was once
      settled. */
  lemma StepKeepsSettled(c: State, e: Env, x: Input, from: nat)
    requires EnvOk(e) && PacketOk(x.p) && from <= x.t.committed && from <= x.t.headroom && Settled(c, e, from)
    ensures Settled(Step(c, e, x), e, from)
  {
    hide SettledRow;
    hide Step;
    hide RowAt;
    hide ConfigAt;
    RowsStaySettled(c, e, x, 0, from);
    forall i ensures SettledRow(RowAt(Step(c, e, x), Committed, i), Share(e, i), e.ncpus, from) {
      RowsStaySettled(c, e, x, i, from);
    }
  }

  lemma SettledRoom(row: Option<Bucket>, cfg: Config, ncpus: nat, from: nat, to: nat)
    requires ncpus > 0 && from <= to && SettledRow(row, cfg, ncpus, from)
    ensures Room(row, cfg, ncpus, from, to) <= (NSEC_PER_SEC + 2 * (to - from)) * cfg.bps + Denom(ncpus)
  {
    var d := Denom(ncpus);
    BurstShare(cfg.bps, ncpus);
    MulLe(Held(row, cfg, ncpus), TokenBucket.Burst(cfg.bps, ncpus), d);
    hide TokenBucket.Burst;
    MulLe(2 * (to - Since(row, cfg, from, to)), 2 * (to - from), cfg.bps);
    assert (NSEC_PER_SEC + 2 * (to - from)) * cfg.bps == NSEC_PER_SEC * cfg.bps + 2 * (to - from) * cfg.bps;
  }

  lemma SettledRooms(c: State, e: Env, rates: map<nat, nat>, bound: nat, from: nat, to: nat)
    requires EnvOk(e) && from <= to && Settled(c, e, from) && RatesOf(rates, e)
    ensures SumBelow(Rooms(c, e, bound, from, to), bound) + NodeRoom(c, e, from, to)
            <= (NSEC_PER_SEC + 2 * (to - from)) * (SumBelow(rates, bound) + e.v.node.headroom)
               + Denom(e.ncpus) * (CountBelow(rates, bound) + 1)
  {
    hide Room;
    hide SettledRow;
    hide SumBelow;
    hide CountBelow;
    hide FairAt;
    hide Denom;
    var k, d := NSEC_PER_SEC + 2 * (to - from), Denom(e.ncpus);
    var m := Rooms(c, e, bound, from, to);
    forall id | id in m ensures id in rates && m[id] <= k * rates[id] + d {
      SettledRoom(RowAt(c, Committed, id), Share(e, id), e.ncpus, from, to);
    }
    SumBounded(m, rates, bound, k, d);
    SettledRoom(Some(c.node), NodeShare(e), e.ncpus, from, to);
    SumTerm(SumBelow(m, bound), SumBelow(rates, bound), CountBelow(rates, bound), NodeRoom(c, e, from, to),
            e.v.node.headroom, k, d, 1);
  }

  // ----- The configured rates -----

  ghost predicate IdsDiffer(ss: seq<Service>, bound: nat)
  {
    && (forall i :: 0 <= i < |ss| ==> ss[i].dpId < bound)
    && (forall i, j :: 0 <= i < j < |ss| ==> ss[i].dpId != ss[j].dpId)
  }

  function RateMap(ss: seq<Service>): (m: map<nat, nat>)
    ensures forall id :: id in m <==> exists i :: 0 <= i < |ss| && ss[i].dpId == id
  {
    if ss == [] then map[]
    else
      assert ss == ss[..|ss| - 1] + [ss[|ss| - 1]];
      RateMap(ss[..|ss| - 1])[ss[|ss| - 1].dpId := ClampRate(ss[|ss| - 1].committed)]
  }

  lemma {:induction false} RateMapAt(ss: seq<Service>, bound: nat, i: nat)
    requires IdsDiffer(ss, bound) && i < |ss|
    ensures ss[i].dpId in RateMap(ss) && RateMap(ss)[ss[i].dpId] == ClampRate(ss[i].committed)
  {
    if i < |ss| - 1 {
      RateMapAt(ss[..|ss| - 1], bound, i);
    }
  }

  lemma {:induction false} CountUpdate(m: map<nat, nat>, k: nat, v: nat, n: nat)
    requires k !in m
    ensures CountBelow(m[k := v], n) == CountBelow(m, n) + if k < n then 1 else 0
  {
    if n > 0 {
      CountUpdate(m, k, v, n - 1);
    }
  }

  lemma {:induction false} NoneBelow(n: nat)
    ensures CountBelow(map[], n) == 0
  {
    if n > 0 {
      NoneBelow(n - 1);
    }
  }

  /** The helper's saturating total of committed rates never saturates for a snapshot it accepts: it is
      the sum over services. */
  lemma {:induction false} CommittedTotal(ss: seq<Service>, bound: nat)
    requires IdsDiffer(ss, bound) && |ss| <= MAX_SERVICES
    ensures SumCommitted(ss) == SumBelow(RateMap(ss), bound) <= |ss| * FAIR_RATE_MAX
    ensures CountBelow(RateMap(ss), bound) == |ss|
  {
    if ss == [] {
      SumBelowEmpty(bound);
      NoneBelow(bound);
    } else {
      var rest, s := ss[..|ss| - 1], ss[|ss| - 1];
      CommittedTotal(rest, bound);
      hide SumBelow;
      hide CountBelow;
      assert s.dpId !in RateMap(rest);
      SumBelowUpdate(RateMap(rest), s.dpId, ClampRate(s.committed), bound);
      CountUpdate(RateMap(rest), s.dpId, ClampRate(s.committed), bound);
      MulLe(|ss|, MAX_SERVICES, FAIR_RATE_MAX);
    }
  }

  lemma ConfiguredRates(e: Env, ss: seq<Service>, n: Knobs, bound: nat)
    requires EnvOk(e) && KnobsOk(n) && NodeOk(ss) && Distinct(ss) && ShowsServices(e.v, ss, n) && IdsDiffer(ss, bound)
    ensures RatesOf(RateMap(ss), e)
  {
    hide Contents;
    hide NodePuts;
    hide NodeOk;
    hide Distinct;
    hide RateMap;
    hide IdsDiffer;
    hide BudgetOf;
    forall id | FairAt(e.v, id).Some?
      ensures id in RateMap(ss) && RateMap(ss)[id] == FairAt(e.v, id).value.committed
    {
      var m := Contents(NodePuts(ss, n), FairMap);
      assert e.v.inner[FairMap] == m;
      StoredIsOwn(ss, n, FairMap, Id(id));
      var s, p :| s in ss && OwnPut(s, n, p) && p.outer == FairMap && p.key == Id(id);
      OwnEntryStored(ss, n, s, p);
      var i :| 0 <= i < |ss| && ss[i] == s;
      RateMapAt(ss, bound, i);
      CommittedOf(s, n);
    }
  }

  lemma CommittedOf(s: Service, n: Knobs)
    requires KnobsOk(n)
    ensures FairEntry(s, n).committed == ClampRate(s.committed)
  {
  }

  /** For a committed snapshot: over every run from settled buckets, the ladder passes at most one second
      plus twice the elapsed time of the node capacity (or of the promised rates, if they exceed it), up
      to one rounding byte per bucket. */
  lemma LadderWithinCapacity(c: State, e: Env, xs: seq<Input>, ss: seq<Service>, n: Knobs, bound: nat, from: nat, to: nat)
    requires EnvOk(e) && InputsOk(xs, e, bound) && Settled(c, e, from) && from <= to && AllInWindow(xs, from, to)
    requires KnobsOk(n) && NodeOk(ss) && Distinct(ss) && IdsDiffer(ss, bound) && |ss| <= MAX_SERVICES
    requires ShowsServices(e.v, ss, n) && e.v.node == NodeEntry(ss, n)
    ensures LadderBytes(c, e, xs, bound) * Denom(e.ncpus)
            <= (NSEC_PER_SEC + 2 * (to - from)) * Max(n.capacity, SumCommitted(ss)) + Denom(e.ncpus) * (|ss| + 1)
  {
    hide LadderBytes;
    hide AllInWindow;
    hide InputsOk;
    hide Settled;
    hide Rooms;
    hide NodeRoom;
    hide NodeOk;
    hide Distinct;
    hide IdsDiffer;
    hide ShowsServices;
    hide RateMap;
    hide SumCommitted;
    hide SumBelow;
    hide CountBelow;
    hide RatesOf;
    ConfiguredRates(e, ss, n, bound);
    CommittedTotal(ss, bound);
    HeadroomCompletesCapacity(n.capacity, SumCommitted(ss));
    LadderBounded(c, e, xs, bound, from, to);
    SettledRooms(c, e, RateMap(ss), bound, from, to);
  }

  /** A CPU on which no bucket has been used under this configuration is settled from any time on. */
  lemma UnusedIsSettled(c: State, e: Env, from: nat)
    requires EnvOk(e) && c.committed == map[] && c.node.version != e.v.node.version
    ensures Settled(c, e, from)
  {
    hide ConfigAt;
    assert NodeShare(e).version == e.v.node.version by { NodeVersion(e); }
  }

  lemma NodeVersion(e: Env)
    requires EnvOk(e)
    ensures NodeShare(e).version == e.v.node.version
  {
  }
}
