/** The per-CPU token buckets of the data plane: rl_burst, rl_refill_dim and
    rl_bucket_consume_raw (data-plane/src/rules.h), and the reset / refill / consume / admit
    quartet that the ingress cap, VIP, service rate limit and fairness stages each repeat.

    The products of a refill are reduced modulo 2^64, as the C code does; the denominator, at most
    10^9 times a 32-bit CPU count, fits a word and is not. Times are nanoseconds. */
module TokenBucket {
  import opened Arith
  import opened Wrappers

  const NSEC_PER_SEC: nat := 1_000_000_000
  const FAIR_RATE_MAX: nat := 16_000_000_000

  /** The largest rate for which one second of refill still fits in 64 bits. */
  const RATE_EXACT_MAX: nat := 18_446_744_073

  const NCPUS_MAX: nat := 0xffff_ffff

  /** One bucket configuration: a `*_SET` flag and a rate per dimension. The fairness buckets
      set only `bpsSet`; the ingress cap sets both. */
  datatype Config = Config(version: nat, ppsSet: bool, bpsSet: bool, pps: nat, bps: nat)

  /** struct rl_bucket. */
  datatype Bucket = Bucket(version: nat, last: nat, pps: nat, bps: nat)

  datatype Arrival = Arrival(now: nat, len: nat)

  function Denom(ncpus: nat): nat { NSEC_PER_SEC * ncpus }

  /** `a * b / d` on 64-bit words: the product wraps before the division. */
  function MulDiv64(a: nat, b: nat, d: nat): nat
    requires d > 0
  {
    Wrap64(a * b) / d
  }

  /** rl_burst with the test hook off. */
  function Burst(rate: nat, ncpus: nat): nat
    requires ncpus > 0
  {
    if rate == 0 then 0 else Max(1, rate / ncpus)
  }

  /** What rl_refill_dim leaves in `*tokens`, and the time it reports as spent. */
  function RefillDim(tokens: nat, rate: nat, burst: nat, elapsed: nat, ncpus: nat): (r: (nat, nat))
    requires ncpus > 0
    ensures tokens <= r.0 <= Max(tokens, burst)
    ensures r.1 <= elapsed
    ensures r.0 > tokens ==> r.1 >= 1
    ensures r.0 == tokens ==> r.1 == 0
  {
    if rate == 0 || tokens >= burst then (tokens, 0)
    else
      var offer := MulDiv64(elapsed, rate, Denom(ncpus));
      if offer == 0 then (tokens, 0)
      else
        var grant := Min(offer, burst - tokens);
        (tokens + grant, Min(elapsed, Max(1, MulDiv64(grant, Denom(ncpus), rate))))
  }

  function Reset(cfg: Config, now: nat, ncpus: nat): Bucket
    requires ncpus > 0
  {
    Bucket(cfg.version, now, Burst(cfg.pps, ncpus), Burst(cfg.bps, ncpus))
  }

  function RefillPps(b: Bucket, cfg: Config, elapsed: nat, ncpus: nat): (nat, nat)
    requires ncpus > 0
  {
    if cfg.ppsSet then RefillDim(b.pps, cfg.pps, Burst(cfg.pps, ncpus), elapsed, ncpus) else (b.pps, 0)
  }

  function RefillBps(b: Bucket, cfg: Config, elapsed: nat, ncpus: nat): (nat, nat)
    requires ncpus > 0
  {
    if cfg.bpsSet then RefillDim(b.bps, cfg.bps, Burst(cfg.bps, ncpus), elapsed, ncpus) else (b.bps, 0)
  }

  function Elapsed(b: Bucket, now: nat): nat
  {
    if now <= b.last then 0 else Min(now - b.last, NSEC_PER_SEC)
  }

  /** Both dimensions are refilled from the same elapsed time; the clock moves by the larger advance. */
  function Refill(b: Bucket, cfg: Config, now: nat, ncpus: nat): Bucket
    requires ncpus > 0
  {
    if now <= b.last then b
    else
      var p := RefillPps(b, cfg, Elapsed(b, now), ncpus);
      var q := RefillBps(b, cfg, Elapsed(b, now), ncpus);
      b.(last := b.last + Max(p.1, q.1), pps := p.0, bps := q.0)
  }

  predicate Fits(b: Bucket, cfg: Config, len: nat)
  {
    (cfg.ppsSet ==> b.pps >= 1) && (cfg.bpsSet ==> b.bps >= len)
  }

  function Consume(b: Bucket, cfg: Config, len: nat): Bucket
  {
    if Fits(b, cfg, len) then
      b.(pps := if cfg.ppsSet then b.pps - 1 else b.pps, bps := if cfg.bpsSet then b.bps - len else b.bps)
    else b
  }

  /** The bucket a packet is charged against: a missing or outdated bucket is reset first. */
  function Charged(b: Option<Bucket>, cfg: Config, now: nat, ncpus: nat): Bucket
    requires ncpus > 0
  {
    if b.None? || b.value.version != cfg.version then Reset(cfg, now, ncpus)
    else Refill(b.value, cfg, now, ncpus)
  }

  function Admit(b: Option<Bucket>, cfg: Config, p: Arrival, ncpus: nat): (r: (Bucket, bool))
    requires ncpus > 0
  {
    var c := Charged(b, cfg, p.now, ncpus);
    (Consume(c, cfg, p.len), Fits(c, cfg, p.len))
  }

  /** One rl_bucket row, mutated in place the way the C code does. */
  class RlBucket {
    var version: nat
    var last: nat
    var pps: nat
    var bps: nat

    ghost function View(): Bucket
      reads this
    {
      Bucket(version, last, pps, bps)
    }

    constructor (cfg: Config, now: nat, ncpus: nat)
      requires ncpus > 0
      ensures View() == Reset(cfg, now, ncpus)
    {
      version, last := cfg.version, now;
      pps, bps := Burst(cfg.pps, ncpus), Burst(cfg.bps, ncpus);
    }

    /** A row that is already in the map. */
    constructor Of(b: Bucket)
      ensures View() == b
    {
      version, last, pps, bps := b.version, b.last, b.pps, b.bps;
    }

    static method RefillTokens(tokens: nat, rate: nat, burst: nat, elapsed: nat, ncpus: nat)
      returns (tokens': nat, advance: nat)
      requires 0 < ncpus
      ensures (tokens', advance) == RefillDim(tokens, rate, burst, elapsed, ncpus)
    {
      tokens', advance := tokens, 0;
      var denom := Denom(ncpus);
      if rate == 0 || tokens >= burst { return; }
      var grant := MulDiv64(elapsed, rate, denom);
      if grant == 0 { return; }
      var space := burst - tokens;
      if grant > space { grant := space; }
      tokens' := tokens + grant;
      advance := MulDiv64(grant, denom, rate);
      if advance == 0 { advance := 1; }
      if advance > elapsed { advance := elapsed; }
    }

    method RefillAll(cfg: Config, now: nat, ncpus: nat)
      requires ncpus > 0
      modifies this
      ensures View() == Refill(old(View()), cfg, now, ncpus)
    {
      if now <= last { return; }
      var elapsed := now - last;
      if elapsed > NSEC_PER_SEC { elapsed := NSEC_PER_SEC; }
      var advance, dimAdvance := 0, 0;
      if cfg.ppsSet {
        pps, dimAdvance := RefillTokens(pps, cfg.pps, Burst(cfg.pps, ncpus), elapsed, ncpus);
        if dimAdvance > advance { advance := dimAdvance; }
      }
      if cfg.bpsSet {
        bps, dimAdvance := RefillTokens(bps, cfg.bps, Burst(cfg.bps, ncpus), elapsed, ncpus);
        if dimAdvance > advance { advance := dimAdvance; }
      }
      if advance > 0 { last := last + advance; }
    }

    method Take(cfg: Config, len: nat) returns (admitted: bool)
      modifies this
      ensures View() == Consume(old(View()), cfg, len)
      ensures admitted == Fits(old(View()), cfg, len)
    {
      admitted := (!cfg.ppsSet || pps >= 1) && (!cfg.bpsSet || bps >= len);
      if !admitted { return; }
      if cfg.ppsSet { pps := pps - 1; }
      if cfg.bpsSet { bps := bps - len; }
    }

    method Offer(cfg: Config, now: nat, len: nat, ncpus: nat) returns (admitted: bool)
      requires ncpus > 0
      modifies this
      ensures (View(), admitted) == Admit(Some(old(View())), cfg, Arrival(now, len), ncpus)
    {
      if version != cfg.version {
        version, last := cfg.version, now;
        pps, bps := Burst(cfg.pps, ncpus), Burst(cfg.bps, ncpus);
      } else {
        RefillAll(cfg, now, ncpus);
      }
      admitted := Take(cfg, len);
    }
  }

  // ----- One refill: what it costs, and when it is exact -----

  /** The refill rl_refill_dim would perform on unbounded integers. */
  function IdealTokens(tokens: nat, rate: nat, burst: nat, elapsed: nat, ncpus: nat): nat
    requires ncpus > 0
  {
    if tokens >= burst then tokens else Min(burst, tokens + elapsed * rate / Denom(ncpus))
  }

  /** When a refill grants, neither product of the grant wraps and the elapsed time covers it:
      the reported time is the exact cost of the grant, rounded down but never below one. */
  lemma GrantCost(tokens: nat, rate: nat, burst: nat, elapsed: nat, ncpus: nat)
    requires ncpus > 0
    requires RefillDim(tokens, rate, burst, elapsed, ncpus).0 > tokens
    ensures var r := RefillDim(tokens, rate, burst, elapsed, ncpus);
            rate > 0 && r.1 == Max(1, (r.0 - tokens) * Denom(ncpus) / rate)
  {
    var r := RefillDim(tokens, rate, burst, elapsed, ncpus);
    var d := Denom(ncpus);
    var grant := r.0 - tokens;
    GrantDoesNotWrap(grant, elapsed * rate, d);
    DivAtMost(grant * d, rate, elapsed) by { MulStep(elapsed, rate); }
  }

  /** Every granted token is paid for by the reported time, up to one nanosecond of rounding.
      This needs no bound on the rate: a wrapped product only grants less. */
  lemma GrantIsPaidFor(tokens: nat, rate: nat, burst: nat, elapsed: nat, ncpus: nat)
    requires ncpus > 0
    ensures var r := RefillDim(tokens, rate, burst, elapsed, ncpus);
            r.0 > tokens ==> (r.0 - tokens) * Denom(ncpus) <= (r.1 + 1) * rate
  {
    var r := RefillDim(tokens, rate, burst, elapsed, ncpus);
    if r.0 > tokens {
      GrantCost(tokens, rate, burst, elapsed, ncpus);
      var cost := (r.0 - tokens) * Denom(ncpus);
      DivBounds(cost, rate);
      MulLe(cost / rate + 1, r.1 + 1, rate);
    }
  }

  lemma GrantDoesNotWrap(grant: nat, product: nat, d: nat)
    requires d > 0 && grant <= Wrap64(product) / d
    ensures grant * d <= Wrap64(product) <= product
  {
    DivBounds(Wrap64(product), d);
    MulLe(grant, Wrap64(product) / d, d);
  }

  /** A second of elapsed time refills exactly as on unbounded integers if and only if the rate
      is at most RATE_EXACT_MAX. Plan rates are clamped below it; service and VIP rates are not. */
  lemma RefillExactIff(rate: nat, ncpus: nat)
    requires 0 < ncpus <= NCPUS_MAX
    ensures (forall tokens: nat, elapsed: nat :: elapsed <= NSEC_PER_SEC ==>
               RefillDim(tokens, rate, Burst(rate, ncpus), elapsed, ncpus).0
               == IdealTokens(tokens, rate, Burst(rate, ncpus), elapsed, ncpus))
            <==> rate <= RATE_EXACT_MAX
  {
    if rate <= RATE_EXACT_MAX {
      forall tokens: nat, elapsed: nat | elapsed <= NSEC_PER_SEC
        ensures RefillDim(tokens, rate, Burst(rate, ncpus), elapsed, ncpus).0
                == IdealTokens(tokens, rate, Burst(rate, ncpus), elapsed, ncpus)
      {
        MulLe(elapsed, NSEC_PER_SEC, rate);
      }
    } else {
      WrapLosesTokens(rate, ncpus);
    }
  }

  lemma WrapLosesTokens(rate: nat, ncpus: nat)
    requires 0 < ncpus <= NCPUS_MAX
    requires rate > RATE_EXACT_MAX
    ensures RefillDim(0, rate, Burst(rate, ncpus), NSEC_PER_SEC, ncpus).0
            < IdealTokens(0, rate, Burst(rate, ncpus), NSEC_PER_SEC, ncpus)
  {
    var p, d := NSEC_PER_SEC * rate, Denom(ncpus);
    assert p >= U64;
    assert Wrap64(p) <= p - U64;
    var offer := MulDiv64(NSEC_PER_SEC, rate, d);
    DivBounds(Wrap64(p), d);
    MulStep(offer, d);
    assert (offer + 1) * d <= p;
    DivAtLeast(p, d, offer + 1);
    ScaledDiv(rate, ncpus);
    DivAtLeast(rate, ncpus, 1);
  }

  lemma ScaledDiv(rate: nat, ncpus: nat)
    requires ncpus > 0
    ensures NSEC_PER_SEC * rate / Denom(ncpus) == rate / ncpus
  {
    var q := rate / ncpus;
    DivBounds(rate, ncpus);
    assert q * Denom(ncpus) == NSEC_PER_SEC * (q * ncpus);
    assert (q + 1) * Denom(ncpus) == NSEC_PER_SEC * ((q + 1) * ncpus);
    DivAtLeast(NSEC_PER_SEC * rate, Denom(ncpus), q);
    DivAtMost(NSEC_PER_SEC * rate, Denom(ncpus), q);
  }

  /** Where the product of a whole second fits 64 bits, a second refills a dimension completely, or not at
      all when the rate is below one token per second and CPU. */
  lemma ExactSecond(tokens: nat, rate: nat, ncpus: nat)
    requires 0 < ncpus <= NCPUS_MAX
    requires rate <= RATE_EXACT_MAX && tokens < Burst(rate, ncpus)
    ensures RefillDim(tokens, rate, Burst(rate, ncpus), NSEC_PER_SEC, ncpus).0
            == (if rate >= ncpus then Burst(rate, ncpus) else tokens)
  {
    ScaledDiv(rate, ncpus);
    assert NSEC_PER_SEC * rate < U64;
    if rate >= ncpus {
      DivAtLeast(rate, ncpus, 1);
    } else {
      DivAtMost(rate, ncpus, 0);
    }
  }

  /** For every rate: a second refills the dimension completely from every level if and only if the rate
      reaches one token per second and CPU and the product of a second does not wrap. */
  lemma FullAfterOneSecondIff(rate: nat, ncpus: nat)
    requires 0 < ncpus <= NCPUS_MAX && rate > 0
    ensures (forall tokens: nat :: tokens < Burst(rate, ncpus) ==>
               RefillDim(tokens, rate, Burst(rate, ncpus), NSEC_PER_SEC, ncpus).0 == Burst(rate, ncpus))
            <==> ncpus <= rate <= RATE_EXACT_MAX
  {
    var burst := Burst(rate, ncpus);
    if rate <= RATE_EXACT_MAX {
      forall tokens: nat | tokens < burst
        ensures RefillDim(tokens, rate, burst, NSEC_PER_SEC, ncpus).0 == (if rate >= ncpus then burst else tokens)
      {
        ExactSecond(tokens, rate, ncpus);
      }
      assert rate < ncpus ==> RefillDim(0, rate, burst, NSEC_PER_SEC, ncpus).0 == 0;
    } else {
      WrapLosesTokens(rate, ncpus);
    }
  }

  /** A second gives a dimension below its burst any token at all if and only if the 64-bit product of the
      second reaches one token. */
  lemma RegainsIff(tokens: nat, rate: nat, ncpus: nat)
    requires ncpus > 0 && tokens < Burst(rate, ncpus)
    ensures RefillDim(tokens, rate, Burst(rate, ncpus), NSEC_PER_SEC, ncpus).0 > tokens
            <==> Wrap64(NSEC_PER_SEC * rate) >= Denom(ncpus)
  {
    var p, d := Wrap64(NSEC_PER_SEC * rate), Denom(ncpus);
    if p >= d {
      DivAtLeast(p, d, 1);
    } else {
      DivAtMost(p, d, 0);
    }
  }

  /** At 18446744074 tokens per second on one CPU, one above the exact bound, a second gives nothing. */
  lemma WrappedSecondGivesNothing()
    ensures var rate := RATE_EXACT_MAX + 1;
            RefillDim(0, rate, Burst(rate, 1), NSEC_PER_SEC, 1) == (0, 0)
  {
    var rate := RATE_EXACT_MAX + 1;
    assert NSEC_PER_SEC * rate == U64 + 290_448_384;
    assert Wrap64(NSEC_PER_SEC * rate) == 290_448_384;
    RegainsIff(0, rate, 1);
  }

  lemma SlowDimensionNeverRefills(tokens: nat, rate: nat, burst: nat, elapsed: nat, ncpus: nat)
    requires 0 < ncpus && rate < ncpus && elapsed <= NSEC_PER_SEC
    ensures RefillDim(tokens, rate, burst, elapsed, ncpus).0 == tokens
  {
    MulLe(elapsed, NSEC_PER_SEC, rate);
    MulLe(rate + 1, ncpus, NSEC_PER_SEC);
    DivAtMost(Wrap64(elapsed * rate), Denom(ncpus), 0);
  }

  /** The tokens granted by a refill never exceed the reported time's share if and only if the rate is
      too slow to grant any or divides the nanosecond scale. The bound is what a signed 64-bit database
      column holds. */
  lemma PaymentExactIff(rate: nat, ncpus: nat)
    requires 0 < ncpus <= NCPUS_MAX && 2 * rate < U64
    ensures (forall tokens: nat, elapsed: nat :: elapsed <= NSEC_PER_SEC ==>
               var r := RefillDim(tokens, rate, Burst(rate, ncpus), elapsed, ncpus);
               (r.0 - tokens) * Denom(ncpus) <= r.1 * rate)
            <==> rate < ncpus || Denom(ncpus) % rate == 0
  {
    var d := Denom(ncpus);
    if rate < ncpus || d % rate == 0 {
      forall tokens: nat, elapsed: nat | elapsed <= NSEC_PER_SEC
        ensures var r := RefillDim(tokens, rate, Burst(rate, ncpus), elapsed, ncpus);
                (r.0 - tokens) * d <= r.1 * rate
      {
        if rate < ncpus {
          SlowDimensionNeverRefills(tokens, rate, Burst(rate, ncpus), elapsed, ncpus);
        } else {
          DividingRatePaysExactly(tokens, rate, elapsed, ncpus);
        }
      }
    } else if rate <= d {
      OverpaidToken(rate, ncpus);
    } else {
      OverpaidTokens(rate, ncpus);
    }
  }

  lemma DividingRatePaysExactly(tokens: nat, rate: nat, elapsed: nat, ncpus: nat)
    requires 0 < ncpus && 0 < rate && Denom(ncpus) % rate == 0
    ensures var r := RefillDim(tokens, rate, Burst(rate, ncpus), elapsed, ncpus);
            (r.0 - tokens) * Denom(ncpus) <= r.1 * rate
  {
    var r := RefillDim(tokens, rate, Burst(rate, ncpus), elapsed, ncpus);
    if r.0 > tokens {
      GrantCost(tokens, rate, Burst(rate, ncpus), elapsed, ncpus);
      MultipleDivides(r.0 - tokens, Denom(ncpus), rate);
      MulLe((r.0 - tokens) * Denom(ncpus) / rate, r.1, rate);
    }
  }

  lemma MultipleDivides(g: nat, d: nat, rate: nat)
    requires rate > 0 && d % rate == 0
    ensures (g * d / rate) * rate == g * d
  {
    var units := g * (d / rate);
    assert units * rate == g * ((d / rate) * rate);
    DivBounds(g * d, rate);
    DivAtLeast(g * d, rate, units);
    MulLe(units, g * d / rate, rate);
  }

  /** At most one token per nanosecond: the time for a single token is rounded down. */
  lemma OverpaidToken(rate: nat, ncpus: nat)
    requires 0 < ncpus <= NCPUS_MAX
    requires ncpus <= rate <= Denom(ncpus) && Denom(ncpus) % rate != 0
    ensures var d, burst := Denom(ncpus), Burst(rate, ncpus);
            var elapsed := d / rate + 1;
            var r := RefillDim(burst - 1, rate, burst, elapsed, ncpus);
            burst >= 1 && elapsed <= NSEC_PER_SEC && (r.0 - (burst - 1)) * d > r.1 * rate
  {
    var d, burst := Denom(ncpus), Burst(rate, ncpus);
    var q := d / rate;
    DivAtLeast(rate, ncpus, 1);
    DivBounds(d, rate);
    DivAtLeast(d, rate, 1);
    assert q * rate < d;
    MulLe(ncpus, rate, NSEC_PER_SEC);
    DivAtMost(d, rate, NSEC_PER_SEC - 1) by {
      assert d <= NSEC_PER_SEC * rate && d % rate != 0;
      MulDiv(NSEC_PER_SEC, rate);
    }
    MulStep(q, rate);
    assert d < (q + 1) * rate < U64;
    var offer := MulDiv64(q + 1, rate, d);
    DivAtLeast((q + 1) * rate, d, 1);
    var r := RefillDim(burst - 1, rate, burst, q + 1, ncpus);
    assert r.0 == burst;
    assert Wrap64(1 * d) == d;
    assert r.1 <= q;
    MulLe(r.1, q, rate);
  }

  /** More than one token per nanosecond: two nanoseconds' tokens are granted for one. */
  lemma OverpaidTokens(rate: nat, ncpus: nat)
    requires 0 < ncpus <= NCPUS_MAX
    requires Denom(ncpus) < rate && 2 * rate < U64
    ensures var d, burst := Denom(ncpus), Burst(rate, ncpus);
            var grant := rate / d + 1;
            grant <= burst
            && var r := RefillDim(burst - grant, rate, burst, 2, ncpus);
               (r.0 - (burst - grant)) * d > r.1 * rate
  {
    var d, burst := Denom(ncpus), Burst(rate, ncpus);
    var grant := rate / d + 1;
    BurstCovers(rate, ncpus);
    DivBounds(rate, d);
    MulStep(rate / d, d);
    var cost := grant * d;
    assert rate < cost <= rate + d < 2 * rate;
    DivAtLeast(2 * rate, d, grant);
    DivAtLeast(cost, rate, 1);
    DivAtMost(cost, rate, 1);
    assert MulDiv64(2, rate, d) >= grant && MulDiv64(grant, d, rate) == 1;
  }

  lemma BurstCovers(rate: nat, ncpus: nat)
    requires 0 < ncpus && Denom(ncpus) < rate
    ensures rate / Denom(ncpus) + 1 <= Burst(rate, ncpus)
  {
    DivDiv(rate, ncpus, NSEC_PER_SEC);
    DivAtLeast(rate, ncpus, NSEC_PER_SEC);
  }

  // ----- Whole runs of one bucket under one configuration -----

  /** What the packets of a run were granted, counted from the first packet. */
  datatype Tally = Tally(start: nat, pkts: nat, bytes: nat, ppsGrants: nat, bpsGrants: nat)

  function Count(t: Tally, admitted: bool, len: nat): Tally
  {
    if admitted then t.(pkts := t.pkts + 1, bytes := t.bytes + len) else t
  }

  function CountGrants(t: Tally, before: Bucket, after: Bucket): Tally
  {
    t.(ppsGrants := t.ppsGrants + if after.pps > before.pps then 1 else 0,
       bpsGrants := t.bpsGrants + if after.bps > before.bps then 1 else 0)
  }

  /** The bucket and the tally after a non-empty run that starts with no bucket. */
  function Run(cfg: Config, ncpus: nat, ps: seq<Arrival>): (r: (Bucket, Tally))
    requires ncpus > 0 && ps != []
    ensures r.0.version == cfg.version
  {
    var p := ps[|ps| - 1];
    if |ps| == 1 then
      var a := Admit(None, cfg, p, ncpus);
      (a.0, Count(Tally(p.now, 0, 0, 0, 0), a.1, p.len))
    else
      Next(Run(cfg, ncpus, ps[..|ps| - 1]), cfg, p, ncpus)
  }

  function Next(s: (Bucket, Tally), cfg: Config, p: Arrival, ncpus: nat): (r: (Bucket, Tally))
    requires ncpus > 0 && s.0.version == cfg.version
    ensures r.0.version == cfg.version
  {
    var a := Admit(Some(s.0), cfg, p, ncpus);
    (a.0, Count(CountGrants(s.1, s.0, Refill(s.0, cfg, p.now, ncpus)), a.1, p.len))
  }

  /** One dimension of a run: tokens fit the burst, and everything spent or held is covered by the
      initial burst, the time the bucket clock has moved, and one nanosecond per granting refill. */
  ghost predicate DimBounded(tokens: nat, spent: nat, grants: nat, span: nat, rate: nat, ncpus: nat)
    requires ncpus > 0
  {
    && tokens <= Burst(rate, ncpus)
    && grants <= span
    && (spent + tokens) * Denom(ncpus) <= Burst(rate, ncpus) * Denom(ncpus) + (span + grants) * rate
  }

  ghost predicate Bounded(s: (Bucket, Tally), cfg: Config, ncpus: nat)
    requires ncpus > 0
  {
    && s.1.start <= s.0.last
    && (cfg.ppsSet ==> DimBounded(s.0.pps, s.1.pkts, s.1.ppsGrants, s.0.last - s.1.start, cfg.pps, ncpus))
    && (cfg.bpsSet ==> DimBounded(s.0.bps, s.1.bytes, s.1.bpsGrants, s.0.last - s.1.start, cfg.bps, ncpus))
  }

  lemma DimRefillBounded(tokens: nat, spent: nat, grants: nat, span: nat, span': nat, rate: nat, elapsed: nat, ncpus: nat)
    requires ncpus > 0
    requires DimBounded(tokens, spent, grants, span, rate, ncpus)
    requires span + RefillDim(tokens, rate, Burst(rate, ncpus), elapsed, ncpus).1 <= span'
    ensures var r := RefillDim(tokens, rate, Burst(rate, ncpus), elapsed, ncpus);
            DimBounded(r.0, spent, grants + (if r.0 > tokens then 1 else 0), span', rate, ncpus)
  {
    var r := RefillDim(tokens, rate, Burst(rate, ncpus), elapsed, ncpus);
    var d := Denom(ncpus);
    if r.0 > tokens {
      GrantIsPaidFor(tokens, rate, Burst(rate, ncpus), elapsed, ncpus);
      assert (spent + r.0) * d == (spent + tokens) * d + (r.0 - tokens) * d;
      assert (span + grants) * rate + (r.1 + 1) * rate == (span + r.1 + (grants + 1)) * rate;
      MulLe(span + r.1 + (grants + 1), span' + (grants + 1), rate);
    } else {
      MulLe(span + grants, span' + grants, rate);
    }
  }

  lemma NextBounded(s: (Bucket, Tally), cfg: Config, p: Arrival, ncpus: nat)
    requires ncpus > 0 && s.0.version == cfg.version
    requires Bounded(s, cfg, ncpus)
    ensures Bounded(Next(s, cfg, p, ncpus), cfg, ncpus)
  {
    var b, t := s.0, s.1;
    var e := Elapsed(b, p.now);
    var b' := Refill(b, cfg, p.now, ncpus);
    var span, span' := b.last - t.start, b'.last - t.start;
    var t' := CountGrants(t, b, b');
    if p.now > b.last {
      if cfg.ppsSet {
        DimRefillBounded(b.pps, t.pkts, t.ppsGrants, span, span', cfg.pps, e, ncpus);
      }
      if cfg.bpsSet {
        DimRefillBounded(b.bps, t.bytes, t.bpsGrants, span, span', cfg.bps, e, ncpus);
      }
    }
    assert Bounded((b', t'), cfg, ncpus);
  }

  /** Main bound: after every run, each limited dimension has handed out no more than its burst
      plus the share of the time its clock has moved and one nanosecond per granting refill. */
  lemma {:induction false} RunIsBounded(cfg: Config, ncpus: nat, ps: seq<Arrival>)
    requires ncpus > 0 && ps != []
    ensures Bounded(Run(cfg, ncpus, ps), cfg, ncpus)
  {
    if |ps| > 1 {
      RunIsBounded(cfg, ncpus, ps[..|ps| - 1]);
      NextBounded(Run(cfg, ncpus, ps[..|ps| - 1]), cfg, ps[|ps| - 1], ncpus);
    }
  }

  ghost predicate Monotone(ps: seq<Arrival>)
  {
    forall i, j :: 0 <= i < j < |ps| ==> ps[i].now <= ps[j].now
  }

  /** The bucket clock never passes the clock of the packets. */
  lemma {:induction false} ClockNeverLeads(cfg: Config, ncpus: nat, ps: seq<Arrival>)
    requires ncpus > 0 && ps != [] && Monotone(ps)
    ensures var s := Run(cfg, ncpus, ps);
            s.1.start == ps[0].now <= s.0.last <= ps[|ps| - 1].now
  {
    if |ps| > 1 {
      ClockNeverLeads(cfg, ncpus, ps[..|ps| - 1]);
    }
  }

  /** In terms of the caller's clock: at most the burst plus twice the share earned since the reset. */
  lemma AdmittedWithinTwiceShare(cfg: Config, ncpus: nat, ps: seq<Arrival>)
    requires ncpus > 0 && ps != [] && Monotone(ps)
    ensures var t, age := Run(cfg, ncpus, ps).1, ps[|ps| - 1].now - ps[0].now;
            && (cfg.ppsSet ==> t.pkts * Denom(ncpus) <= Burst(cfg.pps, ncpus) * Denom(ncpus) + 2 * age * cfg.pps)
            && (cfg.bpsSet ==> t.bytes * Denom(ncpus) <= Burst(cfg.bps, ncpus) * Denom(ncpus) + 2 * age * cfg.bps)
  {
    hide Run;
    hide DimBounded;
    hide Denom;
    hide Burst;
    RunIsBounded(cfg, ncpus, ps);
    ClockNeverLeads(cfg, ncpus, ps);
    var s, age := Run(cfg, ncpus, ps), ps[|ps| - 1].now - ps[0].now;
    if cfg.ppsSet {
      DimTwiceShare(s.0.pps, s.1.pkts, s.1.ppsGrants, s.0.last - s.1.start, age, cfg.pps, ncpus);
    }
    if cfg.bpsSet {
      DimTwiceShare(s.0.bps, s.1.bytes, s.1.bpsGrants, s.0.last - s.1.start, age, cfg.bps, ncpus);
    }
  }

  lemma DimTwiceShare(tokens: nat, spent: nat, grants: nat, span: nat, age: nat, rate: nat, ncpus: nat)
    requires ncpus > 0 && span <= age
    requires DimBounded(tokens, spent, grants, span, rate, ncpus)
    ensures spent * Denom(ncpus) <= Burst(rate, ncpus) * Denom(ncpus) + 2 * age * rate
  {
    MulLe(span + grants, 2 * age, rate);
    MulLe(spent, spent + tokens, Denom(ncpus));
  }

  /** A packet rate below the CPU count admits at most one packet on a CPU, ever. */
  lemma {:induction false} SlowRateStarves(cfg: Config, ncpus: nat, ps: seq<Arrival>)
    requires ncpus > 0 && ps != []
    requires cfg.ppsSet && cfg.pps < ncpus
    ensures var s := Run(cfg, ncpus, ps); s.1.pkts + s.0.pps <= 1
  {
    DivAtMost(cfg.pps, ncpus, 0);
    if |ps| > 1 {
      SlowRateStarves(cfg, ncpus, ps[..|ps| - 1]);
      var b := Run(cfg, ncpus, ps[..|ps| - 1]).0;
      SlowDimensionNeverRefills(b.pps, cfg.pps, Burst(cfg.pps, ncpus), Elapsed(b, ps[|ps| - 1].now), ncpus);
    }
  }

  /** What a sequence of packets gets out of a bucket: packets and bytes admitted. */
  function Serve(b: Bucket, cfg: Config, ncpus: nat, ps: seq<Arrival>): (r: (Bucket, nat, nat))
    requires ncpus > 0
    decreases ps
  {
    if ps == [] then (b, 0, 0)
    else
      var a := Admit(Some(b), cfg, ps[0], ncpus);
      var rest := Serve(a.0, cfg, ncpus, ps[1..]);
      (rest.0, rest.1 + (if a.1 then 1 else 0), rest.2 + (if a.1 then ps[0].len else 0))
  }

  /** A whole second gives the dimension nothing. */
  predicate Stalled(rate: nat, ncpus: nat) { Wrap64(NSEC_PER_SEC * rate) < Denom(ncpus) }

  /** Every packet arrives a second or more after the bucket's clock. */
  ghost predicate Late(b: Bucket, ps: seq<Arrival>)
  {
    forall i :: 0 <= i < |ps| ==> b.last + NSEC_PER_SEC <= ps[i].now
  }

  lemma StalledDimension(tokens: nat, rate: nat, ncpus: nat)
    requires ncpus > 0 && Stalled(rate, ncpus)
    ensures RefillDim(tokens, rate, Burst(rate, ncpus), NSEC_PER_SEC, ncpus) == (tokens, 0)
  {
    if tokens < Burst(rate, ncpus) {
      RegainsIff(tokens, rate, ncpus);
    }
  }

  /** A bucket a second behind, each of whose set dimensions is stalled, keeps its clock for ever: every
      packet then meets the same cut-off second, and all the packets and bytes ever admitted come out of
      the tokens it holds. */
  lemma {:induction false} StalledBucketStarves(b: Bucket, cfg: Config, ncpus: nat, ps: seq<Arrival>)
    requires ncpus > 0 && b.version == cfg.version && Late(b, ps)
    requires (cfg.ppsSet ==> Stalled(cfg.pps, ncpus)) && (cfg.bpsSet ==> Stalled(cfg.bps, ncpus))
    ensures var r := Serve(b, cfg, ncpus, ps);
            && r.0.last == b.last
            && (cfg.ppsSet ==> r.1 + r.0.pps == b.pps)
            && (cfg.bpsSet ==> r.2 + r.0.bps == b.bps)
    decreases ps
  {
    hide RefillDim;
    hide Stalled;
    if ps != [] {
      if cfg.ppsSet {
        StalledDimension(b.pps, cfg.pps, ncpus);
      }
      if cfg.bpsSet {
        StalledDimension(b.bps, cfg.bps, ncpus);
      }
      assert b.last + NSEC_PER_SEC <= ps[0].now;
      assert Refill(b, cfg, ps[0].now, ncpus) == b;
      var a := Admit(Some(b), cfg, ps[0], ncpus);
      assert Late(a.0, ps[1..]);
      StalledBucketStarves(a.0, cfg, ncpus, ps[1..]);
    }
  }

  /** An empty packet bucket a second behind never admits anything again, whatever arrives, if and only if
      its rate is stalled. */
  lemma NeverAgainIff(b: Bucket, cfg: Config, ncpus: nat)
    requires ncpus > 0 && b.version == cfg.version && b.pps == 0 && cfg.ppsSet && !cfg.bpsSet
    ensures (forall ps :: Late(b, ps) ==> Serve(b, cfg, ncpus, ps).1 == 0) <==> Stalled(cfg.pps, ncpus)
  {
    if Stalled(cfg.pps, ncpus) {
      forall ps | Late(b, ps) ensures Serve(b, cfg, ncpus, ps).1 == 0 {
        StalledBucketStarves(b, cfg, ncpus, ps);
      }
    } else {
      var p := Arrival(b.last + NSEC_PER_SEC, 0);
      assert Late(b, [p]);
      assert cfg.pps > 0 && Burst(cfg.pps, ncpus) > 0;
      RegainsIff(0, cfg.pps, ncpus);
      assert Admit(Some(b), cfg, p, ncpus).1;
      assert Serve(b, cfg, ncpus, [p]).1 >= 1;
    }
  }

  /** An idle second restores the packet burst of every bucket if and only if the rate is zero, or reaches
      one token per second and CPU without wrapping the product. */
  lemma IdleSecondReadmits(cfg: Config, ncpus: nat)
    requires 0 < ncpus <= NCPUS_MAX && cfg.ppsSet
    ensures (forall b: Bucket, now: nat :: b.version == cfg.version && b.last + NSEC_PER_SEC <= now ==>
               Charged(Some(b), cfg, now, ncpus).pps >= Burst(cfg.pps, ncpus))
            <==> cfg.pps == 0 || ncpus <= cfg.pps <= RATE_EXACT_MAX
  {
    var burst := Burst(cfg.pps, ncpus);
    if cfg.pps == 0 {
    } else if ncpus <= cfg.pps <= RATE_EXACT_MAX {
      FullAfterOneSecondIff(cfg.pps, ncpus);
      hide RefillDim;
      forall b: Bucket, now: nat | b.version == cfg.version && b.last + NSEC_PER_SEC <= now
        ensures Charged(Some(b), cfg, now, ncpus).pps >= burst
      {
        assert RefillDim(b.pps, cfg.pps, burst, NSEC_PER_SEC, ncpus).0 >= b.pps;
      }
    } else {
      FullAfterOneSecondIff(cfg.pps, ncpus);
      var tokens: nat :| tokens < burst && RefillDim(tokens, cfg.pps, burst, NSEC_PER_SEC, ncpus).0 != burst;
      hide RefillDim;
      var b := Bucket(cfg.version, 0, tokens, 0);
      assert Charged(Some(b), cfg, NSEC_PER_SEC, ncpus).pps < burst;
    }
  }

  /** The same for bytes: an idle second restores the byte burst of every bucket exactly for these rates. */
  lemma IdleSecondRestoresBytes(cfg: Config, ncpus: nat)
    requires 0 < ncpus <= NCPUS_MAX && cfg.bpsSet
    ensures (forall b: Bucket, now: nat :: b.version == cfg.version && b.last + NSEC_PER_SEC <= now ==>
               Charged(Some(b), cfg, now, ncpus).bps >= Burst(cfg.bps, ncpus))
            <==> cfg.bps == 0 || ncpus <= cfg.bps <= RATE_EXACT_MAX
  {
    var burst := Burst(cfg.bps, ncpus);
    if cfg.bps == 0 {
    } else if ncpus <= cfg.bps <= RATE_EXACT_MAX {
      FullAfterOneSecondIff(cfg.bps, ncpus);
      hide RefillDim;
      forall b: Bucket, now: nat | b.version == cfg.version && b.last + NSEC_PER_SEC <= now
        ensures Charged(Some(b), cfg, now, ncpus).bps >= burst
      {
        assert RefillDim(b.bps, cfg.bps, burst, NSEC_PER_SEC, ncpus).0 >= b.bps;
      }
    } else {
      FullAfterOneSecondIff(cfg.bps, ncpus);
      var tokens: nat :| tokens < burst && RefillDim(tokens, cfg.bps, burst, NSEC_PER_SEC, ncpus).0 != burst;
      hide RefillDim;
      var b := Bucket(cfg.version, 0, 0, tokens);
      assert Charged(Some(b), cfg, NSEC_PER_SEC, ncpus).bps < burst;
    }
  }

  // ----- The bucket on unbounded integers -----

  /** The burst is one second of one CPU's share, rounded down, but a positive rate has at least one. */
  lemma BurstIsASecond(rate: nat, ncpus: nat)
    requires ncpus > 0
    ensures var burst := Burst(rate, ncpus);
            && (rate == 0 <==> burst == 0)
            && (0 < rate < ncpus ==> burst == 1)
            && (rate >= ncpus ==> burst * ncpus <= rate < (burst + 1) * ncpus)
  {
    DivBounds(rate, ncpus);
    if rate >= ncpus {
      DivAtLeast(rate, ncpus, 1);
    } else {
      DivAtMost(rate, ncpus, 0);
    }
  }

  /** What one dimension holds when a packet is charged: unset dimensions are left alone. */
  function IdealLevel(on: bool, tokens: nat, rate: nat, b: Bucket, now: nat, ncpus: nat): nat
    requires ncpus > 0
  {
    if !on || now <= b.last then tokens
    else IdealTokens(tokens, rate, Burst(rate, ncpus), Min(now - b.last, NSEC_PER_SEC), ncpus)
  }

  /** The time a gain is worth: rounded down, at least one nanosecond. */
  function Cost(gain: nat, rate: nat, ncpus: nat): nat
    requires gain > 0 ==> rate > 0
  {
    if gain == 0 then 0 else Max(1, gain * Denom(ncpus) / rate)
  }

  ghost predicate ExactRates(cfg: Config)
  {
    (cfg.ppsSet ==> cfg.pps <= RATE_EXACT_MAX) && (cfg.bpsSet ==> cfg.bps <= RATE_EXACT_MAX)
  }

  lemma DimIsIdeal(tokens: nat, rate: nat, elapsed: nat, ncpus: nat)
    requires 0 < ncpus <= NCPUS_MAX && rate <= RATE_EXACT_MAX && elapsed <= NSEC_PER_SEC
    ensures var r := RefillDim(tokens, rate, Burst(rate, ncpus), elapsed, ncpus);
            && r.0 == IdealTokens(tokens, rate, Burst(rate, ncpus), elapsed, ncpus)
            && (r.0 > tokens ==> rate > 0) && r.1 == Cost(r.0 - tokens, rate, ncpus)
  {
    RefillExactIff(rate, ncpus);
    var r := RefillDim(tokens, rate, Burst(rate, ncpus), elapsed, ncpus);
    if r.0 > tokens {
      GrantCost(tokens, rate, Burst(rate, ncpus), elapsed, ncpus);
    }
  }

  /** Both dimensions of a current bucket are brought up to what the elapsed time is worth, at every
      elapsed time, and the clock moves by the dearer gain. */
  lemma RefillIsIdeal(b: Bucket, cfg: Config, now: nat, ncpus: nat)
    requires 0 < ncpus <= NCPUS_MAX && ExactRates(cfg)
    ensures var c := Refill(b, cfg, now, ncpus);
            var p, q := IdealLevel(cfg.ppsSet, b.pps, cfg.pps, b, now, ncpus), IdealLevel(cfg.bpsSet, b.bps, cfg.bps, b, now, ncpus);
            && c.version == b.version && c.pps == p >= b.pps && c.bps == q >= b.bps
            && (p > b.pps ==> cfg.pps > 0) && (q > b.bps ==> cfg.bps > 0)
            && c.last == b.last + Max(Cost(p - b.pps, cfg.pps, ncpus), Cost(q - b.bps, cfg.bps, ncpus))
  {
    if now > b.last {
      if cfg.ppsSet {
        DimIsIdeal(b.pps, cfg.pps, Elapsed(b, now), ncpus);
      }
      if cfg.bpsSet {
        DimIsIdeal(b.bps, cfg.bps, Elapsed(b, now), ncpus);
      }
      hide RefillDim;
      hide IdealTokens;
      hide Denom;
    }
  }

  /** Main theorem on one packet: at exact rates the 64-bit bucket is the bucket on unbounded integers. It
      admits exactly when every set dimension holds enough, and takes one packet and the packet's bytes
      from the set dimensions, or nothing. */
  lemma AdmitIsIdeal(row: Option<Bucket>, cfg: Config, x: Arrival, ncpus: nat)
    requires 0 < ncpus <= NCPUS_MAX && ExactRates(cfg)
    ensures var a := Admit(row, cfg, x, ncpus);
            var kept := row.Some? && row.value.version == cfg.version;
            var p := if kept then IdealLevel(cfg.ppsSet, row.value.pps, cfg.pps, row.value, x.now, ncpus) else Burst(cfg.pps, ncpus);
            var q := if kept then IdealLevel(cfg.bpsSet, row.value.bps, cfg.bps, row.value, x.now, ncpus) else Burst(cfg.bps, ncpus);
            && (a.1 <==> (cfg.ppsSet ==> p >= 1) && (cfg.bpsSet ==> q >= x.len))
            && a.0.version == cfg.version
            && a.0.pps == (if a.1 && cfg.ppsSet then p - 1 else p)
            && a.0.bps == (if a.1 && cfg.bpsSet then q - x.len else q)
            && (!kept ==> a.0.last == x.now)
  {
    if row.Some? && row.value.version == cfg.version {
      RefillIsIdeal(row.value, cfg, x.now, ncpus);
    }
    hide Refill;
    hide IdealLevel;
    hide Burst;
  }
}
