/** The global deny list: the plain CIDR list of a snapshot, the bloom filter and trie built from it
    (data-plane/tools/xdpgw-apply.c), and the two-step lookup of the packet path
    (data-plane/src/blacklist.h). */
module DenyList {
  import opened Wrappers
  import opened Arith
  import opened Ipv4
  import opened Snapshot
  import opened Bpf

  const BLOOM_PREFIX: nat := 24
  const EXPAND_FLOOR: nat := 16
  const BLOOM_MAX: nat := 2 * 1024 * 1024

  // ----- Planning the bloom filter -----

  function Buckets(e: Cidr): (n: nat)
    ensures n > 0
  {
    if e.len < BLOOM_PREFIX then Pow2(BLOOM_PREFIX - e.len) else 1
  }

  datatype Plan = Plan(broad: bool, fill: nat)

  function PlanEntry(p: Plan, e: Cidr): Plan
  {
    if e.len < EXPAND_FLOOR || p.fill + Buckets(e) > BLOOM_MAX then p.(broad := true)
    else p.(fill := p.fill + Buckets(e))
  }

  function PlanAll(es: seq<Cidr>): Plan
  {
    if es == [] then Plan(false, 0) else PlanEntry(PlanAll(es[..|es| - 1]), es[|es| - 1])
  }

  function FlagsFor(es: seq<Cidr>): DenyFlags
  {
    DenyFlags(es != [], PlanAll(es).broad)
  }

  lemma BucketsBounded(e: Cidr)
    requires e.len >= EXPAND_FLOOR
    ensures Buckets(e) <= 256
  {
    Pow2Values();
    if e.len < BLOOM_PREFIX {
      Pow2Mono(BLOOM_PREFIX - e.len, 8);
    }
  }

  /** global_bloom_plan: re-checks the list, then decides between the filter and the trie-only path. */
  method GlobalBloomPlan(es: seq<Cidr>) returns (r: Option<(DenyFlags, nat)>)
    ensures r.Some? <==> |es| <= MAX_GLOBAL_ENTRIES && EntriesOk(es)
    ensures r.Some? ==> r.value == (FlagsFor(es), if PlanAll(es).broad then 0 else PlanAll(es).fill)
    ensures r.Some? ==> r.value.1 <= BLOOM_MAX
  {
    if |es| > MAX_GLOBAL_ENTRIES { return None; }
    var fill: nat, broad := 0, false;
    for i := 0 to |es|
      invariant EntriesOk(es[..i])
      invariant Plan(broad, fill) == PlanAll(es[..i]) && fill <= BLOOM_MAX
    {
      var e := es[i];
      assert es[..i + 1][..i] == es[..i] && es[..i + 1][i] == e;
      if !Canonical(e) || (i > 0 && !Before(es[i - 1], e)) {
        assert !EntriesOk(es);
        return None;
      }
      if e.len < EXPAND_FLOOR {
        broad := true;
      } else {
        BucketsBounded(e);
        var buckets := if e.len < BLOOM_PREFIX then Pow2(BLOOM_PREFIX - e.len) else 1;
        if fill > BLOOM_MAX - buckets { broad := true; } else { fill := fill + buckets; }
      }
    }
    assert es[..|es|] == es;
    r := Some((DenyFlags(|es| > 0, broad), if broad then 0 else fill));
  }

  /** How many keys the entries that can be expanded need. */
  function Demand(es: seq<Cidr>): nat
  {
    if es == [] then 0 else Demand(es[..|es| - 1]) + if es[|es| - 1].len < EXPAND_FLOOR then 0 else Buckets(es[|es| - 1])
  }

  ghost predicate HasShort(es: seq<Cidr>) { exists i :: 0 <= i < |es| && es[i].len < EXPAND_FLOOR }

  /** The filter is given up exactly when an entry is too short to expand or the keys of all the others do
      not fit; otherwise every one of them is planned. */
  lemma {:induction false} EscapeIff(es: seq<Cidr>)
    ensures FlagsFor(es).active <==> es != []
    ensures FlagsFor(es).broad <==> HasShort(es) || Demand(es) > BLOOM_MAX
    ensures Demand(es) <= BLOOM_MAX ==> PlanAll(es).fill == Demand(es)
    ensures PlanAll(es).fill <= Demand(es)
  {
    hide Buckets;
    if es != [] {
      var rest, e := es[..|es| - 1], es[|es| - 1];
      EscapeIff(rest);
      assert HasShort(es) <==> HasShort(rest) || e.len < EXPAND_FLOOR by {
        if i :| 0 <= i < |es| && es[i].len < EXPAND_FLOOR {
          assert i < |rest| ==> rest[i] == es[i];
        }
        if i :| 0 <= i < |rest| && rest[i].len < EXPAND_FLOOR {
          assert es[i] == rest[i];
        }
        assert es[|es| - 1] == e;
      }
    }
  }

  // ----- Building the filter and the trie -----

  /** global_bloom_insert: one key per covered /24. */
  function BloomPuts(e: Cidr): (ps: seq<Put>)
    ensures e.len >= EXPAND_FLOOR ==> |ps| == Buckets(e)
    ensures forall p :: p in ps ==> p.outer == GblBloomMap && p.val == Present
  {
    if e.len < EXPAND_FLOOR then []
    else seq(Buckets(e), (i: nat) => Put(GblBloomMap, Bloom(0, Mask(e.addr, BLOOM_PREFIX) + i * 256), Present))
  }

  function EntryPuts(e: Cidr, broad: bool): seq<Put>
  {
    [Put(GblLpmMap, Lpm(0, e), Present)] + if broad then [] else BloomPuts(e)
  }

  function GlobalPuts(es: seq<Cidr>, broad: bool): seq<Put>
  {
    if es == [] then [] else EntryPuts(es[0], broad) + GlobalPuts(es[1..], broad)
  }

  /** An entry of 16 to 23 bits is exactly its /24 blocks. */
  lemma ExpandedRange(e: Cidr, src: nat)
    requires Canonical(e) && EXPAND_FLOOR <= e.len < BLOOM_PREFIX && Contains(e, src)
    ensures e.addr / 256 <= src / 256 < e.addr / 256 + Buckets(e)
  {
    ContainsIffInRange(e, src);
    Pow2Values();
    Pow2Add(8, BLOOM_PREFIX - e.len);
    var q, b := e.addr / Span(e.len), Buckets(e);
    assert Span(e.len) == 256 * b;
    assert e.addr == (q * b) * 256 by {
      DivBounds(e.addr, Span(e.len));
      assert e.addr == q * Span(e.len) + e.addr % Span(e.len);
      MulAssoc(q, b, 256);
    }
    assert src < e.addr + 256 * b;
  }

  /** A covered address falls into one of the keys of a long enough entry. */
  lemma CoveredAddressHasKey(e: Cidr, src: nat)
    requires Canonical(e) && EXPAND_FLOOR <= e.len && Contains(e, src)
    ensures Put(GblBloomMap, Bloom(0, Mask(src, BLOOM_PREFIX)), Present) in BloomPuts(e)
  {
    Pow2Values();
    var j := 0;
    if e.len >= BLOOM_PREFIX {
      LongerPrefixAgrees(src, e.addr, e.len, BLOOM_PREFIX);
    } else {
      ExpandedRange(e, src);
      j := src / 256 - e.addr / 256;
    }
    assert BloomPuts(e)[j] == Put(GblBloomMap, Bloom(0, Mask(src, BLOOM_PREFIX)), Present);
  }

  lemma {:induction false} GlobalPutsMember(es: seq<Cidr>, broad: bool, p: Put)
    ensures p in GlobalPuts(es, broad) <==> exists i :: 0 <= i < |es| && p in EntryPuts(es[i], broad)
  {
    hide EntryPuts;
    if es != [] {
      GlobalPutsMember(es[1..], broad, p);
      if p in GlobalPuts(es[1..], broad) {
        var i :| 0 <= i < |es[1..]| && p in EntryPuts(es[1..][i], broad);
        assert p in EntryPuts(es[i + 1], broad);
      }
      if i :| 0 <= i < |es| && p in EntryPuts(es[i], broad) && i > 0 {
        assert es[1..][i - 1] == es[i];
      }
    }
  }

  /** The trie built from a list holds exactly its entries. */
  lemma TrieHoldsEntries(es: seq<Cidr>, broad: bool, c: Cidr)
    ensures Lpm(0, c) in Contents(GlobalPuts(es, broad), GblLpmMap) <==> c in es
  {
    var ps := GlobalPuts(es, broad);
    ContentsMember(ps, GblLpmMap, Lpm(0, c));
    GlobalPutsMember(es, broad, Put(GblLpmMap, Lpm(0, c), Present));
    if c in es {
      var i :| 0 <= i < |es| && es[i] == c;
      assert EntryPuts(es[i], broad)[0] == Put(GblLpmMap, Lpm(0, c), Present);
    }
    if p :| p in ps && p.outer == GblLpmMap && p.key == Lpm(0, c) {
      GlobalPutsMember(es, broad, p);
    }
  }

  // ----- The lookup of the packet path -----

  /** deny_filter_stage, global part: `fp` is the filter's answer for a key that was never inserted. */
  predicate DenyHit(flags: DenyFlags, bloom: Inner, trie: Inner, src: nat, fp: bool)
  {
    && flags.active
    && (flags.broad || Bloom(0, Mask(src, BLOOM_PREFIX)) in bloom || fp)
    && LpmLookup(trie, 0, src, 32).Some?
  }

  /** Without the escape flag, every entry is long enough to have filter keys. */
  lemma {:induction false} NarrowPlan(es: seq<Cidr>)
    requires !PlanAll(es).broad
    ensures forall i :: 0 <= i < |es| ==> es[i].len >= EXPAND_FLOOR
  {
    if es != [] {
      var rest := es[..|es| - 1];
      NarrowPlan(rest);
      forall i | 0 <= i < |es| ensures es[i].len >= EXPAND_FLOOR {
        if i < |es| - 1 {
          assert es[i] == rest[i];
        }
      }
    }
  }

  /** Main theorem: for every accepted list, source address and filter behaviour, the filter-then-trie
      check drops exactly the addresses some entry contains. */
  lemma FastPathIsTheList(es: seq<Cidr>, src: nat, fp: bool)
    requires EntriesOk(es) && src < ADDR_SPACE
    ensures var flags := FlagsFor(es);
            var ps := GlobalPuts(es, flags.broad);
            DenyHit(flags, Contents(ps, GblBloomMap), Contents(ps, GblLpmMap), src, fp) <==> Listed(es, src)
  {
    var flags := FlagsFor(es);
    var ps := GlobalPuts(es, flags.broad);
    var bloom, trie := Contents(ps, GblBloomMap), Contents(ps, GblLpmMap);
    LpmMissIff(trie, 0, src, 32);
    if LpmLookup(trie, 0, src, 32).Some? {
      var c :| Matches(trie, 0, c, src) && c.len <= 32;
      TrieHoldsEntries(es, flags.broad, c);
    }
    if Listed(es, src) {
      var i :| 0 <= i < |es| && Contains(es[i], src);
      TrieHoldsEntries(es, flags.broad, es[i]);
      assert Matches(trie, 0, es[i], src);
      if !flags.broad {
        NarrowPlan(es);
        CoveredAddressHasKey(es[i], src);
        var p := Put(GblBloomMap, Bloom(0, Mask(src, BLOOM_PREFIX)), Present);
        GlobalPutsMember(es, flags.broad, p);
        ContentsMember(ps, GblBloomMap, p.key);
      }
    }
  }

  // ----- Capacity -----

  function BloomInserts(ps: seq<Put>): nat
  {
    if ps == [] then 0 else (if ps[0].outer == GblBloomMap then 1 else 0) + BloomInserts(ps[1..])
  }

  lemma {:induction false} BloomInsertsConcat(a: seq<Put>, b: seq<Put>)
    ensures BloomInserts(a + b) == BloomInserts(a) + BloomInserts(b)
  {
    if a == [] {
      assert a + b == b;
    } else {
      assert (a + b)[1..] == a[1..] + b;
      BloomInsertsConcat(a[1..], b);
    }
  }

  lemma {:induction false} BloomInsertsAll(ps: seq<Put>)
    requires forall p :: p in ps ==> p.outer == GblBloomMap
    ensures BloomInserts(ps) == |ps|
  {
    if ps != [] {
      BloomInsertsAll(ps[1..]);
    }
  }

  lemma {:induction false} GlobalPutsSnoc(es: seq<Cidr>, e: Cidr, broad: bool)
    ensures GlobalPuts(es + [e], broad) == GlobalPuts(es, broad) + EntryPuts(e, broad)
  {
    hide EntryPuts;
    if es == [] {
      assert GlobalPuts([e], broad) == EntryPuts(e, broad) + GlobalPuts([], broad);
    } else {
      assert (es + [e])[1..] == es[1..] + [e];
      GlobalPutsSnoc(es[1..], e, broad);
    }
  }

  /** The filter receives exactly the planned number of keys, never more than its capacity. */
  lemma {:induction false} FilterNeverOverfilled(es: seq<Cidr>)
    ensures PlanAll(es).fill <= BLOOM_MAX
    ensures !PlanAll(es).broad ==> BloomInserts(GlobalPuts(es, false)) == PlanAll(es).fill
  {
    if es != [] {
      var rest, e := es[..|es| - 1], es[|es| - 1];
      FilterNeverOverfilled(rest);
      assert es == rest + [e];
      GlobalPutsSnoc(rest, e, false);
      BloomInsertsConcat(GlobalPuts(rest, false), EntryPuts(e, false));
      BloomInsertsConcat([Put(GblLpmMap, Lpm(0, e), Present)], BloomPuts(e));
      BloomInsertsAll(BloomPuts(e));
    }
  }
}
