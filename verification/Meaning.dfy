/** Compilation preserves meaning: a packet that meets the maps built from a set of records is treated
    as the records say. */
module Meaning {
  import opened Wrappers
  import opened Arith
  import opened Ipv4
  import opened Snapshot
  import opened Bpf
  import opened DenyList
  import opened BlockedPorts
  import opened ApplyPlan
  import opened ApplyEffect
  import opened Pipeline
  import opened Policy

  // ----- Rules -----

  ghost predicate Ascends(rs: seq<AllowRule>)
  {
    forall i, j :: 0 <= i < j < |rs| ==> rs[i].priority <= rs[j].priority
  }

  lemma {:induction false} InsertAscends(r: AllowRule, rs: seq<AllowRule>)
    requires Ascends(rs)
    ensures var out := InsertRule(r, rs);
            Ascends(out) && |out| == |rs| + 1 && forall x :: x in out <==> x == r || x in rs
    decreases rs
  {
    if rs != [] && rs[0].priority < r.priority {
      InsertAscends(r, rs[1..]);
      var out := InsertRule(r, rs[1..]);
      forall j | 0 <= j < |out| ensures rs[0].priority <= out[j].priority {
        assert out[j] in out;
      }
      assert rs == [rs[0]] + rs[1..];
    }
  }

  lemma {:induction false} ByPriorityAscends(rs: seq<AllowRule>)
    ensures var out := ByPriority(rs);
            Ascends(out) && |out| == |rs| && forall x :: x in out <==> x in rs
  {
    if rs != [] {
      ByPriorityAscends(rs[1..]);
      InsertAscends(rs[0], ByPriority(rs[1..]));
    }
  }

  lemma RuleKeepsMeaning(r: AllowRule, p: Packet)
    requires PacketOk(p)
    ensures RuleMatches(CompileRule(r), p) <==> Allows(r, p)
  {
  }

  /** The first compiled rule that matches is the allowing rule of least priority number. */
  lemma FirstIsBest(rules: seq<AllowRule>, p: Packet)
    requires PacketOk(p)
    requires forall x, y :: x in rules && y in rules && x != y ==> x.priority != y.priority
    ensures var sorted := ByPriority(rules);
            var hit, best := FirstMatch(CompileRules(sorted), p), Best(rules, p);
            && |sorted| == |rules| && (hit.Some? <==> best.Some?)
            && (hit.Some? ==> hit.value < |sorted| && sorted[hit.value] == best.value)
  {
    hide Allows;
    hide RuleMatches;
    hide FirstMatch;
    hide Best;
    hide ByPriority;
    ByPriorityAscends(rules);
    var sorted := ByPriority(rules);
    var compiled := CompileRules(sorted);
    var hit, best := FirstMatch(compiled, p), Best(rules, p);
    forall i | 0 <= i < |sorted| ensures RuleMatches(compiled[i], p) <==> Allows(sorted[i], p) {
      RuleKeepsMeaning(sorted[i], p);
    }
    if best.Some? {
      assert best.value in sorted;
      var k :| 0 <= k < |sorted| && sorted[k] == best.value;
      assert RuleMatches(compiled[k], p);
      assert hit.value <= k;
      var x := sorted[hit.value];
      assert x in rules && Allows(x, p);
      assert x.priority <= sorted[k].priority;
    }
  }

  // ----- Contents of the service maps -----

  lemma {:induction false} WlPutsMember(dp: nat, wl: seq<Cidr>, p: Put)
    requires WlOk(wl)
    ensures p in WlPuts(dp, wl) <==> exists c :: c in wl && p in WlEntryPuts(dp, c)
    decreases wl
  {
    hide WlEntryPuts;
    if wl != [] {
      assert forall c :: c in wl[1..] ==> c in wl;
      WlPutsMember(dp, wl[1..], p);
      assert wl == [wl[0]] + wl[1..];
      assert p in WlPuts(dp, wl) <==> p in WlEntryPuts(dp, wl[0]) || p in WlPuts(dp, wl[1..]);
    }
  }

  lemma {:induction false} NodePutsMember(ss: seq<Service>, n: Knobs, p: Put)
    requires KnobsOk(n) && NodeOk(ss)
    ensures p in NodePuts(ss, n) <==> exists s :: s in ss && p in ServicePuts(s, n)
    decreases ss
  {
    hide ServicePuts;
    hide ServiceOk;
    if ss != [] {
      assert forall s :: s in ss[1..] ==> s in ss;
      NodePutsMember(ss[1..], n, p);
      assert ss == [ss[0]] + ss[1..];
      assert p in NodePuts(ss, n) <==> p in ServicePuts(ss[0], n) || p in NodePuts(ss[1..], n);
    }
  }

  /** The one put per outer map that is keyed by the service itself. */
  ghost predicate OwnPut(s: Service, n: Knobs, p: Put)
    requires KnobsOk(n)
  {
    match p.outer
    case ServiceMap => p == Put(ServiceMap, Lpm(0, Canon(s.dst)), ServiceEntry(s))
    case RuleBlockMap => p == Put(RuleBlockMap, Id(s.dpId), RuleEntry(s))
    case VipMap => WlActive(s.wlFlags) && p == Put(VipMap, Id(s.dpId), VipEntry(s))
    case SvcRlMap => p == Put(SvcRlMap, Id(s.dpId), SvcRlEntry(s))
    case FairMap => p == Put(FairMap, Id(s.dpId), FairEntry(s, n))
    case _ => false
  }

  lemma ServicePutsMember(s: Service, n: Knobs, p: Put)
    requires KnobsOk(n) && ServiceOk(s)
    ensures p in ServicePuts(s, n) <==> OwnPut(s, n, p) || p in WlPuts(s.dpId, s.wl)
  {
    hide WlPuts;
    hide FairEntry;
    hide Canon;
    WlPutsOuters(s.dpId, s.wl);
    var head := [Put(ServiceMap, Lpm(0, Canon(s.dst)), ServiceEntry(s)), Put(RuleBlockMap, Id(s.dpId), RuleEntry(s))];
    var rates := RatePuts(s, n);
    assert ServicePuts(s, n) == head + (WlPuts(s.dpId, s.wl) + rates);
    assert p in head <==> p == head[0] || p == head[1];
    var vip := if WlActive(s.wlFlags) then [Put(VipMap, Id(s.dpId), VipEntry(s))] else [];
    var tail := [Put(SvcRlMap, Id(s.dpId), SvcRlEntry(s)), Put(FairMap, Id(s.dpId), FairEntry(s, n))];
    assert rates == vip + tail;
    assert p in tail <==> p == tail[0] || p == tail[1];
  }

  /** No two services share a destination block or an id. */
  ghost predicate Distinct(ss: seq<Service>)
  {
    forall s, t :: s in ss && t in ss && s != t ==> s.dpId != t.dpId && Canon(s.dst) != Canon(t.dst)
  }

  /** Each service's own entry survives: no other service overwrites it. */
  lemma OwnEntryStored(ss: seq<Service>, n: Knobs, s: Service, p: Put)
    requires KnobsOk(n) && NodeOk(ss) && Distinct(ss) && s in ss && OwnPut(s, n, p)
    ensures var m := Contents(NodePuts(ss, n), p.outer);
            p.key in m && m[p.key] == p.val
  {
    hide Contents;
    hide NodePuts;
    hide ServicePuts;
    hide WlPuts;
    hide FairEntry;
    hide Canon;
    hide ServiceOk;
    var ps := NodePuts(ss, n);
    NodePutsMember(ss, n, p);
    ServicePutsMember(s, n, p);
    forall q | q in ps && q.outer == p.outer && q.key == p.key ensures q.val == p.val {
      OnlyOwnPut(ss, n, s, p, q);
    }
    ContentsValue(ps, p.outer, p.key, p.val);
  }

  lemma OnlyOwnPut(ss: seq<Service>, n: Knobs, s: Service, p: Put, q: Put)
    requires KnobsOk(n) && NodeOk(ss) && Distinct(ss) && s in ss && OwnPut(s, n, p)
    requires q in NodePuts(ss, n) && q.outer == p.outer && q.key == p.key
    ensures q == p
  {
    hide NodePuts;
    hide ServicePuts;
    hide WlPuts;
    hide FairEntry;
    hide Canon;
    hide ServiceOk;
    NodePutsMember(ss, n, q);
    var t :| t in ss && q in ServicePuts(t, n);
    ServicePutsMember(t, n, q);
    WlPutsOuters(t.dpId, t.wl);
    assert t == s;
  }

  /** The service whose own entry a put into an own-entry map is. */
  lemma WriterOf(ss: seq<Service>, n: Knobs, p: Put) returns (s: Service)
    requires KnobsOk(n) && NodeOk(ss) && p in NodePuts(ss, n) && p.outer != WlBloomMap && p.outer != WlLpmMap
    ensures s in ss && OwnPut(s, n, p)
  {
    hide NodePuts;
    hide ServicePuts;
    hide WlPuts;
    hide OwnPut;
    hide ServiceOk;
    NodePutsMember(ss, n, p);
    s :| s in ss && p in ServicePuts(s, n);
    ServicePutsMember(s, n, p);
    WlPutsOuters(s.dpId, s.wl);
  }

  /** An own-entry map holds nothing but own entries. */
  lemma StoredIsOwn(ss: seq<Service>, n: Knobs, o: Outer, key: Key)
    requires KnobsOk(n) && NodeOk(ss)
    requires o != WlBloomMap && o != WlLpmMap
    ensures key in Contents(NodePuts(ss, n), o) ==>
              exists s, p :: s in ss && OwnPut(s, n, p) && p.outer == o && p.key == key
  {
    hide Contents;
    hide NodePuts;
    hide OwnPut;
    hide NodeOk;
    if key in Contents(NodePuts(ss, n), o) {
      var p := ContentsFrom(NodePuts(ss, n), o, key);
      var s := WriterOf(ss, n, p);
      assert s in ss && OwnPut(s, n, p);
    }
  }

  // ----- Whitelist scope -----

  /** Which keys one service's whitelist puts into which map. */
  ghost predicate WlKey(o: Outer, c: Cidr, key: Key, dp: nat)
  {
    || (o == WlLpmMap && key == Lpm(dp, Canon(c)))
    || (o == WlBloomMap && c.len >= WL_BLOOM_PREFIX && key == Bloom(dp, Mask(c.addr, WL_BLOOM_PREFIX)))
  }

  lemma WlEntryKeys(dp: nat, c: Cidr, o: Outer, key: Key)
    ensures (exists p :: p in WlEntryPuts(dp, c) && p.outer == o && p.key == key) <==> WlKey(o, c, key, dp)
  {
    hide Canon;
    hide Mask;
    var trie := Put(WlLpmMap, Lpm(dp, Canon(c)), Present);
    var filter := Put(WlBloomMap, Bloom(dp, Mask(c.addr, WL_BLOOM_PREFIX)), Present);
    var ps := WlEntryPuts(dp, c);
    if c.len >= WL_BLOOM_PREFIX {
      assert ps == [filter, trie];
      assert ps[0] == filter && ps[1] == trie;
    } else {
      assert ps == [trie];
      assert ps[0] == trie;
    }
  }

  /** A key of a service's namespace is present exactly when that service's own list put it there. */
  lemma WlStored(ss: seq<Service>, n: Knobs, s: Service, o: Outer, key: Key)
    requires KnobsOk(n) && NodeOk(ss) && Distinct(ss) && s in ss
    requires (key.Lpm? || key.Bloom?) && key.ns == s.dpId && (o == WlLpmMap || o == WlBloomMap)
    ensures key in Contents(NodePuts(ss, n), o) <==> exists c :: c in s.wl && WlKey(o, c, key, s.dpId)
  {
    hide Contents;
    hide NodePuts;
    hide ServicePuts;
    hide WlPuts;
    hide WlEntryPuts;
    hide FairEntry;
    hide Canon;
    hide Mask;
    var ps := NodePuts(ss, n);
    ContentsMember(ps, o, key);
    if key in Contents(ps, o) {
      var p :| p in ps && p.outer == o && p.key == key;
      NodePutsMember(ss, n, p);
      var t :| t in ss && p in ServicePuts(t, n);
      ServicePutsMember(t, n, p);
      WlPutsMember(t.dpId, t.wl, p);
      var c :| c in t.wl && p in WlEntryPuts(t.dpId, c);
      WlEntryKeys(t.dpId, c, o, key);
      assert WlKey(o, c, key, t.dpId);
      assert t == s;
    }
    if c :| c in s.wl && WlKey(o, c, key, s.dpId) {
      WlEntryKeys(s.dpId, c, o, key);
      var p :| p in WlEntryPuts(s.dpId, c) && p.outer == o && p.key == key;
      WlPutsMember(s.dpId, s.wl, p);
      ServicePutsMember(s, n, p);
      NodePutsMember(ss, n, p);
    }
  }

  lemma CanonTwice(c: Cidr)
    requires Valid(c)
    ensures Canon(Canon(c)) == Canon(c)
  {
    CanonFacts(c);
    MatchIsMask(Canon(c), Canon(c).addr);
  }

  /** The slot holds the maps of an accepted service snapshot. */
  ghost predicate ShowsServices(v: SlotView, ss: seq<Service>, n: Knobs)
    requires KnobsOk(n)
  {
    NodeOk(ss) && Total(v) && forall o: Outer :: IsService(o) ==> v.inner[o] == Contents(NodePuts(ss, n), o)
  }

  ghost predicate ShowsDeny(v: SlotView, es: seq<Cidr>)
  {
    && Total(v) && v.flags == FlagsFor(es)
    && forall o: Outer :: IsGlobal(o) ==> v.inner[o] == Contents(GlobalPuts(es, FlagsFor(es).broad), o)
  }

  ghost predicate ShowsPorts(v: SlotView, blocked: set<nat>)
  {
    Total(v) && forall port: nat :: port < 65536 ==> PortBlocked(v.inner[PortsMap], port) == Some(port in blocked)
  }

  lemma TrieFindsList(m: Inner, dp: nat, wl: seq<Cidr>, src: nat)
    requires src < ADDR_SPACE && forall c :: c in wl ==> Canonical(c)
    requires forall c: Cidr :: Lpm(dp, c) in m <==> c in wl
    ensures LpmLookup(m, dp, src, 32).Some? <==> Listed(wl, src)
  {
    LpmMissIff(m, dp, src, 32);
    if LpmLookup(m, dp, src, 32).Some? {
      var c :| Matches(m, dp, c, src) && c.len <= 32;
      assert c in wl;
    }
    if i :| 0 <= i < |wl| && Contains(wl[i], src) {
      assert wl[i] in wl;
      assert Matches(m, dp, wl[i], src);
    }
  }

  /** For every source and filter behaviour, the whitelist check accepts exactly the sources on this
      service's own list. */
  lemma WhitelistIsOwnList(v: SlotView, ss: seq<Service>, n: Knobs, s: Service, p: Packet)
    requires KnobsOk(n) && NodeOk(ss) && Distinct(ss) && s in ss && ShowsServices(v, ss, n) && PacketOk(p)
    requires (forall c :: c in s.wl ==> Canonical(c)) && s.wlFlags == ListFlags(s.wl)
    ensures WhitelistHit(v, s.dpId, s.wlFlags, p) <==> Listed(s.wl, p.src)
  {
    hide Contents;
    hide NodePuts;
    hide LpmLookup;
    hide ServiceOk;
    var trie, filter := Contents(NodePuts(ss, n), WlLpmMap), Contents(NodePuts(ss, n), WlBloomMap);
    assert v.inner[WlLpmMap] == trie && v.inner[WlBloomMap] == filter;
    forall c: Cidr ensures Lpm(s.dpId, c) in trie <==> c in s.wl {
      WlStored(ss, n, s, WlLpmMap, Lpm(s.dpId, c));
      forall x | x in s.wl ensures Canon(x) == x {
        MatchIsMask(x, x.addr);
      }
    }
    TrieFindsList(trie, s.dpId, s.wl, p.src);
    if i :| 0 <= i < |s.wl| && Contains(s.wl[i], p.src) {
      var key := Bloom(s.dpId, Mask(p.src, WL_BLOOM_PREFIX));
      WlStored(ss, n, s, WlBloomMap, key);
      if !WlBroad(s.wlFlags) {
        var c := s.wl[i];
        assert c in s.wl;
        LongerPrefixAgrees(p.src, c.addr, c.len, WL_BLOOM_PREFIX);
        assert WlKey(WlBloomMap, c, key, s.dpId);
      }
    }
  }

  // ----- Source filters -----

  lemma SpanValues()
    ensures Span(4) == 0x1000_0000 && Span(8) == 0x100_0000 && Span(10) == 0x40_0000 && Span(12) == 0x10_0000
    ensures Span(15) == 0x2_0000 && Span(16) == 0x1_0000 && Span(24) == 0x100
  {
    Pow2Values();
    assert Pow2(4) == 2 * Pow2(3) && Pow2(3) == 2 * Pow2(2) && Pow2(2) == 2 * Pow2(1) && Pow2(1) == 2;
    assert Pow2(6) == 2 * Pow2(5) && Pow2(5) == 2 * Pow2(4);
    Pow2Add(8, 8);
    Pow2Add(16, 1);
    Pow2Add(16, 4);
    Pow2Add(16, 6);
    Pow2Add(16, 8);
    Pow2Add(24, 4);
  }

  lemma MaskIsBlock(src: nat, c: Cidr)
    requires c.addr % Span(c.len) == 0
    ensures Mask(src, c.len) == c.addr <==> Contains(c, src)
  {
    hide Span;
    hide FloorTo;
    hide Contains;
    ContainsIffSameMask(c, src);
    FloorOfMultiple(c.addr, Span(c.len));
  }

  /** The mask-and-compare chain is the list of reserved blocks. */
  lemma BogonIsList(src: nat)
    ensures Bogon(src) <==> Listed(BOGONS, src)
  {
    SpanValues();
    forall i | 0 <= i < |BOGONS| ensures Mask(src, BOGONS[i].len) == BOGONS[i].addr <==> Contains(BOGONS[i], src) {
      BogonCanonical(i);
      MaskIsBlock(src, BOGONS[i]);
    }
    hide Mask;
    hide Contains;
    assert Bogon(src) <==> exists i :: 0 <= i < |BOGONS| && Mask(src, BOGONS[i].len) == BOGONS[i].addr by {
      assert BOGONS[0] == Cidr(8, 0) && BOGONS[1] == Cidr(8, 0x0a00_0000) && BOGONS[2] == Cidr(10, 0x6440_0000);
      assert BOGONS[3] == Cidr(8, 0x7f00_0000) && BOGONS[4] == Cidr(16, 0xa9fe_0000) && BOGONS[5] == Cidr(12, 0xac10_0000);
      assert BOGONS[6] == Cidr(24, 0xc000_0000) && BOGONS[7] == Cidr(24, 0xc000_0200) && BOGONS[8] == Cidr(16, 0xc0a8_0000);
      assert BOGONS[9] == Cidr(15, 0xc612_0000) && BOGONS[10] == Cidr(24, 0xc633_6400) && BOGONS[11] == Cidr(24, 0xcb00_7100);
      assert BOGONS[12] == Cidr(4, 0xe000_0000) && BOGONS[13] == Cidr(4, 0xf000_0000);
    }
  }

  lemma BogonCanonical(i: nat)
    requires i < |BOGONS|
    ensures BOGONS[i].addr % Span(BOGONS[i].len) == 0
  {
    SpanValues();
  }

  /** The chain of port tests is the list of amplifiers. */
  lemma AmplifiersTested(port: nat)
    ensures AmpPort(port) <==> port in AMPLIFIERS
  {
  }

  // ----- Finding the service -----

  lemma CompiledOk(r: Record)
    requires RecordOk(r)
    ensures forall c :: c in CompileRecord(r).wl ==> Canonical(c)
    ensures CompileRecord(r).wlFlags == ListFlags(CompileRecord(r).wl)
    ensures CompileRecord(r).dst == Canon(r.cidr) == Canon(CompileRecord(r).dst) && Canonical(Canon(r.cidr))
  {
    hide ByPriority;
    hide CompileRule;
    hide Mask;
    ByPriorityAscends(r.rules);
    CanonFacts(r.cidr);
    CanonTwice(r.cidr);
    var s := CompileRecord(r);
    forall i | 0 <= i < |s.wl| ensures Canonical(s.wl[i]) && s.wl[i].len == r.whitelist[i].len {
      assert r.whitelist[i] in r.whitelist;
      CanonFacts(r.whitelist[i]);
    }
    assert HasBroad(s.wl) <==> HasBroad(r.whitelist);
  }

  lemma SameBlockOverlaps(x: Cidr, y: Cidr)
    requires Valid(x) && Valid(y) && Canon(x) == Canon(y)
    ensures Overlap(x, y)
  {
    CanonFacts(x);
    CanonFacts(y);
    assert Contains(Canon(y), y.addr);
  }

  lemma CompiledDistinct(rs: seq<Record>)
    requires RecordsOk(rs)
    ensures Distinct(CompileNode(rs))
  {
    hide CompileRecord;
    hide RecordOk;
    hide ServiceOk;
    hide Overlap;
    var ss := CompileNode(rs);
    forall s, t | s in ss && t in ss && s != t ensures s.dpId != t.dpId && Canon(s.dst) != Canon(t.dst) {
      var x := Source(rs, s);
      var y := Source(rs, t);
      SourcesDiffer(rs, x, y);
    }
  }

  /** The record a compiled service came from. */
  lemma Source(rs: seq<Record>, s: Service) returns (r: Record)
    requires s in CompileNode(rs)
    ensures r in rs && r.enabled && CompileRecord(r) == s
  {
    hide CompileRecord;
    var i :| 0 <= i < |CompileNode(rs)| && CompileNode(rs)[i] == s;
    r := Active(rs)[i];
    assert r in Active(rs);
  }

  lemma CompiledIn(rs: seq<Record>, r: Record)
    requires r in rs && r.enabled
    ensures CompileRecord(r) in CompileNode(rs)
  {
    hide CompileRecord;
    assert r in Active(rs);
    var i :| 0 <= i < |Active(rs)| && Active(rs)[i] == r;
    assert CompileNode(rs)[i] == CompileRecord(r);
  }

  lemma SourcesDiffer(rs: seq<Record>, x: Record, y: Record)
    requires RecordsOk(rs) && x in rs && y in rs && x.enabled && y.enabled && x != y
    ensures var s, t := CompileRecord(x), CompileRecord(y);
            s.dpId != t.dpId && Canon(s.dst) != Canon(t.dst)
  {
    hide Overlap;
    hide Canon;
    CompiledOk(x);
    CompiledOk(y);
    if Canon(x.cidr) == Canon(y.cidr) {
      SameBlockOverlaps(x.cidr, y.cidr);
    }
  }

  lemma OwnerFound(v: SlotView, rs: seq<Record>, n: Knobs, dst: nat)
    requires KnobsOk(n) && RecordsOk(rs) && ShowsServices(v, CompileNode(rs), n) && dst < ADDR_SPACE
    ensures var owner := Owner(rs, dst);
            ServiceAt(v, dst) == if owner.None? then None else Some(ServiceEntry(CompileRecord(owner.value)))
  {
    hide Contents;
    hide NodePuts;
    hide LpmLookup;
    hide NodeOk;
    hide Distinct;
    hide RecordsOk;
    hide Owner;
    hide CompileRecord;
    CompiledDistinct(rs);
    var ss := CompileNode(rs);
    var m := Contents(NodePuts(ss, n), ServiceMap);
    assert v.inner[ServiceMap] == m;
    var owner := Owner(rs, dst);
    if owner.None? {
      forall c ensures !Matches(m, 0, c, dst) {
        if Matches(m, 0, c, dst) {
          var r := MatchHasSource(rs, n, c, dst);
          assert false;
        }
      }
      LpmMissIff(m, 0, dst, 32);
    } else {
      var r := owner.value;
      OwnerMatches(rs, n, r, dst);
      forall d | Matches(m, 0, d, dst) ensures d == Canon(r.cidr) {
        var y := MatchHasSource(rs, n, d, dst);
        OneOwner(rs, r, y, dst);
      }
      LpmUnique(m, 0, dst, 32, Canon(r.cidr));
    }
  }

  /** A stored block that contains the destination belongs to an enabled record. */
  lemma MatchHasSource(rs: seq<Record>, n: Knobs, c: Cidr, dst: nat) returns (r: Record)
    requires KnobsOk(n) && RecordsOk(rs) && NodeOk(CompileNode(rs))
    requires Matches(Contents(NodePuts(CompileNode(rs), n), ServiceMap), 0, c, dst)
    ensures r in rs && r.enabled && c == Canon(r.cidr) && Contains(r.cidr, dst)
  {
    hide Contents;
    hide NodePuts;
    hide NodeOk;
    hide Distinct;
    hide CompileRecord;
    hide FairEntry;
    CompiledDistinct(rs);
    var ss := CompileNode(rs);
    StoredIsOwn(ss, n, ServiceMap, Lpm(0, c));
    var s, p :| s in ss && OwnPut(s, n, p) && p.outer == ServiceMap && p.key == Lpm(0, c);
    r := Source(rs, s);
    CompiledOk(r);
    CanonFacts(r.cidr);
  }

  lemma OwnerMatches(rs: seq<Record>, n: Knobs, r: Record, dst: nat)
    requires KnobsOk(n) && RecordsOk(rs) && NodeOk(CompileNode(rs)) && r in rs && r.enabled && Contains(r.cidr, dst)
    ensures var m := Contents(NodePuts(CompileNode(rs), n), ServiceMap);
            Canon(r.cidr).len <= 32 && Matches(m, 0, Canon(r.cidr), dst)
            && m[Lpm(0, Canon(r.cidr))] == ServiceEntry(CompileRecord(r))
  {
    hide Contents;
    hide NodePuts;
    hide NodeOk;
    hide Distinct;
    hide CompileRecord;
    hide FairEntry;
    CompiledDistinct(rs);
    CompiledIn(rs, r);
    CompiledOk(r);
    CanonFacts(r.cidr);
    var s := CompileRecord(r);
    OwnEntryStored(CompileNode(rs), n, s, Put(ServiceMap, Lpm(0, Canon(s.dst)), ServiceEntry(s)));
  }

  lemma OneOwner(rs: seq<Record>, x: Record, y: Record, dst: nat)
    requires RecordsOk(rs) && x in rs && y in rs && x.enabled && y.enabled
    requires Contains(x.cidr, dst) && Contains(y.cidr, dst)
    ensures x == y
  {
    hide Overlap;
    hide Contains;
    assert RecordOk(x) && RecordOk(y);
    CommonAddressOverlaps(x.cidr, y.cidr, dst);
  }

  // ----- Main theorem -----

  /** The pipeline's path is the ruling: same buckets charged in the same order, same service, same
      rule (by its position in priority order), same outcome. */
  ghost predicate Agrees(x: Path, y: Ruling)
  {
    && x.used == y.used && x.out == y.out
    && x.id == (if y.owner.Some? then y.owner.value.dpId else 0)
    && (x.rule.Some? <==> y.rule.Some?)
    && (x.rule.Some? ==> y.owner.Some? && RuleAt(y.owner.value, x.rule.value) == y.rule)
  }

  function RuleAt(r: Record, i: nat): Option<AllowRule>
  {
    if i < |ByPriority(r.rules)| then Some(ByPriority(r.rules)[i]) else None
  }

  /** What the maps of one slot hold for the service compiled from `r`. */
  ghost predicate Configured(v: SlotView, r: Record)
  {
    var s := CompileRecord(r);
    && Total(v) && |s.rules| <= RULE_MAX
    && FairAt(v, r.dpId).Some?
    && RulesAt(v, r.dpId) == Some(s.rules)
    && RatesAt(v.inner[SvcRlMap], r.dpId) == Some(SvcRlEntry(s))
    && (WlActive(s.wlFlags) ==> RatesAt(v.inner[VipMap], r.dpId) == Some(VipEntry(s)))
  }

  lemma OwnerConfigured(v: SlotView, rs: seq<Record>, n: Knobs, r: Record)
    requires KnobsOk(n) && RecordsOk(rs) && ShowsServices(v, CompileNode(rs), n) && r in rs && r.enabled
    ensures Configured(v, r)
  {
    hide Contents;
    hide NodePuts;
    hide NodeOk;
    hide Distinct;
    hide RecordsOk;
    hide CompileRecord;
    CompiledDistinct(rs);
    CompiledIn(rs, r);
    var s, ss := CompileRecord(r), CompileNode(rs);
    assert s.dpId == r.dpId by { CompiledId(r); }
    assert |s.rules| <= RULE_MAX by { AcceptedRules(ss, s); }
    OwnEntryStored(ss, n, s, Put(FairMap, Id(s.dpId), FairEntry(s, n)));
    OwnEntryStored(ss, n, s, Put(RuleBlockMap, Id(s.dpId), RuleEntry(s)));
    OwnEntryStored(ss, n, s, Put(SvcRlMap, Id(s.dpId), SvcRlEntry(s)));
    if WlActive(s.wlFlags) {
      OwnEntryStored(ss, n, s, Put(VipMap, Id(s.dpId), VipEntry(s)));
    }
  }

  lemma AcceptedRules(ss: seq<Service>, s: Service)
    requires NodeOk(ss) && s in ss
    ensures |s.rules| <= RULE_MAX
  {
    assert ServiceOk(s);
  }

  lemma CompiledId(r: Record)
    ensures CompileRecord(r).dpId == r.dpId
  {
  }

  lemma LadderAgrees(v: SlotView, r: Record, i: nat, rule: AllowRule, a: Stage -> Answer, hops: set<nat>)
    requires Configured(v, r) && RuleAt(r, i) == Some(rule)
    ensures Agrees(Ladder(v, r.dpId, Some(i), a, hops), Share(r, Some(rule), a, hops))
  {
    hide CompileRecord;
    hide ByPriority;
    hide RuleAt;
  }

  lemma LimitAgrees(v: SlotView, r: Record, i: nat, rule: AllowRule, a: Stage -> Answer, hops: set<nat>)
    requires Configured(v, r) && RuleAt(r, i) == Some(rule)
    ensures Agrees(LimitStage(v, r.dpId, Some(i), a, hops), Limited(r, Some(rule), a, hops))
  {
    hide RuleAt;
    hide CompileRecord;
    LadderAgrees(v, r, i, rule, a, hops);
    SvcFlagsOf(r);
    hide Ladder;
    hide Share;
  }

  lemma SvcFlagsOf(r: Record)
    ensures AnySet(CompileRecord(r).svcFlags) <==> r.svcPps.Some? || r.svcBps.Some?
  {
    hide ByPriority;
  }

  lemma AllowAgrees(v: SlotView, r: Record, p: Packet, a: Stage -> Answer, hops: set<nat>)
    requires Configured(v, r) && RecordOk(r) && PacketOk(p)
    ensures var best := Best(r.rules, p);
            Agrees(AllowStage(v, r.dpId, p, a, hops),
                   if best.None? then Halt(r, None, NotAllowed) else Limited(r, best, a, hops))
  {
    hide ByPriority;
    hide Best;
    hide FirstMatch;
    hide LimitStage;
    hide Limited;
    FirstIsBest(r.rules, p);
    var rules := CompileRecord(r).rules;
    assert rules == CompileRules(ByPriority(r.rules));
    assert rules[..Min(|rules|, RULE_MAX)] == rules;
    var hit := FirstMatch(rules, p);
    if hit.Some? {
      LimitAgrees(v, r, hit.value, Best(r.rules, p).value, a, hops);
    }
  }

  lemma DenyAgrees(v: SlotView, r: Record, deny: seq<Cidr>, blocked: set<nat>, p: Packet, a: Stage -> Answer, hops: set<nat>)
    requires Configured(v, r) && RecordOk(r) && PacketOk(p)
    requires ShowsDeny(v, deny) && EntriesOk(deny) && ShowsPorts(v, blocked)
    ensures Agrees(DenyStage(v, r.dpId, p, a, hops), Filtered(r, deny, blocked, p, a, hops))
  {
    hide AllowStage;
    hide Limited;
    hide Best;
    hide AmpPort;
    hide Bogon;
    hide DenyHit;
    hide EntriesOk;
    hide RecordOk;
    hide Configured;
    hide Listed;
    hide ShowsDeny;
    assert Total(v) by { ShownIsTotal(v, deny); }
    AllowAgrees(v, r, p, a, hops);
    BogonIsList(p.src);
    AmplifiersTested(p.sport);
    hide AMPLIFIERS;
    DenyHitIsDenied(v, deny, p);
  }

  lemma ShownIsTotal(v: SlotView, deny: seq<Cidr>)
    requires ShowsDeny(v, deny)
    ensures Total(v)
  {
  }

  lemma DenyHitIsDenied(v: SlotView, deny: seq<Cidr>, p: Packet)
    requires ShowsDeny(v, deny) && EntriesOk(deny) && PacketOk(p)
    ensures Total(v)
    ensures DenyHit(v.flags, v.inner[GblBloomMap], v.inner[GblLpmMap], p.src, p.gblFp) <==> Listed(deny, p.src)
  {
    hide Contents;
    hide GlobalPuts;
    hide PlanAll;
    hide DenyHit;
    hide EntriesOk;
    hide Listed;
    FastPathIsTheList(deny, p.src, p.gblFp);
    assert v.inner[GblBloomMap] == Contents(GlobalPuts(deny, FlagsFor(deny).broad), GblBloomMap);
    assert v.inner[GblLpmMap] == Contents(GlobalPuts(deny, FlagsFor(deny).broad), GblLpmMap);
  }

  lemma WhitelistAgrees(v: SlotView, rs: seq<Record>, n: Knobs, r: Record, p: Packet)
    requires KnobsOk(n) && RecordsOk(rs) && ShowsServices(v, CompileNode(rs), n) && r in rs && r.enabled && PacketOk(p)
    ensures WhitelistHit(v, r.dpId, CompileRecord(r).wlFlags, p) <==> Listed(r.whitelist, p.src)
    ensures Listed(r.whitelist, p.src) ==> WlActive(CompileRecord(r).wlFlags)
  {
    hide NodeOk;
    hide Distinct;
    hide WhitelistHit;
    hide NodePuts;
    hide Contents;
    hide Contains;
    CompiledDistinct(rs);
    CompiledIn(rs, r);
    CompiledOk(r);
    var s := CompileRecord(r);
    WhitelistIsOwnList(v, CompileNode(rs), n, s, p);
    forall i | 0 <= i < |s.wl| ensures Contains(s.wl[i], p.src) <==> Contains(r.whitelist[i], p.src) {
      assert r.whitelist[i] in r.whitelist;
      CanonFacts(r.whitelist[i]);
    }
  }

  /** Main theorem: for every set of records the database admits, deny list, blocked ports, packet,
      bucket answers, filter behaviour and resolved next hops, the pipeline over the committed maps
      does what the records say. */
  lemma CompilationPreservesMeaning(v: SlotView, rs: seq<Record>, n: Knobs, deny: seq<Cidr>, blocked: set<nat>,
                                    p: Packet, a: Stage -> Answer, hops: set<nat>)
    requires KnobsOk(n) && RecordsOk(rs) && ShowsServices(v, CompileNode(rs), n)
    requires ShowsDeny(v, deny) && EntriesOk(deny) && ShowsPorts(v, blocked) && PacketOk(p)
    ensures Agrees(Decide(v, p, a, hops), Ruled(rs, deny, blocked, p, a, hops))
  {
    hide Contents;
    hide NodePuts;
    hide RecordsOk;
    hide ShowsDeny;
    hide ShowsPorts;
    hide DenyStage;
    hide Filtered;
    hide Listed;
    hide WhitelistHit;
    hide EntriesOk;
    OwnerFound(v, rs, n, p.dst);
    hide ServiceAt;
    var owner := Owner(rs, p.dst);
    if owner.Some? {
      var r := owner.value;
      assert RecordOk(r) by { OwnerOk(rs, r); }
      OwnerConfigured(v, rs, n, r);
      WhitelistAgrees(v, rs, n, r, p);
      DenyAgrees(v, r, deny, blocked, p, a, hops);
      CapAgrees(v, r, deny, blocked, p, a, hops);
    }
  }

  lemma OwnerOk(rs: seq<Record>, r: Record)
    requires RecordsOk(rs) && r in rs && r.enabled
    ensures RecordOk(r)
  {
  }

  lemma CapAgrees(v: SlotView, r: Record, deny: seq<Cidr>, blocked: set<nat>, p: Packet, a: Stage -> Answer, hops: set<nat>)
    requires Configured(v, r) && PacketOk(p)
    requires WhitelistHit(v, r.dpId, CompileRecord(r).wlFlags, p) <==> Listed(r.whitelist, p.src)
    requires Listed(r.whitelist, p.src) ==> WlActive(CompileRecord(r).wlFlags)
    requires Agrees(DenyStage(v, r.dpId, p, a, hops), Filtered(r, deny, blocked, p, a, hops))
    ensures Agrees(CapStage(v, r.dpId, CompileRecord(r).wlFlags, p, a, hops),
                   Ask(Cap, a, r, None, Halt(r, None, IngressCapDrop),
                       if Listed(r.whitelist, p.src) && (r.vipPps.Some? || r.vipBps.Some?)
                       then Ask(Vip, a, r, None, Halt(r, None, VipCeilingDrop), Send(r, None, ViaVip, hops))
                       else Filtered(r, deny, blocked, p, a, hops)))
  {
    hide DenyStage;
    hide Filtered;
    hide Listed;
    hide WhitelistHit;
    hide RuleAt;
    hide ListFlags;
    hide ByPriority;
  }

  lemma LimitedNotDisabled(r: Record, rule: Option<AllowRule>, a: Stage -> Answer, hops: set<nat>)
    ensures Limited(r, rule, a, hops).out != Drop(ServiceDisabled)
  {
  }

  lemma FilteredNotDisabled(r: Record, deny: seq<Cidr>, blocked: set<nat>, p: Packet, a: Stage -> Answer, hops: set<nat>)
    ensures Filtered(r, deny, blocked, p, a, hops).out != Drop(ServiceDisabled)
  {
    hide Best;
    hide Listed;
    hide AmpPort;
    hide Limited;
    LimitedNotDisabled(r, Best(r.rules, p), a, hops);
  }

  lemma RuledNotDisabled(rs: seq<Record>, deny: seq<Cidr>, blocked: set<nat>, p: Packet, a: Stage -> Answer, hops: set<nat>)
    ensures Ruled(rs, deny, blocked, p, a, hops).out != Drop(ServiceDisabled)
  {
    hide Owner;
    hide Listed;
    hide Filtered;
    var owner := Owner(rs, p.dst);
    if owner.Some? {
      FilteredNotDisabled(owner.value, deny, blocked, p, a, hops);
    }
  }

  /** A compiled record is enabled, so no packet is dropped for a disabled service. */
  lemma NoDisabledDrop(v: SlotView, rs: seq<Record>, n: Knobs, deny: seq<Cidr>, blocked: set<nat>,
                       p: Packet, a: Stage -> Answer, hops: set<nat>)
    requires KnobsOk(n) && RecordsOk(rs) && ShowsServices(v, CompileNode(rs), n)
    requires ShowsDeny(v, deny) && EntriesOk(deny) && ShowsPorts(v, blocked) && PacketOk(p)
    ensures Decide(v, p, a, hops).out != Drop(ServiceDisabled)
  {
    hide RecordsOk;
    hide CompileNode;
    hide NodePuts;
    hide Contents;
    hide ShowsDeny;
    hide ShowsPorts;
    hide EntriesOk;
    hide Decide;
    hide Ruled;
    CompilationPreservesMeaning(v, rs, n, deny, blocked, p, a, hops);
    RuledNotDisabled(rs, deny, blocked, p, a, hops);
  }

  // ----- No missing configuration -----

  /** A service lookup finds the entry of a service of the snapshot. */
  lemma FoundIsListed(v: SlotView, ss: seq<Service>, n: Knobs, dst: nat) returns (s: Service)
    requires KnobsOk(n) && ShowsServices(v, ss, n) && ServiceAt(v, dst).Some?
    ensures s in ss && ServiceAt(v, dst) == Some(ServiceEntry(s))
  {
    hide Contents;
    hide NodePuts;
    hide LpmLookup;
    hide NodeOk;
    hide FairEntry;
    var ps := NodePuts(ss, n);
    assert v.inner[ServiceMap] == Contents(ps, ServiceMap);
    var c := LpmHit(v.inner[ServiceMap], 0, dst, 32);
    var p := ContentsFrom(ps, ServiceMap, Lpm(0, c));
    s := WriterOf(ss, n, p);
  }

  /** Every lookup the pipeline makes for a service finds its entry, for any accepted snapshot. */
  lemma AcceptedIsComplete(v: SlotView, ss: seq<Service>, n: Knobs, dst: nat)
    requires KnobsOk(n) && ShowsServices(v, ss, n) && ServiceAt(v, dst).Some?
    ensures var s := ServiceAt(v, dst).value;
            FairAt(v, s.serviceId).Some? && (WlActive(s.wlFlags) ==> RatesAt(v.inner[VipMap], s.serviceId).Some?)
  {
    hide Contents;
    hide NodePuts;
    hide LpmLookup;
    hide ServicePuts;
    hide WlPuts;
    hide FairEntry;
    hide NodeOk;
    var ps := NodePuts(ss, n);
    var s := FoundIsListed(v, ss, n, dst);
    assert v.inner[FairMap] == Contents(ps, FairMap) && v.inner[VipMap] == Contents(ps, VipMap);
    WrittenFor(ss, n, s, Put(FairMap, Id(s.dpId), FairEntry(s, n)));
    if WlActive(s.wlFlags) {
      WrittenFor(ss, n, s, Put(VipMap, Id(s.dpId), VipEntry(s)));
    }
  }

  /** A service's entry in a rate map is there, of the map's kind, possibly another service's. */
  lemma WrittenFor(ss: seq<Service>, n: Knobs, s: Service, p: Put)
    requires KnobsOk(n) && NodeOk(ss) && s in ss && OwnPut(s, n, p) && (p.outer == FairMap || p.outer == VipMap)
    ensures var m := Contents(NodePuts(ss, n), p.outer);
            p.key in m && (p.outer == FairMap ==> m[p.key].FairVal?) && (p.outer == VipMap ==> m[p.key].Rates?)
  {
    hide Contents;
    hide NodePuts;
    hide ServicePuts;
    hide WlPuts;
    hide ServiceOk;
    var ps := NodePuts(ss, n);
    ServicePutsMember(s, n, p);
    NodePutsMember(ss, n, p);
    ContentsMember(ps, p.outer, p.key);
    var q := ContentsFrom(ps, p.outer, p.key);
    var t := WriterOf(ss, n, q);
  }

  ghost predicate NeverFull(a: Stage -> Answer) { forall s: Stage :: a(s) != Full }

  lemma LadderNoMapError(v: SlotView, id: nat, rule: Option<nat>, a: Stage -> Answer, hops: set<nat>)
    requires Total(v) && FairAt(v, id).Some? && NeverFull(a)
    ensures LimitStage(v, id, rule, a, hops).out != Drop(MapError)
  {
    hide FairAt;
    hide RatesAt;
  }

  lemma DenyNoMapError(v: SlotView, id: nat, p: Packet, a: Stage -> Answer, hops: set<nat>)
    requires Total(v) && FairAt(v, id).Some? && NeverFull(a) && PacketOk(p) && AllWords(v.inner[PortsMap])
    ensures DenyStage(v, id, p, a, hops).out != Drop(MapError)
  {
    AllWordsAnswer(v.inner[PortsMap], p.sport);
    hide FairAt;
    hide LimitStage;
    hide FirstMatch;
    hide DenyHit;
    hide Bogon;
    hide AmpPort;
    hide PortBlocked;
    hide BlockedBy;
    forall rule: Option<nat> ensures LimitStage(v, id, rule, a, hops).out != Drop(MapError) {
      LadderNoMapError(v, id, rule, a, hops);
    }
  }

  /** For every accepted snapshot and every bitmap, finished or not: a map error means that a bucket's
      state map was full. */
  lemma NoMapErrorUnlessFull(v: SlotView, ss: seq<Service>, n: Knobs, p: Packet, a: Stage -> Answer, hops: set<nat>)
    requires KnobsOk(n) && ShowsServices(v, ss, n) && AllWords(v.inner[PortsMap]) && PacketOk(p)
    requires ServiceAt(v, p.dst).Some? ==> NeverFull(a)
    ensures Decide(v, p, a, hops).out != Drop(MapError)
  {
    assert Total(v);
    hide Contents;
    hide NodePuts;
    hide AllWords;
    hide LpmLookup;
    if ServiceAt(v, p.dst).Some? {
      var s := ServiceAt(v, p.dst).value;
      AcceptedIsComplete(v, ss, n, p.dst);
      DenyNoMapError(v, s.serviceId, p, a, hops);
      hide DenyStage;
      hide FairAt;
      hide RatesAt;
    }
  }

  /** A bitmap with all its words blocks some definite set of ports. */
  lemma AllWordsShow(v: SlotView)
    requires Total(v) && AllWords(v.inner[PortsMap])
    ensures ShowsPorts(v, BlockedBy(v.inner[PortsMap]))
  {
    hide AllWords;
    hide BlockedBy;
    forall port: nat | port < 65536 ensures PortBlocked(v.inner[PortsMap], port) == Some(port in BlockedBy(v.inner[PortsMap])) {
      AllWordsAnswer(v.inner[PortsMap], port);
    }
  }
}
