/** The apply helper as it is written: stages that read and write the pinned maps one bpf(2) call at a
    time and give up at the first failure (data-plane/tools/xdpgw-apply.c). The ghost field `todo`
    holds what is left of the plan, so every call is proved to be the plan's next write. */
module ApplyHelper {
  import opened Wrappers
  import opened Arith
  import opened Ipv4
  import opened Snapshot
  import opened Bpf
  import opened DenyList
  import opened FairBudget
  import opened ApplyPlan
  import opened ApplyEffect

  lemma StoresCons(ids: map<Outer, MapId>, p: Put, ps: seq<Put>, rest: seq<Write>)
    requires forall o: Outer :: o in ids
    ensures var todo := Stores(ids, [p] + ps) + rest;
            && todo != [] && todo[0] == Store(ids[p.outer], p.key, p.val)
            && todo[1..] == Stores(ids, ps) + rest
  {
    assert (Stores(ids, [p] + ps) + rest)[1..] == Stores(ids, ps) + rest;
  }

  /** The snapshot is acceptable and its own entries do not overwrite each other on read-back. */
  predicate ReadsBack(ss: seq<Service>, n: Knobs)
    requires KnobsOk(n)
  {
    var ps := NodePuts(ss, n);
    NodeOk(ss) && VerifyNode(Contents(ps, ServiceMap), Contents(ps, RuleBlockMap), ss)
  }

  /** The other slot is now live, shows `target`, and the version has moved on by one. */
  ghost predicate Flipped(k: Kernel, k': Kernel, target: SlotView)
    requires Ok(k)
  {
    Ok(k') && k'.active == Inactive(k) && k'.version == (k.version + 1) % U32 && View(k', k'.active) == target
  }

  lemma FlipShows(k: Kernel, k': Kernel, target: SlotView)
    requires Ok(k) && BuiltAt(k, k', Inactive(k), target)
    ensures Flipped(k, Exec(k', CommitOf(k)), target)
  {
    assert View(Exec(k', CommitOf(k)), Inactive(k)) == View(k', Inactive(k));
  }

  lemma ServicePutsSplit(s: Service, n: Knobs, ps: seq<Put>)
    requires KnobsOk(n) && HeadOk(s)
    ensures ServicePuts(s, n) + ps ==
            [Put(ServiceMap, Lpm(0, Canon(s.dst)), ServiceEntry(s))]
            + ([Put(RuleBlockMap, Id(s.dpId), RuleEntry(s))]
               + (WlWrites(s.dpId, s.wl, n.patience) + ((if WlOk(s.wl) then RatePuts(s, n) else []) + ps)))
  {
    hide WlWrites;
    hide RatePuts;
    hide Canon;
  }

  /** What the whitelist loop still writes from index `i`. */
  function Ahead(dp: nat, wl: seq<Cidr>, i: nat, rounds: nat): seq<Put>
    requires i <= |wl|
  {
    if WlEnds(wl) then WlPuts(dp, wl[i..]) else WlLoop(dp, wl, i, rounds)
  }

  /** One round: either the index does not wrap before the loop is left, or the list outgrows it. */
  lemma OneRound(dp: nat, wl: seq<Cidr>, i: nat, rounds: nat)
    requires i < |wl| && i <= WL_MAX && rounds > 0 && (WlEnds(wl) ==> forall c :: c in wl[..i] ==> c.len <= 32)
    ensures wl[i].len > 32 ==> !WlOk(wl) && WlEnds(wl)
    ensures wl[i].len <= 32 ==>
              && WlIndexAfter(i) <= |wl| && WlIndexAfter(i) <= WL_MAX
              && Ahead(dp, wl, i, rounds) == WlEntryPuts(dp, wl[i]) + Ahead(dp, wl, WlIndexAfter(i), rounds - 1)
              && (WlEnds(wl) ==> forall c :: c in wl[..WlIndexAfter(i)] ==> c.len <= 32)
  {
    hide WlEntryPuts;
    assert wl[i] in wl && wl[i..][0] == wl[i] && wl[i..][1..] == wl[i + 1..];
    if WlEnds(wl) && wl[i].len <= 32 {
      assert i < WL_MAX by {
        if |wl| > WL_MAX {
          var j :| 0 <= j <= WL_MAX && wl[j].len > 32;
          assert j < i ==> wl[..i][j] == wl[j];
        }
      }
      assert wl[..i + 1] == wl[..i] + [wl[i]];
    }
  }

  lemma StartAhead(dp: nat, wl: seq<Cidr>, patience: nat)
    ensures WlWrites(dp, wl, patience) == Ahead(dp, wl, 0, patience)
  {
    assert wl[0..] == wl;
  }

  lemma RoundPuts(dp: nat, c: Cidr, more: seq<Put>)
    ensures var filter := Put(WlBloomMap, Bloom(dp, Mask(c.addr, WL_BLOOM_PREFIX)), Present);
            var trie := Put(WlLpmMap, Lpm(dp, Canon(c)), Present);
            WlEntryPuts(dp, c) + more == if c.len >= WL_BLOOM_PREFIX then [filter] + ([trie] + more) else [trie] + more
  {
    hide Mask;
    hide Canon;
  }

  /** The loop passes its end only for a list that fits the index. */
  lemma EndIsProper(dp: nat, wl: seq<Cidr>, i: nat, rounds: nat)
    requires i == |wl| && i <= WL_MAX && (WlEnds(wl) ==> forall c :: c in wl[..i] ==> c.len <= 32)
    ensures WlOk(wl) && WlEnds(wl) && Ahead(dp, wl, i, rounds) == []
  {
    assert wl[..i] == wl;
  }

  lemma {:induction false} SamePuts(ss: seq<Service>, a: Knobs, b: Knobs)
    requires KnobsOk(a) && KnobsOk(b) && b == a.(patience := b.patience) && NodeOk(ss)
    ensures NodePuts(ss, a) == NodePuts(ss, b)
  {
    hide WlPuts;
    hide WlLoop;
    hide BudgetOf;
    if ss != [] {
      assert ServiceOk(ss[0]);
      assert forall s :: s in ss[1..] ==> s in ss;
      SamePuts(ss[1..], a, b);
    }
  }

  /** An acceptable snapshot is written alike whatever the patience. */
  lemma PatienceOnlyForEndless(ss: seq<Service>, a: Knobs, b: Knobs)
    requires KnobsOk(a) && KnobsOk(b) && b == a.(patience := b.patience)
    ensures ReadsBack(ss, a) <==> ReadsBack(ss, b)
    ensures ReadsBack(ss, a) ==> forall v :: Total(v) ==> ServiceTarget(v, ss, a) == ServiceTarget(v, ss, b)
  {
    hide NodePuts;
    hide Contents;
    hide VerifyNode;
    if NodeOk(ss) {
      SamePuts(ss, a, b);
    }
  }

  lemma OneMoreService(ss: seq<Service>, n: Knobs, i: nat)
    requires KnobsOk(n) && i < |ss|
    ensures NodePuts(ss[i..], n) == ServicePuts(ss[i], n) + if ServiceOk(ss[i]) then NodePuts(ss[i + 1..], n) else []
    ensures SumCommitted(ss[..i + 1]) == Min(SumCommitted(ss[..i]) + ClampRate(ss[i].committed), U64 - 1)
  {
    hide ServicePuts;
    hide ServiceOk;
    hide ClampRate;
    assert ss[i..][1..] == ss[i + 1..];
    assert ss[..i + 1][..i] == ss[..i];
  }

  lemma NoneLeft(ss: seq<Service>, n: Knobs)
    requires KnobsOk(n)
    ensures NodePuts(ss[|ss|..], n) == [] && SumCommitted(ss[..0]) == 0
  {
  }

  /** What verify_global_deny_slot demands of the candidate slot. */
  ghost predicate DenySlotOk(k: Kernel, es: seq<Cidr>, expected: DenyFlags)
    requires Ok(k) && forall e :: e in es ==> e.len <= 32
  {
    var act, can := k.slots[k.active], k.slots[1 - k.active];
    var trie := k.heap[can.inner[GblLpmMap]];
    && (forall o :: o in SERVICE_LIST + [PortsMap] ==> can.inner[o] == act.inner[o])
    && (forall o :: o in GLOBAL_LIST ==> can.inner[o] != act.inner[o])
    && can.node == act.node && can.flags == expected
    && |trie.Keys| == |es| && forall e :: e in es ==> LpmLookup(trie, 0, e.addr, e.len) == Some(Present)
  }

  class PinnedMaps {
    var heap: map<MapId, Inner>
    var slots: seq<Slot>
    var active: nat
    var version: nat

    /** The number of further writes before the helper fails or is killed. */
    var budget: nat

    ghost var start: Kernel
    ghost var plan: seq<Write>
    ghost var done: seq<Write>
    ghost var todo: seq<Write>

    ghost function K(): Kernel
      reads this
    {
      Kernel(heap, slots, active, version)
    }

    /** The maps are what they were at the start plus the first writes of the plan. */
    ghost predicate Valid()
      reads this
    {
      plan == done + todo && K() == ExecAll(start, done)
    }

    /** No stage before the flip touches the live slot. */
    twostate predicate Kept()
      reads this
    {
      && Valid() && start == old(start) && plan == old(plan)
      && active == old(active) && version == old(version) && |slots| == |old(slots)| && budget <= old(budget)
      && (active < |slots| ==> slots[active] == old(slots)[active])
    }

    constructor (k: Kernel, calls: nat)
      ensures K() == k && budget == calls && Valid()
    {
      heap, slots, active, version, budget := k.heap, k.slots, k.active, k.version, calls;
      start, plan, done, todo := k, [], [], [];
    }

    ghost method Begin(ws: seq<Write>)
      modifies `start, `plan, `done, `todo
      ensures Valid() && start == K() && plan == todo == ws
    {
      start, plan, done, todo := K(), ws, [], ws;
    }

    method Issue(w: Write) returns (ok: bool)
      requires Valid() && todo != [] && todo[0] == w && !w.Commit?
      requires w.SetNode? || w.SetFlags? || w.Install? ==> w.slot != active
      modifies this
      ensures Kept() && (ok <==> old(budget) > 0)
      ensures if ok then todo == old(todo)[1..] && K() == Exec(old(K()), w) && budget == old(budget) - 1
              else todo == old(todo) && budget == 0
    {
      ok := budget > 0;
      if !ok { return; }
      budget := budget - 1;
      var k := Exec(Kernel(heap, slots, active, version), w);
      heap, slots, active, version := k.heap, k.slots, k.active, k.version;
      ExecAllConcat(start, done, [w]);
      ExecOne(ExecAll(start, done), w);
      done, todo := done + [w], todo[1..];
    }

    /** commit: the only write of active_config. */
    method Flip(w: Write) returns (ok: bool)
      requires Valid() && todo == [w] && w.Commit?
      modifies this
      ensures Valid() && start == old(start) && plan == old(plan) && (ok <==> old(budget) > 0)
      ensures if ok then todo == [] && K() == Exec(old(K()), w) else todo == old(todo) && K() == old(K()) && budget == 0
    {
      ok := budget > 0;
      if !ok { return; }
      budget := budget - 1;
      active, version := w.slot, w.version;
      ExecAllConcat(start, done, [w]);
      ExecOne(ExecAll(start, done), w);
      done, todo := done + [w], [];
    }

    /** One map update during the build. */
    method Update(ids: map<Outer, MapId>, p: Put, ghost ps: seq<Put>, ghost rest: seq<Write>) returns (ok: bool)
      requires Valid() && (forall o: Outer :: o in ids)
      requires todo == Stores(ids, [p] + ps) + rest
      modifies this
      ensures Kept() && (if ok then todo == Stores(ids, ps) + rest && budget < old(budget) else budget == 0)
    {
      hide Exec;
      hide ExecAll;
      StoresCons(ids, p, ps, rest);
      ok := Issue(Store(ids[p.outer], p.key, p.val));
    }

    /** apply_create_fresh_inner for each outer map. */
    method CreateInners(ids: map<Outer, MapId>, os: seq<Outer>, ghost rest: seq<Write>) returns (ok: bool)
      requires Valid() && (forall o: Outer :: o in ids)
      requires todo == Creates(ids, os) + rest
      modifies this
      ensures Kept() && (if ok then todo == rest else budget == 0)
    {
      hide Exec;
      hide ExecAll;
      for i := 0 to |os|
        invariant Kept() && todo == Creates(ids, os)[i..] + rest
      {
        ok := Issue(Create(ids[os[i]]));
        if !ok { return; }
      }
      ok := true;
    }

    /** apply_install_inner for each outer map; carrying forward passes the active slot's ids. */
    method InstallInners(b: nat, ids: map<Outer, MapId>, os: seq<Outer>, ghost rest: seq<Write>) returns (ok: bool)
      requires Valid() && (forall o: Outer :: o in ids)
      requires b != active && todo == Installs(b, ids, os) + rest
      modifies this
      ensures Kept() && (if ok then todo == rest else budget == 0)
    {
      hide Exec;
      hide ExecAll;
      for i := 0 to |os|
        invariant Kept() && todo == Installs(b, ids, os)[i..] + rest
      {
        ok := Issue(Install(b, os[i], ids[os[i]]));
        if !ok { return; }
      }
      ok := true;
    }

    /** The body of the whitelist loop: a filter key for long prefixes, then the trie key. */
    method WriteSource(ids: map<Outer, MapId>, dp: nat, source: Cidr, ghost more: seq<Put>, ghost rest: seq<Write>)
      returns (ok: bool)
      requires Valid() && (forall o: Outer :: o in ids)
      requires todo == Stores(ids, WlEntryPuts(dp, source) + more) + rest
      modifies this
      ensures Kept() && (if ok then todo == Stores(ids, more) + rest && budget < old(budget) else budget == 0)
    {
      hide Exec;
      hide ExecAll;
      hide Mask;
      hide Canon;
      RoundPuts(dp, source, more);
      hide WlEntryPuts;
      var trie := Put(WlLpmMap, Lpm(dp, Canon(source)), Present);
      if source.len >= WL_BLOOM_PREFIX {
        ok := Update(ids, Put(WlBloomMap, Bloom(dp, Mask(source.addr, WL_BLOOM_PREFIX)), Present), [trie] + more, rest);
        if !ok { return; }
      }
      ok := Update(ids, trie, more, rest);
    }

    /** The whitelist loop of apply_write_service, with its 16-bit index: it ends because every round
        writes and the number of writes is limited. */
    method WriteWhitelist(ids: map<Outer, MapId>, dp: nat, wl: seq<Cidr>, ghost patience: nat, ghost ps: seq<Put>,
                          ghost rest: seq<Write>)
      returns (ok: bool)
      requires Valid() && (forall o: Outer :: o in ids) && patience > budget
      requires todo == Stores(ids, WlWrites(dp, wl, patience) + ps) + rest
      modifies this
      ensures Kept()
      ensures ok ==> WlOk(wl) && todo == Stores(ids, ps) + rest
      ensures !ok ==> !WlOk(wl) || budget == 0
      ensures !WlEnds(wl) ==> !ok && budget == 0
    {
      hide Exec;
      hide ExecAll;
      hide Mask;
      hide Canon;
      hide WlEnds;
      hide WlWrites;
      hide Ahead;
      hide WlOk;
      hide WlEntryPuts;
      hide WlIndexAfter;
      hide Stores;
      StartAhead(dp, wl, patience);
      var i := 0;
      ghost var rounds := patience;
      while i < |wl|
        invariant 0 <= i <= |wl| && i <= WL_MAX && Kept() && rounds > budget
        invariant WlEnds(wl) ==> forall c :: c in wl[..i] ==> c.len <= 32
        invariant todo == Stores(ids, Ahead(dp, wl, i, rounds) + ps) + rest
        decreases budget
      {
        var source := wl[i];
        OneRound(dp, wl, i, rounds);
        if source.len > 32 { return false; }
        ghost var next := Ahead(dp, wl, WlIndexAfter(i), rounds - 1);
        assert WlEntryPuts(dp, source) + next + ps == WlEntryPuts(dp, source) + (next + ps);
        ok := WriteSource(ids, dp, source, next + ps, rest);
        if !ok { return; }
        i := WlIndexAfter(i);
        rounds := rounds - 1;
      }
      EndIsProper(dp, wl, i, rounds);
      assert [] + ps == ps;
      ok := true;
    }

    /** apply_write_service up to the rate maps. */
    method WriteRates(ids: map<Outer, MapId>, s: Service, n: Knobs, ghost ps: seq<Put>, ghost rest: seq<Write>)
      returns (ok: bool)
      requires Valid() && (forall o: Outer :: o in ids) && KnobsOk(n)
      requires todo == Stores(ids, RatePuts(s, n) + ps) + rest
      modifies this
      ensures Kept() && (if ok then todo == Stores(ids, ps) + rest else budget == 0)
    {
      hide Exec;
      hide ExecAll;
      hide BudgetOf;
      var svc, fair := Put(SvcRlMap, Id(s.dpId), SvcRlEntry(s)), Put(FairMap, Id(s.dpId), FairEntry(s, n));
      if WlActive(s.wlFlags) {
        var vip := Put(VipMap, Id(s.dpId), VipEntry(s));
        assert RatePuts(s, n) + ps == [vip] + ([svc] + ([fair] + ps));
        ok := Update(ids, vip, [svc] + ([fair] + ps), rest);
        if !ok { return; }
      } else {
        assert RatePuts(s, n) + ps == [svc] + ([fair] + ps);
      }
      ok := Update(ids, svc, [fair] + ps, rest);
      if !ok { return; }
      ok := Update(ids, fair, ps, rest);
    }

    /** apply_write_service, with the saturating sum of committed rates. */
    method WriteService(ids: map<Outer, MapId>, s: Service, n: Knobs, sum: nat, ghost ps: seq<Put>, ghost rest: seq<Write>)
      returns (ok: bool, sum': nat)
      requires Valid() && (forall o: Outer :: o in ids) && KnobsOk(n) && n.patience > budget && sum < U64
      requires todo == Stores(ids, ServicePuts(s, n) + ps) + rest
      modifies this
      ensures Kept()
      ensures ok ==> ServiceOk(s) && todo == Stores(ids, ps) + rest && sum' == Min(sum + ClampRate(s.committed), U64 - 1)
      ensures !ok ==> !ServiceOk(s) || budget == 0
    {
      hide Exec;
      hide ExecAll;
      hide WlWrites;
      hide RatePuts;
      hide Canon;
      ok, sum' := false, sum;
      if !HeadOk(s) { return; }
      var entry := Put(ServiceMap, Lpm(0, Canon(s.dst)), ServiceEntry(s));
      var rules := Put(RuleBlockMap, Id(s.dpId), RuleEntry(s));
      ghost var wl, tail := WlWrites(s.dpId, s.wl, n.patience), (if WlOk(s.wl) then RatePuts(s, n) else []) + ps;
      ServicePutsSplit(s, n, ps);
      hide ServicePuts;
      hide WlOk;
      ok := Update(ids, entry, [rules] + (wl + tail), rest);
      if !ok { return; }
      ok := Update(ids, rules, wl + tail, rest);
      if !ok { return; }
      ok := WriteWhitelist(ids, s.dpId, s.wl, n.patience, tail, rest);
      if !ok { return; }
      ok := WriteRates(ids, s, n, ps, rest);
      if !ok { return; }
      var b := BudgetOf(s.committed, s.ceiling, n.k, n.refPkt);
      sum' := if U64 - 1 - sum < b.committed then U64 - 1 else sum + b.committed;
    }

    /** The service loop of build_inactive_slot. */
    method WriteServices(ids: map<Outer, MapId>, ss: seq<Service>, n: Knobs, ghost rest: seq<Write>)
      returns (ok: bool, sum: nat)
      requires Valid() && (forall o: Outer :: o in ids) && KnobsOk(n) && n.patience > budget
      requires todo == Stores(ids, NodePuts(ss, n)) + rest
      modifies this
      ensures Kept()
      ensures ok ==> NodeOk(ss) && todo == rest && sum == SumCommitted(ss)
      ensures !ok ==> !NodeOk(ss) || budget == 0
    {
      hide Exec;
      hide ExecAll;
      hide ServicePuts;
      hide ServiceOk;
      hide ClampRate;
      hide NodePuts;
      hide SumCommitted;
      NoneLeft(ss, n);
      sum := 0;
      assert ss[0..] == ss;
      for i := 0 to |ss|
        invariant Kept() && NodeOk(ss[..i]) && sum == SumCommitted(ss[..i]) && sum < U64
        invariant todo == Stores(ids, NodePuts(ss[i..], n)) + rest
      {
        assert ss[i] in ss && ss[..i + 1] == ss[..i] + [ss[i]];
        OneMoreService(ss, n, i);
        ghost var more := if ServiceOk(ss[i]) then NodePuts(ss[i + 1..], n) else [];
        ok, sum := WriteService(ids, ss[i], n, sum, more, rest);
        if !ok { return; }
      }
      assert ss[..|ss|] == ss;
      assert Stores(ids, []) + rest == rest;
      ok := true;
    }

    /** verify_slot: read-only structural check of the candidate slot. */
    method VerifySlot(ss: seq<Service>, expected: NodeConfig) returns (ok: bool)
      requires Ok(K()) && NodeOk(ss)
      ensures var b := 1 - active;
              ok <==> && VerifyNode(heap[slots[b].inner[ServiceMap]], heap[slots[b].inner[RuleBlockMap]], ss)
                      && slots[b].node == expected && slots[b].flags == slots[active].flags
    {
      hide VerifyService;
      var b := 1 - active;
      var services, rules := heap[slots[b].inner[ServiceMap]], heap[slots[b].inner[RuleBlockMap]];
      for i := 0 to |ss|
        invariant NodeOk(ss[..i]) && VerifyNode(services, rules, ss[..i])
      {
        assert ss[i] in ss && ss[..i + 1] == ss[..i] + [ss[i]];
        if !VerifyService(services, rules, ss[i]) { return false; }
      }
      assert ss[..|ss|] == ss;
      ok := slots[b].node == expected && slots[b].flags == slots[active].flags;
    }

    /** build_inactive_slot. */
    method BuildInactiveSlot(ss: seq<Service>, n: Knobs, ids: map<Outer, MapId>, ghost rest: seq<Write>)
      returns (ok: bool, sum: nat)
      requires Valid() && active < SLOTS && KnobsOk(n) && n.patience > budget && (forall o: Outer :: o in ids)
      requires todo == BuildPlan(1 - active, ss, n, ids, rest)
      modifies this
      ensures Kept()
      ensures ok ==> NodeOk(ss) && todo == rest && sum == SumCommitted(ss)
      ensures !ok ==> !NodeOk(ss) || budget == 0
    {
      hide Exec;
      hide ExecAll;
      hide NodePuts;
      hide SumCommitted;
      hide NodeOk;
      hide Headroom;
      var b := 1 - active;
      sum := 0;
      ghost var install := Installs(b, ids, SERVICE_LIST) + rest;
      ghost var finish := if NodeOk(ss) then [SetNode(b, NodeEntry(ss, n))] + install else [];
      ok := CreateInners(ids, SERVICE_LIST, Stores(ids, NodePuts(ss, n)) + finish);
      if !ok { return; }
      ok, sum := WriteServices(ids, ss, n, finish);
      if !ok { return; }
      ok := Issue(SetNode(b, NodeConfig(CONFIG_VERSION, Headroom(n.capacity, sum))));
      if !ok { return; }
      assert todo == install;
      ok := InstallInners(b, ids, SERVICE_LIST, rest);
    }

    /** carry_forward_feed. */
    method CarryForwardFeed(ghost rest: seq<Write>) returns (ok: bool)
      requires Valid() && active < SLOTS == |slots| && (forall o: Outer :: o in slots[active].inner)
      requires todo == CarryPlan(K(), rest)
      modifies this
      ensures Kept() && (if ok then todo == rest else budget == 0)
    {
      hide Exec;
      hide ExecAll;
      var b := 1 - active;
      ok := InstallInners(b, slots[active].inner, FEED_LIST, [SetFlags(b, slots[active].flags)] + rest);
      if !ok { return; }
      ok := Issue(SetFlags(b, slots[active].flags));
      assert ok ==> todo == rest;
    }

    /** apply_node_cfg. Whatever happens, the maps hold a prefix of the plan's writes; the call reports
        success exactly when the whole plan, flip included, was written. */
    method ApplyNodeCfg(ss: seq<Service>, settings: Knobs, ids: map<Outer, MapId>) returns (ok: bool)
      requires Ok(K()) && KnobsOk(settings) && (forall o: Outer :: o in ids) && Fresh(K(), ids, SERVICE_LIST)
      modifies this
      ensures Valid() && start == old(K())
      ensures plan == ServicePlan(old(K()), ss, settings.(patience := old(budget) + 1), ids)
      ensures ok ==> ReadsBack(ss, settings) && todo == []
      ensures ok ==> Flipped(old(K()), K(), ServiceTarget(View(old(K()), old(active)), ss, settings))
      ensures !ok ==> active == old(active) && version == old(version)
      ensures !ok ==> budget == 0 || !ReadsBack(ss, settings)
    {
      hide Exec;
      hide ExecAll;
      hide NodePuts;
      hide SumCommitted;
      hide Headroom;
      hide NodeOk;
      hide VerifyNode;
      hide Contents;
      hide BuildPlan;
      hide BuiltAt;
      hide Flipped;
      hide ServiceTarget;
      ghost var k := K();
      var n := settings.(patience := budget + 1);
      PatienceOnlyForEndless(ss, settings, n);
      Begin(ServicePlan(k, ss, n, ids));
      ServiceStages(k, ss, n, ids);
      ghost var flip := if ReadsBack(ss, n) then [CommitOf(k)] else [];
      var sum: nat;
      ok, sum := BuildInactiveSlot(ss, n, ids, CarryPlan(k, flip));
      if !ok { return; }
      ok := CarryForwardFeed(flip);
      if !ok { return; }
      ServiceBodyIsBuilt(k, K(), done, ss, n, ids);
      var node := NodeConfig(CONFIG_VERSION, Headroom(n.capacity, sum));
      ok := VerifySlot(ss, node);
      if !ok { return; }
      FlipShows(k, K(), ServiceTarget(View(k, k.active), ss, n));
      ok := Flip(Commit(1 - active, (version + 1) % U32));
    }

    /** global_bloom_insert: one filter key per covered /24. */
    method InsertFilterKeys(ids: map<Outer, MapId>, e: Cidr, ghost ps: seq<Put>, ghost rest: seq<Write>) returns (ok: bool)
      requires Valid() && (forall o: Outer :: o in ids)
      requires todo == Stores(ids, BloomPuts(e) + ps) + rest
      modifies this
      ensures Kept() && (if ok then todo == Stores(ids, ps) + rest else budget == 0)
    {
      hide Exec;
      hide ExecAll;
      hide Mask;
      if e.len < EXPAND_FLOOR {
        assert BloomPuts(e) + ps == ps;
        return true;
      }
      var first, buckets := Mask(e.addr, BLOOM_PREFIX), if e.len < BLOOM_PREFIX then Pow2(BLOOM_PREFIX - e.len) else 1;
      assert BloomPuts(e)[0..] == BloomPuts(e);
      for i := 0 to buckets
        invariant Kept() && todo == Stores(ids, BloomPuts(e)[i..] + ps) + rest
      {
        var p := Put(GblBloomMap, Bloom(0, first + i * 256), Present);
        assert BloomPuts(e)[i..] + ps == [p] + (BloomPuts(e)[i + 1..] + ps);
        ok := Update(ids, p, BloomPuts(e)[i + 1..] + ps, rest);
        if !ok { return; }
      }
      assert BloomPuts(e)[buckets..] + ps == ps;
      ok := true;
    }

    /** The entry loop of build_global_deny_slot. */
    method WriteEntries(ids: map<Outer, MapId>, es: seq<Cidr>, broad: bool, ghost rest: seq<Write>) returns (ok: bool)
      requires Valid() && (forall o: Outer :: o in ids)
      requires todo == Stores(ids, GlobalPuts(es, broad)) + rest
      modifies this
      ensures Kept() && (if ok then todo == rest else budget == 0)
    {
      hide Exec;
      hide ExecAll;
      hide BloomPuts;
      assert es[0..] == es;
      for i := 0 to |es|
        invariant Kept() && todo == Stores(ids, GlobalPuts(es[i..], broad)) + rest
      {
        assert es[i..][1..] == es[i + 1..];
        var p := Put(GblLpmMap, Lpm(0, es[i]), Present);
        ghost var more := GlobalPuts(es[i + 1..], broad);
        assert GlobalPuts(es[i..], broad) == [p] + ((if broad then [] else BloomPuts(es[i])) + more);
        ok := Update(ids, p, (if broad then [] else BloomPuts(es[i])) + more, rest);
        if !ok { return; }
        assert [] + more == more;
        if !broad {
          ok := InsertFilterKeys(ids, es[i], more, rest);
          if !ok { return; }
        }
      }
      assert Stores(ids, []) + rest == rest;
      ok := true;
    }

    /** verify_global_lpm: walk and count the trie's keys, then look every entry up. */
    static method VerifyTrie(trie: Inner, es: seq<Cidr>) returns (ok: bool)
      requires forall e :: e in es ==> e.len <= 32
      ensures ok <==> |trie.Keys| == |es| && forall e :: e in es ==> LpmLookup(trie, 0, e.addr, e.len) == Some(Present)
    {
      hide LpmLookup;
      var left, count := trie.Keys, 0;
      while left != {}
        invariant count + |left| == |trie.Keys| && count <= |es|
        decreases left
      {
        var key :| key in left;
        left, count := left - {key}, count + 1;
        if count > |es| { return false; }
      }
      if count != |es| { return false; }
      for i := 0 to |es|
        invariant forall e :: e in es[..i] ==> LpmLookup(trie, 0, e.addr, e.len) == Some(Present)
      {
        assert es[i] in es && es[..i + 1] == es[..i] + [es[i]];
        if LpmLookup(trie, 0, es[i].addr, es[i].len) != Some(Present) { return false; }
      }
      assert es[..|es|] == es;
      ok := true;
    }

    /** verify_global_deny_slot: identities of carried and rebuilt maps, node settings, flags, trie. */
    method VerifyGlobalSlot(es: seq<Cidr>, expected: DenyFlags) returns (ok: bool)
      requires Ok(K()) && forall e :: e in es ==> e.len <= 32
      ensures ok <==> DenySlotOk(K(), es, expected)
    {
      hide LpmLookup;
      var act, can, kept := slots[active], slots[1 - active], SERVICE_LIST + [PortsMap];
      for i := 0 to |kept|
        invariant forall o :: o in kept[..i] ==> can.inner[o] == act.inner[o]
      {
        assert kept[i] in kept && kept[..i + 1] == kept[..i] + [kept[i]];
        if can.inner[kept[i]] != act.inner[kept[i]] { return false; }
      }
      assert kept[..|kept|] == kept;
      for i := 0 to |GLOBAL_LIST|
        invariant forall o :: o in GLOBAL_LIST[..i] ==> can.inner[o] != act.inner[o]
      {
        assert GLOBAL_LIST[i] in GLOBAL_LIST && GLOBAL_LIST[..i + 1] == GLOBAL_LIST[..i] + [GLOBAL_LIST[i]];
        if can.inner[GLOBAL_LIST[i]] == act.inner[GLOBAL_LIST[i]] { return false; }
      }
      assert GLOBAL_LIST[..|GLOBAL_LIST|] == GLOBAL_LIST;
      if can.node != act.node || can.flags != expected { return false; }
      ok := VerifyTrie(heap[can.inner[GblLpmMap]], es);
    }

    /** carry_forward_service_config. */
    method CarryForwardService(ghost rest: seq<Write>) returns (ok: bool)
      requires Valid() && active < SLOTS == |slots| && (forall o: Outer :: o in slots[active].inner)
      requires todo == KeepPlan(K(), rest)
      modifies this
      ensures Kept() && (if ok then todo == rest else budget == 0)
    {
      hide Exec;
      hide ExecAll;
      var b := 1 - active;
      ok := InstallInners(b, slots[active].inner, SERVICE_LIST + [PortsMap], [SetNode(b, slots[active].node)] + rest);
      if !ok { return; }
      ok := Issue(SetNode(b, slots[active].node));
      assert ok ==> todo == rest;
    }

    /** build_global_deny_slot. */
    method BuildGlobalSlot(es: seq<Cidr>, ids: map<Outer, MapId>, ghost rest: seq<Write>) returns (ok: bool, flags: DenyFlags)
      requires Valid() && active < SLOTS && (forall o: Outer :: o in ids)
      requires todo == DenyPlan(1 - active, es, ids, rest)
      modifies this
      ensures Kept()
      ensures ok ==> |es| <= MAX_GLOBAL_ENTRIES && EntriesOk(es) && todo == rest && flags == FlagsFor(es)
      ensures !ok ==> budget == 0 || |es| > MAX_GLOBAL_ENTRIES || !EntriesOk(es)
    {
      hide Exec;
      hide ExecAll;
      hide GlobalPuts;
      hide PlanAll;
      hide EntriesOk;
      var b := 1 - active;
      ok, flags := false, DenyFlags(false, false);
      var planned := GlobalBloomPlan(es);
      if planned.None? { return; }
      flags := planned.value.0;
      ghost var tail := [SetFlags(b, flags)] + (Installs(b, ids, GLOBAL_LIST) + rest);
      ok := CreateInners(ids, GLOBAL_LIST, Stores(ids, GlobalPuts(es, flags.broad)) + tail);
      if !ok { return; }
      ok := WriteEntries(ids, es, flags.broad, tail);
      if !ok { return; }
      ok := Issue(SetFlags(b, flags));
      if !ok { return; }
      assert todo == Installs(b, ids, GLOBAL_LIST) + rest;
      ok := InstallInners(b, ids, GLOBAL_LIST, rest);
    }

    /** apply_global_deny_cfg. The read-back never refuses what this helper wrote: the call fails only
        for a bad list or a failed write. */
    method ApplyGlobalDenyCfg(es: seq<Cidr>, ids: map<Outer, MapId>) returns (ok: bool)
      requires Ok(K()) && (forall o: Outer :: o in ids) && Fresh(K(), ids, GLOBAL_LIST)
      modifies this
      ensures Valid() && start == old(K()) && plan == GlobalPlan(old(K()), es, ids)
      ensures ok ==> todo == [] && Flipped(old(K()), K(), GlobalTarget(View(old(K()), old(active)), es))
      ensures !ok ==> active == old(active) && version == old(version)
      ensures !ok ==> budget == 0 || |es| > MAX_GLOBAL_ENTRIES || !EntriesOk(es)
    {
      hide Exec;
      hide ExecAll;
      hide PlanAll;
      hide EntriesOk;
      hide LpmLookup;
      hide DenyPlan;
      hide DenySlotOk;
      hide BuiltAt;
      hide Flipped;
      hide GlobalTarget;
      hide GlobalPlan;
      ghost var k := K();
      Begin(GlobalPlan(k, es, ids));
      GlobalStages(k, es, ids);
      ok := CarryForwardService(DenyPlan(1 - active, es, ids, [CommitOf(k)]));
      if !ok { return; }
      var flags: DenyFlags;
      ok, flags := BuildGlobalSlot(es, ids, [CommitOf(k)]);
      if !ok { return; }
      GlobalBodyIsBuilt(k, K(), done, es, ids);
      ok := VerifyGlobalSlot(es, flags);
      if !ok { assert false; }
      FlipShows(k, K(), GlobalTarget(View(k, k.active), es));
      ok := Flip(Commit(1 - active, (version + 1) % U32));
    }
  }

  /** The writes of build_inactive_slot, followed by `rest` if it succeeds. */
  function BuildPlan(b: nat, ss: seq<Service>, n: Knobs, ids: map<Outer, MapId>, rest: seq<Write>): seq<Write>
    requires KnobsOk(n) && forall o: Outer :: o in ids
  {
    Creates(ids, SERVICE_LIST)
    + (Stores(ids, NodePuts(ss, n))
       + if NodeOk(ss) then [SetNode(b, NodeEntry(ss, n))] + (Installs(b, ids, SERVICE_LIST) + rest) else [])
  }

  /** The writes of carry_forward_feed, followed by `rest`. */
  function CarryPlan(k: Kernel, rest: seq<Write>): seq<Write>
    requires k.active < SLOTS == |k.slots| && forall o: Outer :: o in k.slots[k.active].inner
  {
    Installs(Inactive(k), k.slots[k.active].inner, FEED_LIST) + ([SetFlags(Inactive(k), k.slots[k.active].flags)] + rest)
  }

  lemma RegroupDeny<T>(a: seq<T>, b: seq<T>, c: seq<T>, d: seq<T>, e: seq<T>, f: seq<T>, g: seq<T>)
    ensures a + b + (c + d) + e + f + g == a + (b + (c + (d + (e + (f + g)))))
    ensures a + b == a + (b + [])
  {
  }

  lemma ServiceStages(k: Kernel, ss: seq<Service>, n: Knobs, ids: map<Outer, MapId>)
    requires Ok(k) && KnobsOk(n) && (forall o: Outer :: o in ids)
    ensures ServicePlan(k, ss, n, ids) ==
            BuildPlan(Inactive(k), ss, n, ids, CarryPlan(k, if ReadsBack(ss, n) then [CommitOf(k)] else []))
  {
    hide NodePuts;
    hide Contents;
    hide VerifyNode;
    hide NodeOk;
    hide NodeEntry;
  }

  /** With everything but the flip written, the candidate slot shows the snapshot. */
  lemma ServiceBodyIsBuilt(k: Kernel, k': Kernel, done: seq<Write>, ss: seq<Service>, n: Knobs, ids: map<Outer, MapId>)
    requires Ok(k) && KnobsOk(n) && Fresh(k, ids, SERVICE_LIST) && NodeOk(ss) && k' == ExecAll(k, done)
    requires done + (if ReadsBack(ss, n) then [CommitOf(k)] else []) == ServicePlan(k, ss, n, ids)
    ensures var b, ps := Inactive(k), NodePuts(ss, n);
            && Ok(k') && BuiltAt(k, k', b, ServiceTarget(View(k, k.active), ss, n))
            && k'.slots[b].node == NodeEntry(ss, n) && k'.slots[b].flags == k'.slots[k.active].flags
            && k'.heap[k'.slots[b].inner[ServiceMap]] == Contents(ps, ServiceMap)
            && k'.heap[k'.slots[b].inner[RuleBlockMap]] == Contents(ps, RuleBlockMap)
  {
    hide VerifyNode;
    hide NodeOk;
    hide ServicePlan;
    hide ExecAll;
    hide Contents;
    hide NodePuts;
    hide NodeEntry;
    hide ServiceBody;
    ServicePlanShape(k, ss, n, ids);
    var flip := if ReadsBack(ss, n) then [CommitOf(k)] else [];
    assert ServiceBody(k, ss, n, ids) + [] == ServiceBody(k, ss, n, ids);
    CancelRight(done, ServiceBody(k, ss, n, ids), flip);
    ServiceBodyEffect(k, ss, n, ids);
    var v := View(k', Inactive(k));
    assert v.inner[ServiceMap] == Contents(NodePuts(ss, n), ServiceMap);
    assert v.inner[RuleBlockMap] == Contents(NodePuts(ss, n), RuleBlockMap);
  }

  /** The writes of carry_forward_service_config, followed by `rest`. */
  function KeepPlan(k: Kernel, rest: seq<Write>): seq<Write>
    requires k.active < SLOTS == |k.slots| && forall o: Outer :: o in k.slots[k.active].inner
  {
    Installs(Inactive(k), k.slots[k.active].inner, SERVICE_LIST + [PortsMap])
    + ([SetNode(Inactive(k), k.slots[k.active].node)] + rest)
  }

  /** The writes of build_global_deny_slot, followed by `rest` if it succeeds. */
  function DenyPlan(b: nat, es: seq<Cidr>, ids: map<Outer, MapId>, rest: seq<Write>): seq<Write>
    requires forall o: Outer :: o in ids
  {
    if |es| <= MAX_GLOBAL_ENTRIES && EntriesOk(es) then
      Creates(ids, GLOBAL_LIST)
      + (Stores(ids, GlobalPuts(es, FlagsFor(es).broad))
         + ([SetFlags(b, FlagsFor(es))] + (Installs(b, ids, GLOBAL_LIST) + rest)))
    else []
  }

  lemma GlobalStages(k: Kernel, es: seq<Cidr>, ids: map<Outer, MapId>)
    requires Ok(k) && (forall o: Outer :: o in ids)
    ensures GlobalPlan(k, es, ids) == KeepPlan(k, DenyPlan(Inactive(k), es, ids, [CommitOf(k)]))
  {
    hide GlobalPuts;
    hide PlanAll;
    hide EntriesOk;
    hide Installs;
    hide Creates;
    hide Stores;
    hide GlobalPlan;
    hide GlobalBody;
    GlobalPlanShape(k, es, ids);
    GlobalBodyShape(k, es, ids);
    var b, act := Inactive(k), k.slots[k.active];
    var a, n := Installs(b, act.inner, SERVICE_LIST + [PortsMap]), [SetNode(b, act.node)];
    var c, d := Creates(ids, GLOBAL_LIST), Stores(ids, GlobalPuts(es, FlagsFor(es).broad));
    var e, f := [SetFlags(b, FlagsFor(es))], Installs(b, ids, GLOBAL_LIST);
    RegroupDeny(a, n, c, d, e, f, [CommitOf(k)]);
  }

  lemma GlobalBodyShape(k: Kernel, es: seq<Cidr>, ids: map<Outer, MapId>)
    requires Ok(k) && (forall o: Outer :: o in ids)
    ensures var b, act := Inactive(k), k.slots[k.active];
            GlobalBody(k, es, ids) ==
            Installs(b, act.inner, SERVICE_LIST + [PortsMap]) + [SetNode(b, act.node)]
            + (Creates(ids, GLOBAL_LIST) + Stores(ids, GlobalPuts(es, FlagsFor(es).broad)))
            + [SetFlags(b, FlagsFor(es))] + Installs(b, ids, GLOBAL_LIST)
  {
    hide GlobalPuts;
    hide PlanAll;
  }

  lemma {:induction false} DistinctCount(es: seq<Cidr>, keys: set<Key>)
    requires forall i, j :: 0 <= i < j < |es| ==> es[i] != es[j]
    requires forall key :: key in keys <==> key.Lpm? && key.ns == 0 && key.c in es
    ensures |keys| == |es|
    decreases es
  {
    if es == [] {
      assert keys == {};
    } else {
      var first := Lpm(0, es[0]);
      assert first in keys;
      DistinctCount(es[1..], keys - {first});
    }
  }

  lemma {:induction false} SortedDiffer(es: seq<Cidr>, i: nat, j: nat)
    requires EntriesOk(es) && i < j < |es|
    ensures Before(es[i], es[j])
    decreases j
  {
    if i < j - 1 {
      SortedDiffer(es, i, j - 1);
    }
  }

  lemma ExactLookup(trie: Inner, e: Cidr)
    requires Canonical(e) && Lpm(0, e) in trie
    ensures LpmLookup(trie, 0, e.addr, e.len) == Some(trie[Lpm(0, e)])
  {
    MatchIsMask(e, e.addr);
  }

  /** With everything but the flip written, the read-back of the deny half succeeds. */
  lemma TriePasses(es: seq<Cidr>, broad: bool)
    requires EntriesOk(es)
    ensures var trie := Contents(GlobalPuts(es, broad), GblLpmMap);
            |trie.Keys| == |es| && forall e :: e in es ==> LpmLookup(trie, 0, e.addr, e.len) == Some(Present)
  {
    hide Contents;
    hide GlobalPuts;
    var ps := GlobalPuts(es, broad);
    var trie := Contents(ps, GblLpmMap);
    forall key ensures key in trie.Keys <==> key.Lpm? && key.ns == 0 && key.c in es {
      TrieKeys(es, broad, key);
    }
    forall i, j | 0 <= i < j < |es| ensures es[i] != es[j] {
      SortedDiffer(es, i, j);
    }
    DistinctCount(es, trie.Keys);
    forall e | e in es ensures LpmLookup(trie, 0, e.addr, e.len) == Some(Present) {
      TrieKeys(es, broad, Lpm(0, e));
      ExactLookup(trie, e);
    }
  }

  lemma TrieKeys(es: seq<Cidr>, broad: bool, key: Key)
    ensures var trie := Contents(GlobalPuts(es, broad), GblLpmMap);
            && (key in trie <==> key.Lpm? && key.ns == 0 && key.c in es)
            && (key in trie ==> trie[key] == Present)
  {
    hide BloomPuts;
    var ps := GlobalPuts(es, broad);
    ContentsMember(ps, GblLpmMap, key);
    forall p | p in ps && p.outer == GblLpmMap ensures p.val == Present && p.key.Lpm? && p.key.ns == 0 {
      GlobalPutsMember(es, broad, p);
    }
    if key.Lpm? && key.ns == 0 {
      TrieHoldsEntries(es, broad, key.c);
    }
    if key in Contents(ps, GblLpmMap) {
      ContentsValue(ps, GblLpmMap, key, Present);
    }
  }

  lemma GlobalBodyIsBuilt(k: Kernel, k': Kernel, done: seq<Write>, es: seq<Cidr>, ids: map<Outer, MapId>)
    requires Ok(k) && Fresh(k, ids, GLOBAL_LIST) && EntriesOk(es) && |es| <= MAX_GLOBAL_ENTRIES
    requires k' == ExecAll(k, done) && done + [CommitOf(k)] == GlobalPlan(k, es, ids)
    ensures Ok(k') && BuiltAt(k, k', Inactive(k), GlobalTarget(View(k, k.active), es)) && forall e :: e in es ==> e.len <= 32
    ensures DenySlotOk(k', es, FlagsFor(es))
  {
    hide ExecAll;
    hide GlobalBody;
    hide GlobalPlan;
    hide GlobalTarget;
    hide BuiltAt;
    hide Wired;
    hide DenySlotOk;
    GlobalPlanShape(k, es, ids);
    CancelRight(done, GlobalBody(k, es, ids), [CommitOf(k)]);
    GlobalBodyEffect(k, es, ids);
    WiredSlotOk(k, k', es, ids);
  }

  lemma WiredSlotOk(k: Kernel, k': Kernel, es: seq<Cidr>, ids: map<Outer, MapId>)
    requires Ok(k) && Fresh(k, ids, GLOBAL_LIST) && EntriesOk(es) && |es| <= MAX_GLOBAL_ENTRIES
    requires Wired(k, k', ids, GLOBAL_LIST, SERVICE_LIST + [PortsMap])
    requires BuiltAt(k, k', Inactive(k), GlobalTarget(View(k, k.active), es))
    ensures Ok(k') && (forall e :: e in es ==> e.len <= 32) && DenySlotOk(k', es, FlagsFor(es))
  {
    hide Contents;
    hide GlobalPuts;
    hide PlanAll;
    hide LpmLookup;
    var v := View(k', Inactive(k));
    assert v.inner[GblLpmMap] == Contents(GlobalPuts(es, FlagsFor(es).broad), GblLpmMap);
    TriePasses(es, FlagsFor(es).broad);
  }

  lemma CancelRight<T>(a: seq<T>, b: seq<T>, c: seq<T>)
    requires a + c == b + c
    ensures a == b
  {
    assert |a| == |b|;
    assert a == (a + c)[..|a|] && b == (b + c)[..|b|];
  }
}
