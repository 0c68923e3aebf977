/** What executing a whole plan, or any part of one, does to the pinned maps. */
module ApplyEffect {
  import opened Ipv4
  import opened Snapshot
  import opened Bpf
  import opened DenyList
  import opened ApplyPlan

  /** The kernel hands out ids that are not in use and differ from each other. */
  ghost predicate Fresh(k: Kernel, ids: map<Outer, MapId>, os: seq<Outer>)
  {
    && (forall o :: o in os ==> o in ids && ids[o] !in k.heap)
    && (forall i, j :: 0 <= i < j < |os| ==> os[i] != os[j] && ids[os[i]] != ids[os[j]])
  }

  ghost predicate SameSlots(k: Kernel, k': Kernel)
  {
    k'.slots == k.slots && k'.active == k.active && k'.version == k.version
  }

  lemma {:induction false} CreatesEffect(k: Kernel, ids: map<Outer, MapId>, os: seq<Outer>)
    requires Fresh(k, ids, os)
    ensures var k' := ExecAll(k, Creates(ids, os));
            && SameSlots(k, k')
            && (forall id :: id in k.heap ==> id in k'.heap && k'.heap[id] == k.heap[id])
            && (forall o :: o in os ==> ids[o] in k'.heap && k'.heap[ids[o]] == map[])
    decreases |os|
  {
    if os != [] {
      var w := Create(ids[os[0]]);
      var k1 := Exec(k, w);
      assert Creates(ids, os)[1..] == Creates(ids, os[1..]);
      assert Fresh(k1, ids, os[1..]);
      CreatesEffect(k1, ids, os[1..]);
      assert k1.heap[ids[os[0]]] == map[];
      forall o | o in os ensures o == os[0] || o in os[1..] {}
    }
  }

  ghost predicate Private(k: Kernel, ids: map<Outer, MapId>, os: seq<Outer>)
  {
    && (forall o :: o in os ==> o in ids && ids[o] in k.heap)
    && (forall o, q :: o in os && q in os && o != q ==> ids[o] != ids[q])
  }

  lemma {:induction false} StoresEffect(k: Kernel, ids: map<Outer, MapId>, os: seq<Outer>, ps: seq<Put>)
    requires Private(k, ids, os) && (forall o :: o in os ==> k.heap[ids[o]] == map[])
    requires forall p :: p in ps ==> p.outer in os
    ensures var k' := ExecAll(k, Stores(ids, ps));
            && SameSlots(k, k') && k'.heap.Keys == k.heap.Keys
            && (forall o :: o in os ==> k'.heap[ids[o]] == Contents(ps, o))
            && (forall id :: id in k.heap && (forall o :: o in os ==> ids[o] != id) ==> k'.heap[id] == k.heap[id])
  {
    if ps != [] {
      var rest, p := ps[..|ps| - 1], ps[|ps| - 1];
      StoresEffect(k, ids, os, rest);
      var w := Store(ids[p.outer], p.key, p.val);
      assert Stores(ids, ps) == Stores(ids, rest) + [w];
      ExecAllConcat(k, Stores(ids, rest), [w]);
      var k1 := ExecAll(k, Stores(ids, rest));
      assert ExecAll(k1, [w]) == Exec(k1, w);
      var k' := Exec(k1, w);
      forall o | o in os ensures k'.heap[ids[o]] == Contents(ps, o) {
        if o != p.outer {
          assert ids[o] != ids[p.outer];
        }
      }
    }
  }

  /** Fresh inner maps hold exactly the puts; everything that existed before is untouched. */
  ghost predicate Prepared(k: Kernel, k': Kernel, ids: map<Outer, MapId>, os: seq<Outer>, ps: seq<Put>)
  {
    && SameSlots(k, k')
    && (forall id :: id in k.heap ==> id in k'.heap && k'.heap[id] == k.heap[id])
    && (forall o :: o in os ==> o in ids && ids[o] in k'.heap && k'.heap[ids[o]] == Contents(ps, o))
  }

  lemma PrepareEffect(k: Kernel, ids: map<Outer, MapId>, os: seq<Outer>, ps: seq<Put>)
    requires Fresh(k, ids, os) && forall p :: p in ps ==> p.outer in os
    ensures Prepared(k, ExecAll(k, Creates(ids, os) + Stores(ids, ps)), ids, os, ps)
  {
    hide Contents;
    CreatesEffect(k, ids, os);
    var k1 := ExecAll(k, Creates(ids, os));
    assert Private(k1, ids, os) by {
      forall o, q | o in os && q in os && o != q ensures ids[o] != ids[q] {
        FreshDiffer(k, ids, os, o, q);
      }
    }
    StoresEffect(k1, ids, os, ps);
    ExecAllConcat(k, Creates(ids, os), Stores(ids, ps));
  }

  lemma FreshDiffer(k: Kernel, ids: map<Outer, MapId>, os: seq<Outer>, o: Outer, q: Outer)
    requires Fresh(k, ids, os) && o in os && q in os && o != q
    ensures ids[o] != ids[q]
  {
    var i :| 0 <= i < |os| && os[i] == o;
    var j :| 0 <= j < |os| && os[j] == q;
    if i < j {
      assert ids[os[i]] != ids[os[j]];
    } else {
      assert ids[os[j]] != ids[os[i]];
    }
  }

  lemma {:induction false} InstallsEffect(k: Kernel, b: nat, ids: map<Outer, MapId>, os: seq<Outer>)
    requires b < |k.slots|
    requires forall o :: o in os ==> o in ids && ids[o] in k.heap
    ensures var k' := ExecAll(k, Installs(b, ids, os));
            && k'.heap == k.heap && k'.active == k.active && k'.version == k.version && |k'.slots| == |k.slots|
            && (forall s :: 0 <= s < |k.slots| && s != b ==> k'.slots[s] == k.slots[s])
            && k'.slots[b].node == k.slots[b].node && k'.slots[b].flags == k.slots[b].flags
            && (forall o :: o in os ==> o in k'.slots[b].inner && k'.slots[b].inner[o] == ids[o])
            && (forall o :: o !in os && o in k.slots[b].inner ==>
                  o in k'.slots[b].inner && k'.slots[b].inner[o] == k.slots[b].inner[o])
    decreases |os|
  {
    if os != [] {
      var k1 := Exec(k, Install(b, os[0], ids[os[0]]));
      assert Installs(b, ids, os)[1..] == Installs(b, ids, os[1..]);
      InstallsEffect(k1, b, ids, os[1..]);
      forall o | o in os ensures o == os[0] || o in os[1..] {}
    }
  }

  // ----- Complete applies -----

  ghost predicate Total(v: SlotView) { forall o: Outer :: o in v.inner }

  /** The service half from the snapshot, the deny half and the port bitmap as they were. */
  ghost function ServiceTarget(v: SlotView, ss: seq<Service>, n: Knobs): SlotView
    requires KnobsOk(n) && Total(v)
  {
    SlotView(map o: Outer | true :: if IsService(o) then Contents(NodePuts(ss, n), o) else v.inner[o],
             NodeEntry(ss, n), v.flags)
  }

  /** The deny half from the snapshot, everything else as it was. */
  ghost function GlobalTarget(v: SlotView, es: seq<Cidr>): SlotView
    requires Total(v)
  {
    var flags := FlagsFor(es);
    SlotView(map o: Outer | true :: if IsGlobal(o) then Contents(GlobalPuts(es, flags.broad), o) else v.inner[o],
             v.node, flags)
  }

  /** Slot `b` now shows `target` and shares the other slot's port bitmap, the other slot shows what it
      did, and nothing was flipped. */
  ghost predicate BuiltAt(k: Kernel, k': Kernel, b: nat, target: SlotView)
    requires Ok(k) && b < SLOTS
  {
    && Ok(k') && k'.active == k.active && k'.version == k.version
    && k'.slots[1 - b] == k.slots[1 - b]
    && View(k', 1 - b) == View(k, 1 - b)
    && View(k', b) == target
    && k'.slots[b].inner[PortsMap] == k.slots[1 - b].inner[PortsMap]
  }

  ghost function Merged(v: SlotView, own: seq<Outer>, ps: seq<Put>, node: NodeConfig, flags: DenyFlags): SlotView
    requires Total(v)
  {
    SlotView(map o: Outer | true :: if o in own then Contents(ps, o) else v.inner[o], node, flags)
  }

  /** Slot `b` refers to the fresh maps for `own` and to the active slot's maps for `kept`. */
  ghost predicate Wired(k: Kernel, k': Kernel, ids: map<Outer, MapId>, own: seq<Outer>, kept: seq<Outer>)
    requires Ok(k)
  {
    var b := Inactive(k);
    && |k'.slots| == SLOTS && k'.active == k.active && k'.version == k.version
    && k'.slots[k.active] == k.slots[k.active]
    && (forall o :: o in own ==> o in ids && o in k'.slots[b].inner && k'.slots[b].inner[o] == ids[o])
    && (forall o :: o in kept ==> o in k'.slots[b].inner && k'.slots[b].inner[o] == k.slots[k.active].inner[o])
  }

  lemma WiredIsBuilt(k: Kernel, k': Kernel, ids: map<Outer, MapId>, own: seq<Outer>, kept: seq<Outer>, ps: seq<Put>)
    requires Ok(k) && Covers(own, kept) && PortsMap in kept && Wired(k, k', ids, own, kept)
    requires forall id :: id in k.heap ==> id in k'.heap && k'.heap[id] == k.heap[id]
    requires forall o :: o in own ==> o in ids && ids[o] in k'.heap && k'.heap[ids[o]] == Contents(ps, o)
    ensures var b := Inactive(k);
            BuiltAt(k, k', b, Merged(View(k, k.active), own, ps, k'.slots[b].node, k'.slots[b].flags))
  {
    hide Contents;
    var b := Inactive(k);
    forall s, o: Outer | 0 <= s < SLOTS
      ensures o in k'.slots[s].inner && k'.slots[s].inner[o] in k'.heap
    {
      if s == b {
        assert (o in own) || (o in kept);
      }
    }
  }

  lemma InstallBothEffect(k: Kernel, b: nat, ids: map<Outer, MapId>, own: seq<Outer>, acts: map<Outer, MapId>, kept: seq<Outer>)
    requires b < |k.slots| && Covers(own, kept)
    requires forall o :: o in own ==> o in ids && ids[o] in k.heap
    requires forall o :: o in kept ==> o in acts && acts[o] in k.heap
    ensures var k' := ExecAll(k, Installs(b, ids, own) + Installs(b, acts, kept));
            && k'.heap == k.heap && k'.active == k.active && k'.version == k.version && |k'.slots| == |k.slots|
            && (forall s :: 0 <= s < |k.slots| && s != b ==> k'.slots[s] == k.slots[s])
            && k'.slots[b].node == k.slots[b].node && k'.slots[b].flags == k.slots[b].flags
            && (forall o :: o in own ==> o in k'.slots[b].inner && k'.slots[b].inner[o] == ids[o])
            && (forall o :: o in kept ==> o in k'.slots[b].inner && k'.slots[b].inner[o] == acts[o])
  {
    InstallsEffect(k, b, ids, own);
    InstallsEffect(ExecAll(k, Installs(b, ids, own)), b, acts, kept);
    ExecAllConcat(k, Installs(b, ids, own), Installs(b, acts, kept));
  }

  /** SetNode, both runs of installs, SetFlags: the second half of a service apply. */
  lemma ServiceTailEffect(k0: Kernel, k: Kernel, node: NodeConfig, ids: map<Outer, MapId>,
                          own: seq<Outer>, kept: seq<Outer>, ps: seq<Put>)
    requires Ok(k0) && Covers(own, kept) && PortsMap in kept && Prepared(k0, k, ids, own, ps)
    ensures var b, act := Inactive(k0), k0.slots[k0.active];
            var k' := ExecAll(k, [SetNode(b, node)] + Installs(b, ids, own) + Installs(b, act.inner, kept)
                                 + [SetFlags(b, act.flags)]);
            BuiltAt(k0, k', b, Merged(View(k0, k0.active), own, ps, node, act.flags))
  {
    hide Contents;
    hide ExecAll;
    hide BuiltAt;
    hide Merged;
    hide View;
    var b, act := Inactive(k0), k0.slots[k0.active];
    var mid := Installs(b, ids, own) + Installs(b, act.inner, kept);
    assert [SetNode(b, node)] + Installs(b, ids, own) + Installs(b, act.inner, kept) == [SetNode(b, node)] + mid;
    ExecAllConcat(k, [SetNode(b, node)] + mid, [SetFlags(b, act.flags)]);
    ExecAllConcat(k, [SetNode(b, node)], mid);
    ExecOne(k, SetNode(b, node));
    var k1 := Exec(k, SetNode(b, node));
    InstallBothEffect(k1, b, ids, own, act.inner, kept);
    var k2 := ExecAll(k1, mid);
    ExecOne(k2, SetFlags(b, act.flags));
    var k3 := Exec(k2, SetFlags(b, act.flags));
    assert Wired(k0, k3, ids, own, kept);
    WiredIsBuilt(k0, k3, ids, own, kept, ps);
  }

  lemma ExecOne(k: Kernel, w: Write)
    ensures ExecAll(k, [w]) == Exec(k, w)
  {
    assert [w][1..] == [];
  }

  /** Everything a complete service apply writes before the flip. */
  function ServiceBody(k: Kernel, ss: seq<Service>, n: Knobs, ids: map<Outer, MapId>): seq<Write>
    requires KnobsOk(n) && |k.slots| == SLOTS && k.active < SLOTS
    requires (forall o: Outer :: o in k.slots[k.active].inner) && (forall o :: o in SERVICE_LIST ==> o in ids)
  {
    NodePutsOuters(ss, n);
    ServiceListsCover();
    Creates(ids, SERVICE_LIST) + Stores(ids, NodePuts(ss, n)) + ServiceTail(k, ss, n, ids)
  }

  lemma ServiceTargetIsMerged(k: Kernel, ss: seq<Service>, n: Knobs)
    requires Ok(k) && KnobsOk(n)
    ensures Merged(View(k, k.active), SERVICE_LIST, NodePuts(ss, n), NodeEntry(ss, n), k.slots[k.active].flags)
            == ServiceTarget(View(k, k.active), ss, n)
  {
    hide Contents;
    hide NodePuts;
    hide NodeEntry;
    ServiceListsCover();
  }

  lemma GlobalTargetIsMerged(k: Kernel, es: seq<Cidr>)
    requires Ok(k)
    ensures Merged(View(k, k.active), GLOBAL_LIST, GlobalPuts(es, FlagsFor(es).broad), k.slots[k.active].node, FlagsFor(es))
            == GlobalTarget(View(k, k.active), es)
  {
    hide Contents;
    hide GlobalPuts;
    hide PlanAll;
    GlobalListsCover();
  }

  lemma ServiceBodyEffect(k: Kernel, ss: seq<Service>, n: Knobs, ids: map<Outer, MapId>)
    requires Ok(k) && KnobsOk(n) && Fresh(k, ids, SERVICE_LIST)
    ensures BuiltAt(k, ExecAll(k, ServiceBody(k, ss, n, ids)), Inactive(k), ServiceTarget(View(k, k.active), ss, n))
  {
    hide ExecAll;
    hide Contents;
    hide NodePuts;
    hide NodeEntry;
    hide BuiltAt;
    hide Merged;
    hide View;
    hide Prepared;
    hide ServiceTarget;
    NodePutsOuters(ss, n);
    ServiceListsCover();
    var ps := NodePuts(ss, n);
    var head := Creates(ids, SERVICE_LIST) + Stores(ids, ps);
    PrepareEffect(k, ids, SERVICE_LIST, ps);
    ExecAllConcat(k, head, ServiceTail(k, ss, n, ids));
    ServiceTailEffect(k, ExecAll(k, head), NodeEntry(ss, n), ids, SERVICE_LIST, FEED_LIST, ps);
    ServiceTargetIsMerged(k, ss, n);
  }

  lemma ServicePlanShape(k: Kernel, ss: seq<Service>, n: Knobs, ids: map<Outer, MapId>)
    requires Ok(k) && KnobsOk(n) && (forall o :: o in SERVICE_LIST ==> o in ids)
    ensures var ps := NodePuts(ss, n);
            ServicePlan(k, ss, n, ids) ==
            if !NodeOk(ss) then
              (NodePutsOuters(ss, n); ServiceListsCover(); Creates(ids, SERVICE_LIST) + Stores(ids, ps))
            else if VerifyNode(Contents(ps, ServiceMap), Contents(ps, RuleBlockMap), ss) then
              ServiceBody(k, ss, n, ids) + [CommitOf(k)]
            else ServiceBody(k, ss, n, ids)
  {
    hide Contents;
    hide NodePuts;
    hide ServiceTail;
    hide VerifyNode;
    NodePutsOuters(ss, n);
    ServiceListsCover();
    var a, t := Creates(ids, SERVICE_LIST) + Stores(ids, NodePuts(ss, n)), ServiceTail(k, ss, n, ids);
    assert a + (t + [CommitOf(k)]) == a + t + [CommitOf(k)];
    assert a + (t + []) == a + t;
    assert a + [] == a;
  }

  /** Everything a complete global deny apply writes before the flip. */
  function GlobalBody(k: Kernel, es: seq<Cidr>, ids: map<Outer, MapId>): seq<Write>
    requires |k.slots| == SLOTS && k.active < SLOTS
    requires (forall o: Outer :: o in k.slots[k.active].inner) && (forall o :: o in GLOBAL_LIST ==> o in ids)
  {
    GlobalPutsOuters(es, FlagsFor(es).broad);
    GlobalListsCover();
    GlobalHead(k) + (Creates(ids, GLOBAL_LIST) + Stores(ids, GlobalPuts(es, FlagsFor(es).broad)))
    + [SetFlags(Inactive(k), FlagsFor(es))] + Installs(Inactive(k), ids, GLOBAL_LIST)
  }

  /** The inactive slot already refers to the active slot's `kept` maps and node settings. */
  ghost predicate Carried(k: Kernel, k': Kernel, kept: seq<Outer>)
    requires Ok(k)
  {
    var b, act := Inactive(k), k.slots[k.active];
    && k'.active == k.active && k'.version == k.version && |k'.slots| == SLOTS
    && k'.slots[k.active] == act && k'.slots[b].node == act.node
    && (forall o :: o in kept ==> o in k'.slots[b].inner && k'.slots[b].inner[o] == act.inner[o])
  }

  lemma GlobalHeadEffect(k: Kernel, kept: seq<Outer>)
    requires Ok(k)
    ensures var b, act := Inactive(k), k.slots[k.active];
            var k' := ExecAll(k, Installs(b, act.inner, kept) + [SetNode(b, act.node)]);
            k'.heap == k.heap && Carried(k, k', kept)
  {
    var b, act := Inactive(k), k.slots[k.active];
    InstallsEffect(k, b, act.inner, kept);
    ExecAllConcat(k, Installs(b, act.inner, kept), [SetNode(b, act.node)]);
    ExecOne(ExecAll(k, Installs(b, act.inner, kept)), SetNode(b, act.node));
  }

  lemma GlobalTailEffect(k: Kernel, k2: Kernel, ids: map<Outer, MapId>, own: seq<Outer>, kept: seq<Outer>,
                         ps: seq<Put>, flags: DenyFlags)
    requires Ok(k) && Covers(own, kept) && PortsMap in kept && Carried(k, k2, kept)
    requires forall id :: id in k.heap ==> id in k2.heap && k2.heap[id] == k.heap[id]
    requires forall o :: o in own ==> o in ids && ids[o] in k2.heap && k2.heap[ids[o]] == Contents(ps, o)
    ensures var b := Inactive(k);
            var k' := ExecAll(k2, [SetFlags(b, flags)] + Installs(b, ids, own));
            && Wired(k, k', ids, own, kept)
            && BuiltAt(k, k', b, Merged(View(k, k.active), own, ps, k.slots[k.active].node, flags))
  {
    hide Installs;
    hide Contents;
    hide ExecAll;
    hide BuiltAt;
    hide Merged;
    hide View;
    var b := Inactive(k);
    ExecAllConcat(k2, [SetFlags(b, flags)], Installs(b, ids, own));
    ExecOne(k2, SetFlags(b, flags));
    var k3 := Exec(k2, SetFlags(b, flags));
    InstallsEffect(k3, b, ids, own);
    var k4 := ExecAll(k3, Installs(b, ids, own));
    assert Wired(k, k4, ids, own, kept);
    hide Exec;
    hide Carried;
    WiredIsBuilt(k, k4, ids, own, kept, ps);
  }

  lemma GlobalBodyEffectFor(k: Kernel, ids: map<Outer, MapId>, own: seq<Outer>, kept: seq<Outer>, ps: seq<Put>, flags: DenyFlags)
    requires Ok(k) && Covers(own, kept) && PortsMap in kept && Fresh(k, ids, own) && forall p :: p in ps ==> p.outer in own
    ensures var b, act := Inactive(k), k.slots[k.active];
            var k' := ExecAll(k, Installs(b, act.inner, kept) + [SetNode(b, act.node)]
                                 + (Creates(ids, own) + Stores(ids, ps)) + [SetFlags(b, flags)] + Installs(b, ids, own));
            && Wired(k, k', ids, own, kept)
            && BuiltAt(k, k', b, Merged(View(k, k.active), own, ps, act.node, flags))
  {
    hide Contents;
    hide ExecAll;
    hide BuiltAt;
    hide Merged;
    hide View;
    hide Covers;
    hide Wired;
    var b, act := Inactive(k), k.slots[k.active];
    var w1, w2 := Installs(b, act.inner, kept) + [SetNode(b, act.node)], Creates(ids, own) + Stores(ids, ps);
    var w3, w4 := [SetFlags(b, flags)], Installs(b, ids, own);
    assert w1 + w2 + w3 + w4 == w1 + (w2 + (w3 + w4));
    ExecAllConcat(k, w1, w2 + (w3 + w4));
    GlobalHeadEffect(k, kept);
    var k1 := ExecAll(k, w1);
    ExecAllConcat(k1, w2, w3 + w4);
    PrepareEffect(k1, ids, own, ps);
    GlobalTailEffect(k, ExecAll(k1, w2), ids, own, kept, ps, flags);
  }

  lemma GlobalBodyEffect(k: Kernel, es: seq<Cidr>, ids: map<Outer, MapId>)
    requires Ok(k) && Fresh(k, ids, GLOBAL_LIST)
    ensures Wired(k, ExecAll(k, GlobalBody(k, es, ids)), ids, GLOBAL_LIST, SERVICE_LIST + [PortsMap])
    ensures BuiltAt(k, ExecAll(k, GlobalBody(k, es, ids)), Inactive(k), GlobalTarget(View(k, k.active), es))
  {
    hide Wired;
    hide ExecAll;
    hide Contents;
    hide GlobalPuts;
    hide BuiltAt;
    hide Merged;
    hide View;
    hide GlobalTarget;
    hide PlanAll;
    var ps := GlobalPuts(es, FlagsFor(es).broad);
    GlobalPutsOuters(es, FlagsFor(es).broad);
    GlobalListsCover();
    GlobalBodyEffectFor(k, ids, GLOBAL_LIST, SERVICE_LIST + [PortsMap], ps, FlagsFor(es));
    GlobalTargetIsMerged(k, es);
  }

  lemma GlobalPlanShape(k: Kernel, es: seq<Cidr>, ids: map<Outer, MapId>)
    requires Ok(k) && (forall o :: o in GLOBAL_LIST ==> o in ids)
    ensures GlobalPlan(k, es, ids) ==
            if |es| <= MAX_GLOBAL_ENTRIES && EntriesOk(es) then GlobalBody(k, es, ids) + [CommitOf(k)]
            else GlobalHead(k)
  {
    hide GlobalPuts;
    hide PlanAll;
    hide GlobalHead;
    GlobalPutsOuters(es, FlagsFor(es).broad);
    GlobalListsCover();
    var h, p := GlobalHead(k), Creates(ids, GLOBAL_LIST) + Stores(ids, GlobalPuts(es, FlagsFor(es).broad));
    var f, i := [SetFlags(Inactive(k), FlagsFor(es))], Installs(Inactive(k), ids, GLOBAL_LIST);
    assert h + (p + f + i + [CommitOf(k)]) == h + p + f + i + [CommitOf(k)];
    assert h + [] == h;
  }
}
