/** Runs of the gateway's map writers: apply helpers that may stop after any single write, and
    `dpstat set-blocked-ports`, interleaved in any order. Helpers exclude each other by a file lock
    (data-plane/tools/xdpgw-apply.c); dpstat takes no lock (data-plane/tools/dpstat.c). */
module ApplyRuns {
  import opened Wrappers
  import opened Ipv4
  import opened Snapshot
  import opened Bpf
  import opened DenyList
  import opened ApplyPlan
  import opened ApplyEffect
  import opened BlockedPorts

  datatype Request = ServiceApply(ss: seq<Service>, n: Knobs) | GlobalApply(es: seq<Cidr>)

  /** The helper holding the lock, with the writes it still has to issue. */
  datatype Helper = Idle | Running(req: Request, todo: seq<Write>)

  /** set-blocked-ports: the slot it works on, the inner map it looked up there, the next word, and
      the map it completed for slot 0. */
  datatype Dpstat =
    | Off
    | Writing(words: seq<Word64>, slot: nat, first: Option<MapId>, id: Option<MapId>, next: nat)
    | Finished(words: seq<Word64>)

  /** `bitmaps` are the ids of the port bitmaps the loader created. */
  datatype Node = Node(k: Kernel, helper: Helper, dp: Dpstat, bitmaps: set<MapId>)

  datatype Event =
    | Start(req: Request, ids: map<Outer, MapId>)
    | Advance
    | Stop
    | PortsStart(words: seq<Word64>)
    | PortsStep
    | PortsAbort

  predicate ReqOk(r: Request) { r.ServiceApply? ==> KnobsOk(r.n) }

  /** The helper's own checks let the request pass. */
  predicate Accepted(r: Request)
  {
    match r
    case ServiceApply(ss, _) => NodeOk(ss)
    case GlobalApply(es) => |es| <= MAX_GLOBAL_ENTRIES && EntriesOk(es)
  }

  function OwnList(r: Request): seq<Outer> { if r.ServiceApply? then SERVICE_LIST else GLOBAL_LIST }

  ghost function PlanOf(k: Kernel, r: Request, ids: map<Outer, MapId>): seq<Write>
    requires Ok(k) && ReqOk(r) && forall o :: o in OwnList(r) ==> o in ids
  {
    match r
    case ServiceApply(ss, n) => ServicePlan(k, ss, n, ids)
    case GlobalApply(es) => GlobalPlan(k, es, ids)
  }

  ghost function Target(r: Request, v: SlotView): (t: SlotView)
    requires ReqOk(r) && Total(v)
    ensures Total(t)
  {
    match r
    case ServiceApply(ss, n) => ServiceTarget(v, ss, n)
    case GlobalApply(es) => GlobalTarget(v, es)
  }

  function DpStep(m: Node): Node
    requires m.dp.Writing?
  {
    var d := m.dp;
    if d.id.None? then
      if d.slot < |m.k.slots| && PortsMap in m.k.slots[d.slot].inner
      then m.(dp := d.(id := Some(m.k.slots[d.slot].inner[PortsMap]), next := 0))
      else m.(dp := Off)
    else if d.next < |d.words| then
      m.(k := Exec(m.k, Store(d.id.value, Word(d.next), Bits(d.words[d.next]))), dp := d.(next := d.next + 1))
    else if d.slot + 1 < SLOTS then m.(dp := d.(slot := d.slot + 1, first := d.id, id := None))
    else m.(dp := Finished(d.words))
  }

  /** One step; an event that is not enabled changes nothing. */
  ghost function Do(m: Node, e: Event): Node
    requires Ok(m.k)
  {
    match e
    case Start(r, ids) =>
      if m.helper.Idle? && ReqOk(r) && Fresh(m.k, ids, OwnList(r))
      then m.(helper := Running(r, PlanOf(m.k, r, ids))) else m
    case Advance =>
      if m.helper.Running? && m.helper.todo != []
      then m.(k := Exec(m.k, m.helper.todo[0]), helper := m.helper.(todo := m.helper.todo[1..])) else m
    case Stop => m.(helper := Idle)
    case PortsStart(ws) => if !m.dp.Writing? && |ws| == PORT_WORDS then m.(dp := Writing(ws, 0, None, None, 0)) else m
    case PortsStep => if m.dp.Writing? then DpStep(m) else m
    case PortsAbort => if m.dp.Writing? then m.(dp := Off) else m
  }

  // ----- Invariant -----

  ghost predicate Referenced(k: Kernel, id: MapId)
  {
    exists s, o :: 0 <= s < |k.slots| && o in k.slots[s].inner && k.slots[s].inner[o] == id
  }

  /** A pending write cannot disturb the active slot or any installed inner map. */
  ghost predicate WriteOk(k: Kernel, w: Write, bitmaps: set<MapId>)
    requires Ok(k)
  {
    match w
    case Create(id) => id !in bitmaps
    case Store(id, _, _) => id !in bitmaps && !Referenced(k, id)
    case SetNode(s, _) => s == Inactive(k)
    case SetFlags(s, _) => s == Inactive(k)
    case Install(s, o, id) =>
      s == Inactive(k) && if o.PortsMap? then id == k.slots[k.active].inner[PortsMap] else id !in bitmaps
    case Commit(s, v) => s == Inactive(k) && v == (k.version + 1) % U32
  }

  /** An inner map is complete before it is installed, and the flip comes last. */
  ghost predicate Orderly(ws: seq<Write>)
  {
    ws == [] ||
    (&& Orderly(ws[1..])
     && (ws[0].Install? ==> forall w :: w in ws[1..] && w.Store? ==> w.id != ws[0].id)
     && (ws[0].Commit? ==> ws[1..] == []))
  }

  ghost predicate TodoOk(k: Kernel, ws: seq<Write>, bitmaps: set<MapId>)
    requires Ok(k)
  {
    Orderly(ws) && forall w :: w in ws ==> WriteOk(k, w, bitmaps)
  }

  ghost predicate Separate(k: Kernel, bitmaps: set<MapId>)
    requires Ok(k)
  {
    && (forall id :: id in bitmaps ==> id in k.heap)
    && (forall s :: 0 <= s < SLOTS ==> k.slots[s].inner[PortsMap] in bitmaps)
    && (forall s, o: Outer :: 0 <= s < SLOTS && !o.PortsMap? ==> k.slots[s].inner[o] !in bitmaps)
  }

  ghost predicate SameConfig(v: SlotView, w: SlotView)
    requires Total(v) && Total(w)
  {
    v.node == w.node && v.flags == w.flags && forall o: Outer :: !o.PortsMap? ==> v.inner[o] == w.inner[o]
  }

  function Body(ws: seq<Write>): seq<Write>
  {
    if ws != [] && ws[|ws| - 1].Commit? then ws[..|ws| - 1] else ws
  }

  /** If the helper gets to its flip, the inactive slot will by then show the requested target. */
  ghost predicate OnCourse(k: Kernel, h: Helper)
    requires Ok(k)
  {
    h.Running? && h.todo != [] && h.todo[|h.todo| - 1].Commit? ==>
      var b, end := Inactive(k), ExecAll(k, Body(h.todo));
      && ReqOk(h.req) && Accepted(h.req) && Ok(end)
      && SameConfig(View(end, b), Target(h.req, View(k, k.active)))
      && end.slots[b].inner[PortsMap] == k.slots[k.active].inner[PortsMap]
  }

  ghost predicate Inv(m: Node)
  {
    && Ok(m.k) && Separate(m.k, m.bitmaps)
    && (m.helper.Running? ==> TodoOk(m.k, m.helper.todo, m.bitmaps))
    && (m.dp.Writing? && m.dp.id.Some? ==> m.dp.id.value in m.bitmaps)
    && OnCourse(m.k, m.helper)
  }

  // ----- One helper write -----

  lemma ExecKeepsOk(k: Kernel, w: Write, bitmaps: set<MapId>)
    requires Ok(k) && Separate(k, bitmaps) && WriteOk(k, w, bitmaps)
    ensures Ok(Exec(k, w)) && Separate(Exec(k, w), bitmaps)
  {
  }

  /** A write of a plan that is not the flip leaves what the active slot shows, bitmaps included. */
  lemma WriteIsInvisible(k: Kernel, w: Write, bitmaps: set<MapId>)
    requires Ok(k) && Separate(k, bitmaps) && WriteOk(k, w, bitmaps) && !w.Commit?
    ensures var k' := Exec(k, w);
            Ok(k') && k'.active == k.active && k'.version == k.version
            && k'.slots[k.active] == k.slots[k.active] && View(k', k.active) == View(k, k.active)
  {
    ExecKeepsOk(k, w, bitmaps);
    var k' := Exec(k, w);
    forall o: Outer ensures k'.heap[k.slots[k.active].inner[o]] == k.heap[k.slots[k.active].inner[o]] {
      assert Referenced(k, k.slots[k.active].inner[o]);
    }
  }

  lemma ReferencesAfter(k: Kernel, w: Write, id: MapId)
    requires !w.Commit?
    ensures Referenced(Exec(k, w), id) ==> Referenced(k, id) || (w.Install? && w.id == id)
  {
    var k' := Exec(k, w);
    if Referenced(k', id) && !(w.Install? && w.id == id) {
      var s, o :| 0 <= s < |k'.slots| && o in k'.slots[s].inner && k'.slots[s].inner[o] == id;
      assert o in k.slots[s].inner && k.slots[s].inner[o] == id;
    }
  }

  lemma RestStaysOk(k: Kernel, ws: seq<Write>, bitmaps: set<MapId>)
    requires Ok(k) && Separate(k, bitmaps) && TodoOk(k, ws, bitmaps) && ws != []
    ensures Ok(Exec(k, ws[0])) && TodoOk(Exec(k, ws[0]), ws[1..], bitmaps)
  {
    hide Ok;
    hide Separate;
    var w, k' := ws[0], Exec(k, ws[0]);
    assert WriteOk(k, w, bitmaps);
    ExecKeepsOk(k, w, bitmaps);
    if !w.Commit? {
      WriteIsInvisible(k, w, bitmaps);
      forall v | v in ws[1..] ensures WriteOk(k', v, bitmaps) {
        assert WriteOk(k, v, bitmaps);
        if v.Store? {
          ReferencesAfter(k, w, v.id);
        }
      }
    }
  }

  lemma AdvanceKeepsCourse(k: Kernel, h: Helper, bitmaps: set<MapId>)
    requires Ok(k) && Separate(k, bitmaps) && h.Running? && h.todo != []
    requires TodoOk(k, h.todo, bitmaps) && OnCourse(k, h)
    ensures Ok(Exec(k, h.todo[0])) && OnCourse(Exec(k, h.todo[0]), h.(todo := h.todo[1..]))
  {
    hide Target;
    hide SameConfig;
    hide Accepted;
    var w, rest := h.todo[0], h.todo[1..];
    RestStaysOk(k, h.todo, bitmaps);
    assert WriteOk(k, w, bitmaps);
    if rest != [] && rest[|rest| - 1].Commit? {
      WriteIsInvisible(k, w, bitmaps);
      assert Body(h.todo)[0] == w && Body(h.todo)[1..] == Body(rest);
    }
  }

  // ----- One word of the port bitmap -----

  lemma BitmapStoreCommutesOnce(k: Kernel, w: Write, id: MapId, key: Key, val: Val)
    requires id in k.heap && (w.Store? ==> w.id != id)
    ensures Exec(Exec(k, Store(id, key, val)), w) == Exec(Exec(k, w), Store(id, key, val))
    ensures id in Exec(k, w).heap
  {
    assert Exec(Exec(k, Store(id, key, val)), w).heap == Exec(Exec(k, w), Store(id, key, val)).heap;
  }

  /** Writing a bitmap word commutes with everything a helper has left to do. */
  lemma {:induction false} BitmapStoreCommutes(k: Kernel, ws: seq<Write>, id: MapId, key: Key, val: Val)
    requires id in k.heap
    requires forall w :: w in ws ==> (w.Store? ==> w.id != id) && !w.Commit?
    ensures ExecAll(Exec(k, Store(id, key, val)), ws) == Exec(ExecAll(k, ws), Store(id, key, val))
    ensures id in ExecAll(k, ws).heap
    decreases ws
  {
    if ws != [] {
      hide Exec;
      BitmapStoreCommutesOnce(k, ws[0], id, key, val);
      BitmapStoreCommutes(Exec(k, ws[0]), ws[1..], id, key, val);
    }
  }

  lemma BitmapStoreShowsSameConfig(k: Kernel, id: MapId, key: Key, val: Val, s: nat)
    requires Ok(k) && s < SLOTS && id in k.heap
    requires forall o: Outer :: !o.PortsMap? ==> k.slots[s].inner[o] != id
    ensures var k' := Exec(k, Store(id, key, val));
            Ok(k') && k'.slots == k.slots && k'.active == k.active && SameConfig(View(k', s), View(k, s))
  {
  }

  lemma TargetRespectsConfig(r: Request, v: SlotView, w: SlotView)
    requires ReqOk(r) && Total(v) && Total(w) && SameConfig(v, w)
    ensures SameConfig(Target(r, v), Target(r, w))
  {
    hide Contents;
    hide NodePuts;
    hide GlobalPuts;
    hide PlanAll;
    hide NodeEntry;
  }

  /** Executing a safe list of writes keeps non-bitmap references away from the bitmaps. */
  lemma {:induction false} ExecAllKeepsSeparate(k: Kernel, ws: seq<Write>, bitmaps: set<MapId>)
    requires Ok(k) && Separate(k, bitmaps) && TodoOk(k, ws, bitmaps)
    ensures Ok(ExecAll(k, ws)) && Separate(ExecAll(k, ws), bitmaps)
    decreases ws
  {
    hide Ok;
    hide Separate;
    hide Exec;
    if ws != [] {
      assert WriteOk(k, ws[0], bitmaps);
      ExecKeepsOk(k, ws[0], bitmaps);
      RestStaysOk(k, ws, bitmaps);
      ExecAllKeepsSeparate(Exec(k, ws[0]), ws[1..], bitmaps);
    }
  }

  lemma {:induction false} BodyIsOk(k: Kernel, ws: seq<Write>, bitmaps: set<MapId>)
    requires Ok(k) && TodoOk(k, ws, bitmaps)
    ensures TodoOk(k, Body(ws), bitmaps)
    ensures forall w :: w in Body(ws) ==> !w.Commit?
  {
    hide Ok;
    if ws != [] {
      BodyIsOk(k, ws[1..], bitmaps);
      if |ws| > 1 && ws[|ws| - 1].Commit? {
        assert Body(ws)[1..] == Body(ws[1..]);
      } else if |ws| > 1 {
        assert Body(ws[1..]) == ws[1..];
      } else {
        assert ws == [ws[0]];
      }
    }
  }

  lemma SameConfigTransitive(u: SlotView, v: SlotView, w: SlotView)
    requires Total(u) && Total(v) && Total(w) && SameConfig(u, v) && SameConfig(v, w)
    ensures SameConfig(u, w)
  {
  }

  lemma BitmapStoreKeepsCourse(k: Kernel, h: Helper, bitmaps: set<MapId>, id: MapId, key: Key, val: Val)
    requires Ok(k) && Separate(k, bitmaps) && id in bitmaps
    requires h.Running? ==> TodoOk(k, h.todo, bitmaps)
    requires OnCourse(k, h)
    ensures Ok(Exec(k, Store(id, key, val))) && OnCourse(Exec(k, Store(id, key, val)), h)
  {
    hide Target;
    BitmapStoreShowsSameConfig(k, id, key, val, k.active);
    if h.Running? && h.todo != [] && h.todo[|h.todo| - 1].Commit? {
      hide Exec;
      hide Ok;
      hide Separate;
      var k', b := Exec(k, Store(id, key, val)), Inactive(k);
      var end := ExecAll(k, Body(h.todo));
      BodyIsOk(k, h.todo, bitmaps);
      assert forall w :: w in Body(h.todo) ==> WriteOk(k, w, bitmaps);
      ExecAllKeepsSeparate(k, Body(h.todo), bitmaps);
      assert id in k.heap by { BitmapInHeap(k, bitmaps, id); }
      BitmapStoreCommutes(k, Body(h.todo), id, key, val);
      BitmapNotConfig(end, bitmaps, id, b);
      BitmapStoreShowsSameConfig(end, id, key, val, b);
      TargetRespectsConfig(h.req, View(k, k.active), View(k', k.active));
      SameConfigTransitive(View(Exec(end, Store(id, key, val)), b), View(end, b), Target(h.req, View(k, k.active)));
      SameConfigTransitive(View(Exec(end, Store(id, key, val)), b), Target(h.req, View(k, k.active)),
                           Target(h.req, View(k', k.active)));
    }
  }

  lemma BitmapInHeap(k: Kernel, bitmaps: set<MapId>, id: MapId)
    requires Ok(k) && Separate(k, bitmaps) && id in bitmaps
    ensures id in k.heap
  {
  }

  lemma BitmapNotConfig(k: Kernel, bitmaps: set<MapId>, id: MapId, s: nat)
    requires Ok(k) && Separate(k, bitmaps) && id in bitmaps && s < SLOTS
    ensures forall o: Outer :: !o.PortsMap? ==> k.slots[s].inner[o] != id
    ensures id in k.heap
  {
  }

  // ----- Starting a helper -----

  lemma {:induction false} OrderlyConcat(a: seq<Write>, b: seq<Write>)
    requires Orderly(a) && Orderly(b)
    requires forall w :: w in a ==> !w.Commit?
    requires forall w, v :: w in a && w.Install? && v in b && v.Store? ==> w.id != v.id
    ensures Orderly(a + b)
  {
    if a == [] {
      assert a + b == b;
    } else {
      assert (a + b)[1..] == a[1..] + b;
      OrderlyConcat(a[1..], b);
    }
  }

  lemma {:induction false} NoInstallOrderly(ws: seq<Write>)
    requires forall w :: w in ws ==> !w.Install? && !w.Commit?
    ensures Orderly(ws)
  {
    if ws != [] {
      NoInstallOrderly(ws[1..]);
    }
  }

  lemma {:induction false} NoStoreOrderly(ws: seq<Write>)
    requires forall w :: w in ws ==> !w.Store? && !w.Commit?
    ensures Orderly(ws)
  {
    if ws != [] {
      NoStoreOrderly(ws[1..]);
    }
  }

  lemma CommitOrderly(ws: seq<Write>, k: Kernel)
    requires Orderly(ws) && k.active < SLOTS && forall w :: w in ws ==> !w.Commit?
    ensures Orderly(ws + [CommitOf(k)])
  {
    assert [CommitOf(k)][1..] == [];
    OrderlyConcat(ws, [CommitOf(k)]);
  }

  /** Fresh ids are nobody's: not installed, not a bitmap. */
  lemma PrepareWritesOk(k: Kernel, ids: map<Outer, MapId>, os: seq<Outer>, ps: seq<Put>, bitmaps: set<MapId>)
    requires Ok(k) && Separate(k, bitmaps) && Fresh(k, ids, os) && forall p :: p in ps ==> p.outer in os
    ensures forall w :: w in Creates(ids, os) + Stores(ids, ps) ==>
              WriteOk(k, w, bitmaps) && !w.Install? && !w.Commit? && (w.Store? ==> w.id !in k.heap)
  {
    forall w | w in Creates(ids, os) + Stores(ids, ps)
      ensures WriteOk(k, w, bitmaps) && !w.Install? && !w.Commit? && (w.Store? ==> w.id !in k.heap)
    {
      var c := Creates(ids, os);
      var i :| 0 <= i < |c + Stores(ids, ps)| && (c + Stores(ids, ps))[i] == w;
      if i >= |c| {
        assert ps[i - |c|] in ps;
      }
    }
  }

  /** Writes to the inactive slot that install fresh maps or the active slot's own maps. */
  ghost predicate TailWrite(k: Kernel, w: Write, own: set<MapId>)
    requires Ok(k)
  {
    || (w.SetNode? && w.slot == Inactive(k))
    || (w.SetFlags? && w.slot == Inactive(k))
    || (w.Install? && w.slot == Inactive(k) && !w.outer.PortsMap? && w.id in own)
    || (w.Install? && w.slot == Inactive(k) && w.id == k.slots[k.active].inner[w.outer])
  }

  lemma TailWritesOk(k: Kernel, ws: seq<Write>, own: set<MapId>, bitmaps: set<MapId>)
    requires Ok(k) && Separate(k, bitmaps) && own !! bitmaps
    requires forall w :: w in ws ==> TailWrite(k, w, own)
    ensures forall w :: w in ws ==> WriteOk(k, w, bitmaps)
    ensures Orderly(ws)
  {
    NoStoreOrderly(ws);
  }

  ghost function FreshSet(ids: map<Outer, MapId>, os: seq<Outer>): set<MapId>
    requires forall o :: o in os ==> o in ids
  {
    set o | o in os :: ids[o]
  }

  lemma InstallsAreTail(k: Kernel, ids: map<Outer, MapId>, os: seq<Outer>, own: set<MapId>)
    requires Ok(k) && (forall o :: o in os ==> o in ids)
    requires (forall o :: o in os ==> ids[o] in own && !o.PortsMap?) || ids == k.slots[k.active].inner
    ensures forall w :: w in Installs(Inactive(k), ids, os) ==> TailWrite(k, w, own)
  {
    forall w | w in Installs(Inactive(k), ids, os) ensures TailWrite(k, w, own) {
      var i :| 0 <= i < |os| && Installs(Inactive(k), ids, os)[i] == w;
      assert os[i] in os;
    }
  }

  /** A plan is safe when it prepares fresh maps, then wires the inactive slot, then flips. */
  lemma PhasesAreOk(k: Kernel, prep: seq<Write>, tail: seq<Write>, own: set<MapId>, bitmaps: set<MapId>)
    requires Ok(k) && Separate(k, bitmaps) && own !! bitmaps
    requires forall w :: w in prep ==> WriteOk(k, w, bitmaps) && !w.Install? && !w.Commit?
    requires forall w :: w in tail ==> TailWrite(k, w, own)
    ensures TodoOk(k, prep, bitmaps) && TodoOk(k, prep + tail, bitmaps) && TodoOk(k, prep + tail + [CommitOf(k)], bitmaps)
  {
    NoInstallOrderly(prep);
    TailWritesOk(k, tail, own, bitmaps);
    OrderlyConcat(prep, tail);
    CommitOrderly(prep + tail, k);
  }

  lemma BuiltIsOnCourse(k: Kernel, r: Request, plan: seq<Write>, body: seq<Write>)
    requires Ok(k) && ReqOk(r) && BuiltAt(k, ExecAll(k, body), Inactive(k), Target(r, View(k, k.active)))
    requires (plan == body + [CommitOf(k)] && Accepted(r)) || (forall w :: w in plan ==> !w.Commit?)
    ensures OnCourse(k, Running(r, plan))
  {
    hide ExecAll;
    hide View;
    hide Target;
    hide Accepted;
    if plan == body + [CommitOf(k)] {
      assert Body(plan) == body;
    }
  }

  lemma ServicePlanOk(k: Kernel, ss: seq<Service>, n: Knobs, ids: map<Outer, MapId>, bitmaps: set<MapId>)
    requires Ok(k) && Separate(k, bitmaps) && KnobsOk(n) && Fresh(k, ids, SERVICE_LIST)
    ensures TodoOk(k, ServicePlan(k, ss, n, ids), bitmaps)
    ensures OnCourse(k, Running(ServiceApply(ss, n), ServicePlan(k, ss, n, ids)))
  {
    hide Contents;
    hide NodePuts;
    hide NodeEntry;
    hide VerifyNode;
    hide ServiceTarget;
    hide ExecAll;
    hide View;
    hide OnCourse;
    hide TodoOk;
    hide WriteOk;
    hide TailWrite;
    hide BuiltAt;
    NodePutsOuters(ss, n);
    ServiceListsCover();
    var prep := Creates(ids, SERVICE_LIST) + Stores(ids, NodePuts(ss, n));
    var tail := ServiceTail(k, ss, n, ids);
    PrepareWritesOk(k, ids, SERVICE_LIST, NodePuts(ss, n), bitmaps);
    ServiceTailIsTail(k, ss, n, ids, bitmaps);
    PhasesAreOk(k, prep, tail, FreshSet(ids, SERVICE_LIST), bitmaps);
    ServicePlanShape(k, ss, n, ids);
    ServiceBodyEffect(k, ss, n, ids);
    assert forall w :: w in tail ==> !w.Commit? by { ServiceTailNoCommit(k, ss, n, ids); }
    assert prep + tail == ServiceBody(k, ss, n, ids);
    BuiltIsOnCourse(k, ServiceApply(ss, n), ServicePlan(k, ss, n, ids), ServiceBody(k, ss, n, ids));
  }

  lemma ServiceTailIsTail(k: Kernel, ss: seq<Service>, n: Knobs, ids: map<Outer, MapId>, bitmaps: set<MapId>)
    requires Ok(k) && Separate(k, bitmaps) && KnobsOk(n) && Fresh(k, ids, SERVICE_LIST)
    ensures FreshSet(ids, SERVICE_LIST) !! bitmaps
    ensures forall w :: w in ServiceTail(k, ss, n, ids) ==> TailWrite(k, w, FreshSet(ids, SERVICE_LIST))
  {
    ServiceListsCover();
    var own := FreshSet(ids, SERVICE_LIST);
    InstallsAreTail(k, ids, SERVICE_LIST, own);
    InstallsAreTail(k, k.slots[k.active].inner, FEED_LIST, own);
    hide TailWrite;
    assert TailWrite(k, SetNode(Inactive(k), NodeEntry(ss, n)), own) by { SettersAreTail(k, own); }
    assert TailWrite(k, SetFlags(Inactive(k), k.slots[k.active].flags), own) by { SettersAreTail(k, own); }
  }

  lemma SettersAreTail(k: Kernel, own: set<MapId>)
    requires Ok(k)
    ensures forall x :: TailWrite(k, SetNode(Inactive(k), x), own)
    ensures forall x :: TailWrite(k, SetFlags(Inactive(k), x), own)
  {
  }

  lemma ServiceTailNoCommit(k: Kernel, ss: seq<Service>, n: Knobs, ids: map<Outer, MapId>)
    requires Ok(k) && KnobsOk(n) && Fresh(k, ids, SERVICE_LIST)
    ensures forall w :: w in ServiceTail(k, ss, n, ids) ==> !w.Commit?
  {
  }

  /** The same with maps carried forward before the fresh ones are prepared. */
  lemma CarryThenPhasesAreOk(k: Kernel, head: seq<Write>, prep: seq<Write>, tail: seq<Write>, own: set<MapId>, bitmaps: set<MapId>)
    requires Ok(k) && Separate(k, bitmaps) && own !! bitmaps
    requires forall w :: w in head ==> TailWrite(k, w, {})
    requires forall w :: w in prep ==>
               WriteOk(k, w, bitmaps) && !w.Install? && !w.Commit? && (w.Store? ==> w.id !in k.heap)
    requires forall w :: w in tail ==> TailWrite(k, w, own)
    ensures TodoOk(k, head, bitmaps) && TodoOk(k, head + (prep + tail) + [CommitOf(k)], bitmaps)
  {
    TailWritesOk(k, head, {}, bitmaps);
    PhasesAreOk(k, prep, tail, own, bitmaps);
    OrderlyConcat(head, prep + tail);
    CommitOrderly(head + (prep + tail), k);
  }

  lemma GlobalPhases(k: Kernel, es: seq<Cidr>, ids: map<Outer, MapId>, bitmaps: set<MapId>)
    requires Ok(k) && Separate(k, bitmaps) && Fresh(k, ids, GLOBAL_LIST)
    ensures FreshSet(ids, GLOBAL_LIST) !! bitmaps
    ensures forall w :: w in GlobalHead(k) ==> TailWrite(k, w, {}) && !w.Commit?
    ensures forall w :: w in [SetFlags(Inactive(k), FlagsFor(es))] + Installs(Inactive(k), ids, GLOBAL_LIST) ==>
              TailWrite(k, w, FreshSet(ids, GLOBAL_LIST))
  {
    hide PlanAll;
    GlobalListsCover();
    InstallsAreTail(k, k.slots[k.active].inner, SERVICE_LIST + [PortsMap], {});
    InstallsAreTail(k, ids, GLOBAL_LIST, FreshSet(ids, GLOBAL_LIST));
    SettersAreTail(k, {});
    SettersAreTail(k, FreshSet(ids, GLOBAL_LIST));
    assert forall w :: TailWrite(k, w, {}) ==> !w.Commit?;
    hide TailWrite;
    assert forall w :: w in GlobalHead(k) ==>
      w in Installs(Inactive(k), k.slots[k.active].inner, SERVICE_LIST + [PortsMap])
      || w == SetNode(Inactive(k), k.slots[k.active].node);
  }

  lemma GlobalPlanOk(k: Kernel, es: seq<Cidr>, ids: map<Outer, MapId>, bitmaps: set<MapId>)
    requires Ok(k) && Separate(k, bitmaps) && Fresh(k, ids, GLOBAL_LIST)
    ensures TodoOk(k, GlobalPlan(k, es, ids), bitmaps)
    ensures OnCourse(k, Running(GlobalApply(es), GlobalPlan(k, es, ids)))
  {
    hide GlobalPuts;
    hide PlanAll;
    hide OnCourse;
    hide TodoOk;
    hide WriteOk;
    hide TailWrite;
    hide GlobalHead;
    hide EntriesOk;
    var ps := GlobalPuts(es, FlagsFor(es).broad);
    GlobalPutsOuters(es, FlagsFor(es).broad);
    GlobalListsCover();
    var prep := Creates(ids, GLOBAL_LIST) + Stores(ids, ps);
    var tail := [SetFlags(Inactive(k), FlagsFor(es))] + Installs(Inactive(k), ids, GLOBAL_LIST);
    PrepareWritesOk(k, ids, GLOBAL_LIST, ps, bitmaps);
    GlobalPhases(k, es, ids, bitmaps);
    CarryThenPhasesAreOk(k, GlobalHead(k), prep, tail, FreshSet(ids, GLOBAL_LIST), bitmaps);
    GlobalPlanShape(k, es, ids);
    assert GlobalHead(k) + (prep + tail) == GlobalBody(k, es, ids);
    assert |es| > MAX_GLOBAL_ENTRIES || !EntriesOk(es) ==> forall w :: w in GlobalPlan(k, es, ids) ==> !w.Commit?;
    hide GlobalPlan;
    hide GlobalBody;
    GlobalPlanOnCourse(k, es, ids);
  }

  lemma GlobalPlanOnCourse(k: Kernel, es: seq<Cidr>, ids: map<Outer, MapId>)
    requires Ok(k) && Fresh(k, ids, GLOBAL_LIST)
    requires |es| > MAX_GLOBAL_ENTRIES || !EntriesOk(es) ==> forall w :: w in GlobalPlan(k, es, ids) ==> !w.Commit?
    ensures OnCourse(k, Running(GlobalApply(es), GlobalPlan(k, es, ids)))
  {
    hide GlobalTarget;
    hide ExecAll;
    hide View;
    hide OnCourse;
    hide BuiltAt;
    hide GlobalPlan;
    hide GlobalBody;
    hide EntriesOk;
    GlobalPlanShape(k, es, ids);
    GlobalBodyEffect(k, es, ids);
    BuiltIsOnCourse(k, GlobalApply(es), GlobalPlan(k, es, ids), GlobalBody(k, es, ids));
  }

  // ----- Every step -----

  lemma StartKeepsInv(m: Node, r: Request, ids: map<Outer, MapId>)
    requires Inv(m)
    ensures Inv(Do(m, Start(r, ids)))
  {
    hide OnCourse;
    hide TodoOk;
    hide Separate;
    if m.helper.Idle? && ReqOk(r) && Fresh(m.k, ids, OwnList(r)) {
      match r
      case ServiceApply(ss, n) => ServicePlanOk(m.k, ss, n, ids, m.bitmaps);
      case GlobalApply(es) => GlobalPlanOk(m.k, es, ids, m.bitmaps);
    }
  }

  lemma AdvanceKeepsInv(m: Node)
    requires Inv(m)
    ensures Inv(Do(m, Advance))
  {
    hide OnCourse;
    hide Separate;
    hide Exec;
    hide Ok;
    if m.helper.Running? && m.helper.todo != [] {
      assert WriteOk(m.k, m.helper.todo[0], m.bitmaps);
      ExecKeepsOk(m.k, m.helper.todo[0], m.bitmaps);
      RestStaysOk(m.k, m.helper.todo, m.bitmaps);
      AdvanceKeepsCourse(m.k, m.helper, m.bitmaps);
    }
  }

  lemma StopKeepsInv(m: Node)
    requires Inv(m)
    ensures Inv(Do(m, Stop))
  {
  }

  lemma BitmapStoreKeepsTodo(k: Kernel, ws: seq<Write>, bitmaps: set<MapId>, id: MapId, key: Key, val: Val)
    requires Ok(k) && Separate(k, bitmaps) && TodoOk(k, ws, bitmaps) && id in bitmaps
    ensures var k' := Exec(k, Store(id, key, val)); Ok(k') && Separate(k', bitmaps) && TodoOk(k', ws, bitmaps)
  {
    var k' := Exec(k, Store(id, key, val));
    forall w | w in ws ensures WriteOk(k', w, bitmaps) {
      assert WriteOk(k, w, bitmaps);
      if w.Store? {
        assert Referenced(k', w.id) ==> Referenced(k, w.id);
      }
    }
  }

  lemma BitmapStoreKeepsSeparate(k: Kernel, bitmaps: set<MapId>, id: MapId, key: Key, val: Val)
    requires Ok(k) && Separate(k, bitmaps) && id in bitmaps
    ensures var k' := Exec(k, Store(id, key, val)); Ok(k') && Separate(k', bitmaps)
  {
  }

  lemma InstalledBitmap(k: Kernel, s: nat, bitmaps: set<MapId>)
    requires Ok(k) && Separate(k, bitmaps) && s < SLOTS
    ensures k.slots[s].inner[PortsMap] in bitmaps
  {
  }

  lemma PortsStepKeepsInv(m: Node)
    requires Inv(m)
    ensures Inv(Do(m, PortsStep))
  {
    if m.dp.Writing? && m.dp.id.Some? && m.dp.next < |m.dp.words| {
      hide OnCourse;
      hide Separate;
      hide TodoOk;
      hide Exec;
      hide Ok;
      var d := m.dp;
      var key, val := Word(d.next), Bits(d.words[d.next]);
      BitmapStoreKeepsCourse(m.k, m.helper, m.bitmaps, d.id.value, key, val);
      BitmapStoreKeepsSeparate(m.k, m.bitmaps, d.id.value, key, val);
      if m.helper.Running? {
        BitmapStoreKeepsTodo(m.k, m.helper.todo, m.bitmaps, d.id.value, key, val);
      }
    } else {
      hide OnCourse;
      hide TodoOk;
      if m.dp.Writing? && m.dp.slot < SLOTS {
        InstalledBitmap(m.k, m.dp.slot, m.bitmaps);
      }
    }
  }

  /** Every step of every writer keeps the invariant. */
  lemma StepKeepsInv(m: Node, e: Event)
    requires Inv(m)
    ensures Inv(Do(m, e))
  {
    hide Inv;
    hide Do;
    match e
    case Start(r, ids) => StartKeepsInv(m, r, ids);
    case Advance => AdvanceKeepsInv(m);
    case Stop => StopKeepsInv(m);
    case PortsStart(ws) => PortsStartKeepsInv(m, ws);
    case PortsStep => PortsStepKeepsInv(m);
    case PortsAbort => PortsAbortKeepsInv(m);
  }

  lemma PortsStartKeepsInv(m: Node, ws: seq<Word64>)
    requires Inv(m)
    ensures Inv(Do(m, PortsStart(ws)))
  {
    hide OnCourse;
    hide TodoOk;
    hide Separate;
  }

  lemma PortsAbortKeepsInv(m: Node)
    requires Inv(m)
    ensures Inv(Do(m, PortsAbort))
  {
    hide OnCourse;
    hide TodoOk;
    hide Separate;
  }

  // ----- Whole runs: crash-atomic applies -----

  ghost function Run(m: Node, es: seq<Event>): Node
    requires Inv(m)
    ensures Inv(Run(m, es))
    decreases es
  {
    if es == [] then m else
      StepKeepsInv(m, es[0]);
      Run(Do(m, es[0]), es[1..])
  }

  /** The step that executes the single write to active_config. */
  predicate Flips(m: Node, e: Event)
  {
    e.Advance? && m.helper.Running? && m.helper.todo != [] && m.helper.todo[0].Commit?
  }

  /** Every step but the flip leaves the active slot's configuration as it was; the flip replaces it
      by the requested half and the other half as it was, alternates the slot and counts the version. */
  lemma StepIsAtomic(m: Node, e: Event)
    requires Inv(m)
    ensures var k, k' := m.k, Do(m, e).k;
            Inv(Do(m, e)) &&
            if Flips(m, e) then
              && ReqOk(m.helper.req) && Accepted(m.helper.req)
              && k'.active == Inactive(k) && k'.version == (k.version + 1) % U32
              && SameConfig(View(k', k'.active), Target(m.helper.req, View(k, k.active)))
              && k'.slots[k'.active].inner[PortsMap] == k.slots[k.active].inner[PortsMap]
            else
              && k'.active == k.active && k'.version == k.version
              && SameConfig(View(k', k'.active), View(k, k.active))
              && k'.slots[k'.active] == k.slots[k.active]
  {
    StepKeepsInv(m, e);
    hide Target;
    hide Accepted;
    if e.Advance? && m.helper.Running? && m.helper.todo != [] {
      var w := m.helper.todo[0];
      assert WriteOk(m.k, w, m.bitmaps);
      if w.Commit? {
        assert m.helper.todo == [w];
        assert Body([w]) == [];
      } else {
        WriteIsInvisible(m.k, w, m.bitmaps);
      }
    } else if e.PortsStep? && m.dp.Writing? && m.dp.id.Some? && m.dp.next < |m.dp.words| {
      BitmapNotConfig(m.k, m.bitmaps, m.dp.id.value, m.k.active);
      BitmapStoreShowsSameConfig(m.k, m.dp.id.value, Word(m.dp.next), Bits(m.dp.words[m.dp.next]), m.k.active);
    }
  }

  /** The requests whose flip was executed during a run, in order. */
  ghost function Committed(m: Node, es: seq<Event>): seq<Request>
    requires Inv(m)
    decreases es
  {
    if es == [] then [] else
      StepKeepsInv(m, es[0]);
      (if Flips(m, es[0]) then [m.helper.req] else []) + Committed(Do(m, es[0]), es[1..])
  }

  lemma {:induction false} RunAppend(m: Node, es: seq<Event>, fs: seq<Event>)
    requires Inv(m)
    ensures Run(m, es + fs) == Run(Run(m, es), fs)
    ensures Committed(m, es + fs) == Committed(m, es) + Committed(Run(m, es), fs)
    decreases es
  {
    hide OnCourse;
    hide TodoOk;
    hide Separate;
    hide Do;
    if es == [] {
      assert es + fs == fs;
    } else {
      assert (es + fs)[1..] == es[1..] + fs;
      StepKeepsInv(m, es[0]);
      RunAppend(Do(m, es[0]), es[1..], fs);
    }
  }

  lemma RunSnoc(m: Node, es: seq<Event>, e: Event)
    requires Inv(m)
    ensures Ok(Run(m, es).k) && Inv(Do(Run(m, es), e)) && Run(m, es + [e]) == Do(Run(m, es), e)
    ensures Committed(m, es + [e]) == Committed(m, es) + if Flips(Run(m, es), e) then [Run(m, es).helper.req] else []
  {
    hide Do;
    hide OnCourse;
    hide TodoOk;
    hide Separate;
    var m' := Run(m, es);
    RunAppend(m, es, [e]);
    StepKeepsInv(m', e);
    assert [e][1..] == [] && [e][0] == e;
    assert Run(m', [e]) == Run(Do(m', e), []);
    assert Committed(m', [e]) == (if Flips(m', e) then [m'.helper.req] else []) + Committed(Do(m', e), []);
  }

  function Advances(es: seq<Event>): nat { if es == [] then 0 else (if es[0].Advance? then 1 else 0) + Advances(es[1..]) }

  ghost predicate NotStopped(es: seq<Event>) { forall e :: e in es ==> !e.Stop? }

  /** The helper has its flip still to come. */
  predicate ToFlip(h: Helper) { h.Running? && h.todo != [] && h.todo[|h.todo| - 1].Commit? }

  lemma AdvanceStep(m: Node)
    requires Inv(m) && ToFlip(m.helper)
    ensures var h := Do(m, Advance).helper;
            && h == m.helper.(todo := m.helper.todo[1..])
            && (Flips(m, Advance) <==> h.todo == []) && (h.todo != [] ==> ToFlip(h))
  {
    assert WriteOk(m.k, m.helper.todo[0], m.bitmaps);
    hide OnCourse;
    hide WriteOk;
  }

  lemma OtherStepKeepsHelper(m: Node, e: Event)
    requires Ok(m.k) && m.helper.Running? && !e.Advance? && !e.Stop?
    ensures Do(m, e).helper == m.helper && !Flips(m, e)
  {
    hide PlanOf;
  }

  lemma {:induction false} DoneStaysDone(m: Node, es: seq<Event>)
    requires Inv(m) && m.helper.Running? && m.helper.todo == [] && NotStopped(es)
    ensures Committed(m, es) == []
    decreases es
  {
    hide OnCourse;
    hide TodoOk;
    hide Separate;
    if es != [] {
      assert es[0] in es && NotStopped(es[1..]);
      StepKeepsInv(m, es[0]);
      if !es[0].Advance? {
        OtherStepKeepsHelper(m, es[0]);
      }
      assert Do(m, es[0]).helper == m.helper;
      hide Do;
      DoneStaysDone(Do(m, es[0]), es[1..]);
    }
  }

  /** Progress: a helper with its flip to come commits its request, once, after as many of its own writes as
      it has left, whatever dpstat does meanwhile. */
  lemma {:induction false} HelperCommits(m: Node, es: seq<Event>)
    requires Inv(m) && ToFlip(m.helper) && NotStopped(es) && Advances(es) >= |m.helper.todo|
    ensures Committed(m, es) == [m.helper.req]
    decreases es
  {
    hide OnCourse;
    hide TodoOk;
    hide Separate;
    hide Do;
    if es != [] {
      var e := es[0];
      assert e in es && NotStopped(es[1..]);
      StepKeepsInv(m, e);
      if e.Advance? {
        AdvanceStep(m);
        if Flips(m, e) {
          DoneStaysDone(Do(m, e), es[1..]);
        } else {
          HelperCommits(Do(m, e), es[1..]);
        }
      } else {
        OtherStepKeepsHelper(m, e);
        HelperCommits(Do(m, e), es[1..]);
      }
    }
  }

  ghost function Replay(v: SlotView, rs: seq<Request>): (w: SlotView)
    requires Total(v)
    ensures Total(w)
    decreases rs
  {
    if rs == [] then v else if ReqOk(rs[0]) then Replay(Target(rs[0], v), rs[1..]) else v
  }

  lemma {:induction false} ReplayRespectsConfig(v: SlotView, w: SlotView, rs: seq<Request>)
    requires Total(v) && Total(w) && SameConfig(v, w)
    ensures SameConfig(Replay(v, rs), Replay(w, rs))
    decreases rs
  {
    hide Target;
    if rs != [] && ReqOk(rs[0]) {
      TargetRespectsConfig(rs[0], v, w);
      ReplayRespectsConfig(Target(rs[0], v), Target(rs[0], w), rs[1..]);
    }
  }

  lemma ReplayStep(v: SlotView, r: Request, w: SlotView, rs: seq<Request>)
    requires Total(v) && Total(w) && ReqOk(r) && SameConfig(w, Target(r, v))
    ensures SameConfig(Replay(w, rs), Replay(v, [r] + rs))
  {
    hide Target;
    assert ([r] + rs)[1..] == rs;
    ReplayRespectsConfig(w, Target(r, v), rs);
  }

  /** Main theorem: over every interleaving and every crash, the live configuration is what applying
      exactly the flipped requests one after the other gives, nothing else. */
  lemma {:induction false} LiveIsReplay(m: Node, es: seq<Event>)
    requires Inv(m)
    ensures var k, k' := m.k, Run(m, es).k;
            Ok(k) && Ok(k') && SameConfig(View(k', k'.active), Replay(View(k, k.active), Committed(m, es)))
    decreases es
  {
    if es != [] {
      hide Do;
      hide Target;
      hide View;
      hide Replay;
      hide SameConfig;
      hide OnCourse;
      hide TodoOk;
      hide Separate;
      var m1, rest := Do(m, es[0]), es[1..];
      StepIsAtomic(m, es[0]);
      LiveIsReplay(m1, rest);
      var rs1 := Committed(m1, rest);
      var before, after := View(m.k, m.k.active), View(m1.k, m1.k.active);
      if Flips(m, es[0]) {
        ReplayStep(before, m.helper.req, after, rs1);
      } else {
        assert [] + rs1 == rs1;
        ReplayRespectsConfig(after, before, rs1);
      }
      SameConfigTransitive(View(Run(m, es).k, Run(m, es).k.active), Replay(after, rs1), Replay(before, Committed(m, es)));
    }
  }

  function Alternate(slot: nat, flips: nat): nat
    requires slot < SLOTS
    decreases flips
  {
    if flips == 0 then slot else Alternate(1 - slot, flips - 1)
  }

  function Bumped(version: nat, flips: nat): nat
    decreases flips
  {
    if flips == 0 then version else Bumped((version + 1) % U32, flips - 1)
  }

  lemma {:induction false} BumpedIsSum(version: nat, flips: nat)
    requires version < U32
    ensures Bumped(version, flips) == (version + flips) % U32
    decreases flips
  {
    if flips > 0 {
      if version + 1 < U32 {
        assert (version + 1) % U32 == version + 1;
        BumpedIsSum(version + 1, flips - 1);
      } else {
        assert (version + 1) % U32 == 0;
        BumpedIsSum(0, flips - 1);
        WholeTurn(flips - 1);
      }
    }
  }

  lemma WholeTurn(x: nat)
    ensures (U32 + x) % U32 == x % U32
  {
  }

  /** The slot alternates and the version counts, once per flip and at no other time. */
  lemma {:induction false} FlipsAreCounted(m: Node, es: seq<Event>)
    requires Inv(m) && m.k.version < U32
    ensures var k, k', n := m.k, Run(m, es).k, |Committed(m, es)|;
            k'.active == Alternate(k.active, n) && k'.version == (k.version + n) % U32
  {
    FlipsAreBumped(m, es);
    BumpedIsSum(m.k.version, |Committed(m, es)|);
  }

  lemma {:induction false} FlipsAreBumped(m: Node, es: seq<Event>)
    requires Inv(m)
    ensures var k, k', n := m.k, Run(m, es).k, |Committed(m, es)|;
            k'.active == Alternate(k.active, n) && k'.version == Bumped(k.version, n)
    decreases es
  {
    if es != [] {
      hide Do;
      hide Target;
      hide View;
      hide SameConfig;
      hide OnCourse;
      hide TodoOk;
      hide Separate;
      hide Flips;
      StepIsAtomic(m, es[0]);
      FlipsAreBumped(Do(m, es[0]), es[1..]);
      var n := |Committed(Do(m, es[0]), es[1..])|;
      assert |Committed(m, es)| == if Flips(m, es[0]) then n + 1 else n;
      hide Committed;
    }
  }

  // ----- A packet sees one snapshot -----

  /** The step writes into slot `s`: an install, its node settings or its deny flags. */
  predicate TouchesSlot(m: Node, e: Event, s: nat)
  {
    && e.Advance? && m.helper.Running? && m.helper.todo != []
    && var w := m.helper.todo[0]; (w.SetNode? || w.SetFlags? || w.Install?) && w.slot == s
  }

  ghost predicate Untouched(m: Node, es: seq<Event>, s: nat)
    requires Inv(m)
    decreases es
  {
    es == [] || (StepKeepsInv(m, es[0]); !TouchesSlot(m, es[0], s) && Untouched(Do(m, es[0]), es[1..], s))
  }

  lemma WriteKeepsSlot(k: Kernel, w: Write, bitmaps: set<MapId>, s: nat)
    requires Ok(k) && s < SLOTS && WriteOk(k, w, bitmaps) && Exec(k, w).slots[s] == k.slots[s]
    ensures Ok(Exec(k, w)) ==> SameConfig(View(Exec(k, w), s), View(k, s))
  {
    var k' := Exec(k, w);
    forall o: Outer ensures k'.heap[k.slots[s].inner[o]] == k.heap[k.slots[s].inner[o]] {
      assert Referenced(k, k.slots[s].inner[o]);
    }
  }

  lemma StepKeepsSlot(m: Node, e: Event, s: nat)
    requires Inv(m) && s < SLOTS && !TouchesSlot(m, e, s)
    ensures Inv(Do(m, e)) && SameConfig(View(Do(m, e).k, s), View(m.k, s))
  {
    StepKeepsInv(m, e);
    hide OnCourse;
    hide PlanOf;
    if e.Advance? && m.helper.Running? && m.helper.todo != [] {
      assert WriteOk(m.k, m.helper.todo[0], m.bitmaps);
      WriteKeepsSlot(m.k, m.helper.todo[0], m.bitmaps, s);
    } else if e.PortsStep? && m.dp.Writing? && m.dp.id.Some? && m.dp.next < |m.dp.words| {
      BitmapNotConfig(m.k, m.bitmaps, m.dp.id.value, s);
      BitmapStoreShowsSameConfig(m.k, m.dp.id.value, Word(m.dp.next), Bits(m.dp.words[m.dp.next]), s);
    }
  }

  /** Whatever happens between two lookups of a packet, commits included, the slot it read shows the
      same complete configuration until some helper makes its first write into that slot. */
  lemma {:induction false} SlotShowsOneSnapshot(m: Node, es: seq<Event>, s: nat)
    requires Inv(m) && s < SLOTS && Untouched(m, es, s)
    ensures SameConfig(View(Run(m, es).k, s), View(m.k, s))
    decreases es
  {
    if es != [] {
      hide Do;
      hide View;
      hide SameConfig;
      hide OnCourse;
      hide TodoOk;
      hide Separate;
      hide TouchesSlot;
      StepKeepsSlot(m, es[0], s);
      SlotShowsOneSnapshot(Do(m, es[0]), es[1..], s);
      SameConfigTransitive(View(Run(m, es).k, s), View(Do(m, es[0]).k, s), View(m.k, s));
    }
  }

  /** A helper never writes into the slot that is active: the slot a packet has just read stays
      untouched at least until a flip has made the other slot active. */
  lemma ActiveSlotIsNotTouched(m: Node, e: Event)
    requires Inv(m)
    ensures !TouchesSlot(m, e, m.k.active)
  {
    if e.Advance? && m.helper.Running? && m.helper.todo != [] {
      assert WriteOk(m.k, m.helper.todo[0], m.bitmaps);
    }
  }
}
