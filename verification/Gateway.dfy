/** The whole gateway: the service ledger with its worker, the stored deny list with its convergence
    worker, and the node's map writers in one machine. The worker starts a helper on the file it wrote
    for the snapshot it loaded; the helper's flip, and nothing else, makes that snapshot live; a worker
    that gives up on a helper, or dies, leaves no helper behind. */
module Gateway {
  import opened Wrappers
  import opened Ipv4
  import opened Snapshot
  import opened Bpf
  import opened ApplyPlan
  import opened Pipeline
  import opened Policy
  import opened Meaning
  import opened Delivery
  import opened Cpu
  import opened Charges
  import R = ApplyRuns
  import P = PortRuns
  import G = Ledger
  import L = LiveConfig
  import D = DenyStore
  import C = DenyConverge

  /** `past` are all the steps the map writers have taken since the loader left the node as `start`. */
  datatype World = World(svc: L.World, deny: C.World, start: R.Node, past: seq<R.Event>)

  /** What the worker makes of a helper that has flipped: it sees the success, it does not, or it dies. */
  datatype Report = Seen | Lost | Died

  datatype Move =
    | Services(le: L.Event)
    | Deny(ce: C.Event)
    | Launch(req: R.Request, ids: map<Outer, MapId>)
    | Node(ne: R.Event)
    | Flip(report: Report)

  ghost function NodeOf(w: World): R.Node
    requires R.Inv(w.start)
    ensures R.Inv(NodeOf(w))
  {
    R.Run(w.start, w.past)
  }

  ghost function Done(w: World): seq<R.Request>
    requires R.Inv(w.start)
  {
    R.Committed(w.start, w.past)
  }

  /** A listing of the snapshot's records. */
  ghost predicate Lists(rs: seq<Record>, snap: map<nat, Record>)
  {
    (forall sid :: sid in snap ==> snap[sid] in rs) && (forall r :: r in rs ==> r in snap.Values)
  }

  ghost predicate ListsCidrs(cs: seq<Cidr>, s: set<Cidr>) { forall c :: c in cs <==> c in s }

  /** `ss` is what a helper parses from a file written for the snapshot. */
  ghost predicate Sends(snap: map<nat, Record>, ss: seq<Service>) { exists rs :: Lists(rs, snap) && Written(rs, ss) }

  ghost predicate SendsDeny(revision: nat, cidrs: set<Cidr>, es: seq<Cidr>)
  {
    exists cs :: ListsCidrs(cs, cidrs) && SentDeny(revision, cs, es)
  }

  /** The request is the one the worker is carrying. */
  ghost predicate Carried(w: World, req: R.Request)
  {
    match req
    case ServiceApply(ss, _) => w.svc.pc.Loaded? && Sends(w.svc.pc.snap, ss)
    case GlobalApply(es) => w.deny.pc.Loaded? && SendsDeny(w.deny.pc.revision, w.deny.pc.cidrs, es)
  }

  ghost predicate Enabled(w: World, mv: Move)
    requires R.Inv(w.start)
  {
    match mv
    case Services(e) => !e.ApplySucceeds? && (e.ApplyFails? || e.Crash? ==> !e.committed)
    case Deny(e) => !e.ApplySucceeds? && (e.ApplyFails? || e.Crash? ==> !e.committed)
    case Launch(req, ids) => Carried(w, req)
    case Node(e) => !e.Start? && !R.Flips(NodeOf(w), e)
    case Flip(report) => R.Flips(NodeOf(w), R.Advance)
  }

  function WithNode(w: World, e: R.Event): World { w.(past := w.past + [e]) }

  function ServiceReport(r: Report): L.Event
  {
    match r case Seen => L.ApplySucceeds case Lost => L.ApplyFails(true) case Died => L.Crash(true)
  }

  function DenyReport(r: Report): C.Event
  {
    match r case Seen => C.ApplySucceeds case Lost => C.ApplyFails(true) case Died => C.Crash(true)
  }

  ghost function Do(w: World, mv: Move): World
    requires R.Inv(w.start) && Enabled(w, mv)
  {
    match mv
    case Services(e) =>
      var w' := w.(svc := L.Step(w.svc, e));
      if e.ApplyFails? || e.Crash? then WithNode(w', R.Stop) else w'
    case Deny(e) =>
      var w' := w.(deny := C.Step(w.deny, e));
      if e.ApplyFails? || e.Crash? then WithNode(w', R.Stop) else w'
    case Launch(req, ids) => WithNode(w, R.Start(req, ids))
    case Node(e) => WithNode(w, e)
    case Flip(report) =>
      var w' := WithNode(w, R.Advance);
      if NodeOf(w).helper.req.ServiceApply? then w'.(svc := L.Step(w.svc, ServiceReport(report)))
      else w'.(deny := C.Step(w.deny, DenyReport(report)))
  }

  ghost function Step(w: World, mv: Move): World
    requires R.Inv(w.start)
  {
    if Enabled(w, mv) then Do(w, mv) else w
  }

  // ----- What ties the three machines together -----

  ghost predicate ServicesTied(done: seq<R.Request>, live: map<nat, Record>)
  {
    match LastService(done) case None => live == map[] case Some(c) => Sends(live, c.0)
  }

  ghost predicate DenyTied(done: seq<R.Request>, live: set<Cidr>)
  {
    match LastDeny(done) case None => live == {} case Some(es) => exists revision :: SendsDeny(revision, live, es)
  }

  /** A helper that can still flip carries the request its worker waits for. */
  ghost predicate HelperTied(w: World, h: R.Helper) { h.Running? && h.todo != [] ==> Carried(w, h.req) }

  ghost predicate Good(w: World)
  {
    && P.Loaded(w.start) && R.Inv(w.start) && L.Good(w.svc) && L.Records(w.svc) && C.Good(w.deny)
    && HelperTied(w, NodeOf(w).helper)
    && ServicesTied(Done(w), w.svc.live) && DenyTied(Done(w), w.deny.live)
  }

  // ----- What one event of each machine leaves alone -----

  lemma ServiceFrame(s: L.World, e: L.Event)
    requires !e.ApplySucceeds? && (e.ApplyFails? || e.Crash? ==> !e.committed)
    ensures L.Step(s, e).live == s.live
    ensures s.pc.Loaded? && !e.ApplyFails? && !e.Crash? ==> L.Step(s, e).pc == s.pc
  {
    hide G.Do;
    hide G.Enabled;
  }

  lemma DenyFrame(s: C.World, e: C.Event)
    requires !e.ApplySucceeds? && (e.ApplyFails? || e.Crash? ==> !e.committed)
    ensures C.Step(s, e).live == s.live
    ensures s.pc.Loaded? && !e.ApplyFails? && !e.Crash? ==> C.Step(s, e).pc == s.pc
  {
    hide D.Reconcile;
    hide D.Add;
    hide D.Remove;
    hide D.DeleteSource;
    hide D.AddSource;
  }

  lemma ServiceFlips(s: L.World, r: Report)
    requires s.pc.Loaded?
    ensures L.Step(s, ServiceReport(r)).live == s.pc.snap
  {
  }

  lemma DenyFlips(s: C.World, r: Report)
    requires s.pc.Loaded?
    ensures C.Step(s, DenyReport(r)).live == s.pc.cidrs
  {
  }

  /** A step of the map writers that is not the flip commits nothing. */
  lemma NodeFrame(w: World, e: R.Event)
    requires R.Inv(w.start) && !R.Flips(NodeOf(w), e)
    ensures Done(WithNode(w, e)) == Done(w) && Ok(NodeOf(w).k) && NodeOf(WithNode(w, e)) == R.Do(NodeOf(w), e)
  {
    hide R.Inv;
    hide R.Do;
    hide R.Run;
    hide R.Committed;
    R.RunSnoc(w.start, w.past, e);
  }

  lemma StopFrame(w: World)
    requires R.Inv(w.start)
    ensures Done(WithNode(w, R.Stop)) == Done(w) && NodeOf(WithNode(w, R.Stop)).helper == R.Idle
  {
    hide R.Inv;
    hide R.Run;
    hide R.Committed;
    NodeFrame(w, R.Stop);
  }

  // ----- Every move keeps the tie -----

  lemma ServicesKeepGood(w: World, e: L.Event)
    requires Good(w) && Enabled(w, Services(e))
    ensures Good(Do(w, Services(e)))
  {
    hide R.Inv;
    hide P.Loaded;
    hide L.Good;
    hide L.Records;
    hide C.Good;
    hide R.Run;
    hide R.Committed;
    hide L.Step;
    hide ServicesTied;
    hide DenyTied;
    hide Sends;
    hide SendsDeny;
    L.StepKeepsGood(w.svc, e);
    L.StepKeepsRecords(w.svc, e);
    ServiceFrame(w.svc, e);
    if e.ApplyFails? || e.Crash? {
      StopFrame(w.(svc := L.Step(w.svc, e)));
    }
  }

  lemma DenyKeepsGood(w: World, e: C.Event)
    requires Good(w) && Enabled(w, Deny(e))
    ensures Good(Do(w, Deny(e)))
  {
    hide R.Inv;
    hide P.Loaded;
    hide L.Good;
    hide L.Records;
    hide C.Good;
    hide R.Run;
    hide R.Committed;
    hide C.Step;
    hide ServicesTied;
    hide DenyTied;
    hide Sends;
    hide SendsDeny;
    C.StepKeepsGood(w.deny, e);
    DenyFrame(w.deny, e);
    if e.ApplyFails? || e.Crash? {
      StopFrame(w.(deny := C.Step(w.deny, e)));
    }
  }

  /** Only Start gives the helper a request, and only a step of its own changes what it has left. */
  lemma HelperFrame(m: R.Node, e: R.Event)
    requires Ok(m.k) && !e.Start?
    ensures var h := R.Do(m, e).helper;
            h.Running? && h.todo != [] ==> m.helper.Running? && m.helper.todo != [] && h.req == m.helper.req
  {
  }

  lemma NodeKeepsGood(w: World, e: R.Event)
    requires Good(w) && !R.Flips(NodeOf(w), e)
    requires e.Start? ==> Carried(w, e.req)
    ensures Good(WithNode(w, e))
  {
    hide R.Inv;
    hide P.Loaded;
    hide L.Good;
    hide L.Records;
    hide C.Good;
    hide R.Run;
    hide R.Committed;
    hide ServicesTied;
    hide DenyTied;
    hide Sends;
    hide SendsDeny;
    NodeFrame(w, e);
    if e.Start? {
      StartFrame(NodeOf(w), e);
    } else {
      HelperFrame(NodeOf(w), e);
    }
    hide R.Do;
  }

  lemma StartFrame(m: R.Node, e: R.Event)
    requires Ok(m.k) && e.Start?
    ensures R.Do(m, e).helper == m.helper || (R.Do(m, e).helper.Running? && R.Do(m, e).helper.req == e.req)
  {
    hide R.PlanOf;
  }

  lemma LastServiceSnoc(done: seq<R.Request>, r: R.Request)
    ensures LastService(done + [r]) == if r.ServiceApply? then Some((r.ss, r.n)) else LastService(done)
    ensures LastDeny(done + [r]) == if r.GlobalApply? then Some(r.es) else LastDeny(done)
  {
    assert (done + [r])[..|done|] == done;
  }

  lemma FlipCommits(w: World)
    requires R.Inv(w.start) && R.Flips(NodeOf(w), R.Advance)
    ensures Done(WithNode(w, R.Advance)) == Done(w) + [NodeOf(w).helper.req]
    ensures NodeOf(WithNode(w, R.Advance)).helper.Running? && NodeOf(WithNode(w, R.Advance)).helper.todo == []
  {
    var m := NodeOf(w);
    assert m.helper.todo[1..] == [] by { FlipIsLast(m); }
    assert Ok(m.k);
    assert R.Do(m, R.Advance).helper == m.helper.(todo := m.helper.todo[1..]);
    hide R.Inv;
    hide R.Do;
    hide R.Run;
    hide R.Committed;
    R.RunSnoc(w.start, w.past, R.Advance);
  }

  lemma FlipIsLast(m: R.Node)
    requires R.Inv(m) && R.Flips(m, R.Advance)
    ensures m.helper.todo[1..] == []
  {
    hide R.OnCourse;
    hide R.WriteOk;
  }

  lemma FlipKeepsGood(w: World, report: Report)
    requires Good(w) && Enabled(w, Flip(report))
    ensures Good(Do(w, Flip(report)))
  {
    hide R.Inv;
    hide P.Loaded;
    hide L.Good;
    hide L.Records;
    hide C.Good;
    hide R.Run;
    hide R.Committed;
    hide L.Step;
    hide C.Step;
    hide Sends;
    hide SendsDeny;
    hide LastService;
    hide LastDeny;
    var req := NodeOf(w).helper.req;
    assert Carried(w, req);
    FlipCommits(w);
    LastServiceSnoc(Done(w), req);
    if req.ServiceApply? {
      L.StepKeepsGood(w.svc, ServiceReport(report));
      L.StepKeepsRecords(w.svc, ServiceReport(report));
      ServiceFlips(w.svc, report);
    } else {
      C.StepKeepsGood(w.deny, DenyReport(report));
      DenyFlips(w.deny, report);
    }
  }

  lemma StepKeepsGood(w: World, mv: Move)
    requires Good(w)
    ensures Good(Step(w, mv))
  {
    if Enabled(w, mv) {
      match mv {
        case Services(e) => ServicesKeepGood(w, e);
        case Deny(e) => DenyKeepsGood(w, e);
        case Launch(req, ids) =>
          assert !R.Flips(NodeOf(w), R.Start(req, ids));
          NodeKeepsGood(w, R.Start(req, ids));
        case Node(e) => NodeKeepsGood(w, e);
        case Flip(report) => FlipKeepsGood(w, report);
      }
    }
  }

  ghost function Run(w: World, mvs: seq<Move>): World
    requires Good(w)
    ensures Good(Run(w, mvs))
    decreases mvs
  {
    if mvs == [] then w else
      StepKeepsGood(w, mvs[0]);
      Run(Step(w, mvs[0]), mvs[1..])
  }

  /** An empty database over a freshly loaded node. */
  function Fresh(start: R.Node): World
  {
    World(L.World(G.Db(map[], map[]), L.Idle, map[], {}), C.EMPTY, start, [])
  }

  lemma FreshIsGood(start: R.Node)
    requires P.Loaded(start)
    ensures Good(Fresh(start))
  {
    P.LoadedIsInv(start);
    var w := Fresh(start);
    assert NodeOf(w) == start && Done(w) == [];
    hide P.Loaded;
    hide R.Inv;
  }

  // ----- What packets meet -----

  /** The records and CIDRs in force are listings of the two live snapshots. */
  lemma InForce(w: World) returns (rs: seq<Record>, revision: nat, cs: seq<Cidr>)
    requires Good(w)
    ensures Lists(rs, w.svc.live) && ServicesSent(Done(w), rs)
    ensures ListsCidrs(cs, w.deny.live) && DenySent(Done(w), revision, cs)
  {
    hide R.Inv;
    hide P.Loaded;
    hide L.Good;
    hide L.Records;
    hide C.Good;
    hide R.Run;
    hide R.Committed;
    hide LastService;
    hide LastDeny;
    hide Written;
    hide RecordsOk;
    hide SentDeny;
    var done := Done(w);
    rs, revision, cs := [], 0, [];
    if LastService(done).Some? {
      assert Sends(w.svc.live, LastService(done).value.0);
      rs :| Lists(rs, w.svc.live) && Written(rs, LastService(done).value.0);
      ListingOk(rs, w.svc);
    }
    if LastDeny(done).Some? {
      revision :| SendsDeny(revision, w.deny.live, LastDeny(done).value);
      cs :| ListsCidrs(cs, w.deny.live) && SentDeny(revision, cs, LastDeny(done).value);
    }
  }

  /** The database's constraints make every listing of a snapshot a proper set of records. */
  lemma ListingOk(rs: seq<Record>, s: L.World)
    requires L.Records(s) && Lists(rs, s.live)
    ensures RecordsOk(rs)
  {
    hide RecordOk;
    hide Overlap;
    hide G.Coherent;
    forall x, y | x in rs && y in rs && x != y ensures x.dpId != y.dpId && !Overlap(x.cidr, y.cidr) {
      var i :| i in s.live && s.live[i] == x;
      var j :| j in s.live && s.live[j] == y;
    }
    forall r | r in rs ensures RecordOk(r) {
      var i :| i in s.live && s.live[i] == r;
    }
  }

  lemma SameListed(cs: seq<Cidr>, ds: seq<Cidr>, s: set<Cidr>, src: nat)
    requires ListsCidrs(cs, s) && ListsCidrs(ds, s)
    ensures Listed(cs, src) <==> Listed(ds, src)
  {
    hide Contains;
    if i :| 0 <= i < |cs| && Contains(cs[i], src) {
      assert cs[i] in ds;
    }
    if i :| 0 <= i < |ds| && Contains(ds[i], src) {
      assert ds[i] in cs;
    }
  }

  /** One record decides for the packets to its own block, and the order of the CIDRs does not matter. */
  lemma RuledByOwner(rs: seq<Record>, r: Record, cs: seq<Cidr>, ds: seq<Cidr>, s: set<Cidr>, blocked: set<nat>,
                     p: Packet, a: Stage -> Answer, hops: set<nat>)
    requires RecordsOk(rs) && r in rs && r.enabled && Contains(r.cidr, p.dst)
    requires ListsCidrs(cs, s) && ListsCidrs(ds, s)
    ensures Ruled(rs, cs, blocked, p, a, hops) == Ruled([r], ds, blocked, p, a, hops)
  {
    hide RecordsOk;
    hide Contains;
    hide Limited;
    hide Best;
    SameListed(cs, ds, s, p.src);
    hide Listed;
    hide ListsCidrs;
    var x := Owner(rs, p.dst);
    OneOwner(rs, r, x.value, p.dst);
    assert Owner([r], p.dst) == Some(r);
    hide Owner;
  }

  lemma SentRecordsOk(done: seq<R.Request>, rs: seq<Record>)
    requires ServicesSent(done, rs)
    ensures RecordsOk(rs)
  {
    hide InBounds;
    hide Decode;
    hide Encode;
    hide CompileNode;
  }

  /** Main theorem. From a freshly loaded node and an empty database, after any interleaving of operator
      edits, feed syncs, worker steps, helper writes, failures and crashes: if a service's status is
      active, every packet to it is treated as its stored record says, with the deny set last applied;
      and if the deny list's revisions agree, that set is the stored one. */
  lemma ActiveIsServed(start: R.Node, mvs: seq<Move>, sid: nat, ds: seq<Cidr>, p: Packet, a: Stage -> Answer, hops: set<nat>)
    requires P.Loaded(start) && PacketOk(p)
    ensures Good(Fresh(start))
    ensures var w := Run(Fresh(start), mvs);
            var k := NodeOf(w).k;
            && Ok(k)
            && (sid in w.svc.db.services && w.svc.db.services[sid].status == G.Active
                && w.svc.db.services[sid].rec.enabled && Contains(w.svc.db.services[sid].rec.cidr, p.dst)
                && ListsCidrs(ds, w.deny.live) ==>
                  Agrees(Decide(View(k, k.active), p, a, hops),
                         Ruled([w.svc.db.services[sid].rec], ds, P.LivePorts(k), p, a, hops)))
            && (!C.NeedsApply(w.deny.store.rev) ==> w.deny.live == D.Cidrs(w.deny.store))
  {
    FreshIsGood(start);
    var w := Run(Fresh(start), mvs);
    hide Run;
    hide P.Loaded;
    hide C.Good;
    hide R.Run;
    hide R.Committed;
    hide Decide;
    hide Ruled;
    hide Agrees;
    hide Contains;
    hide ListsCidrs;
    hide ServicesSent;
    hide DenySent;
    ConvergedLive(w.deny);
    var rs, revision, cs := InForce(w);
    GatewayServesRecords(w.start, w.past, rs, revision, cs, p, a, hops);
    if sid in w.svc.db.services && w.svc.db.services[sid].status == G.Active && w.svc.db.services[sid].rec.enabled
       && Contains(w.svc.db.services[sid].rec.cidr, p.dst) && ListsCidrs(ds, w.deny.live)
    {
      SentRecordsOk(Done(w), rs);
      var r := ActiveListed(w.svc, sid, rs);
      RuledByOwner(rs, r, cs, ds, w.deny.live, P.LivePorts(NodeOf(w).k), p, a, hops);
    }
  }

  /** A service of the live snapshot other than `sid` takes the packet. */
  ghost predicate TakenBy(w: World, sid: nat, other: nat, dst: nat)
  {
    other != sid && other in w.svc.live && w.svc.live[other].enabled && Contains(w.svc.live[other].cidr, dst)
  }

  /** The other half: an active service that is disabled is gone. A packet to any destination misses, with
      no bucket charged, or is treated as another live record says. */
  lemma DisabledIsNotServed(start: R.Node, mvs: seq<Move>, sid: nat, ds: seq<Cidr>, p: Packet, a: Stage -> Answer, hops: set<nat>)
    requires P.Loaded(start) && PacketOk(p)
    ensures Good(Fresh(start))
    ensures var w := Run(Fresh(start), mvs);
            var k := NodeOf(w).k;
            && Ok(k)
            && (sid in w.svc.db.services && w.svc.db.services[sid].status == G.Active
                && !w.svc.db.services[sid].rec.enabled && ListsCidrs(ds, w.deny.live) ==>
                  var d := Decide(View(k, k.active), p, a, hops);
                  || (d == Path([], 0, None, Drop(ServiceMiss)) && forall other :: !TakenBy(w, sid, other, p.dst))
                  || exists other :: TakenBy(w, sid, other, p.dst)
                       && Agrees(d, Ruled([w.svc.live[other]], ds, P.LivePorts(k), p, a, hops)))
  {
    hide Run;
    hide P.Loaded;
    hide Decide;
    hide Agrees;
    hide Ruled;
    hide ListsCidrs;
    hide TakenBy;
    FreshIsGood(start);
    var w := Run(Fresh(start), mvs);
    if sid in w.svc.db.services && w.svc.db.services[sid].status == G.Active && !w.svc.db.services[sid].rec.enabled
       && ListsCidrs(ds, w.deny.live)
    {
      DisabledOutcome(w, sid, ds, p, a, hops);
    }
    hide Good;
  }

  lemma DisabledOutcome(w: World, sid: nat, ds: seq<Cidr>, p: Packet, a: Stage -> Answer, hops: set<nat>)
    requires Good(w) && PacketOk(p) && sid in w.svc.db.services && w.svc.db.services[sid].status == G.Active
    requires !w.svc.db.services[sid].rec.enabled && ListsCidrs(ds, w.deny.live)
    ensures var k := NodeOf(w).k;
            && Ok(k)
            && var d := Decide(View(k, k.active), p, a, hops);
               || (d == Path([], 0, None, Drop(ServiceMiss)) && forall other :: !TakenBy(w, sid, other, p.dst))
               || exists other :: TakenBy(w, sid, other, p.dst)
                    && Agrees(d, Ruled([w.svc.live[other]], ds, P.LivePorts(k), p, a, hops))
  {
    hide P.Loaded;
    hide C.Good;
    hide R.Run;
    hide R.Committed;
    hide Decide;
    hide Agrees;
    hide Ruled;
    hide Contains;
    hide ListsCidrs;
    hide ServicesSent;
    hide DenySent;
    hide L.Records;
    var rs, revision, cs := InForce(w);
    GatewayServesRecords(w.start, w.past, rs, revision, cs, p, a, hops);
    var k := NodeOf(w).k;
    SentRecordsOk(Done(w), rs);
    assert sid !in w.svc.live by { DisabledAbsent(w.svc, sid); }
    hide L.Good;
    var owner := Owner(rs, p.dst);
    if owner.Some? {
      var other :| other in w.svc.live && w.svc.live[other] == owner.value;
      assert TakenBy(w, sid, other, p.dst);
      RuledByOwner(rs, owner.value, cs, ds, w.deny.live, P.LivePorts(k), p, a, hops);
    } else {
      MissAgrees(Decide(View(k, k.active), p, a, hops), rs, cs, P.LivePorts(k), p, a, hops);
      forall other ensures !TakenBy(w, sid, other, p.dst) {
        assert other in w.svc.live ==> w.svc.live[other] in rs;
      }
    }
  }

  lemma MissAgrees(d: Path, rs: seq<Record>, cs: seq<Cidr>, blocked: set<nat>, p: Packet, a: Stage -> Answer, hops: set<nat>)
    requires Owner(rs, p.dst).None? && Agrees(d, Ruled(rs, cs, blocked, p, a, hops))
    ensures d == Path([], 0, None, Drop(ServiceMiss))
  {
    hide Owner;
  }

  lemma DisabledAbsent(s: L.World, sid: nat)
    requires L.Good(s) && sid in s.db.services && s.db.services[sid].status == G.Active && !s.db.services[sid].rec.enabled
    ensures sid !in s.live
  {
    hide G.Inv;
    assert L.At(s.live, sid) == L.Desired(s.db.services[sid]);
  }

  /** And the packets of an active, enabled service are charged the rates of its stored record, at every
      stage of its own, under the node settings of the last committed apply. */
  lemma ActiveIsCharged(start: R.Node, mvs: seq<Move>, sid: nat, room: nat, s: Stage)
    requires P.Loaded(start) && s != Headroom
    ensures Good(Fresh(start))
    ensures var w := Run(Fresh(start), mvs);
            var k := NodeOf(w).k;
            && Ok(k)
            && (sid in w.svc.db.services && w.svc.db.services[sid].status == G.Active && w.svc.db.services[sid].rec.enabled ==>
                  && LastService(Done(w)).Some? && KnobsOk(LastService(Done(w)).value.1)
                  && var rec := w.svc.db.services[sid].rec;
                     ConfigAt(View(k, k.active), rec.dpId, s) == Sold(rec, LastService(Done(w)).value.1, room, s))
  {
    FreshIsGood(start);
    var w := Run(Fresh(start), mvs);
    hide Run;
    hide P.Loaded;
    hide C.Good;
    hide L.Records;
    hide R.Run;
    hide R.Committed;
    hide ConfigAt;
    hide Sold;
    hide ListsCidrs;
    hide DenySent;
    hide SentServices;
    hide ShowsServices;
    hide ShowsDeny;
    hide LastService;
    hide CompileNode;
    var rs, revision, cs := InForce(w);
    if sid in w.svc.db.services && w.svc.db.services[sid].status == G.Active && w.svc.db.services[sid].rec.enabled {
      var r := ActiveListed(w.svc, sid, rs);
      var any := SomeKnobs();
      LiveShowsLast(w.start, w.past, any);
      InForceArrives(Done(w), any, rs, revision, cs);
      var n := LastService(Done(w)).value.1;
      var k := NodeOf(w).k;
      ChargesWhatIsSold(View(k, k.active), rs, n, r, room, s);
    }
  }

  lemma ConvergedLive(s: C.World)
    requires C.Good(s)
    ensures !C.NeedsApply(s.store.rev) ==> s.live == D.Cidrs(s.store)
  {
  }

  lemma ActiveListed(s: L.World, sid: nat, rs: seq<Record>) returns (r: Record)
    requires L.Good(s) && Lists(rs, s.live) && sid in s.db.services && s.db.services[sid].status == G.Active
    requires s.db.services[sid].rec.enabled
    ensures r == s.db.services[sid].rec && r in rs
  {
    hide G.Inv;
    r := s.db.services[sid].rec;
    assert L.At(s.live, sid) == L.Desired(s.db.services[sid]);
  }
}
