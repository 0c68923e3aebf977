/** From stored records to live packets: serialize, parse, apply (with crashes and interleavings), and
    look up. */
module Delivery {
  import opened Wrappers
  import opened Ipv4
  import opened Wire
  import opened Snapshot
  import opened SnapshotIo
  import opened Bpf
  import opened DenyList
  import opened BlockedPorts
  import opened ApplyPlan
  import opened ApplyEffect
  import opened ApplyRuns
  import opened PortRuns
  import opened Pipeline
  import opened Policy
  import opened Meaning

  function LastService(rs: seq<Request>): Option<(seq<Service>, Knobs)>
  {
    if rs == [] then None
    else if rs[|rs| - 1].ServiceApply? then Some((rs[|rs| - 1].ss, rs[|rs| - 1].n))
    else LastService(rs[..|rs| - 1])
  }

  function LastDeny(rs: seq<Request>): Option<seq<Cidr>>
  {
    if rs == [] then None
    else if rs[|rs| - 1].GlobalApply? then Some(rs[|rs| - 1].es)
    else LastDeny(rs[..|rs| - 1])
  }

  /** The services in force after a list of committed requests; none before the first. */
  function ServicesInForce(rs: seq<Request>, n: Knobs): (seq<Service>, Knobs)
  {
    match LastService(rs) case None => ([], n) case Some(c) => c
  }

  function DenyInForce(rs: seq<Request>): seq<Cidr>
  {
    match LastDeny(rs) case None => [] case Some(es) => es
  }

  lemma {:induction false} CommittedRequestsOk(m: ApplyRuns.Node, es: seq<Event>)
    requires Inv(m)
    ensures forall r :: r in ApplyRuns.Committed(m, es) ==> ReqOk(r) && Accepted(r)
    decreases es
  {
    hide Do;
    hide Target;
    hide View;
    hide OnCourse;
    hide TodoOk;
    hide Separate;
    hide ReqOk;
    hide Accepted;
    if es != [] {
      StepIsAtomic(m, es[0]);
      CommittedRequestsOk(Do(m, es[0]), es[1..]);
    }
  }

  lemma {:induction false} ReplaySnoc(v: SlotView, rs: seq<Request>, r: Request)
    requires Total(v) && ReqOk(r) && forall q :: q in rs ==> ReqOk(q)
    ensures Replay(v, rs + [r]) == Target(r, Replay(v, rs))
    decreases rs
  {
    hide Target;
    hide ReqOk;
    if rs == [] {
      assert [r][1..] == [];
      assert rs + [r] == [r];
    } else {
      assert (rs + [r])[1..] == rs[1..] + [r];
      assert rs[0] in rs;
      ReplaySnoc(Target(rs[0], v), rs[1..], r);
    }
  }

  lemma ServiceTargetShows(w: SlotView, ss: seq<Service>, n: Knobs)
    requires Total(w) && KnobsOk(n) && NodeOk(ss)
    ensures var t := Target(ServiceApply(ss, n), w);
            ShowsServices(t, ss, n) && t.node == NodeEntry(ss, n) && forall es :: ShowsDeny(w, es) ==> ShowsDeny(t, es)
  {
    hide Contents;
    hide NodePuts;
    hide NodeEntry;
    hide GlobalPuts;
    hide PlanAll;
  }

  lemma DenyTargetShows(w: SlotView, es: seq<Cidr>)
    requires Total(w)
    ensures var t := Target(GlobalApply(es), w);
            ShowsDeny(t, es) && t.node == w.node && forall ss, n :: KnobsOk(n) && ShowsServices(w, ss, n) ==> ShowsServices(t, ss, n)
  {
    hide Contents;
    hide NodePuts;
    hide GlobalPuts;
    hide PlanAll;
  }

  /** After a replay over empty maps, the service half shows the last service request and the deny half
      the last deny request, whatever came in between, and stays empty where there was none. */
  lemma {:induction false} ReplayShows(v: SlotView, rs: seq<Request>, n: Knobs)
    requires Total(v) && (forall r :: r in rs ==> ReqOk(r) && Accepted(r))
    requires KnobsOk(n) && ShowsServices(v, [], n) && ShowsDeny(v, [])
    ensures var (ss, n') := ServicesInForce(rs, n);
            && KnobsOk(n') && ShowsServices(Replay(v, rs), ss, n') && ShowsDeny(Replay(v, rs), DenyInForce(rs))
            && (LastService(rs).Some? ==> Replay(v, rs).node == NodeEntry(ss, n'))
    decreases |rs|
  {
    hide Target;
    hide ShowsServices;
    hide ShowsDeny;
    if rs != [] {
      hide Replay;
      var rest, r := rs[..|rs| - 1], rs[|rs| - 1];
      assert rs == rest + [r];
      ReplayShows(v, rest, n);
      ReplaySnoc(v, rest, r);
      assert r in rs;
      match r {
        case ServiceApply(ss, n') =>
          ServiceTargetShows(Replay(v, rest), ss, n');
          assert ServicesInForce(rs, n) == (ss, n') && DenyInForce(rs) == DenyInForce(rest);
        case GlobalApply(es) =>
          DenyTargetShows(Replay(v, rest), es);
          assert ServicesInForce(rs, n) == ServicesInForce(rest, n) && DenyInForce(rs) == es;
      }
    }
  }

  lemma SameConfigShows(v: SlotView, w: SlotView, ss: seq<Service>, n: Knobs, es: seq<Cidr>)
    requires Total(v) && Total(w) && SameConfig(v, w) && KnobsOk(n)
    ensures ShowsServices(w, ss, n) ==> ShowsServices(v, ss, n)
    ensures ShowsDeny(w, es) ==> ShowsDeny(v, es)
    ensures v.node == w.node
  {
    hide Contents;
    hide NodePuts;
    hide GlobalPuts;
    hide PlanAll;
  }

  lemma LoadedShowsNothing(m: ApplyRuns.Node, n: Knobs)
    requires Loaded(m) && KnobsOk(n)
    ensures ShowsServices(View(m.k, m.k.active), [], n) && ShowsDeny(View(m.k, m.k.active), [])
  {
    hide HasWords;
    var v := View(m.k, m.k.active);
    assert NodePuts([], n) == [];
    assert FlagsFor([]) == DenyFlags(false, false);
    assert GlobalPuts([], false) == [];
    forall o: Outer | !o.PortsMap? ensures v.inner[o] == map[] {
      assert m.k.heap[m.k.slots[m.k.active].inner[o]] == map[];
    }
  }

  /** The live slot after any run from the loader shows the last committed request of each kind, and
      nothing where none was committed. */
  lemma LiveShowsLast(m: ApplyRuns.Node, es: seq<Event>, n: Knobs)
    requires Loaded(m) && KnobsOk(n)
    ensures var k, done := Run(m, es).k, ApplyRuns.Committed(m, es);
            var (ss, n') := ServicesInForce(done, n);
            && Ok(k) && KnobsOk(n') && ShowsServices(View(k, k.active), ss, n')
            && ShowsDeny(View(k, k.active), DenyInForce(done)) && EntriesOk(DenyInForce(done))
            && (LastService(done).Some? ==> View(k, k.active).node == NodeEntry(ss, n'))
  {
    hide SameConfig;
    hide ShowsServices;
    hide ShowsDeny;
    hide Replay;
    hide ApplyRuns.Committed;
    hide OnCourse;
    hide TodoOk;
    hide Separate;
    hide Loaded;
    LoadedIsInv(m);
    LoadedShowsNothing(m, n);
    var k, k' := m.k, Run(m, es).k;
    var rs := ApplyRuns.Committed(m, es);
    LiveIsReplay(m, es);
    CommittedRequestsOk(m, es);
    ReplayShows(View(k, k.active), rs, n);
    LastDenyAccepted(rs);
    var (ss, n') := ServicesInForce(rs, n);
    SameConfigShows(View(k', k'.active), Replay(View(k, k.active), rs), ss, n', DenyInForce(rs));
  }

  lemma {:induction false} LastDenyAccepted(rs: seq<Request>)
    requires forall r :: r in rs ==> Accepted(r)
    ensures EntriesOk(DenyInForce(rs))
    decreases |rs|
  {
    assert rs != [] ==> rs[|rs| - 1] in rs;
    if rs != [] && !rs[|rs| - 1].GlobalApply? {
      LastDenyAccepted(rs[..|rs| - 1]);
    }
  }

  lemma DeniedIsListed(cidrs: seq<Cidr>, src: nat)
    ensures Listed(Sorted(cidrs), src) <==> Listed(cidrs, src)
  {
    var es := Sorted(cidrs);
    assert multiset(es) == multiset(cidrs);
    if i :| 0 <= i < |es| && Contains(es[i], src) {
      assert es[i] in multiset(cidrs);
      var j :| 0 <= j < |cidrs| && cidrs[j] == es[i];
    }
    if i :| 0 <= i < |cidrs| && Contains(cidrs[i], src) {
      assert cidrs[i] in multiset(es);
      var j :| 0 <= j < |es| && es[j] == cidrs[i];
    }
  }

  /** Sorting for the wire does not change what a deny list means. */
  lemma RuledIgnoresOrder(rs: seq<Record>, cidrs: seq<Cidr>, blocked: set<nat>, p: Packet, a: Stage -> Answer, hops: set<nat>)
    ensures Ruled(rs, Sorted(cidrs), blocked, p, a, hops) == Ruled(rs, cidrs, blocked, p, a, hops)
  {
    hide Sorted;
    hide Listed;
    hide Limited;
    hide Best;
    DeniedIsListed(cidrs, p.src);
  }

  /** `ss` is what the helper parses from the file written for the records. */
  ghost predicate Written(rs: seq<Record>, ss: seq<Service>)
  {
    InBounds(ServiceFull(CompileNode(rs))) && Decode(Encode(ServiceFull(CompileNode(rs)))) == Some(ServiceFull(ss))
  }

  ghost predicate SentServices(rs: seq<Record>, ss: seq<Service>) { RecordsOk(rs) && Written(rs, ss) }

  /** `es` is what the helper parses from the file written for the CIDRs. */
  ghost predicate SentDeny(revision: nat, cidrs: seq<Cidr>, es: seq<Cidr>)
  {
    && SnapshotIo.Distinct(cidrs) && (forall i :: 0 <= i < |cidrs| ==> Canonical(cidrs[i]))
    && |cidrs| <= MAX_GLOBAL_ENTRIES && Fits(GLOBAL_LAYOUT, [revision, |cidrs|])
    && Decode(Encode(GlobalDeny(revision, Sorted(cidrs)))) == Some(GlobalDeny(revision, es))
  }

  lemma ServicesArrive(rs: seq<Record>, ss: seq<Service>)
    requires SentServices(rs, ss)
    ensures RecordsOk(rs) && ss == CompileNode(rs)
  {
    hide InBounds;
    hide Encode;
    hide Decode;
    DecodeEncode(ServiceFull(CompileNode(rs)));
  }

  lemma DenyArrives(revision: nat, cidrs: seq<Cidr>, es: seq<Cidr>)
    requires SentDeny(revision, cidrs, es)
    ensures es == Sorted(cidrs) && EntriesOk(es)
  {
    hide Encode;
    hide Decode;
    hide Fits;
    GlobalSetSurvives(revision, cidrs);
    SortedAscends(cidrs);
    forall i | 0 <= i < |es| ensures Canonical(es[i]) {
      assert es[i] in multiset(es);
      assert es[i] in cidrs;
    }
  }

  /** The records behind the services in force: those of the last committed snapshot, none before it. */
  ghost predicate ServicesSent(done: seq<Request>, rs: seq<Record>)
  {
    match LastService(done) case None => rs == [] case Some(c) => SentServices(rs, c.0)
  }

  ghost predicate DenySent(done: seq<Request>, revision: nat, cidrs: seq<Cidr>)
  {
    match LastDeny(done) case None => cidrs == [] case Some(es) => SentDeny(revision, cidrs, es)
  }

  lemma InForceArrives(done: seq<Request>, n: Knobs, rs: seq<Record>, revision: nat, cidrs: seq<Cidr>)
    requires ServicesSent(done, rs) && DenySent(done, revision, cidrs)
    ensures RecordsOk(rs) && ServicesInForce(done, n).0 == CompileNode(rs) && DenyInForce(done) == Sorted(cidrs)
  {
    hide SentServices;
    hide SentDeny;
    hide LastService;
    hide LastDeny;
    if LastService(done).Some? {
      hide CompileNode;
      ServicesArrive(rs, LastService(done).value.0);
    }
    if LastDeny(done).Some? {
      DenyArrives(revision, cidrs, LastDeny(done).value);
    }
  }

  /** The knobs only scale fair shares; any will do where no service is in force. */
  lemma SomeKnobs() returns (n: Knobs)
    ensures KnobsOk(n)
  {
    n := Knobs(1, 1, 1, 1);
  }

  /** End to end, from the loader on. The control plane serializes a set of records and a set of CIDRs;
      the helper parses both files and applies them, possibly with failed applies, crashes and dpstat
      steps in between. In every state reached, every packet is ruled by the records and CIDRs last
      committed (by none where none was) and by the ports the live bitmap blocks at that moment. */
  lemma GatewayServesRecords(m: ApplyRuns.Node, es: seq<Event>, rs: seq<Record>, revision: nat, cidrs: seq<Cidr>,
                             p: Packet, a: Stage -> Answer, hops: set<nat>)
    requires Loaded(m) && PacketOk(p)
    requires ServicesSent(ApplyRuns.Committed(m, es), rs) && DenySent(ApplyRuns.Committed(m, es), revision, cidrs)
    ensures var k := Run(m, es).k;
            Ok(k) && Agrees(Decide(View(k, k.active), p, a, hops), Ruled(rs, cidrs, LivePorts(k), p, a, hops))
  {
    hide ApplyRuns.Committed;
    hide Loaded;
    hide ServicesSent;
    hide DenySent;
    hide Decide;
    hide Ruled;
    hide Agrees;
    hide RecordsOk;
    hide ShowsServices;
    hide ShowsDeny;
    hide ShowsPorts;
    hide EntriesOk;
    hide CompileNode;
    hide Sorted;
    hide AllWords;
    hide BlockedBy;
    hide Run;
    hide ServicesInForce;
    LoadedIsInv(m);
    var n := SomeKnobs();
    var done := ApplyRuns.Committed(m, es);
    var n' := ServicesInForce(done, n).1;
    InForceArrives(done, n, rs, revision, cidrs);
    LiveShowsLast(m, es, n);
    PortsFromLoader(m, es);
    var k := Run(m, es).k;
    AllWordsShow(View(k, k.active));
    CompilationPreservesMeaning(View(k, k.active), rs, n', Sorted(cidrs), LivePorts(k), p, a, hops);
    RuledIgnoresOrder(rs, cidrs, LivePorts(k), p, a, hops);
  }

  /** In every state reached from the loader, whatever snapshots were accepted and however far dpstat
      has come, a packet meets a map error only when a bucket's state map is full. */
  lemma NoMapErrorFromLoader(m: ApplyRuns.Node, es: seq<Event>, p: Packet, a: Stage -> Answer, hops: set<nat>)
    requires Loaded(m) && PacketOk(p)
    ensures var k := Run(m, es).k;
            && Ok(k)
            && ((ServiceAt(View(k, k.active), p.dst).Some? ==> NeverFull(a)) ==>
                  Decide(View(k, k.active), p, a, hops).out != Drop(MapError))
  {
    hide ApplyRuns.Committed;
    hide Loaded;
    hide Decide;
    hide ShowsServices;
    hide ShowsDeny;
    hide AllWords;
    hide Run;
    hide NeverFull;
    hide ServiceAt;
    LoadedIsInv(m);
    var n := SomeKnobs();
    LiveShowsLast(m, es, n);
    PortsFromLoader(m, es);
    var k := Run(m, es).k;
    var (ss, n') := ServicesInForce(ApplyRuns.Committed(m, es), n);
    if ServiceAt(View(k, k.active), p.dst).Some? ==> NeverFull(a) {
      NoMapErrorUnlessFull(View(k, k.active), ss, n', p, a, hops);
    }
  }
}
