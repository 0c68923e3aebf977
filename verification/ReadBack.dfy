/** What the helper's own read-back (verify_slot in data-plane/tools/xdpgw-apply.c) is worth: it passes every
    snapshot compiled from stored records, and catches services that overwrite each other. */
module ReadBack {
  import opened Wrappers
  import opened Ipv4
  import opened Snapshot
  import opened Bpf
  import opened ApplyPlan
  import opened DenyList
  import opened ApplyEffect
  import opened ApplyHelper
  import opened ApplyRuns
  import opened Policy
  import opened Meaning

  /** Looking a service up by its own block finds what is stored under that block. */
  lemma OwnLookup(m: Inner, s: Service)
    requires s.dst.len <= 32 && Lpm(0, Canon(s.dst)) in m
    ensures LpmLookup(m, 0, s.dst.addr, s.dst.len) == Some(m[Lpm(0, Canon(s.dst))])
  {
  }

  lemma ServiceReadsBack(ss: seq<Service>, n: Knobs, s: Service)
    requires KnobsOk(n) && NodeOk(ss) && Distinct(ss) && s in ss
    ensures s.dst.len <= 32
    ensures VerifyService(Contents(NodePuts(ss, n), ServiceMap), Contents(NodePuts(ss, n), RuleBlockMap), s)
  {
    hide Contents;
    hide NodePuts;
    hide Distinct;
    hide FairEntry;
    hide Canon;
    hide LpmLookup;
    assert ServiceOk(s);
    hide NodeOk;
    OwnEntryStored(ss, n, s, Put(ServiceMap, Lpm(0, Canon(s.dst)), ServiceEntry(s)));
    OwnEntryStored(ss, n, s, Put(RuleBlockMap, Id(s.dpId), RuleEntry(s)));
    OwnLookup(Contents(NodePuts(ss, n), ServiceMap), s);
  }

  /** A snapshot whose services have their own ids and blocks always passes. */
  lemma DistinctReadsBack(ss: seq<Service>, n: Knobs)
    requires KnobsOk(n) && NodeOk(ss) && Distinct(ss)
    ensures ReadsBack(ss, n)
  {
    hide VerifyService;
    hide Contents;
    hide NodePuts;
    hide Distinct;
    forall s | s in ss
      ensures s.dst.len <= 32 && VerifyService(Contents(NodePuts(ss, n), ServiceMap), Contents(NodePuts(ss, n), RuleBlockMap), s)
    {
      ServiceReadsBack(ss, n, s);
    }
  }

  /** So the read-back never refuses what the database's constraints admit. */
  lemma RecordsReadBack(rs: seq<Record>, n: Knobs)
    requires KnobsOk(n) && RecordsOk(rs) && NodeOk(CompileNode(rs))
    ensures ReadsBack(CompileNode(rs), n)
  {
    hide RecordsOk;
    hide NodeOk;
    hide CompileNode;
    hide ReadsBack;
    hide Distinct;
    CompiledDistinct(rs);
    DistinctReadsBack(CompileNode(rs), n);
  }

  /** And what it passes has no two enabled services that overwrite each other: one block has one id and one
      set of list flags, and one id has one number of rules. */
  lemma ReadBackCatches(ss: seq<Service>, n: Knobs, s: Service, t: Service)
    requires KnobsOk(n) && ReadsBack(ss, n) && s in ss && t in ss && s.enabled != 0 && t.enabled != 0
    ensures Canon(s.dst) == Canon(t.dst) ==> s.dpId == t.dpId && s.wlFlags == t.wlFlags
    ensures s.dpId == t.dpId ==> |s.rules| == |t.rules|
  {
    hide Contents;
    hide NodePuts;
    hide LpmLookup;
    hide Canon;
    hide ServiceOk;
    var m := Contents(NodePuts(ss, n), ServiceMap);
    assert s.dst.len <= 32 && t.dst.len <= 32 by { HeadsOk(ss, s); HeadsOk(ss, t); }
    BlockStored(ss, n, s);
    BlockStored(ss, n, t);
    OwnLookup(m, s);
    OwnLookup(m, t);
  }

  lemma HeadsOk(ss: seq<Service>, s: Service)
    requires NodeOk(ss) && s in ss
    ensures s.dst.len <= 32
  {
    assert ServiceOk(s);
  }

  lemma BlockStored(ss: seq<Service>, n: Knobs, s: Service)
    requires KnobsOk(n) && NodeOk(ss) && s in ss
    ensures Lpm(0, Canon(s.dst)) in Contents(NodePuts(ss, n), ServiceMap)
  {
    hide Contents;
    hide NodePuts;
    hide ServicePuts;
    hide WlPuts;
    hide FairEntry;
    hide Canon;
    assert ServiceOk(s);
    hide NodeOk;
    hide ServiceOk;
    var p := Put(ServiceMap, Lpm(0, Canon(s.dst)), ServiceEntry(s));
    ServicePutsMember(s, n, p);
    NodePutsMember(ss, n, p);
    ContentsMember(NodePuts(ss, n), ServiceMap, p.key);
  }

  // ----- Every acceptable request gets through -----

  /** The helper has no reason of its own to refuse. */
  predicate Applicable(r: Request)
    requires ReqOk(r)
  {
    match r
    case ServiceApply(ss, n) => ReadsBack(ss, n)
    case GlobalApply(es) => |es| <= MAX_GLOBAL_ENTRIES && EntriesOk(es)
  }

  lemma PlanEndsInFlip(k: Kernel, r: Request, ids: map<Outer, MapId>)
    requires Ok(k) && ReqOk(r) && Applicable(r) && forall o :: o in OwnList(r) ==> o in ids
    ensures var ws := PlanOf(k, r, ids); ws != [] && ws[|ws| - 1] == CommitOf(k)
  {
    hide Contents;
    hide NodePuts;
    hide VerifyNode;
    hide NodeOk;
    hide ServiceTail;
    hide GlobalHead;
    hide GlobalPuts;
    hide PlanAll;
    hide Installs;
    hide Creates;
    hide Stores;
  }

  /** Progress of an apply: started on a quiet node with a request it can apply, and not killed, the helper
      commits exactly that request after as many writes as its plan has, whatever dpstat does meanwhile. */
  lemma RequestCommits(m: ApplyRuns.Node, r: Request, ids: map<Outer, MapId>, es: seq<Event>)
    requires Inv(m) && m.helper.Idle? && ReqOk(r) && Applicable(r) && Fresh(m.k, ids, OwnList(r)) && NotStopped(es)
    requires Ok(m.k) && (forall o :: o in OwnList(r) ==> o in ids) && Advances(es) >= |PlanOf(m.k, r, ids)|
    ensures ApplyRuns.Committed(m, [Start(r, ids)] + es) == [r]
  {
    PlanEndsInFlip(m.k, r, ids);
    hide PlanOf;
    hide Applicable;
    hide OnCourse;
    hide TodoOk;
    hide Separate;
    hide Fresh;
    StepKeepsInv(m, Start(r, ids));
    var m' := Do(m, Start(r, ids));
    assert m'.helper == Running(r, PlanOf(m.k, r, ids));
    hide Do;
    HelperCommits(m', es);
    assert ([Start(r, ids)] + es)[1..] == es && ([Start(r, ids)] + es)[0] == Start(r, ids);
  }
}
