/** Feed runs end to end: the job ledger, the worker that carries a claimed run through its source
    check, its fetch and its reconcile (control-plane/app/worker/feed_runner.py), and the stored deny
    list, in one machine. A fetch takes place outside any transaction. */
module FeedRuns {
  import opened Wrappers
  import opened Arith
  import opened Ipv4
  import J = FeedJobs
  import D = DenyStore

  /** How far the worker is with a claimed job: not yet past the source check, past it and fetching, or
      reconciled. */
  datatype Phase = Claimed | Fetching | Reconciled

  datatype World = World(jobs: J.Db, store: D.Store, work: map<nat, Phase>)

  datatype Event =
    | AddSource(source: nat)
    | Enqueue(source: nat, rid: nat, jid: nat, dry: bool)
    | Delete(source: nat, rid: nat, jid: nat)
    | Claim(jid: nat)
    | LoadSource(jid: nat)
    | Reconcile(jid: nat, cidrs: set<Cidr>)
    | Succeed(jid: nat, partial: bool)
    | Fail(jid: nat)
    | Crash
    | Recover(jid: nat)
    | AddManual(c: Cidr)
    | RemoveManual(c: Cidr)

  /** parse_line_list accepts networks without host bits other than /0, and a feed with none fails. */
  ghost predicate FeedSet(cidrs: set<Cidr>) { cidrs != {} && forall c :: c in cidrs ==> Canonical(c) && c.len > 0 }

  ghost predicate At(w: World, jid: nat, phase: Phase) { jid in w.work && w.work[jid] == phase }

  ghost predicate Enabled(w: World, e: Event)
  {
    match e
    case AddSource(source) => source !in w.jobs.sources
    case Enqueue(_, rid, jid, _) => rid !in w.jobs.runs && jid !in w.jobs.jobs
    case Delete(_, rid, jid) => rid !in w.jobs.runs && jid !in w.jobs.jobs
    case LoadSource(jid) => At(w, jid, Claimed)
    case Reconcile(jid, cidrs) => At(w, jid, Fetching) && FeedSet(cidrs)
    case Succeed(jid, _) => At(w, jid, Reconciled)
    case Fail(jid) => jid in w.work
    case Recover(jid) => jid !in w.work
    case AddManual(c) => Canonical(c)
    case _ => true
  }

  /** _reconcile: the run as it is stored now decides, not as it was when the job was claimed. */
  function Reconciling(w: World, jid: nat, cidrs: set<Cidr>): D.Store
  {
    if jid !in w.jobs.jobs || w.jobs.jobs[jid].run !in w.jobs.runs then w.store
    else
      var run := w.jobs.runs[w.jobs.jobs[jid].run];
      if run.dry then w.store else D.Reconcile(w.store, run.source, run.deletion, cidrs).0
  }

  ghost function Do(w: World, e: Event): World
  {
    match e
    case AddSource(source) => World(J.Do(w.jobs, J.DoAddSource(source)), D.AddSource(w.store, source).0, w.work)
    case Enqueue(source, rid, jid, dry) => w.(jobs := J.Sync(w.jobs, source, rid, jid, dry))
    case Delete(source, rid, jid) => World(J.Delete(w.jobs, source, rid, jid), D.DeleteSource(w.store, source).0, w.work)
    case Claim(jid) =>
      var jobs := J.Claim(w.jobs, jid);
      World(jobs, w.store, if jobs != w.jobs && jobs.jobs[jid].status.Applying? then w.work[jid := Claimed] else w.work)
    case LoadSource(jid) =>
      if jid in w.jobs.jobs && !J.SourceGone(w.jobs, jid) then w.(work := w.work[jid := Fetching])
      else World(J.Succeed(w.jobs, jid, false), w.store, w.work - {jid})
    case Reconcile(jid, cidrs) => w.(store := Reconciling(w, jid, cidrs), work := w.work[jid := Phase.Reconciled])
    case Succeed(jid, partial) => World(J.Succeed(w.jobs, jid, partial), w.store, w.work - {jid})
    case Fail(jid) => World(J.Fail(w.jobs, jid), w.store, w.work - {jid})
    case Crash => w.(work := map[])
    case Recover(jid) => w.(jobs := J.Recover(w.jobs, jid))
    case AddManual(c) => w.(store := D.Add(w.store, c).0)
    case RemoveManual(c) => w.(store := D.Remove(w.store, c).0)
  }

  ghost function Step(w: World, e: Event): World { if Enabled(w, e) then Do(w, e) else w }

  ghost function Run(w: World, es: seq<Event>): World
    decreases es
  {
    if es == [] then w else Run(Step(w, es[0]), es[1..])
  }

  // ----- Invariant -----

  ghost predicate Working(w: World) { forall jid :: jid in w.work ==> jid in w.jobs.jobs && w.jobs.jobs[jid].status.Applying? }

  ghost predicate Good(w: World)
  {
    && J.Inv(w.jobs) && D.Provenance(w.store) && w.jobs.sources == w.store.sources
    && (forall c :: c in w.store.entries ==> Canonical(c)) && Working(w)
  }

  /** Job `jid` is a run of `source`. */
  ghost predicate RunOf(w: World, jid: nat, source: nat)
  {
    jid in w.jobs.jobs && w.jobs.jobs[jid].run in w.jobs.runs && w.jobs.runs[w.jobs.jobs[jid].run].source == source
  }

  /** A run of the source is past its source check and not yet reconciled. */
  ghost predicate FetchHeld(w: World, source: nat) { exists jid :: At(w, jid, Fetching) && RunOf(w, jid, source) }

  ghost predicate NoAssertions(w: World, source: nat) { forall c :: !D.AssertedBy(w.store, source, c) }

  // ----- One step of the ledger -----

  /** No transaction moves a run to another source or a job to another run, and only the named job changes. */
  ghost predicate OthersKept(db: J.Db, db': J.Db, jid: nat)
  {
    && (forall k :: k in db.jobs ==> k in db'.jobs && db'.jobs[k].run == db.jobs[k].run)
    && (forall k :: k in db.jobs && k != jid ==> db'.jobs[k] == db.jobs[k])
    && (forall r :: r in db.runs ==> r in db'.runs && db'.runs[r].source == db.runs[r].source)
    && (forall k :: k in db'.jobs && k !in db.jobs ==> k == jid && db'.jobs[k].status.Queued?)
  }

  lemma EnqueueKeepsOthers(db: J.Db, source: nat, rid: nat, jid: nat, deletion: bool, dry: bool)
    requires rid !in db.runs && jid !in db.jobs
    ensures OthersKept(db, J.Enqueue(db, source, rid, jid, deletion, dry), jid)
  {
    hide J.Busy;
  }

  lemma DeleteKeepsOthers(db: J.Db, source: nat, rid: nat, jid: nat)
    requires rid !in db.runs && jid !in db.jobs
    ensures OthersKept(db, J.Delete(db, source, rid, jid), jid)
  {
    EnqueueKeepsOthers(db.(sources := db.sources[source := true]), source, rid, jid, true, false);
    hide J.Enqueue;
  }

  lemma CompleteKeepsOthers(db: J.Db, jid: nat, js: J.JobStatus, rs: J.RunStatus)
    ensures OthersKept(db, J.Complete(db, jid, js, rs), jid) && J.Complete(db, jid, js, rs).sources == db.sources
  {
  }

  lemma ClaimKeepsOthers(db: J.Db, jid: nat)
    ensures OthersKept(db, J.Claim(db, jid), jid) && J.Claim(db, jid).sources == db.sources
  {
  }

  lemma RecoverKeepsOthers(db: J.Db, jid: nat)
    requires J.Inv(db)
    ensures OthersKept(db, J.Recover(db, jid), jid) && J.Recover(db, jid).sources == db.sources
  {
    if jid in db.jobs && db.jobs[jid].status.Applying? {
      J.RecoverCases(db, jid);
      CompleteKeepsOthers(db, jid, J.Failed, J.Broken);
      hide J.Recover;
      hide J.Inv;
    }
  }

  // ----- One step of the stored list -----

  lemma RewrittenRowsFrom(s: D.Store, source: nat, cidrs: set<Cidr>)
    ensures forall c :: c in D.Rewritten(s, source, cidrs).entries ==> c in s.entries || c in cidrs
  {
  }

  /** Rows come from the rows before or from the feed, and the sources stay. */
  lemma ReconcileRowsFrom(s: D.Store, source: nat, deletion: bool, cidrs: set<Cidr>)
    ensures var t := D.Reconcile(s, source, deletion, cidrs).0;
            t.sources == s.sources && forall c :: c in t.entries ==> c in s.entries || c in cidrs
  {
    RewrittenRowsFrom(s, source, cidrs);
    hide D.Asserted;
    hide D.Replaced;
  }

  /** Reconciling to the empty set fits, so deleting a live source always goes through. */
  lemma DeletionFits(s: D.Store, source: nat)
    requires D.Provenance(s) && source in s.sources && !s.sources[source]
    ensures D.DeleteSource(s, source).1 == D.Done
    ensures D.DeleteSource(s, source).0.sources == s.sources[source := true]
  {
    var u := s.(sources := s.sources[source := true]);
    RewrittenRowsFrom(u, source, {});
    var t := D.Rewritten(u, source, {});
    assert D.Cidrs(t) <= D.Cidrs(s);
    SmallerSet(D.Cidrs(t), D.Cidrs(s));
    hide D.Rewritten;
  }

  /** Only the source's own reconcile adds assertions of it. */
  lemma ReconcileElsewhere(s: D.Store, source: nat, deletion: bool, cidrs: set<Cidr>, other: nat)
    requires other != source
    ensures var t := D.Reconcile(s, source, deletion, cidrs).0;
            forall c :: D.AssertedBy(t, other, c) <==> D.AssertedBy(s, other, c)
  {
    D.ReplacedIsExact(s.asserts, source, cidrs);
    hide D.Replaced;
    hide D.Upserted;
    hide D.WithoutOrphans;
  }

  // ----- Every step keeps the invariant -----

  /** The stored list after a live source is deleted. */
  lemma DeletedStore(s: D.Store, source: nat)
    requires D.Provenance(s) && source in s.sources && !s.sources[source]
    ensures var t := D.DeleteSource(s, source).0;
            && D.Provenance(t) && t.sources == s.sources[source := true]
            && (forall c :: c in t.entries ==> c in s.entries)
            && (forall c :: !D.AssertedBy(t, source, c))
            && (forall other, c :: other != source ==> (D.AssertedBy(t, other, c) <==> D.AssertedBy(s, other, c)))
  {
    var u := s.(sources := s.sources[source := true]);
    DeletionFits(s, source);
    D.SourceKeeps(s, source);
    ReconcileRowsFrom(u, source, true, {});
    hide D.Reconcile;
    D.ReconcileIsExact(u, source, true, {});
  }

  lemma DeleteKeepsGood(w: World, source: nat, rid: nat, jid: nat)
    requires Good(w) && Enabled(w, Delete(source, rid, jid))
    ensures Good(Do(w, Delete(source, rid, jid)))
    ensures !J.Gone(w.jobs, source) ==> J.Gone(Do(w, Delete(source, rid, jid)).jobs, source)
                                        && NoAssertions(Do(w, Delete(source, rid, jid)), source)
  {
    hide J.Inv;
    hide D.Provenance;
    hide J.Delete;
    hide D.DeleteSource;
    hide OthersKept;
    hide Canonical;
    hide D.AssertedBy;
    J.DeleteKeepsInv(w.jobs, source, rid, jid);
    DeleteKeepsOthers(w.jobs, source, rid, jid);
    OthersKeepWorking(w, J.Delete(w.jobs, source, rid, jid), jid);
    if J.Gone(w.jobs, source) {
      DeletedAlready(w, source, rid, jid);
    } else {
      DeletedStore(w.store, source);
      DeletedSources(w.jobs, source, rid, jid);
    }
  }

  lemma DeletedAlready(w: World, source: nat, rid: nat, jid: nat)
    requires w.jobs.sources == w.store.sources && J.Gone(w.jobs, source)
    ensures J.Delete(w.jobs, source, rid, jid) == w.jobs && D.DeleteSource(w.store, source).0 == w.store
  {
  }

  lemma OthersKeepWorking(w: World, db: J.Db, jid: nat)
    requires Working(w) && OthersKept(w.jobs, db, jid) && jid !in w.work
    ensures Working(w.(jobs := db))
    ensures forall store :: Working(World(db, store, w.work))
  {
  }

  lemma DeletedSources(db: J.Db, source: nat, rid: nat, jid: nat)
    requires !J.Gone(db, source)
    ensures J.Delete(db, source, rid, jid).sources == db.sources[source := true]
  {
    hide J.Busy;
  }

  lemma AddSourceKeepsGood(w: World, source: nat)
    requires Good(w) && source !in w.jobs.sources
    ensures Good(Do(w, AddSource(source)))
  {
    hide J.Inv;
    hide D.Provenance;
    J.StepKeepsInv(w.jobs, J.DoAddSource(source));
    D.SourceKeeps(w.store, source);
  }

  lemma EnqueueKeepsGood(w: World, source: nat, rid: nat, jid: nat, dry: bool)
    requires Good(w) && Enabled(w, Enqueue(source, rid, jid, dry))
    ensures Good(Do(w, Enqueue(source, rid, jid, dry)))
  {
    hide J.Inv;
    hide J.Busy;
    hide D.Provenance;
    J.StepKeepsInv(w.jobs, J.DoSync(source, rid, jid, dry));
    EnqueueKeepsOthers(w.jobs, source, rid, jid, false, dry);
  }

  lemma ClaimKeepsGood(w: World, jid: nat)
    requires Good(w)
    ensures Good(Do(w, Claim(jid)))
  {
    hide J.Inv;
    hide J.Claim;
    hide D.Provenance;
    J.ClaimKeepsInv(w.jobs, jid);
    ClaimKeepsOthers(w.jobs, jid);
    ClaimApplies(w.jobs, jid);
  }

  lemma RecoverKeepsGood(w: World, jid: nat)
    requires Good(w) && jid !in w.work
    ensures Good(Do(w, Recover(jid)))
  {
    hide J.Inv;
    hide J.Recover;
    hide D.Provenance;
    J.RecoverKeepsInv(w.jobs, jid);
    RecoverKeepsOthers(w.jobs, jid);
  }

  lemma ManualRowsFrom(s: D.Store, c: Cidr)
    ensures D.Add(s, c).0.sources == s.sources && D.Remove(s, c).0.sources == s.sources
    ensures forall x :: x in D.Add(s, c).0.entries ==> x in s.entries || x == c
    ensures forall x :: x in D.Remove(s, c).0.entries ==> x in s.entries
  {
    hide D.Asserted;
  }

  lemma ManualKeepsGood(w: World, c: Cidr)
    requires Good(w)
    ensures Canonical(c) ==> Good(Do(w, AddManual(c)))
    ensures Good(Do(w, RemoveManual(c)))
  {
    hide J.Inv;
    hide D.Provenance;
    hide Canonical;
    hide D.Add;
    hide D.Remove;
    D.AddKeeps(w.store, c);
    D.RemoveKeeps(w.store, c);
    ManualRowsFrom(w.store, c);
  }

  lemma ReconcileKeepsGood(w: World, jid: nat, cidrs: set<Cidr>)
    requires Good(w) && jid in w.work && FeedSet(cidrs)
    ensures Good(Do(w, Reconcile(jid, cidrs)))
  {
    hide J.Inv;
    hide D.Provenance;
    hide Reconciling;
    ReconcilingKeeps(w, jid, cidrs);
  }

  lemma LoadKeepsGood(w: World, jid: nat)
    requires Good(w) && jid in w.work
    ensures Good(Do(w, LoadSource(jid)))
  {
    hide J.Inv;
    hide D.Provenance;
    FinishKeepsGood(w, jid, J.Succeeded, J.Success);
    hide J.Complete;
  }

  lemma StepKeepsGood(w: World, e: Event)
    requires Good(w)
    ensures Good(Step(w, e))
  {
    hide J.Inv;
    hide D.Provenance;
    hide Canonical;
    hide J.Delete;
    hide J.Sync;
    hide J.Claim;
    hide J.Recover;
    hide Reconciling;
    hide D.DeleteSource;
    hide D.Add;
    hide D.Remove;
    hide J.Complete;
    hide J.SourceGone;
    if Enabled(w, e) {
      match e {
        case AddSource(source) => AddSourceKeepsGood(w, source);
        case Enqueue(source, rid, jid, dry) => EnqueueKeepsGood(w, source, rid, jid, dry);
        case Delete(source, rid, jid) => DeleteKeepsGood(w, source, rid, jid);
        case Claim(jid) => ClaimKeepsGood(w, jid);
        case LoadSource(jid) => LoadKeepsGood(w, jid);
        case Reconcile(jid, cidrs) => ReconcileKeepsGood(w, jid, cidrs);
        case Succeed(jid, partial) => FinishKeepsGood(w, jid, J.Succeeded, if partial then J.Partial else J.Success);
        case Fail(jid) => FinishKeepsGood(w, jid, J.Failed, J.Broken);
        case Crash =>
        case Recover(jid) => RecoverKeepsGood(w, jid);
        case AddManual(c) => ManualKeepsGood(w, c);
        case RemoveManual(c) => ManualKeepsGood(w, c);
      }
    }
  }

  lemma ClaimApplies(db: J.Db, jid: nat)
    ensures J.Claim(db, jid) != db ==> jid in J.Claim(db, jid).jobs
    ensures jid in db.jobs && db.jobs[jid].status.Applying? ==> J.Claim(db, jid) == db
  {
  }

  lemma FinishKeepsGood(w: World, jid: nat, js: J.JobStatus, rs: J.RunStatus)
    requires Good(w) && J.Corresponds(js, rs) && J.Terminal(js)
    ensures Good(World(J.Complete(w.jobs, jid, js, rs), w.store, w.work - {jid}))
  {
    J.CompleteKeepsInv(w.jobs, jid, js, rs);
    CompleteKeepsOthers(w.jobs, jid, js, rs);
    hide J.Inv;
    hide J.Complete;
    hide D.Provenance;
  }

  lemma ReconcilingKeeps(w: World, jid: nat, cidrs: set<Cidr>)
    requires Good(w) && FeedSet(cidrs)
    ensures var t := Reconciling(w, jid, cidrs);
            D.Provenance(t) && t.sources == w.store.sources && forall c :: c in t.entries ==> Canonical(c)
  {
    hide J.Inv;
    if jid in w.jobs.jobs && w.jobs.jobs[jid].run in w.jobs.runs {
      var run := w.jobs.runs[w.jobs.jobs[jid].run];
      D.ReconcileKeeps(w.store, run.source, run.deletion, cidrs);
      ReconcileRowsFrom(w.store, run.source, run.deletion, cidrs);
      hide D.Reconcile;
      hide D.Provenance;
    }
  }

  lemma {:induction false} RunKeepsGood(w: World, es: seq<Event>)
    requires Good(w)
    ensures Good(Run(w, es))
    decreases es
  {
    hide Good;
    hide Step;
    if es != [] {
      StepKeepsGood(w, es[0]);
      RunKeepsGood(Step(w, es[0]), es[1..]);
    }
  }

  function Empty(): World
  {
    World(J.Db(map[], map[], map[]), D.Store(map[], {}, map[], D.Revision(0, None, 0, None)), map[])
  }

  lemma EmptyIsGood()
    ensures Good(Empty())
  {
  }

  // ----- A deleted source -----

  /** The source is deleted, asserts nothing, and no worker holds a fetch of it. */
  ghost predicate Quiet(w: World, source: nat)
  {
    && Good(w) && source in w.jobs.sources && w.jobs.sources[source]
    && NoAssertions(w, source) && !FetchHeld(w, source)
  }

  /** A fetch held after a ledger step was held before it. */
  lemma HeldBefore(w: World, w': World, jid: nat, source: nat)
    requires Good(w) && OthersKept(w.jobs, w'.jobs, jid)
    requires forall k :: At(w', k, Fetching) ==> At(w, k, Fetching)
    ensures FetchHeld(w', source) ==> FetchHeld(w, source)
  {
    hide D.Provenance;
    if FetchHeld(w', source) {
      var k :| At(w', k, Fetching) && RunOf(w', k, source);
      J.JobIsOk(w.jobs, k);
      hide J.Inv;
      assert At(w, k, Fetching) && RunOf(w, k, source);
    }
  }

  lemma LoadKeepsQuiet(w: World, jid: nat, source: nat)
    requires Quiet(w, source) && At(w, jid, Claimed)
    ensures !FetchHeld(Do(w, LoadSource(jid)), source)
  {
    hide D.Provenance;
    hide NoAssertions;
    var w' := Do(w, LoadSource(jid));
    if jid in w.jobs.jobs && !J.SourceGone(w.jobs, jid) {
      hide J.Inv;
      forall k | At(w', k, Fetching) ensures !RunOf(w', k, source) {
        assert k != jid ==> At(w, k, Fetching) && !RunOf(w, k, source);
      }
    } else {
      CompleteKeepsOthers(w.jobs, jid, J.Succeeded, J.Success);
      hide J.Complete;
      HeldBefore(w, w', jid, source);
    }
  }

  lemma ReconcileKeepsQuiet(w: World, jid: nat, cidrs: set<Cidr>, source: nat)
    requires Quiet(w, source) && At(w, jid, Fetching)
    ensures NoAssertions(Do(w, Reconcile(jid, cidrs)), source) && !FetchHeld(Do(w, Reconcile(jid, cidrs)), source)
  {
    hide D.Provenance;
    hide D.AssertedBy;
    var w' := Do(w, Reconcile(jid, cidrs));
    HeldBefore(w, w', jid, source);
    assert !RunOf(w, jid, source);
    if jid in w.jobs.jobs && w.jobs.jobs[jid].run in w.jobs.runs {
      hide J.Inv;
      var run := w.jobs.runs[w.jobs.jobs[jid].run];
      ReconcileElsewhere(w.store, run.source, run.deletion, cidrs, source);
      hide D.Reconcile;
    }
  }

  lemma DeleteKeepsQuiet(w: World, other: nat, rid: nat, jid: nat, source: nat)
    requires Quiet(w, source) && Enabled(w, Delete(other, rid, jid))
    ensures var w' := Do(w, Delete(other, rid, jid));
            !J.Gone(w.jobs, other) ==> w'.jobs.sources == w.jobs.sources[other := true] && NoAssertions(w', source)
    ensures J.Gone(w.jobs, other) ==> Do(w, Delete(other, rid, jid)) == w
  {
    hide J.Inv;
    hide D.Provenance;
    hide D.AssertedBy;
    hide J.Delete;
    hide D.DeleteSource;
    if J.Gone(w.jobs, other) {
      DeletedAlready(w, other, rid, jid);
    } else {
      DeletedStore(w.store, other);
      DeletedSources(w.jobs, other, rid, jid);
    }
  }

  lemma ManualKeepsAssertions(s: D.Store, c: Cidr)
    ensures D.Add(s, c).0.asserts == s.asserts && D.Remove(s, c).0.asserts == s.asserts
  {
    hide D.Asserted;
  }

  /** A ledger step that takes no job into its fetch keeps a deleted source quiet. */
  lemma LedgerKeepsQuiet(w: World, w': World, jid: nat, source: nat)
    requires Quiet(w, source) && Good(w') && OthersKept(w.jobs, w'.jobs, jid)
    requires w'.store.asserts == w.store.asserts && source in w'.jobs.sources && w'.jobs.sources[source]
    requires forall k :: At(w', k, Fetching) ==> At(w, k, Fetching)
    ensures Quiet(w', source)
  {
    HeldBefore(w, w', jid, source);
    hide Good;
    hide OthersKept;
    hide FetchHeld;
    assert NoAssertions(w', source) by {
      forall c ensures !D.AssertedBy(w'.store, source, c) {
        assert !D.AssertedBy(w.store, source, c);
      }
    }
  }

  lemma SyncKeeps(w: World, source: nat, rid: nat, jid: nat, dry: bool)
    requires rid !in w.jobs.runs && jid !in w.jobs.jobs
    ensures J.Sync(w.jobs, source, rid, jid, dry).sources == w.jobs.sources
    ensures OthersKept(w.jobs, J.Sync(w.jobs, source, rid, jid, dry), jid)
  {
    EnqueueKeepsOthers(w.jobs, source, rid, jid, false, dry);
    hide J.Busy;
  }

  /** The events that neither load a source nor write assertions. */
  predicate OnLedger(e: Event) { !e.AddSource? && !e.Delete? && !e.LoadSource? && !e.Reconcile? }

  lemma LedgerStep(w: World, e: Event) returns (jid: nat)
    requires Good(w) && Enabled(w, e) && OnLedger(e)
    ensures var w' := Do(w, e);
            && OthersKept(w.jobs, w'.jobs, jid) && w'.store.asserts == w.store.asserts && w'.jobs.sources == w.jobs.sources
            && forall k :: At(w', k, Fetching) ==> At(w, k, Fetching)
  {
    hide D.Provenance;
    hide J.Inv;
    hide J.Claim;
    hide J.Recover;
    hide J.Complete;
    hide J.Sync;
    hide D.Add;
    hide D.Remove;
    jid := 0;
    match e {
      case Enqueue(other, rid, j, dry) =>
        jid := j;
        SyncKeeps(w, other, rid, jid, dry);
      case Claim(j) =>
        jid := j;
        ClaimKeepsOthers(w.jobs, jid);
      case Succeed(j, partial) =>
        jid := j;
        CompleteKeepsOthers(w.jobs, jid, J.Succeeded, if partial then J.Partial else J.Success);
      case Fail(j) =>
        jid := j;
        CompleteKeepsOthers(w.jobs, jid, J.Failed, J.Broken);
      case Recover(j) =>
        jid := j;
        RecoverKeepsOthers(w.jobs, jid);
      case AddManual(c) => ManualKeepsAssertions(w.store, c);
      case RemoveManual(c) => ManualKeepsAssertions(w.store, c);
      case Crash =>
    }
  }

  lemma AddSourceKeepsQuiet(w: World, other: nat, source: nat)
    requires Quiet(w, source) && other !in w.jobs.sources
    ensures NoAssertions(Do(w, AddSource(other)), source) && !FetchHeld(Do(w, AddSource(other)), source)
    ensures Do(w, AddSource(other)).jobs.sources == w.jobs.sources[other := false]
  {
    HeldBefore(w, Do(w, AddSource(other)), 0, source);
    hide Good;
    hide FetchHeld;
    forall c ensures !D.AssertedBy(Do(w, AddSource(other)).store, source, c) {
      assert !D.AssertedBy(w.store, source, c);
    }
  }

  lemma LoadKeepsSources(w: World, jid: nat)
    ensures Do(w, LoadSource(jid)).jobs.sources == w.jobs.sources && Do(w, LoadSource(jid)).store == w.store
  {
    CompleteKeepsOthers(w.jobs, jid, J.Succeeded, J.Success);
    hide J.Complete;
    hide J.SourceGone;
  }

  lemma StepKeepsQuiet(w: World, e: Event, source: nat)
    requires Quiet(w, source)
    ensures Quiet(Step(w, e), source)
  {
    StepKeepsGood(w, e);
    hide Good;
    hide FetchHeld;
    if Enabled(w, e) {
      if OnLedger(e) {
        hide NoAssertions;
        hide Do;
        var jid := LedgerStep(w, e);
        LedgerKeepsQuiet(w, Do(w, e), jid, source);
      } else {
        OtherStepKeepsQuiet(w, e, source);
        hide Do;
      }
    }
  }

  lemma OtherStepKeepsQuiet(w: World, e: Event, source: nat)
    requires Quiet(w, source) && Enabled(w, e) && !OnLedger(e) && Good(Do(w, e))
    ensures Quiet(Do(w, e), source)
  {
    var w' := Do(w, e);
    hide Good;
    hide FetchHeld;
    hide Do;
    match e {
      case AddSource(other) => AddSourceKeepsQuiet(w, other, source);
      case Delete(other, rid, jid) =>
        DeleteKeepsQuiet(w, other, rid, jid, source);
        if !J.Gone(w.jobs, other) {
          DeleteHeld(w, other, rid, jid, source);
        }
      case LoadSource(jid) =>
        LoadKeepsSources(w, jid);
        LoadKeepsQuiet(w, jid, source);
        assert NoAssertions(w', source);
      case Reconcile(jid, cidrs) =>
        ReconcileKeepsQuiet(w, jid, cidrs, source);
        ReconcileKeepsJobs(w, jid, cidrs);
    }
  }

  lemma ReconcileKeepsJobs(w: World, jid: nat, cidrs: set<Cidr>)
    ensures Do(w, Reconcile(jid, cidrs)).jobs == w.jobs
  {
  }

  lemma DeleteHeld(w: World, other: nat, rid: nat, jid: nat, source: nat)
    requires Good(w) && Enabled(w, Delete(other, rid, jid))
    ensures FetchHeld(Do(w, Delete(other, rid, jid)), source) ==> FetchHeld(w, source)
  {
    hide J.Delete;
    hide D.DeleteSource;
    DeleteKeepsOthers(w.jobs, other, rid, jid);
    HeldBefore(w, Do(w, Delete(other, rid, jid)), jid, source);
  }

  lemma {:induction false} RunKeepsQuiet(w: World, es: seq<Event>, source: nat)
    requires Quiet(w, source)
    ensures Quiet(Run(w, es), source)
    decreases es
  {
    hide Quiet;
    hide Step;
    if es != [] {
      StepKeepsQuiet(w, es[0], source);
      RunKeepsQuiet(Step(w, es[0]), es[1..], source);
    }
  }

  // ----- A fetch held at the deletion -----

  /** The deletion tags a running run of the source, and makes it a real run. */
  lemma Retagged(db: J.Db, source: nat, rid: nat, jid: nat, r: nat)
    requires !J.Gone(db, source) && rid !in db.runs && r in db.runs
    requires db.runs[r].source == source && db.runs[r].status.Running?
    ensures var db' := J.Delete(db, source, rid, jid);
            r in db'.runs && db'.runs[r] == db.runs[r].(deletion := true, dry := false)
  {
    hide J.Busy;
  }

  lemma OneWideBlock(c: Cidr)
    requires Canonical(c) && c.len == 0
    ensures c == Cidr(0, 0)
  {
    Pow2Values();
    hide Pow2;
  }

  lemma StoredFits(s: D.Store, source: nat, c: Cidr)
    requires D.Provenance(s) && c in s.entries
    ensures |D.Cidrs(D.Rewritten(s, source, {c}))| <= D.MAX_ENTRIES
  {
    RewrittenRowsFrom(s, source, {c});
    hide D.Rewritten;
    SmallerSet(D.Cidrs(D.Rewritten(s, source, {c})), D.Cidrs(s));
  }

  lemma SecondFits(s: D.Store, source: nat, c: Cidr)
    requires forall x :: x in s.entries ==> x == Cidr(0, 0)
    ensures |D.Cidrs(D.Rewritten(s, source, {c}))| <= D.MAX_ENTRIES
  {
    RewrittenRowsFrom(s, source, {c});
    hide D.Rewritten;
    SmallerSet(D.Cidrs(D.Rewritten(s, source, {c})), {Cidr(0, 0), c});
    assert |{Cidr(0, 0), c}| <= 2;
  }

  /** Some one-entry feed always fits: an entry that is already stored, or a second one. */
  lemma SomeFeedFits(s: D.Store, source: nat) returns (c: Cidr)
    requires D.Provenance(s) && forall x :: x in s.entries ==> Canonical(x)
    ensures FeedSet({c}) && |D.Cidrs(D.Rewritten(s, source, {c}))| <= D.MAX_ENTRIES
  {
    hide D.Rewritten;
    hide D.Provenance;
    if x :| x in s.entries && x.len > 0 {
      c := x;
      StoredFits(s, source, c);
    } else {
      c := Cidr(32, 0);
      assert Canonical(c);
      hide Canonical;
      forall x | x in s.entries ensures x == Cidr(0, 0) {
        OneWideBlock(x);
      }
      SecondFits(s, source, c);
    }
  }

  /** A tagged run reconciles its deleted source to whatever it fetched. */
  lemma TaggedRunAsserts(w: World, jid: nat, source: nat, c: Cidr)
    requires Good(w) && RunOf(w, jid, source) && source in w.store.sources && FeedSet({c})
    requires var run := w.jobs.runs[w.jobs.jobs[jid].run]; run.deletion && !run.dry
    requires |D.Cidrs(D.Rewritten(w.store, source, {c}))| <= D.MAX_ENTRIES
    ensures D.AssertedBy(Reconciling(w, jid, {c}), source, c)
  {
    hide J.Inv;
    hide D.Rewritten;
    D.ReconcileIsExact(w.store, source, true, {c});
  }

  /** A held fetch of the source is still held after the deletion, now as a tagged run. */
  lemma HeldIsRetagged(w: World, source: nat, rid: nat, jid: nat, k: nat)
    requires Good(w) && Enabled(w, Delete(source, rid, jid)) && !J.Gone(w.jobs, source)
    requires At(w, k, Fetching) && RunOf(w, k, source)
    ensures var w' := Do(w, Delete(source, rid, jid));
            && Good(w') && At(w', k, Fetching) && RunOf(w', k, source) && source in w'.store.sources
            && var run := w'.jobs.runs[w'.jobs.jobs[k].run]; run.deletion && !run.dry
  {
    hide J.Delete;
    hide D.DeleteSource;
    hide D.Provenance;
    J.JobIsOk(w.jobs, k);
    hide J.Inv;
    DeleteKeepsGood(w, source, rid, jid);
    DeleteKeepsOthers(w.jobs, source, rid, jid);
    Retagged(w.jobs, source, rid, jid, w.jobs.jobs[k].run);
    DeletedSources(w.jobs, source, rid, jid);
  }

  lemma HeldRunRevives(w: World, source: nat, rid: nat, jid: nat) returns (es: seq<Event>)
    requires Good(w) && Enabled(w, Delete(source, rid, jid)) && !J.Gone(w.jobs, source) && FetchHeld(w, source)
    ensures !NoAssertions(Run(Do(w, Delete(source, rid, jid)), es), source)
  {
    hide J.Inv;
    hide D.Provenance;
    hide Canonical;
    hide D.Rewritten;
    var k :| At(w, k, Fetching) && RunOf(w, k, source);
    HeldIsRetagged(w, source, rid, jid, k);
    var w' := Do(w, Delete(source, rid, jid));
    var c := SomeFeedFits(w'.store, source);
    es := [Reconcile(k, {c})];
    ReconcileAsserts(w', k, source, c);
  }

  lemma ReconcileAsserts(w: World, jid: nat, source: nat, c: Cidr)
    requires Good(w) && At(w, jid, Fetching) && RunOf(w, jid, source) && source in w.store.sources && FeedSet({c})
    requires var run := w.jobs.runs[w.jobs.jobs[jid].run]; run.deletion && !run.dry
    requires |D.Cidrs(D.Rewritten(w.store, source, {c}))| <= D.MAX_ENTRIES
    ensures D.AssertedBy(Run(w, [Reconcile(jid, {c})]).store, source, c)
  {
    hide Good;
    hide FeedSet;
    hide D.Rewritten;
    hide Reconciling;
    TaggedRunAsserts(w, jid, source, c);
    RunOne(w, Reconcile(jid, {c}));
  }

  /** Main theorem. After a live source is deleted it never asserts anything again, over every later run
      of operators and workers, if and only if no worker held a fetch of it at the deletion. */
  lemma DeletedStaysEmptyIff(w: World, source: nat, rid: nat, jid: nat)
    requires Good(w) && Enabled(w, Delete(source, rid, jid)) && !J.Gone(w.jobs, source)
    ensures (forall es :: NoAssertions(Run(Do(w, Delete(source, rid, jid)), es), source)) <==> !FetchHeld(w, source)
  {
    var w' := Do(w, Delete(source, rid, jid));
    if FetchHeld(w, source) {
      var es := HeldRunRevives(w, source, rid, jid);
    } else {
      DeleteKeepsGood(w, source, rid, jid);
      DeletedSources(w.jobs, source, rid, jid);
      DeleteHeld(w, source, rid, jid, source);
      assert Quiet(w', source);
      hide Good;
      hide Do;
      hide Run;
      forall es ensures NoAssertions(Run(w', es), source) {
        RunKeepsQuiet(w', es, source);
      }
    }
  }

  /** The job is as it was, or has ended as a success. */
  ghost predicate Settling(w: World, w': World, jid: nat, source: nat)
    requires RunOf(w, jid, source)
  {
    RunOf(w', jid, source) && (w'.jobs.jobs[jid] == w.jobs.jobs[jid] || w'.jobs.jobs[jid].status == J.Succeeded)
  }

  /** No transaction on a job of a gone source does anything but end it as a success. */
  lemma GoneJobSettles(db: J.Db, jid: nat, js: J.JobStatus, rs: J.RunStatus)
    requires jid in db.jobs && J.SourceGone(db, jid)
    ensures forall db' :: db' in {J.Claim(db, jid), J.Complete(db, jid, js, rs), J.Recover(db, jid)} ==>
              jid in db'.jobs && (db'.jobs[jid] == db.jobs[jid] || db'.jobs[jid].status == J.Succeeded)
  {
  }

  lemma LedgerStepSettles(w: World, e: Event, jid: nat, source: nat)
    requires Quiet(w, source) && RunOf(w, jid, source) && Enabled(w, e) && OnLedger(e)
    ensures Settling(w, Do(w, e), jid, source)
  {
    hide Good;
    hide FetchHeld;
    hide NoAssertions;
    hide Do;
    var k := LedgerStep(w, e);
    if k == jid && Do(w, e).jobs != w.jobs {
      OwnStepSettles(w, e, jid);
    }
  }

  lemma OwnStepSettles(w: World, e: Event, jid: nat)
    requires Good(w) && Enabled(w, e) && OnLedger(e) && jid in w.jobs.jobs && J.SourceGone(w.jobs, jid)
    ensures var db' := Do(w, e).jobs;
            jid in db'.jobs && (db'.jobs[jid] == w.jobs.jobs[jid] || db'.jobs[jid].status == J.Succeeded)
  {
    var k := LedgerStep(w, e);
    hide Good;
    hide J.SourceGone;
    hide J.Recover;
    hide J.Claim;
    hide J.Complete;
    hide J.Sync;
    hide D.Add;
    hide D.Remove;
    if k == jid {
      match e {
        case Claim(i) =>
          GoneJobSettles(w.jobs, jid, J.Failed, J.Broken);
          ClaimKeepsOthers(w.jobs, i);
        case Recover(i) =>
          GoneJobSettles(w.jobs, jid, J.Failed, J.Broken);
          RecoverKeepsOthers(w.jobs, i);
        case Fail(i) =>
          GoneJobSettles(w.jobs, jid, J.Failed, J.Broken);
          CompleteKeepsOthers(w.jobs, i, J.Failed, J.Broken);
        case Succeed(i, partial) =>
          GoneJobSettles(w.jobs, jid, J.Succeeded, if partial then J.Partial else J.Success);
          CompleteKeepsOthers(w.jobs, i, J.Succeeded, if partial then J.Partial else J.Success);
        case Enqueue(other, rid, i, dry) => SyncKeeps(w, other, rid, i, dry);
        case _ =>
      }
    }
  }

  lemma OtherStepSettles(w: World, e: Event, jid: nat, source: nat)
    requires Quiet(w, source) && RunOf(w, jid, source) && Enabled(w, e) && !OnLedger(e)
    ensures Settling(w, Do(w, e), jid, source)
  {
    hide Good;
    hide FetchHeld;
    hide NoAssertions;
    hide J.Complete;
    hide J.Delete;
    hide D.DeleteSource;
    hide Reconciling;
    match e {
      case AddSource(other) =>
      case Delete(other, rid, k) => DeleteKeepsOthers(w.jobs, other, rid, k);
      case Reconcile(k, cidrs) =>
      case LoadSource(k) =>
        CompleteKeepsOthers(w.jobs, k, J.Succeeded, J.Success);
        GoneJobSettles(w.jobs, jid, J.Succeeded, J.Success);
    }
  }

  /** Over every run after the deletion: a job of the source is as it was, or ended as a success, and no
      worker has taken it past its source check. */
  lemma {:induction false} LaterRunsAreNoops(w: World, es: seq<Event>, jid: nat, source: nat)
    requires Quiet(w, source) && RunOf(w, jid, source)
    ensures var w' := Run(w, es);
            Settling(w, w', jid, source) && !At(w', jid, Fetching) && NoAssertions(w', source)
    decreases es
  {
    RunKeepsQuiet(w, es, source);
    hide Good;
    hide NoAssertions;
    hide Do;
    if es != [] {
      var w1 := Step(w, es[0]);
      StepKeepsQuiet(w, es[0], source);
      if Enabled(w, es[0]) {
        if OnLedger(es[0]) {
          LedgerStepSettles(w, es[0], jid, source);
        } else {
          OtherStepSettles(w, es[0], jid, source);
        }
      }
      LaterRunsAreNoops(w1, es[1..], jid, source);
      hide Enabled;
    }
  }

  lemma {:induction false} RunAppend(w: World, es: seq<Event>, fs: seq<Event>)
    ensures Run(w, es + fs) == Run(Run(w, es), fs)
    decreases es
  {
    hide Step;
    if es == [] {
      assert es + fs == fs;
    } else {
      assert (es + fs)[1..] == es[1..] + fs;
      RunAppend(Step(w, es[0]), es[1..], fs);
    }
  }

  /** The first feed of the first source, claimed and past its source check. */
  const FETCH: seq<Event> := [AddSource(1), Enqueue(1, 1, 1, false), Claim(1), LoadSource(1)]

  function FetchingFirst(): World
  {
    World(J.Db(map[1 := false], map[1 := J.Run(1, J.Running, false, false)], map[1 := J.Job(1, J.Applying, 1)]),
          Empty().store.(sources := map[1 := false]), map[1 := Fetching])
  }

  lemma FetchIsHeld()
    ensures Run(Empty(), FETCH) == FetchingFirst()
  {
    var w1 := Step(Empty(), FETCH[0]);
    var w2 := Step(w1, FETCH[1]);
    assert w2.jobs == J.Db(map[1 := false], map[1 := J.Run(1, J.Waiting, false, false)], map[1 := J.Job(1, J.Queued, 0)]) by {
      assert !J.Busy(w1.jobs, 1);
    }
    var w3 := Step(w2, FETCH[2]);
    assert w3.jobs == FetchingFirst().jobs && w3.work == map[1 := Claimed];
    var w4 := Step(w3, FETCH[3]);
    hide Step;
    assert Run(Empty(), FETCH) == Run(w1, FETCH[1..]) == Run(w2, FETCH[2..]) == Run(w3, FETCH[3..]) == Run(w4, FETCH[4..]);
  }

  lemma FirstIsGood()
    ensures Good(FetchingFirst())
  {
    hide Good;
    EmptyIsGood();
    RunKeepsGood(Empty(), FETCH);
    FetchIsHeld();
  }

  lemma AssertedIsStored(w: World, source: nat, c: Cidr)
    requires Good(w) && D.AssertedBy(w.store, source, c)
    ensures c in w.store.entries
  {
    hide J.Inv;
  }

  /** Over an otherwise empty list, a source deleted while its feed is fetched asserts that feed. */
  lemma DeletedWhileFetching(w: World, k: nat, source: nat, rid: nat, jid: nat, c: Cidr)
    requires Good(w) && Enabled(w, Delete(source, rid, jid)) && !J.Gone(w.jobs, source) && w.store.entries == map[]
    requires At(w, k, Fetching) && RunOf(w, k, source) && FeedSet({c})
    ensures var w' := Run(w, [Delete(source, rid, jid), Reconcile(k, {c})]);
            J.Gone(w'.jobs, source) && D.AssertedBy(w'.store, source, c) && c in w'.store.entries
  {
    var del, rec := Delete(source, rid, jid), Reconcile(k, {c});
    var w' := Do(w, del);
    hide FeedSet;
    hide D.Rewritten;
    hide Good;
    hide D.AssertedBy;
    DeletedRows(w, source, rid, jid);
    HeldIsRetagged(w, source, rid, jid, k);
    hide Do;
    SecondFits(w'.store, source, c);
    ReconcileAsserts(w', k, source, c);
    RunKeepsGood(w', [rec]);
    AssertedIsStored(Run(w', [rec]), source, c);
    RunOne(w', rec);
    ReconcileKeepsJobs(w', k, {c});
    assert [del, rec] == [del] + [rec];
    RunAppend(w, [del], [rec]);
    RunOne(w, del);
  }

  lemma DeletedRows(w: World, source: nat, rid: nat, jid: nat)
    requires Good(w) && !J.Gone(w.jobs, source)
    ensures var w' := Do(w, Delete(source, rid, jid));
            J.Gone(w'.jobs, source) && forall c :: c in w'.store.entries ==> c in w.store.entries
  {
    hide J.Inv;
    hide D.Provenance;
    hide J.Delete;
    hide D.DeleteSource;
    DeletedStore(w.store, source);
    DeletedSources(w.jobs, source, rid, jid);
  }

  lemma HostIsFeedSet(addr: nat)
    requires addr < ADDR_SPACE
    ensures FeedSet({Cidr(32, addr)})
  {
  }

  /** The failing run from an empty database: the source is deleted while its feed is being fetched. */
  lemma RevivedSource()
    ensures var c := Cidr(32, 0x0101_0101);
            var w := Run(Empty(), FETCH + [Delete(1, 2, 2), Reconcile(1, {c})]);
            J.Gone(w.jobs, 1) && D.AssertedBy(w.store, 1, c) && c in w.store.entries
  {
    var c := Cidr(32, 0x0101_0101);
    HostIsFeedSet(0x0101_0101);
    hide Good;
    hide FeedSet;
    hide D.AssertedBy;
    hide FETCH;
    hide Run;
    FirstIsGood();
    FetchIsHeld();
    DeletedWhileFetching(FetchingFirst(), 1, 1, 2, 2, c);
    RunAppend(Empty(), FETCH, [Delete(1, 2, 2), Reconcile(1, {c})]);
  }

  lemma RunOne(w: World, e: Event)
    ensures Run(w, [e]) == Step(w, e)
  {
    hide Step;
    assert [e][1..] == [] && [e][0] == e;
  }

  /** A sync of a live source with nothing in the way: queued, claimed, past its source check, fetched and
      reconciled, a real run leaves the source asserting exactly what it fetched, a dry run leaves the
      stored list as it was, and either ends as a success. */
  lemma SyncDelivers(w: World, source: nat, rid: nat, jid: nat, dry: bool, cidrs: set<Cidr>, partial: bool)
    requires Good(w) && !J.Gone(w.jobs, source) && !J.Busy(w.jobs, source) && rid !in w.jobs.runs && jid !in w.jobs.jobs
    requires FeedSet(cidrs) && (!dry ==> |D.Union(w.store, source, cidrs)| <= D.MAX_ENTRIES)
    ensures var w' := Run(w, [Enqueue(source, rid, jid, dry), Claim(jid), LoadSource(jid), Reconcile(jid, cidrs),
                              Succeed(jid, partial)]);
            && J.Stands(w'.jobs, source, jid, J.Succeeded) && jid !in w'.work
            && (dry ==> w'.store == w.store)
            && (!dry ==> (forall c :: D.AssertedBy(w'.store, source, c) <==> c in cidrs)
                         && D.Cidrs(w'.store) == D.Union(w.store, source, cidrs))
  {
    hide Good;
    hide FeedSet;
    hide J.Busy;
    hide J.Stands;
    hide Run;
    hide D.Union;
    hide D.AssertedBy;
    var head, tail := [Enqueue(source, rid, jid, dry), Claim(jid), LoadSource(jid)], [Reconcile(jid, cidrs), Succeed(jid, partial)];
    SyncFetches(w, source, rid, jid, dry);
    FetchEnds(Run(w, head), source, jid, dry, cidrs, partial);
    RunAppend(w, head, tail);
    assert head + tail == [Enqueue(source, rid, jid, dry), Claim(jid), LoadSource(jid), Reconcile(jid, cidrs), Succeed(jid, partial)];
  }

  lemma SyncFetches(w: World, source: nat, rid: nat, jid: nat, dry: bool)
    requires Good(w) && !J.Gone(w.jobs, source) && !J.Busy(w.jobs, source) && rid !in w.jobs.runs && jid !in w.jobs.jobs
    ensures var w' := Run(w, [Enqueue(source, rid, jid, dry), Claim(jid), LoadSource(jid)]);
            && Good(w') && w'.store == w.store && At(w', jid, Fetching) && J.Stands(w'.jobs, source, jid, J.Applying)
            && w'.jobs.runs[w'.jobs.jobs[jid].run].dry == dry
  {
    hide Good;
    hide Run;
    hide Step;
    hide J.Busy;
    hide J.Inv;
    var head := [Enqueue(source, rid, jid, dry), Claim(jid)];
    SyncClaims(w, source, rid, jid, dry);
    var w2 := Run(w, head);
    LoadFetches(w2, source, jid);
    RunOne(w2, LoadSource(jid));
    RunAppend(w, head, [LoadSource(jid)]);
    assert head + [LoadSource(jid)] == [Enqueue(source, rid, jid, dry), Claim(jid), LoadSource(jid)];
    RunKeepsGood(w, head + [LoadSource(jid)]);
  }

  lemma SyncClaims(w: World, source: nat, rid: nat, jid: nat, dry: bool)
    requires Good(w) && !J.Gone(w.jobs, source) && !J.Busy(w.jobs, source) && rid !in w.jobs.runs && jid !in w.jobs.jobs
    ensures var w' := Run(w, [Enqueue(source, rid, jid, dry), Claim(jid)]);
            && w'.store == w.store && At(w', jid, Claimed) && J.Stands(w'.jobs, source, jid, J.Applying)
            && w'.jobs.runs[w'.jobs.jobs[jid].run].dry == dry
  {
    hide D.Provenance;
    hide J.Inv;
    hide J.Busy;
    hide J.Sync;
    hide J.Claim;
    hide Canonical;
    var es := [Enqueue(source, rid, jid, dry), Claim(jid)];
    J.SyncQueues(w.jobs, source, rid, jid, dry);
    var w1 := Step(w, es[0]);
    assert w1.jobs == J.Sync(w.jobs, source, rid, jid, dry) && w1.store == w.store;
    J.ClaimTakes(w1.jobs, source, jid);
    var w2 := Step(w1, es[1]);
    assert w2.jobs == J.Claim(w1.jobs, jid) && At(w2, jid, Claimed) && w2.store == w.store;
    hide Step;
    assert Run(w, es) == Run(w1, es[1..]) == Run(w2, es[2..]);
  }

  lemma LoadFetches(w: World, source: nat, jid: nat)
    requires At(w, jid, Claimed) && J.Stands(w.jobs, source, jid, J.Applying)
    ensures Step(w, LoadSource(jid)) == w.(work := w.work[jid := Fetching])
  {
    hide J.Inv;
  }

  lemma FetchEnds(w: World, source: nat, jid: nat, dry: bool, cidrs: set<Cidr>, partial: bool)
    requires Good(w) && At(w, jid, Fetching) && J.Stands(w.jobs, source, jid, J.Applying) && FeedSet(cidrs)
    requires w.jobs.runs[w.jobs.jobs[jid].run].dry == dry
    requires !dry ==> |D.Union(w.store, source, cidrs)| <= D.MAX_ENTRIES
    ensures var w' := Run(w, [Reconcile(jid, cidrs), Succeed(jid, partial)]);
            && J.Stands(w'.jobs, source, jid, J.Succeeded) && jid !in w'.work
            && (dry ==> w'.store == w.store)
            && (!dry ==> (forall c :: D.AssertedBy(w'.store, source, c) <==> c in cidrs)
                         && D.Cidrs(w'.store) == D.Union(w.store, source, cidrs))
  {
    hide D.Provenance;
    hide J.Inv;
    hide J.Complete;
    hide FeedSet;
    hide D.Union;
    hide D.AssertedBy;
    var es := [Reconcile(jid, cidrs), Succeed(jid, partial)];
    FetchReconciles(w, source, jid, dry, cidrs);
    hide Reconciling;
    var w1 := Step(w, es[0]);
    assert w1.jobs == w.jobs && w1.store == Reconciling(w, jid, cidrs) && At(w1, jid, Phase.Reconciled);
    J.CompleteEnds(w1.jobs, source, jid, J.Succeeded, if partial then J.Partial else J.Success);
    var w2 := Step(w1, es[1]);
    assert w2.store == w1.store && jid !in w2.work;
    hide Step;
    assert Run(w, es) == Run(w1, es[1..]) == Run(w2, es[2..]);
  }

  lemma FetchReconciles(w: World, source: nat, jid: nat, dry: bool, cidrs: set<Cidr>)
    requires D.Provenance(w.store) && w.jobs.sources == w.store.sources && RunOf(w, jid, source) && !J.Gone(w.jobs, source)
    requires w.jobs.runs[w.jobs.jobs[jid].run].dry == dry
    requires !dry ==> |D.Union(w.store, source, cidrs)| <= D.MAX_ENTRIES
    ensures var t := Reconciling(w, jid, cidrs);
            && (dry ==> t == w.store)
            && (!dry ==> (forall c :: D.AssertedBy(t, source, c) <==> c in cidrs) && D.Cidrs(t) == D.Union(w.store, source, cidrs))
  {
    var run := w.jobs.runs[w.jobs.jobs[jid].run];
    D.ReconcileOutcome(w.store, source, run.deletion, cidrs);
    if !dry {
      D.ReconcileIsExact(w.store, source, run.deletion, cidrs);
    }
    hide D.Reconcile;
    hide D.Union;
    hide D.Provenance;
  }
}
