/** "Active" means live: the worker reads its snapshot between claiming a job and marking it
    (control-plane/app/worker/processor.py, handlers.py, applier.py), while operators keep editing. */
module LiveConfig {
  import opened Wrappers
  import opened Ipv4
  import opened Policy
  import opened Ledger

  /** Where the single worker is with its job. */
  datatype Pc =
    | Idle
    | Claimed(jid: nat)
    | Loaded(jid: nat, snap: map<nat, Record>)
    | Applied(jid: nat, ok: bool)

  /** `live` is the service snapshot last committed to the data plane; `spent` are all job ids ever used. */
  datatype World = World(db: Db, pc: Pc, live: map<nat, Record>, spent: set<nat>)

  datatype Event =
    | Operator(op: Op)
    | Claim(jid: nat)
    | Load
    | ApplySucceeds
    | ApplyFails(committed: bool)
    | Mark
    | Crash(committed: bool)
    | Recovery(jid: nat, newId: nat)

  function Desired(s: Svc): Option<Record> { if s.rec.enabled then Some(s.rec) else None }

  function At(m: map<nat, Record>, sid: nat): Option<Record> { if sid in m then Some(m[sid]) else None }

  /** load_node_config: the enabled services in one consistent read. */
  function Snapshot(db: Db): map<nat, Record>
  {
    map sid | sid in db.services && db.services[sid].rec.enabled :: db.services[sid].rec
  }

  predicate ByOperator(op: Op) { op.DoCreate? || op.DoEdit? || op.DoDelete? || op.DoRetry? }

  function FreshIds(op: Op): set<nat>
  {
    match op
    case DoCreate(_, jid, _) => {jid}
    case DoEdit(_, jid, _) => {jid}
    case DoRetry(_, jid) => {jid}
    case DoRecover(_, newId) => {newId}
    case _ => {}
  }

  ghost function Transact(w: World, op: Op): World
  {
    if Enabled(w.db, op) && FreshIds(op) !! w.spent
    then w.(db := Do(w.db, op).0, spent := w.spent + FreshIds(op)) else w
  }

  /** One step; an event that is not enabled changes nothing. */
  ghost function Step(w: World, e: Event): World
  {
    match e
    case Operator(op) => if ByOperator(op) then Transact(w, op) else w
    case Claim(jid) =>
      if !w.pc.Idle? then w
      else
        var w' := Transact(w, DoApplying(jid));
        var r := Do(w.db, DoApplying(jid));
        if r.1.Done? && jid in r.0.jobs && r.0.jobs[jid].status == Running then w'.(pc := Claimed(jid)) else w'
    case Load =>
      if !w.pc.Claimed? then w
      else if w.pc.jid !in w.db.jobs || w.db.jobs[w.pc.jid].target !in w.db.services then w.(pc := Applied(w.pc.jid, false))
      else w.(pc := Loaded(w.pc.jid, Snapshot(w.db)))
    case ApplySucceeds => if w.pc.Loaded? then w.(live := w.pc.snap, pc := Applied(w.pc.jid, true)) else w
    case ApplyFails(committed) =>
      if w.pc.Loaded? then w.(live := if committed then w.pc.snap else w.live, pc := Applied(w.pc.jid, false)) else w
    case Mark =>
      if w.pc.Applied? then Transact(w, if w.pc.ok then DoActive(w.pc.jid) else DoFailed(w.pc.jid)).(pc := Idle) else w
    case Crash(committed) => w.(live := if committed && w.pc.Loaded? then w.pc.snap else w.live, pc := Idle)
    case Recovery(jid, newId) => if w.pc.Idle? then Transact(w, DoRecover(jid, newId)) else w
  }

  // ----- Invariant -----

  ghost predicate ActiveIn(db: Db, m: map<nat, Record>)
  {
    forall sid :: sid in db.services && db.services[sid].status == Active ==> At(m, sid) == Desired(db.services[sid])
  }

  /** If the job is still of its service's current version, `m` holds that service as stored. */
  ghost predicate TargetIn(db: Db, jid: nat, m: map<nat, Record>)
  {
    jid in db.jobs && db.jobs[jid].target in db.services && db.services[db.jobs[jid].target].version == db.jobs[jid].version ==>
      At(m, db.jobs[jid].target) == Desired(db.services[db.jobs[jid].target])
  }

  /** The records of a snapshot do not get in each other's way. */
  ghost predicate Compatible(m: map<nat, Record>)
  {
    && (forall sid :: sid in m ==> RecordOk(m[sid]))
    && (forall x, y :: x in m && y in m && x != y ==> m[x].dpId != m[y].dpId && !Overlap(m[x].cidr, m[y].cidr))
  }

  /** Every snapshot there is holds compatible records. */
  ghost predicate Records(w: World)
  {
    Coherent(w.db) && Compatible(w.live) && (w.pc.Loaded? ==> Compatible(w.pc.snap))
  }

  ghost predicate Good(w: World)
  {
    && Ledger.Inv(w.db) && w.db.jobs.Keys <= w.spent && ActiveIn(w.db, w.live)
    && (!w.pc.Idle? ==> w.pc.jid in w.spent)
    && (w.pc.Loaded? ==> ActiveIn(w.db, w.pc.snap) && TargetIn(w.db, w.pc.jid, w.pc.snap))
    && (w.pc.Applied? && w.pc.ok ==> TargetIn(w.db, w.pc.jid, w.live))
  }

  // ----- What transactions do to these -----

  ghost predicate NoNewActive(db: Db, db': Db)
  {
    forall sid :: sid in db'.services && db'.services[sid].status == Active ==>
      sid in db.services && db.services[sid].status == Active && db'.services[sid].rec == db.services[sid].rec
  }

  /** Only a success mark makes a service active. */
  lemma OnlySuccessActivates(db: Db, op: Op)
    requires Ledger.Inv(db) && Enabled(db, op) && !op.DoActive?
    ensures NoNewActive(db, Do(db, op).0)
  {
    hide Ledger.Inv;
    hide JobAt;
  }

  lemma JobsOnlyAdded(db: Db, op: Op)
    ensures Do(db, op).0.jobs.Keys <= db.jobs.Keys + FreshIds(op)
  {
    hide Ledger.HasJob;
    match op
    case DoRecover(jid, newId) => RecoverJobs(db, jid, newId);
    case _ =>
  }

  lemma RecoverJobs(db: Db, jid: nat, newId: nat)
    ensures Recover(db, jid, newId).0.jobs.Keys <= db.jobs.Keys + {newId}
  {
    assert MarkFailed(db, jid).0.jobs.Keys <= db.jobs.Keys;
    hide MarkFailed;
    if jid in db.jobs {
      assert Retry(MarkFailed(db, jid).0, db.jobs[jid].target, newId).0.jobs.Keys <= MarkFailed(db, jid).0.jobs.Keys + {newId};
    }
    hide Retry;
  }

  /** A job that is current after a transaction was current before it, for the same stored contents. */
  lemma TargetStays(db: Db, op: Op, jid: nat, m: map<nat, Record>)
    requires Ledger.Inv(db) && Enabled(db, op) && jid !in FreshIds(op) && TargetIn(db, jid, m)
    ensures TargetIn(Do(db, op).0, jid, m)
  {
    JobsOnlyAdded(db, op);
    StepMoves(db, op);
    var db' := Do(db, op).0;
    hide Do;
    if jid in db.jobs {
      JobVersionOk(db, jid);
    }
    hide Ledger.Inv;
    if jid in db'.jobs {
      assert jid in db.jobs && JobMove(db, db', jid);
    }
  }

  lemma ActiveStays(db: Db, db': Db, m: map<nat, Record>)
    requires ActiveIn(db, m) && NoNewActive(db, db')
    ensures ActiveIn(db', m)
  {
  }

  lemma TransactKeepsGood(w: World, op: Op)
    requires Good(w) && !op.DoActive?
    ensures Good(Transact(w, op))
  {
    hide Ledger.Inv;
    hide Do;
    hide Enabled;
    hide ActiveIn;
    hide TargetIn;
    if Enabled(w.db, op) && FreshIds(op) !! w.spent {
      var db' := Do(w.db, op).0;
      StepKeepsInv(w.db, op);
      OnlySuccessActivates(w.db, op);
      JobsOnlyAdded(w.db, op);
      ActiveStays(w.db, db', w.live);
      if w.pc.Loaded? {
        ActiveStays(w.db, db', w.pc.snap);
        TargetStays(w.db, op, w.pc.jid, w.pc.snap);
      }
      if w.pc.Applied? && w.pc.ok {
        TargetStays(w.db, op, w.pc.jid, w.live);
      }
    }
  }

  /** The one service a success mark activates is the job's own, still at the job's version. */
  lemma SuccessActivates(db: Db, jid: nat, sid: nat)
    requires var db' := MarkActive(db, jid).0; sid in db'.services && db'.services[sid].status == Active
    ensures sid in db.services && MarkActive(db, jid).0.services[sid].rec == db.services[sid].rec
    ensures db.services[sid].status == Active
            || (jid in db.jobs && db.jobs[jid].target == sid && db.services[sid].version == db.jobs[jid].version)
  {
  }

  /** The success mark: the service it activates is live as stored. */
  lemma MarkKeepsGood(w: World)
    requires Good(w) && w.pc.Applied? && w.pc.ok
    ensures Good(Transact(w, DoActive(w.pc.jid)).(pc := Idle))
  {
    hide Ledger.Inv;
    hide MarkActive;
    var jid := w.pc.jid;
    var db' := MarkActive(w.db, jid).0;
    StepKeepsInv(w.db, DoActive(jid));
    JobsOnlyAdded(w.db, DoActive(jid));
    forall sid | sid in db'.services && db'.services[sid].status == Active
      ensures At(w.live, sid) == Desired(db'.services[sid])
    {
      SuccessActivates(w.db, jid, sid);
    }
  }

  lemma LoadKeepsGood(w: World)
    requires Good(w) && w.pc.Claimed?
    ensures Good(w.(pc := Loaded(w.pc.jid, Snapshot(w.db))))
  {
    hide Ledger.Inv;
  }

  lemma StepKeepsGood(w: World, e: Event)
    requires Good(w)
    ensures Good(Step(w, e))
  {
    hide Do;
    hide Enabled;
    hide Ledger.Inv;
    match e
    case Operator(op) =>
      if ByOperator(op) {
        TransactKeepsGood(w, op);
      }
    case Claim(jid) =>
      TransactKeepsGood(w, DoApplying(jid));
      hide ActiveIn;
      ClaimedIsSpent(w, jid);
    case Load =>
      if w.pc.Claimed? {
        LoadKeepsGood(w);
      }
    case Mark =>
      if w.pc.Applied? {
        if w.pc.ok {
          MarkKeepsGood(w);
        } else {
          TransactKeepsGood(w, DoFailed(w.pc.jid));
        }
      }
    case Recovery(jid, newId) =>
      TransactKeepsGood(w, DoRecover(jid, newId));
    case _ =>
  }

  lemma ClaimedIsSpent(w: World, jid: nat)
    requires Good(w)
    ensures jid in Do(w.db, DoApplying(jid)).0.jobs ==> jid in w.spent
  {
    JobsOnlyAdded(w.db, DoApplying(jid));
  }

  lemma SnapshotCompatible(db: Db)
    requires Coherent(db)
    ensures Compatible(Snapshot(db))
  {
    hide RecordOk;
    hide Overlap;
    forall sid | sid in Snapshot(db) ensures Admits(db, sid, db.services[sid].rec) {
    }
  }

  lemma TransactKeepsRecords(w: World, op: Op)
    requires Records(w)
    ensures Records(Transact(w, op)) && Transact(w, op).pc == w.pc
  {
    hide Coherent;
    hide Compatible;
    hide Do;
    hide Enabled;
    StepKeepsCoherent(w.db, op);
  }

  lemma StepKeepsRecords(w: World, e: Event)
    requires Records(w)
    ensures Records(Step(w, e))
  {
    hide Coherent;
    hide Compatible;
    hide Do;
    hide Transact;
    match e {
      case Operator(op) => TransactKeepsRecords(w, op);
      case Claim(jid) => TransactKeepsRecords(w, DoApplying(jid));
      case Load => SnapshotCompatible(w.db);
      case Mark =>
        if w.pc.Applied? {
          TransactKeepsRecords(w, if w.pc.ok then DoActive(w.pc.jid) else DoFailed(w.pc.jid));
        }
      case Recovery(jid, newId) => TransactKeepsRecords(w, DoRecover(jid, newId));
      case _ =>
    }
  }

  ghost function Run(w: World, es: seq<Event>): World
    decreases es
  {
    if es == [] then w else Run(Step(w, es[0]), es[1..])
  }

  lemma {:induction false} RunKeepsGood(w: World, es: seq<Event>)
    requires Good(w)
    ensures Good(Run(w, es))
    decreases es
  {
    hide Good;
    hide Step;
    if es != [] {
      StepKeepsGood(w, es[0]);
      RunKeepsGood(Step(w, es[0]), es[1..]);
    }
  }

  /** Main theorem: starting from an empty ledger and data plane, after any interleaving of operator
      edits, worker steps, failed and timed-out applies, crashes and recoveries, a service whose status
      is active is live exactly as stored, at its current version (and absent if disabled). */
  lemma ActiveMeansLive(es: seq<Event>, sid: nat)
    ensures var w := Run(World(Db(map[], map[]), Idle, map[], {}), es);
            sid in w.db.services && w.db.services[sid].status == Active ==>
              && At(w.live, sid) == Desired(w.db.services[sid])
              && w.db.services[sid].active == Some(w.db.services[sid].version)
  {
    var w0 := World(Db(map[], map[]), Idle, map[], {});
    assert Good(w0);
    RunKeepsGood(w0, es);
    var w := Run(w0, es);
    assert sid in w.db.services ==> ServiceOk(w.db, sid);
    hide Step;
  }

  /** Partner of ActiveMeansLive: with an idle worker and nothing in the way, an admissible edit ends active
      and live: the record as edited, or nothing if it disables the service. */
  lemma EditGoesLive(w: World, sid: nat, jid: nat, rec: Record)
    requires Good(w) && w.pc.Idle? && sid in w.db.services && Admits(w.db, sid, rec) && jid !in w.spent
    ensures var w' := Run(w, [Operator(DoEdit(sid, jid, rec)), Claim(jid), Load, ApplySucceeds, Mark]);
            && InHand(w'.db, sid, jid, Active) && w'.db.services[sid].rec == rec
            && At(w'.live, sid) == (if rec.enabled then Some(rec) else None)
  {
    var es := [Operator(DoEdit(sid, jid, rec)), Claim(jid), Load, ApplySucceeds, Mark];
    hide Ledger.Inv;
    hide ActiveIn;
    hide TargetIn;
    hide Admits;
    hide Edit;
    hide MarkApplying;
    hide MarkActive;
    EditQueues(w.db, sid, jid, rec);
    var d1 := Edit(w.db, sid, jid, rec).0;
    var w1 := Step(w, es[0]);
    assert w1.db == d1 && w1.pc == Idle && w1.spent == w.spent + {jid};
    JobTaken(d1, sid, jid);
    var d2 := MarkApplying(d1, jid).0;
    JobFollows(d2, sid, jid, Applying);
    var w2 := Step(w1, es[1]);
    assert w2.db == d2 && w2.pc == Claimed(jid);
    var w3 := Step(w2, es[2]);
    assert w3 == w2.(pc := Loaded(jid, Snapshot(d2)));
    var w4 := Step(w3, es[3]);
    assert w4.db == d2 && w4.live == Snapshot(d2) && w4.pc == Applied(jid, true);
    JobSucceeds(d2, sid, jid);
    var w5 := Step(w4, es[4]);
    assert w5.db == MarkActive(d2, jid).0 && w5.live == w4.live;
    assert At(w5.live, sid) == (if rec.enabled then Some(rec) else None);
    hide Step;
    assert Run(w, es) == Run(w1, es[1..]) == Run(w2, es[2..]) == Run(w3, es[3..]) == Run(w4, es[4..]) == Run(w5, es[5..]);
  }
}
