/** The service apply ledger: versioned service rows and their jobs
    (control-plane/app/services/apply.py, services.py, control-plane/app/core/applystate.py,
    control-plane/app/worker/feed_jobs.py). Each operation is one transaction; one that raises is
    rolled back. */
module Ledger {
  import opened Wrappers
  import opened Ipv4
  import opened Policy

  datatype ApplyStatus = Pending | Queued | Applying | Active | Failed

  datatype JobStatus = Waiting | Running | Succeeded | Broken | Superseded

  /** A service row: `active` is the last version known to be applied. */
  datatype Svc = Svc(status: ApplyStatus, version: nat, active: Option<nat>, rec: Record)

  datatype Job = Job(target: nat, version: nat, status: JobStatus, attempts: nat)

  datatype Db = Db(services: map<nat, Svc>, jobs: map<nat, Job>)

  /** How a transaction ends; every outcome but Done leaves the database as it was. */
  datatype Outcome = Done | Missing | Illegal | NotMonotone | NotFailed | StillEnabled | Refused

  /** LEGAL_APPLY. */
  predicate Legal(from: ApplyStatus, to: ApplyStatus)
  {
    match from
    case Pending => to.Pending? || to.Queued?
    case Queued => to.Pending? || to.Applying?
    case Applying => to.Pending? || to.Active? || to.Failed?
    case Active => to.Pending?
    case Failed => to.Pending? || to.Queued?
  }

  predicate Terminal(s: JobStatus) { s.Succeeded? || s.Broken? || s.Superseded? }

  predicate Advances(active: Option<nat>, version: nat) { active.Some? ==> version > active.value }

  predicate IsFor(j: Job, sid: nat, version: nat) { j.target == sid && j.version == version }

  ghost predicate HasJob(db: Db, sid: nat, version: nat)
  {
    exists j :: j in db.jobs && IsFor(db.jobs[j], sid, version)
  }

  ghost function JobAt(db: Db, sid: nat, version: nat): (r: Option<nat>)
    ensures r.Some? <==> HasJob(db, sid, version)
    ensures r.Some? ==> r.value in db.jobs && IsFor(db.jobs[r.value], sid, version)
  {
    if HasJob(db, sid, version) then var j :| j in db.jobs && IsFor(db.jobs[j], sid, version); Some(j) else None
  }

  /** What the checks and constraints ask of a row: a proper record, with an id of its own and a
      destination that overlaps no other service's, enabled or not. */
  predicate Admits(db: Db, sid: nat, rec: Record)
  {
    && RecordOk(rec)
    && forall other :: other in db.services && other != sid ==>
         db.services[other].rec.dpId != rec.dpId && !Overlap(db.services[other].rec.cidr, rec.cidr)
  }

  // ----- Transactions -----

  /** enqueue_service_update: a job already recorded for the version is kept as it is. */
  ghost function Enqueue(db: Db, sid: nat, jid: nat): (Db, Outcome)
    requires sid in db.services
  {
    var s := db.services[sid];
    if s.status != Queued && !Legal(s.status, Queued) then (db, Illegal)
    else
      (Db(db.services[sid := s.(status := Queued)],
          if HasJob(db, sid, s.version) then db.jobs else db.jobs[jid := Job(sid, s.version, Waiting, 0)]), Done)
  }

  /** create_service: version 1, disabled, its first job queued. */
  ghost function Create(db: Db, sid: nat, jid: nat, rec: Record): (Db, Outcome)
  {
    if !Admits(db, sid, rec) then (db, Refused)
    else Enqueue(Db(db.services[sid := Svc(Pending, 1, None, rec.(enabled := false))], db.jobs), sid, jid)
  }

  /** Any edit of a service: the new contents, bump_version and a job, in one transaction. */
  ghost function Edit(db: Db, sid: nat, jid: nat, rec: Record): (Db, Outcome)
  {
    if sid !in db.services then (db, Missing)
    else if !Admits(db, sid, rec) then (db, Refused)
    else
      var s := db.services[sid];
      if !Legal(s.status, Pending) then (db, Illegal)
      else
        var r := Enqueue(db.(services := db.services[sid := s.(status := Pending, version := s.version + 1, rec := rec)]), sid, jid);
        if r.1.Done? then r else (db, r.1)
  }

  /** delete_service: refused while enabled; the jobs go with the row. */
  ghost function Delete(db: Db, sid: nat): (Db, Outcome)
  {
    if sid !in db.services then (db, Missing)
    else if db.services[sid].rec.enabled then (db, StillEnabled)
    else (Db(db.services - {sid}, map j | j in db.jobs && db.jobs[j].target != sid :: db.jobs[j]), Done)
  }

  /** The common head of the three marks: None when the caller's own part is to run. */
  ghost function Precheck(db: Db, jid: nat): Option<(Db, Outcome)>
  {
    if jid !in db.jobs then Some((db, Missing))
    else
      var job := db.jobs[jid];
      if Terminal(job.status) then Some((db, Done))
      else if job.target !in db.services then Some((db, Missing))
      else if db.services[job.target].version != job.version
      then Some((db.(jobs := db.jobs[jid := job.(status := Superseded)]), Done))
      else None
  }

  ghost function MarkApplying(db: Db, jid: nat): (Db, Outcome)
  {
    var early := Precheck(db, jid);
    if early.Some? then early.value
    else
      var job := db.jobs[jid];
      var s := db.services[job.target];
      if !Legal(s.status, Applying) then (db, Illegal)
      else (Db(db.services[job.target := s.(status := Applying)],
               db.jobs[jid := job.(status := Running, attempts := job.attempts + 1)]), Done)
  }

  ghost function MarkActive(db: Db, jid: nat): (Db, Outcome)
  {
    var early := Precheck(db, jid);
    if early.Some? then early.value
    else
      var job := db.jobs[jid];
      var s := db.services[job.target];
      if !Legal(s.status, Active) then (db, Illegal)
      else if !Advances(s.active, job.version) then (db, NotMonotone)
      else (Db(db.services[job.target := s.(status := Active, active := Some(job.version))],
               db.jobs[jid := job.(status := Succeeded)]), Done)
  }

  ghost function MarkFailed(db: Db, jid: nat): (Db, Outcome)
  {
    var early := Precheck(db, jid);
    if early.Some? then early.value
    else
      var job := db.jobs[jid];
      var s := db.services[job.target];
      if !Legal(s.status, Failed) then (db, Illegal)
      else (Db(db.services[job.target := s.(status := Failed)], db.jobs[jid := job.(status := Broken)]), Done)
  }

  /** retry: re-queue the current version's job, or make one. */
  ghost function Retry(db: Db, sid: nat, jid: nat): (Db, Outcome)
  {
    if sid !in db.services then (db, Missing)
    else
      var s := db.services[sid];
      if s.status != Failed then (db, NotFailed)
      else
        var current := JobAt(db, sid, s.version);
        (Db(db.services[sid := s.(status := Queued)],
            if current.Some? then db.jobs[current.value := db.jobs[current.value].(status := Waiting)]
            else db.jobs[jid := Job(sid, s.version, Waiting, 0)]), Done)
  }

  /** Startup recovery of a job left running: mark_failed, then retry of whatever version the service
      has by now. If the retry raises, both are rolled back. */
  ghost function Recover(db: Db, jid: nat, newId: nat): (Db, Outcome)
  {
    if jid !in db.jobs || db.jobs[jid].status != Running then (db, Done)
    else
      var failed := MarkFailed(db, jid);
      if !failed.1.Done? then (db, failed.1)
      else
        var r := Retry(failed.0, db.jobs[jid].target, newId);
        if r.1.Done? then r else (db, r.1)
  }

  // ----- Invariant -----

  /** The job status that goes with a service status. */
  function Matching(s: ApplyStatus): Option<JobStatus>
  {
    match s
    case Pending => None
    case Queued => Some(Waiting)
    case Applying => Some(Running)
    case Active => Some(Succeeded)
    case Failed => Some(Broken)
  }

  ghost predicate ServiceOk(db: Db, sid: nat)
    requires sid in db.services
  {
    var s := db.services[sid];
    && HasJob(db, sid, s.version)
    && (s.status == Active <==> s.active == Some(s.version))
    && (s.status != Active ==> Advances(s.active, s.version))
  }

  ghost predicate JobOk(db: Db, jid: nat)
    requires jid in db.jobs
  {
    var j := db.jobs[jid];
    && j.target in db.services && j.version <= db.services[j.target].version
    && (j.version == db.services[j.target].version ==> Matching(db.services[j.target].status) == Some(j.status))
  }

  /** Jobs of the current version are unique and agree with the service; active means the current
      version; otherwise the active version is older. */
  ghost predicate Inv(db: Db)
  {
    && (forall sid :: sid in db.services ==> ServiceOk(db, sid))
    && (forall j :: j in db.jobs ==> JobOk(db, j))
    && Unique(db)
  }

  ghost predicate Unique(db: Db)
  {
    forall i, j :: i in db.jobs && j in db.jobs && IsFor(db.jobs[i], db.jobs[j].target, db.jobs[j].version) ==> i == j
  }

  datatype Op =
    | DoCreate(sid: nat, jid: nat, rec: Record)
    | DoEdit(sid: nat, jid: nat, rec: Record)
    | DoDelete(sid: nat)
    | DoApplying(jid: nat)
    | DoActive(jid: nat)
    | DoFailed(jid: nat)
    | DoRetry(sid: nat, jid: nat)
    | DoRecover(jid: nat, newId: nat)

  /** Identifiers are never reused. */
  ghost predicate Enabled(db: Db, op: Op)
  {
    match op
    case DoCreate(sid, jid, _) => sid !in db.services && jid !in db.jobs
    case DoEdit(_, jid, _) => jid !in db.jobs
    case DoRetry(_, jid) => jid !in db.jobs
    case DoRecover(_, newId) => newId !in db.jobs
    case _ => true
  }

  ghost function Do(db: Db, op: Op): (Db, Outcome)
  {
    match op
    case DoCreate(sid, jid, rec) => Create(db, sid, jid, rec)
    case DoEdit(sid, jid, rec) => Edit(db, sid, jid, rec)
    case DoDelete(sid) => Delete(db, sid)
    case DoApplying(jid) => MarkApplying(db, jid)
    case DoActive(jid) => MarkActive(db, jid)
    case DoFailed(jid) => MarkFailed(db, jid)
    case DoRetry(sid, jid) => Retry(db, sid, jid)
    case DoRecover(jid, newId) => Recover(db, jid, newId)
  }

  lemma CreateKeepsInv(db: Db, sid: nat, jid: nat, rec: Record)
    requires Inv(db) && sid !in db.services && jid !in db.jobs
    ensures (Create(db, sid, jid, rec).1.Done? <==> Admits(db, sid, rec)) && Inv(Create(db, sid, jid, rec).0)
  {
    hide Admits;
    if !Admits(db, sid, rec) { return; }
    var db' := Create(db, sid, jid, rec).0;
    forall j | j in db.jobs ensures !IsFor(db.jobs[j], sid, 1) {
      assert JobOk(db, j);
    }
    var mid := Db(db.services[sid := Svc(Pending, 1, None, rec.(enabled := false))], db.jobs);
    assert !HasJob(mid, sid, 1);
    assert db'.services == db.services[sid := Svc(Queued, 1, None, rec.(enabled := false))];
    AddedJob(db, db', sid, jid, Svc(Queued, 1, None, rec.(enabled := false)));
  }

  /** A queued service row of a new version added to a consistent ledger, with a fresh job for it. */
  lemma AddedJob(db: Db, db': Db, sid: nat, jid: nat, s: Svc)
    requires Inv(db) && jid !in db.jobs && s.status == Queued && Advances(s.active, s.version)
    requires sid in db.services ==> db.services[sid].version < s.version
    requires db' == Db(db.services[sid := s], db.jobs[jid := Job(sid, s.version, Waiting, 0)])
    ensures Inv(db')
  {
    forall j | j in db.jobs ensures !IsFor(db.jobs[j], sid, s.version) && JobOk(db', j) {
      assert JobOk(db, j);
    }
    AddedUnique(db, db', jid);
    forall i | i in db'.services ensures ServiceOk(db', i) {
      AddedServiceOk(db, db', sid, jid, s, i);
    }
  }

  lemma AddedServiceOk(db: Db, db': Db, sid: nat, jid: nat, s: Svc, i: nat)
    requires Inv(db) && jid !in db.jobs && s.status == Queued && Advances(s.active, s.version)
    requires db' == Db(db.services[sid := s], db.jobs[jid := Job(sid, s.version, Waiting, 0)]) && i in db'.services
    ensures ServiceOk(db', i)
  {
    hide Unique;
    if i == sid {
      assert IsFor(db'.jobs[jid], sid, s.version);
    } else {
      assert ServiceOk(db, i);
      var j :| j in db.jobs && IsFor(db.jobs[j], i, db.services[i].version);
      assert j in db'.jobs && IsFor(db'.jobs[j], i, db'.services[i].version);
    }
  }

  lemma AddedUnique(db: Db, db': Db, jid: nat)
    requires Unique(db) && jid !in db.jobs && jid in db'.jobs && db'.jobs == db.jobs[jid := db'.jobs[jid]]
    requires forall j :: j in db.jobs ==> !IsFor(db.jobs[j], db'.jobs[jid].target, db'.jobs[jid].version)
    ensures Unique(db')
  {
    forall i, j | i in db'.jobs && j in db'.jobs && IsFor(db'.jobs[i], db'.jobs[j].target, db'.jobs[j].version)
      ensures i == j
    {
      if i != jid && j != jid {
        assert IsFor(db.jobs[i], db.jobs[j].target, db.jobs[j].version);
      }
    }
  }

  lemma EditKeepsInv(db: Db, sid: nat, jid: nat, rec: Record)
    requires Inv(db) && jid !in db.jobs
    ensures Inv(Edit(db, sid, jid, rec).0)
    ensures Edit(db, sid, jid, rec).1.Done? <==> sid in db.services && Admits(db, sid, rec)
  {
    hide Admits;
    if sid in db.services && Admits(db, sid, rec) {
      var s := db.services[sid];
      assert ServiceOk(db, sid);
      var mid := db.(services := db.services[sid := s.(status := Pending, version := s.version + 1, rec := rec)]);
      assert !HasJob(mid, sid, s.version + 1) by {
        forall j | j in db.jobs ensures !IsFor(db.jobs[j], sid, s.version + 1) {
          assert JobOk(db, j);
        }
      }
      var s' := s.(status := Queued, version := s.version + 1, rec := rec);
      assert Edit(db, sid, jid, rec).0.services == db.services[sid := s'];
      AddedJob(db, Edit(db, sid, jid, rec).0, sid, jid, s');
    }
  }

  lemma DeleteKeepsInv(db: Db, sid: nat)
    requires Inv(db)
    ensures Inv(Delete(db, sid).0)
  {
    var db' := Delete(db, sid).0;
    if Delete(db, sid).1.Done? {
      forall i | i in db'.services ensures ServiceOk(db', i) {
        assert ServiceOk(db, i);
        var j :| j in db.jobs && IsFor(db.jobs[j], i, db.services[i].version);
        assert j in db'.jobs && IsFor(db'.jobs[j], i, db'.services[i].version);
      }
      forall j | j in db'.jobs ensures JobOk(db', j) {
        assert JobOk(db, j);
      }
    }
  }

  /** A service and its current job change status together. */
  lemma MovedTogether(db: Db, db': Db, sid: nat, jid: nat, s': Svc, job': Job)
    requires Inv(db) && sid in db.services && jid in db.jobs && IsFor(db.jobs[jid], sid, db.services[sid].version)
    requires s'.version == db.services[sid].version && IsFor(job', sid, s'.version)
    requires Matching(s'.status) == Some(job'.status)
    requires (s'.status == Active <==> s'.active == Some(s'.version)) && (s'.status != Active ==> Advances(s'.active, s'.version))
    requires db' == Db(db.services[sid := s'], db.jobs[jid := job'])
    ensures Inv(db')
  {
    forall i | i in db'.services ensures ServiceOk(db', i) {
      assert ServiceOk(db, i);
      var j :| j in db.jobs && IsFor(db.jobs[j], i, db.services[i].version);
      assert j in db'.jobs && IsFor(db'.jobs[j], i, db'.services[i].version);
    }
    forall j | j in db'.jobs ensures JobOk(db', j) {
      assert JobOk(db, j);
      assert j != jid ==> !IsFor(db.jobs[j], db.jobs[jid].target, db.jobs[jid].version);
    }
  }

  lemma SameKeysUnique(db: Db, db': Db)
    requires Unique(db) && db'.jobs.Keys == db.jobs.Keys
    requires forall j :: j in db.jobs ==> db'.jobs[j].target == db.jobs[j].target && db'.jobs[j].version == db.jobs[j].version
    ensures Unique(db')
  {
    forall i, j | i in db'.jobs && j in db'.jobs && IsFor(db'.jobs[i], db'.jobs[j].target, db'.jobs[j].version) ensures i == j {
      assert IsFor(db.jobs[i], db.jobs[j].target, db.jobs[j].version);
    }
  }

  lemma OldJobSuperseded(db: Db, jid: nat)
    requires Inv(db) && jid in db.jobs && db.jobs[jid].target in db.services
    requires db.services[db.jobs[jid].target].version != db.jobs[jid].version
    ensures Inv(db.(jobs := db.jobs[jid := db.jobs[jid].(status := Superseded)]))
  {
    var db' := db.(jobs := db.jobs[jid := db.jobs[jid].(status := Superseded)]);
    SameKeysUnique(db, db');
    hide Unique;
    forall i | i in db'.services ensures ServiceOk(db', i) {
      assert ServiceOk(db, i);
      var j :| j in db.jobs && IsFor(db.jobs[j], i, db.services[i].version);
      assert j in db'.jobs && IsFor(db'.jobs[j], i, db'.services[i].version);
    }
    forall j | j in db'.jobs ensures JobOk(db', j) {
      assert JobOk(db, j);
    }
  }

  lemma PrecheckKeepsInv(db: Db, jid: nat)
    requires Inv(db)
    ensures Precheck(db, jid).Some? ==> Inv(Precheck(db, jid).value.0)
    ensures Precheck(db, jid).None? ==>
              jid in db.jobs && db.jobs[jid].target in db.services && !Terminal(db.jobs[jid].status)
              && IsFor(db.jobs[jid], db.jobs[jid].target, db.services[db.jobs[jid].target].version)
              && ServiceOk(db, db.jobs[jid].target) && JobOk(db, jid)
  {
    if jid in db.jobs {
      assert JobOk(db, jid);
      if !Terminal(db.jobs[jid].status) && db.services[db.jobs[jid].target].version != db.jobs[jid].version {
        OldJobSuperseded(db, jid);
      }
    }
  }

  /** No mark is ever refused for a version that does not advance. */
  lemma MarksKeepInv(db: Db, jid: nat)
    requires Inv(db)
    ensures Inv(MarkApplying(db, jid).0) && Inv(MarkActive(db, jid).0) && Inv(MarkFailed(db, jid).0)
    ensures !MarkActive(db, jid).1.NotMonotone?
  {
    hide Inv;
    hide ServiceOk;
    hide JobOk;
    PrecheckKeepsInv(db, jid);
    if Precheck(db, jid).None? {
      var job := db.jobs[jid];
      var s := db.services[job.target];
      CurrentService(db, jid);
      hide Precheck;
      if Legal(s.status, Applying) {
        MovedTogether(db, MarkApplying(db, jid).0, job.target, jid, s.(status := Applying),
                      job.(status := Running, attempts := job.attempts + 1));
      }
      if Legal(s.status, Active) {
        MovedTogether(db, MarkActive(db, jid).0, job.target, jid, s.(status := Active, active := Some(job.version)),
                      job.(status := Succeeded));
      }
      if Legal(s.status, Failed) {
        MovedTogether(db, MarkFailed(db, jid).0, job.target, jid, s.(status := Failed), job.(status := Broken));
      }
    }
  }

  /** An unfinished job of the current version belongs to a service that is not active. */
  lemma CurrentService(db: Db, jid: nat)
    requires Inv(db) && jid in db.jobs && db.jobs[jid].target in db.services && !Terminal(db.jobs[jid].status)
    requires IsFor(db.jobs[jid], db.jobs[jid].target, db.services[db.jobs[jid].target].version)
    ensures var s := db.services[db.jobs[jid].target];
            s.status != Active && Advances(s.active, s.version) && s.active != Some(s.version)
  {
    assert JobOk(db, jid) && ServiceOk(db, db.jobs[jid].target);
  }

  lemma RetryKeepsInv(db: Db, sid: nat, jid: nat)
    requires Inv(db) && jid !in db.jobs
    ensures Inv(Retry(db, sid, jid).0)
    ensures sid in db.services && db.services[sid].status == Failed ==> Retry(db, sid, jid).1.Done?
  {
    if sid in db.services && db.services[sid].status == Failed {
      var s := db.services[sid];
      assert ServiceOk(db, sid);
      var current := JobAt(db, sid, s.version).value;
      MovedTogether(db, Retry(db, sid, jid).0, sid, current, s.(status := Queued), db.jobs[current].(status := Waiting));
    }
  }

  lemma RecoverKeepsInv(db: Db, jid: nat, newId: nat)
    requires Inv(db) && newId !in db.jobs
    ensures Inv(Recover(db, jid, newId).0)
  {
    hide Inv;
    hide JobAt;
    if jid in db.jobs && db.jobs[jid].status == Running {
      MarksKeepInv(db, jid);
      RetryKeepsInv(MarkFailed(db, jid).0, db.jobs[jid].target, newId);
    }
  }

  // ----- Every reachable state -----

  lemma StepKeepsInv(db: Db, op: Op)
    requires Inv(db) && Enabled(db, op)
    ensures Inv(Do(db, op).0) && !Do(db, op).1.NotMonotone?
  {
    hide Inv;
    hide JobAt;
    match op
    case DoCreate(sid, jid, rec) => CreateKeepsInv(db, sid, jid, rec);
    case DoEdit(sid, jid, rec) => EditKeepsInv(db, sid, jid, rec);
    case DoDelete(sid) => DeleteKeepsInv(db, sid);
    case DoApplying(jid) => MarksKeepInv(db, jid);
    case DoActive(jid) => MarksKeepInv(db, jid);
    case DoFailed(jid) => MarksKeepInv(db, jid);
    case DoRetry(sid, jid) => RetryKeepsInv(db, sid, jid);
    case DoRecover(jid, newId) => RecoverKeepsInv(db, jid, newId);
  }

  /** The job exists and, if it is of its service's current version, is not in the given status. */
  ghost predicate JobNot(db: Db, jid: nat, status: JobStatus)
  {
    && jid in db.jobs && db.jobs[jid].target in db.services
    && (db.jobs[jid].version == db.services[db.jobs[jid].target].version ==> db.jobs[jid].status != status)
  }

  /** What a caller can check beforehand. */
  ghost predicate Accepts(db: Db, op: Op)
  {
    match op
    case DoCreate(sid, _, rec) => Admits(db, sid, rec)
    case DoEdit(sid, _, rec) => sid in db.services && Admits(db, sid, rec)
    case DoDelete(sid) => sid in db.services && !db.services[sid].rec.enabled
    case DoApplying(jid) => JobNot(db, jid, Running)
    case DoActive(jid) => JobNot(db, jid, Waiting)
    case DoFailed(jid) => JobNot(db, jid, Waiting)
    case DoRetry(sid, _) => sid in db.services && db.services[sid].status == Failed
    case DoRecover(jid, _) =>
      jid in db.jobs && db.jobs[jid].status == Running && db.jobs[jid].target in db.services
      && db.jobs[jid].version < db.services[db.jobs[jid].target].version ==>
        db.services[db.jobs[jid].target].status == Failed
  }

  /** The invariant decides exactly which transactions raise: claiming a job that already runs,
      completing one that was never claimed, and recovering an orphan whose service was edited since,
      unless the newer version has itself failed. */
  lemma RaisesExactly(db: Db, op: Op)
    requires Inv(db) && Enabled(db, op)
    ensures Do(db, op).1.Done? <==> Accepts(db, op)
  {
    hide JobAt;
    match op {
      case DoCreate(sid, jid, rec) => CreateKeepsInv(db, sid, jid, rec);
      case DoEdit(sid, jid, rec) => EditKeepsInv(db, sid, jid, rec);
      case DoDelete(sid) => hide Inv;
      case DoApplying(jid) => MarksRaise(db, jid);
      case DoActive(jid) => MarksRaise(db, jid);
      case DoFailed(jid) => MarksRaise(db, jid);
      case DoRetry(sid, jid) => hide Inv;
      case DoRecover(jid, newId) => RecoverRaises(db, jid, newId);
    }
  }

  lemma MarksRaise(db: Db, jid: nat)
    requires Inv(db)
    ensures MarkApplying(db, jid).1.Done? <==> JobNot(db, jid, Running)
    ensures MarkActive(db, jid).1.Done? <==> JobNot(db, jid, Waiting)
    ensures MarkFailed(db, jid).1.Done? <==> JobNot(db, jid, Waiting)
  {
    hide Inv;
    hide HasJob;
    MarksKeepInv(db, jid);
    if jid in db.jobs {
      CurrentMatches(db, jid);
    }
  }

  /** A job's service exists, and agrees with it if the job is of the current version. */
  lemma CurrentMatches(db: Db, jid: nat)
    requires Inv(db) && jid in db.jobs
    ensures JobOk(db, jid)
  {
  }

  lemma RecoverRaises(db: Db, jid: nat, newId: nat)
    requires Inv(db) && newId !in db.jobs
    ensures Recover(db, jid, newId).1.Done? <==> Accepts(db, DoRecover(jid, newId))
  {
    hide Inv;
    hide JobAt;
    if jid in db.jobs && db.jobs[jid].status == Running {
      CurrentMatches(db, jid);
      MarksRaise(db, jid);
      MarksKeepInv(db, jid);
      RetryKeepsInv(MarkFailed(db, jid).0, db.jobs[jid].target, newId);
    }
  }

  ghost function Run(db: Db, ops: seq<Op>): Db
    decreases ops
  {
    if ops == [] then db else Run(if Enabled(db, ops[0]) then Do(db, ops[0]).0 else db, ops[1..])
  }

  /** Main invariant: from the empty ledger, whatever transactions run in whatever order. */
  lemma {:induction false} ReachableInv(db: Db, ops: seq<Op>)
    requires Inv(db)
    ensures Inv(Run(db, ops))
    decreases ops
  {
    hide Inv;
    hide Do;
    hide Enabled;
    if ops != [] {
      if Enabled(db, ops[0]) {
        StepKeepsInv(db, ops[0]);
        ReachableInv(Do(db, ops[0]).0, ops[1..]);
      } else {
        ReachableInv(db, ops[1..]);
      }
    }
  }

  /** What one transaction may do to a job: an old job can only become superseded; a job that is done
      is touched again only by a retry of a failed current version. */
  ghost predicate JobMove(db: Db, db': Db, jid: nat)
    requires jid in db.jobs && jid in db'.jobs && db.jobs[jid].target in db.services
  {
    var j, j' := db.jobs[jid], db'.jobs[jid];
    && j'.target == j.target && j'.version == j.version
    && (j.version < db.services[j.target].version ==> j' == j || j'.status == Superseded)
    && (Terminal(j.status) && j' != j ==> j.status == Broken && j'.status == Waiting && j.version == db.services[j.target].version)
  }

  ghost predicate ServiceMove(s: Svc, s': Svc)
  {
    && s'.version >= s.version
    && (s'.version == s.version ==> s'.rec == s.rec)
    && (s'.active == s.active || (s'.active == Some(s.version) && Advances(s.active, s.version)))
  }

  ghost predicate Moves(db: Db, db': Db)
  {
    && (forall jid :: jid in db.jobs && jid in db'.jobs && db.jobs[jid].target in db.services ==> JobMove(db, db', jid))
    && (forall sid :: sid in db.services && sid in db'.services ==> ServiceMove(db.services[sid], db'.services[sid]))
  }

  lemma UpdateMoves(db: Db, db': Db, sid: nat, jid: nat, s': Svc, job': Job)
    requires sid in db.services && jid in db.jobs && db.jobs[jid].target == sid
    requires db' == Db(db.services[sid := s'], db.jobs[jid := job'])
    requires ServiceMove(db.services[sid], s') && JobMove(db, db', jid)
    ensures Moves(db, db')
  {
  }

  lemma MarkMoves(db: Db, jid: nat)
    requires Inv(db)
    ensures Moves(db, MarkApplying(db, jid).0) && Moves(db, MarkFailed(db, jid).0) && Moves(db, MarkActive(db, jid).0)
  {
    hide Inv;
    if jid in db.jobs && db.jobs[jid].target in db.services && !Terminal(db.jobs[jid].status) {
      JobVersionOk(db, jid);
      var job := db.jobs[jid];
      var sid, s := job.target, db.services[job.target];
      if s.version != job.version {
        var db' := db.(jobs := db.jobs[jid := job.(status := Superseded)]);
        assert db'.services == db.services[sid := s];
        UpdateMoves(db, db', sid, jid, s, db'.jobs[jid]);
        hide Moves;
      } else {
        var a, b, c := MarkApplying(db, jid), MarkFailed(db, jid), MarkActive(db, jid);
        assert Moves(db, db);
        hide Moves;
        if a.1.Done? { UpdateMoves(db, a.0, sid, jid, a.0.services[sid], a.0.jobs[jid]); }
        if b.1.Done? { UpdateMoves(db, b.0, sid, jid, b.0.services[sid], b.0.jobs[jid]); }
        if c.1.Done? { UpdateMoves(db, c.0, sid, jid, c.0.services[sid], c.0.jobs[jid]); }
      }
    }
  }

  lemma JobVersionOk(db: Db, jid: nat)
    requires Inv(db) && jid in db.jobs
    ensures db.jobs[jid].target in db.services && db.jobs[jid].version <= db.services[db.jobs[jid].target].version
  {
    assert JobOk(db, jid);
  }

  lemma EditMoves(db: Db, sid: nat, jid: nat, rec: Record)
    requires jid !in db.jobs
    ensures Moves(db, Edit(db, sid, jid, rec).0)
  {
  }

  lemma CurrentJob(db: Db, sid: nat)
    requires Inv(db) && sid in db.services
    ensures JobAt(db, sid, db.services[sid].version).Some?
    ensures var s, j := db.services[sid], db.jobs[JobAt(db, sid, db.services[sid].version).value];
            IsFor(j, sid, s.version) && Matching(s.status) == Some(j.status)
  {
    hide JobAt;
    assert ServiceOk(db, sid);
    assert JobOk(db, JobAt(db, sid, db.services[sid].version).value);
  }

  lemma RetryMoves(db: Db, sid: nat, jid: nat)
    requires Inv(db) && jid !in db.jobs
    ensures Moves(db, Retry(db, sid, jid).0)
  {
    hide Inv;
    if sid in db.services && db.services[sid].status == Failed {
      CurrentJob(db, sid);
      hide JobAt;
    }
  }

  lemma RecoverMoves(db: Db, jid: nat, newId: nat)
    requires Inv(db) && newId !in db.jobs
    ensures Moves(db, Recover(db, jid, newId).0)
  {
    hide Inv;
    if jid in db.jobs && db.jobs[jid].status == Running {
      var sid := db.jobs[jid].target;
      JobVersionOk(db, jid);
      MarksKeepInv(db, jid);
      var mid := MarkFailed(db, jid).0;
      CurrentJob(mid, sid);
      CurrentJob(db, sid);
      var k := JobAt(mid, sid, mid.services[sid].version).value;
      hide JobAt;
      if db.jobs[jid].version == db.services[sid].version {
        SameJob(mid, jid, k);
      }
    }
  }

  lemma SameJob(db: Db, i: nat, j: nat)
    requires Inv(db) && i in db.jobs && j in db.jobs && IsFor(db.jobs[i], db.jobs[j].target, db.jobs[j].version)
    ensures i == j
  {
  }

  lemma OtherMoves(db: Db, op: Op)
    requires Inv(db) && Enabled(db, op) && (op.DoCreate? || op.DoDelete?)
    ensures Moves(db, Do(db, op).0)
  {
    hide Inv;
  }

  /** Main theorem on single steps: versions never go back, an active version only moves up to the
      current one, the stored contents change only together with the version, old jobs only become
      superseded. */
  lemma StepMoves(db: Db, op: Op)
    requires Inv(db) && Enabled(db, op)
    ensures Moves(db, Do(db, op).0)
  {
    hide Inv;
    hide Moves;
    hide JobAt;
    match op
    case DoEdit(sid, jid, rec) => EditMoves(db, sid, jid, rec);
    case DoApplying(jid) => MarkMoves(db, jid);
    case DoActive(jid) => MarkMoves(db, jid);
    case DoFailed(jid) => MarkMoves(db, jid);
    case DoRetry(sid, jid) => RetryMoves(db, sid, jid);
    case DoRecover(jid, newId) => RecoverMoves(db, jid, newId);
    case _ => OtherMoves(db, op);
  }

  lemma InvUnique(db: Db)
    requires Inv(db)
    ensures Unique(db)
  {
  }

  // ----- The stored records -----

  /** Every row meets the constraints. */
  ghost predicate Coherent(db: Db) { forall sid :: sid in db.services ==> Admits(db, sid, db.services[sid].rec) }

  ghost predicate SameRecords(db: Db, db': Db)
  {
    forall sid :: sid in db'.services ==> sid in db.services && db'.services[sid].rec == db.services[sid].rec
  }

  lemma FewerStayCoherent(db: Db, db': Db)
    requires Coherent(db) && SameRecords(db, db')
    ensures Coherent(db')
  {
    hide RecordOk;
    hide Overlap;
    forall sid | sid in db'.services ensures Admits(db', sid, db'.services[sid].rec) {
      assert Admits(db, sid, db.services[sid].rec);
    }
  }

  lemma AdmittedStaysCoherent(db: Db, db': Db, sid: nat, rec: Record)
    requires Coherent(db) && Admits(db, sid, rec) && sid in db'.services
    requires db'.services[sid].rec == rec || db'.services[sid].rec == rec.(enabled := false)
    requires db'.services == db.services[sid := db'.services[sid]]
    ensures Coherent(db')
  {
    hide Contains;
    forall x | x in db'.services ensures Admits(db', x, db'.services[x].rec) {
      assert x != sid ==> Admits(db, x, db.services[x].rec);
    }
  }

  lemma OtherOpsKeepRecords(db: Db, op: Op)
    requires !op.DoCreate? && !op.DoEdit?
    ensures SameRecords(db, Do(db, op).0)
  {
    hide JobAt;
    match op {
      case DoRecover(jid, newId) =>
        hide Recover;
        RecoverKeepsRows(db, jid, newId);
      case _ =>
    }
  }

  lemma StepKeepsCoherent(db: Db, op: Op)
    requires Coherent(db)
    ensures Coherent(Do(db, op).0)
  {
    hide Coherent;
    hide Admits;
    match op {
      case DoCreate(sid, jid, rec) =>
        if Create(db, sid, jid, rec).1.Done? {
          AdmittedStaysCoherent(db, Create(db, sid, jid, rec).0, sid, rec);
        }
        hide HasJob;
      case DoEdit(sid, jid, rec) =>
        if Edit(db, sid, jid, rec).1.Done? {
          AdmittedStaysCoherent(db, Edit(db, sid, jid, rec).0, sid, rec);
        }
        hide HasJob;
      case _ =>
        OtherOpsKeepRecords(db, op);
        hide Do;
        FewerStayCoherent(db, Do(db, op).0);
    }
  }

  /** In every reachable state the enabled rows are a set of records the compilation theorem takes. */
  lemma {:induction false} ReachableCoherent(db: Db, ops: seq<Op>)
    requires Coherent(db)
    ensures Coherent(Run(db, ops))
    decreases ops
  {
    hide Coherent;
    hide Do;
    hide Enabled;
    if ops != [] {
      StepKeepsCoherent(db, ops[0]);
      ReachableCoherent(if Enabled(db, ops[0]) then Do(db, ops[0]).0 else db, ops[1..]);
    }
  }

  function RecordAt(db: Db, sid: nat): Option<Record> { if sid in db.services then Some(db.services[sid].rec) else None }

  /** What one transaction writes for a service: a create that goes through, its record, disabled; an edit
      that goes through, its record; a delete that goes through, nothing. */
  ghost function WrittenBy(db: Db, op: Op, sid: nat, before: Option<Record>): Option<Record>
  {
    if !Do(db, op).1.Done? then before
    else match op
      case DoCreate(s, _, rec) => if s == sid then Some(rec.(enabled := false)) else before
      case DoEdit(s, _, rec) => if s == sid then Some(rec) else before
      case DoDelete(s) => if s == sid then None else before
      case _ => before
  }

  /** The operator's last word on a service. */
  ghost function LastWritten(db: Db, ops: seq<Op>, sid: nat, before: Option<Record>): Option<Record>
    decreases ops
  {
    if ops == [] then before
    else if !Enabled(db, ops[0]) then LastWritten(db, ops[1..], sid, before)
    else LastWritten(Do(db, ops[0]).0, ops[1..], sid, WrittenBy(db, ops[0], sid, before))
  }

  /** A create stores the record, disabled, at version 1; an edit stores it at the next version; either
      leaves every other row as it is. A delete removes its own row alone. */
  lemma WritesExactly(db: Db, op: Op)
    requires Do(db, op).1.Done?
    ensures var db' := Do(db, op).0;
            match op
            case DoCreate(sid, _, rec) => db'.services == db.services[sid := Svc(Queued, 1, None, rec.(enabled := false))]
            case DoEdit(sid, _, rec) =>
              sid in db.services && var s := db.services[sid];
              db'.services == db.services[sid := Svc(Queued, s.version + 1, s.active, rec)]
            case DoDelete(sid) => sid in db.services && db'.services == db.services - {sid}
            case _ => db'.services.Keys == db.services.Keys && SameRecords(db, db')
  {
    hide HasJob;
    hide Admits;
    match op {
      case DoRecover(jid, newId) =>
        RecoverKeepsRows(db, jid, newId);
        hide Recover;
      case DoRetry(_, _) => hide JobAt;
      case _ =>
    }
  }

  lemma RecoverKeepsRows(db: Db, jid: nat, newId: nat)
    ensures var db' := Recover(db, jid, newId).0;
            db'.services.Keys == db.services.Keys && SameRecords(db, db')
  {
    hide JobAt;
    if jid in db.jobs {
      var failed := MarkFailed(db, jid).0;
      assert failed.services.Keys == db.services.Keys && SameRecords(db, failed);
      hide MarkFailed;
      var retried := Retry(failed, db.jobs[jid].target, newId).0;
      assert retried.services.Keys == failed.services.Keys && SameRecords(failed, retried);
      hide Retry;
    }
  }

  lemma RaisedWritesNothing(db: Db, op: Op)
    requires !Do(db, op).1.Done?
    ensures Do(db, op).0 == db
  {
    hide JobAt;
    hide HasJob;
    hide Admits;
  }

  lemma StepWrites(db: Db, op: Op, sid: nat)
    ensures RecordAt(Do(db, op).0, sid) == WrittenBy(db, op, sid, RecordAt(db, sid))
  {
    if Do(db, op).1.Done? {
      WritesExactly(db, op);
    } else {
      RaisedWritesNothing(db, op);
    }
    hide Do;
  }

  /** Main theorem on contents: over every run of transactions the stored record of a service is the one
      the last successful create or edit of it gave, and none after a successful delete. */
  lemma {:induction false} StoredIsLastWritten(db: Db, ops: seq<Op>, sid: nat)
    ensures RecordAt(Run(db, ops), sid) == LastWritten(db, ops, sid, RecordAt(db, sid))
    decreases ops
  {
    hide Do;
    hide Enabled;
    hide WrittenBy;
    hide RecordAt;
    if ops != [] {
      if Enabled(db, ops[0]) {
        StepWrites(db, ops[0], sid);
        StoredIsLastWritten(Do(db, ops[0]).0, ops[1..], sid);
      } else {
        StoredIsLastWritten(db, ops[1..], sid);
      }
    }
  }

  // ----- An undisturbed job gets through -----

  /** The service is in the given status and `jid` is the job of its current version. */
  ghost predicate InHand(db: Db, sid: nat, jid: nat, status: ApplyStatus)
  {
    && Inv(db) && sid in db.services && db.services[sid].status == status
    && jid in db.jobs && IsFor(db.jobs[jid], sid, db.services[sid].version)
  }

  ghost predicate SameVersion(db: Db, db': Db, sid: nat)
  {
    && sid in db.services && sid in db'.services
    && db'.services[sid].version == db.services[sid].version && db'.services[sid].rec == db.services[sid].rec
  }

  /** Whatever a worker does with an unfinished job of an older version, the job ends superseded and nothing
      else changes: a newer edit is never overtaken by an older one. */
  lemma OlderJobsAreSuperseded(db: Db, jid: nat, op: Op)
    requires Inv(db) && jid in db.jobs && !Terminal(db.jobs[jid].status) && op in {DoApplying(jid), DoActive(jid), DoFailed(jid)}
    requires db.jobs[jid].target in db.services && db.jobs[jid].version < db.services[db.jobs[jid].target].version
    ensures Do(db, op) == (db.(jobs := db.jobs[jid := db.jobs[jid].(status := Superseded)]), Done)
  {
    hide Inv;
  }

  /** The job's own status follows the service's. */
  lemma JobFollows(db: Db, sid: nat, jid: nat, status: ApplyStatus)
    requires InHand(db, sid, jid, status)
    ensures Matching(status) == Some(db.jobs[jid].status)
    ensures status != Active ==> Advances(db.services[sid].active, db.services[sid].version)
  {
    assert JobOk(db, jid) && ServiceOk(db, sid);
  }

  lemma JobTaken(db: Db, sid: nat, jid: nat)
    requires InHand(db, sid, jid, Queued)
    ensures var db' := MarkApplying(db, jid).0;
            MarkApplying(db, jid).1.Done? && InHand(db', sid, jid, Applying) && SameVersion(db, db', sid)
            && db'.jobs[jid].attempts == db.jobs[jid].attempts + 1
  {
    hide Inv;
    hide HasJob;
    JobFollows(db, sid, jid, Queued);
    MarksKeepInv(db, jid);
  }

  lemma JobSucceeds(db: Db, sid: nat, jid: nat)
    requires InHand(db, sid, jid, Applying)
    ensures var db' := MarkActive(db, jid).0;
            MarkActive(db, jid).1.Done? && InHand(db', sid, jid, Active) && SameVersion(db, db', sid)
  {
    hide Inv;
    hide HasJob;
    JobFollows(db, sid, jid, Applying);
    MarksKeepInv(db, jid);
  }

  lemma JobFails(db: Db, sid: nat, jid: nat)
    requires InHand(db, sid, jid, Applying)
    ensures var db' := MarkFailed(db, jid).0;
            MarkFailed(db, jid).1.Done? && InHand(db', sid, jid, Failed) && SameVersion(db, db', sid)
  {
    hide Inv;
    hide HasJob;
    JobFollows(db, sid, jid, Applying);
    MarksKeepInv(db, jid);
  }

  lemma RetriedRows(db: Db, sid: nat, jid: nat, newId: nat)
    requires sid in db.services && db.services[sid].status == Failed && jid in db.jobs
    requires JobAt(db, sid, db.services[sid].version) == Some(jid)
    ensures Retry(db, sid, newId) == (Db(db.services[sid := db.services[sid].(status := Queued)],
                                         db.jobs[jid := db.jobs[jid].(status := Waiting)]), Done)
  {
    hide JobAt;
  }

  lemma JobRetried(db: Db, sid: nat, jid: nat, newId: nat)
    requires InHand(db, sid, jid, Failed) && newId !in db.jobs
    ensures var db' := Retry(db, sid, newId).0;
            Retry(db, sid, newId).1.Done? && InHand(db', sid, jid, Queued) && SameVersion(db, db', sid)
  {
    hide Inv;
    hide JobAt;
    hide HasJob;
    RetryKeepsInv(db, sid, newId);
    CurrentJob(db, sid);
    SameJob(db, jid, JobAt(db, sid, db.services[sid].version).value);
    RetriedRows(db, sid, jid, newId);
    hide Retry;
  }

  lemma JobRecovered(db: Db, sid: nat, jid: nat, newId: nat)
    requires InHand(db, sid, jid, Applying) && newId !in db.jobs
    ensures var db' := Recover(db, jid, newId).0;
            Recover(db, jid, newId).1.Done? && InHand(db', sid, jid, Queued) && SameVersion(db, db', sid)
  {
    JobFollows(db, sid, jid, Applying);
    JobFails(db, sid, jid);
    var failed := MarkFailed(db, jid).0;
    hide InHand;
    assert newId !in failed.jobs;
    JobRetried(failed, sid, jid, newId);
    assert db.jobs[jid].target == sid by { TargetOf(db, sid, jid); }
    hide MarkFailed;
    hide Retry;
  }

  lemma TargetOf(db: Db, sid: nat, jid: nat)
    requires InHand(db, sid, jid, Applying)
    ensures jid in db.jobs && db.jobs[jid].target == sid
  {
  }

  lemma EditQueues(db: Db, sid: nat, jid: nat, rec: Record)
    requires Inv(db) && sid in db.services && Admits(db, sid, rec) && jid !in db.jobs
    ensures var db' := Edit(db, sid, jid, rec).0;
            InHand(db', sid, jid, Queued) && db'.services[sid].rec == rec
            && db'.services[sid].version == db.services[sid].version + 1
            && db'.jobs.Keys == db.jobs.Keys + {jid}
  {
    hide Admits;
    EditKeepsInv(db, sid, jid, rec);
    var s := db.services[sid];
    var mid := db.(services := db.services[sid := s.(status := Pending, version := s.version + 1, rec := rec)]);
    assert !HasJob(mid, sid, s.version + 1) by {
      forall j | j in db.jobs ensures !IsFor(db.jobs[j], sid, s.version + 1) {
        assert JobOk(db, j);
      }
    }
    hide Inv;
  }

  /** How an edit gets to the data plane with nothing in its way: at once, after a failure and a retry, or
      after a crash and its recovery. */
  datatype Course = AtOnce | Retried(newId: nat) | Recovered(newId: nat)

  /** What happens between a claim and the claim that succeeds. */
  function Between(sid: nat, jid: nat, how: Course): seq<Op>
  {
    match how
    case AtOnce => []
    case Retried(newId) => [DoFailed(jid), DoRetry(sid, newId), DoApplying(jid)]
    case Recovered(newId) => [DoRecover(jid, newId), DoApplying(jid)]
  }

  lemma {:induction false} RunAppend(db: Db, ops: seq<Op>, more: seq<Op>)
    ensures Run(db, ops + more) == Run(Run(db, ops), more)
    decreases ops
  {
    hide Do;
    hide Enabled;
    if ops == [] {
      assert ops + more == more;
    } else {
      assert (ops + more)[1..] == ops[1..] + more;
      RunAppend(if Enabled(db, ops[0]) then Do(db, ops[0]).0 else db, ops[1..], more);
    }
  }

  lemma RunOne(db: Db, op: Op)
    requires Enabled(db, op)
    ensures Run(db, [op]) == Do(db, op).0
  {
    hide Do;
    hide Enabled;
    assert [op][1..] == [] && [op][0] == op;
  }

  lemma RunTwo(db: Db, op: Op, next: Op)
    requires Enabled(db, op) && Enabled(Do(db, op).0, next)
    ensures Run(db, [op, next]) == Do(Do(db, op).0, next).0
  {
    hide Do;
    hide Enabled;
    RunOne(db, op);
    RunOne(Do(db, op).0, next);
    assert [op, next] == [op] + [next];
    RunAppend(db, [op], [next]);
  }

  lemma FailKeepsJobs(db: Db, jid: nat)
    ensures MarkFailed(db, jid).0.jobs.Keys == db.jobs.Keys
  {
  }

  lemma ClaimKeepsJobs(db: Db, jid: nat)
    ensures MarkApplying(db, jid).0.jobs.Keys == db.jobs.Keys
  {
  }

  lemma RetriedAgain(db: Db, sid: nat, jid: nat, newId: nat)
    requires InHand(db, sid, jid, Applying) && newId !in db.jobs
    ensures var db' := Run(db, [DoFailed(jid), DoRetry(sid, newId), DoApplying(jid)]);
            InHand(db', sid, jid, Applying) && SameVersion(db, db', sid)
  {
    hide MarkFailed;
    hide MarkApplying;
    hide Retry;
    hide InHand;
    hide Run;
    JobFails(db, sid, jid);
    FailKeepsJobs(db, jid);
    var failed := MarkFailed(db, jid).0;
    JobRetried(failed, sid, jid, newId);
    var queued := Retry(failed, sid, newId).0;
    JobTaken(queued, sid, jid);
    RunTwo(db, DoFailed(jid), DoRetry(sid, newId));
    RunOne(queued, DoApplying(jid));
    assert [DoFailed(jid), DoRetry(sid, newId), DoApplying(jid)] == [DoFailed(jid), DoRetry(sid, newId)] + [DoApplying(jid)];
    RunAppend(db, [DoFailed(jid), DoRetry(sid, newId)], [DoApplying(jid)]);
  }

  lemma RecoveredAgain(db: Db, sid: nat, jid: nat, newId: nat)
    requires InHand(db, sid, jid, Applying) && newId !in db.jobs
    ensures var db' := Run(db, [DoRecover(jid, newId), DoApplying(jid)]);
            InHand(db', sid, jid, Applying) && SameVersion(db, db', sid)
  {
    hide MarkApplying;
    hide Recover;
    hide InHand;
    hide Run;
    JobRecovered(db, sid, jid, newId);
    JobTaken(Recover(db, jid, newId).0, sid, jid);
    RunTwo(db, DoRecover(jid, newId), DoApplying(jid));
  }

  lemma BetweenHoldsIt(db: Db, sid: nat, jid: nat, how: Course)
    requires InHand(db, sid, jid, Applying) && (!how.AtOnce? ==> how.newId !in db.jobs)
    ensures var db' := Run(db, Between(sid, jid, how)); InHand(db', sid, jid, Applying) && SameVersion(db, db', sid)
  {
    match how {
      case AtOnce => hide Inv;
      case Retried(newId) => RetriedAgain(db, sid, jid, newId);
      case Recovered(newId) => RecoveredAgain(db, sid, jid, newId);
    }
  }

  lemma EditTaken(db: Db, sid: nat, jid: nat, rec: Record)
    requires Inv(db) && sid in db.services && Admits(db, sid, rec) && jid !in db.jobs
    ensures var db' := Run(db, [DoEdit(sid, jid, rec), DoApplying(jid)]);
            && InHand(db', sid, jid, Applying) && db'.services[sid].rec == rec
            && db'.services[sid].version == db.services[sid].version + 1 && db'.jobs.Keys == db.jobs.Keys + {jid}
  {
    hide Inv;
    hide Admits;
    hide Edit;
    hide MarkApplying;
    EditQueues(db, sid, jid, rec);
    var d := Edit(db, sid, jid, rec).0;
    JobTaken(d, sid, jid);
    ClaimKeepsJobs(d, jid);
    RunTwo(db, DoEdit(sid, jid, rec), DoApplying(jid));
    hide Run;
  }

  /** Main theorem on progress: from every consistent ledger, every admissible edit, claimed and applied,
      ends as the active version with exactly the edited record, whichever course it takes. */
  lemma EditGetsActive(db: Db, sid: nat, jid: nat, rec: Record, how: Course)
    requires Inv(db) && sid in db.services && Admits(db, sid, rec) && jid !in db.jobs
    requires !how.AtOnce? ==> how.newId !in db.jobs && how.newId != jid
    ensures var db' := Run(db, [DoEdit(sid, jid, rec), DoApplying(jid)] + Between(sid, jid, how) + [DoActive(jid)]);
            && InHand(db', sid, jid, Active) && db'.services[sid].rec == rec
            && db'.services[sid].version == db.services[sid].version + 1
  {
    hide Inv;
    hide Admits;
    hide Between;
    hide MarkActive;
    hide Run;
    hide IsFor;
    var head, middle := [DoEdit(sid, jid, rec), DoApplying(jid)], Between(sid, jid, how);
    EditTaken(db, sid, jid, rec);
    var taken := Run(db, head);
    BetweenHoldsIt(taken, sid, jid, how);
    var ready := Run(taken, middle);
    JobSucceeds(ready, sid, jid);
    RunOne(ready, DoActive(jid));
    RunAppend(db, head, middle);
    RunAppend(db, head + middle, [DoActive(jid)]);
  }

  // ----- A recovery that raises -----

  /** A claimed job whose service is edited before the worker comes back: its recovery raises. */
  lemma EditedOrphanRaises(rec: Record)
    requires RecordOk(rec)
    ensures var db := Run(Db(map[], map[]), [DoCreate(1, 1, rec), DoApplying(1), DoEdit(1, 2, rec)]);
            Recover(db, 1, 3) == (db, NotFailed)
  {
    var e := Db(map[], map[]);
    var ops := [DoCreate(1, 1, rec), DoApplying(1), DoEdit(1, 2, rec)];
    var off := rec.(enabled := false);
    hide RecordOk;
    var db1 := Do(e, ops[0]).0;
    assert db1 == Db(map[1 := Svc(Queued, 1, None, off)], map[1 := Job(1, 1, Waiting, 0)]) by {
      assert Admits(e, 1, rec) && !HasJob(Db(map[1 := Svc(Pending, 1, None, off)], map[]), 1, 1);
    }
    var db2 := Do(db1, ops[1]).0;
    assert db2 == Db(map[1 := Svc(Applying, 1, None, off)], map[1 := Job(1, 1, Running, 1)]);
    var db3 := Do(db2, ops[2]).0;
    assert db3 == Db(map[1 := Svc(Queued, 2, None, rec)], map[1 := Job(1, 1, Running, 1), 2 := Job(1, 2, Waiting, 0)]) by {
      var mid := db2.(services := map[1 := Svc(Pending, 2, None, rec)]);
      assert Admits(db2, 1, rec) && !HasJob(mid, 1, 2);
      assert db2.services[1 := Svc(Pending, 2, None, rec)] == mid.services;
    }
    assert Run(e, ops) == Run(db1, ops[1..]) == Run(db2, ops[2..]) == Run(db3, ops[3..]) == db3;
    assert Recover(db3, 1, 3) == (db3, NotFailed);
  }

  // ----- The functions as written -----

  class Store {
    var services: map<nat, Svc>
    var jobs: map<nat, Job>

    ghost function View(): Db
      reads this
    {
      Db(services, jobs)
    }

    constructor ()
      ensures View() == Db(map[], map[]) && Inv(View())
    {
      services, jobs := map[], map[];
    }

    /** The query for the job of one service version. */
    method FindJob(sid: nat, version: nat) returns (r: Option<nat>)
      requires Unique(View())
      ensures r == JobAt(View(), sid, version)
    {
      var left := jobs.Keys;
      while left != {}
        invariant left <= jobs.Keys
        invariant forall j :: j in jobs && j !in left ==> !IsFor(jobs[j], sid, version)
        decreases left
      {
        var j :| j in left;
        if jobs[j].target == sid && jobs[j].version == version {
          assert IsFor(jobs[j], sid, version);
          return Some(j);
        }
        left := left - {j};
      }
      r := None;
    }

    method EnqueueUpdate(sid: nat, jid: nat) returns (o: Outcome)
      requires Unique(View()) && sid in services
      modifies this
      ensures (View(), o) == Enqueue(old(View()), sid, jid)
    {
      if services[sid].status != Queued && !Legal(services[sid].status, Queued) { return Illegal; }
      var existing := FindJob(sid, services[sid].version);
      if existing.None? {
        jobs := jobs[jid := Job(sid, services[sid].version, Waiting, 0)];
      }
      services := services[sid := services[sid].(status := Queued)];
      o := Done;
    }

    method CreateService(sid: nat, jid: nat, rec: Record) returns (o: Outcome)
      requires Inv(View()) && sid !in services && jid !in jobs
      modifies this
      ensures (View(), o) == Create(old(View()), sid, jid, rec) && Inv(View())
      ensures o.Done? <==> Admits(old(View()), sid, rec)
    {
      CreateKeepsInv(View(), sid, jid, rec);
      hide Admits;
      if !Admits(Db(services, jobs), sid, rec) { return Refused; }
      services := services[sid := Svc(Pending, 1, None, rec.(enabled := false))];
      o := EnqueueUpdate(sid, jid);
    }

    method DeleteService(sid: nat) returns (o: Outcome)
      requires Inv(View())
      modifies this
      ensures (View(), o) == Delete(old(View()), sid) && Inv(View())
    {
      DeleteKeepsInv(View(), sid);
      hide Inv;
      if sid !in services { return Missing; }
      if services[sid].rec.enabled { return StillEnabled; }
      services := services - {sid};
      jobs := map j | j in jobs && jobs[j].target != sid :: jobs[j];
      o := Done;
    }

    /** bump_version followed by enqueue_service_update. */
    method EditService(sid: nat, jid: nat, rec: Record) returns (o: Outcome)
      requires Inv(View()) && jid !in jobs
      modifies this
      ensures (View(), o) == Edit(old(View()), sid, jid, rec) && Inv(View())
    {
      EditKeepsInv(View(), sid, jid, rec);
      hide Admits;
      if sid !in services { return Missing; }
      if !Admits(Db(services, jobs), sid, rec) { return Refused; }
      var s := services[sid];
      if !Legal(s.status, Pending) { return Illegal; }
      services := services[sid := s.(status := Pending, version := s.version + 1, rec := rec)];
      o := EnqueueUpdate(sid, jid);
    }

    /** Missing, terminal and superseded jobs are settled before a mark does its own work. */
    method Settle(jid: nat) returns (settled: bool, o: Outcome)
      requires Inv(View())
      modifies this
      ensures settled <==> Precheck(old(View()), jid).Some?
      ensures if settled then (View(), o) == Precheck(old(View()), jid).value else View() == old(View())
    {
      if jid !in jobs { return true, Missing; }
      var job := jobs[jid];
      if Terminal(job.status) { return true, Done; }
      if job.target !in services { return true, Missing; }
      if services[job.target].version != job.version {
        jobs := jobs[jid := job.(status := Superseded)];
        return true, Done;
      }
      return false, Done;
    }

    method Claim(jid: nat) returns (o: Outcome)
      requires Inv(View())
      modifies this
      ensures (View(), o) == MarkApplying(old(View()), jid) && Inv(View())
    {
      MarksKeepInv(View(), jid);
      hide Inv;
      var settled;
      settled, o := Settle(jid);
      if settled { return; }
      var job := jobs[jid];
      var s := services[job.target];
      if !Legal(s.status, Applying) { return Illegal; }
      services := services[job.target := s.(status := Applying)];
      jobs := jobs[jid := job.(status := Running, attempts := job.attempts + 1)];
      o := Done;
    }

    method Succeed(jid: nat) returns (o: Outcome)
      requires Inv(View())
      modifies this
      ensures (View(), o) == MarkActive(old(View()), jid) && Inv(View()) && !o.NotMonotone?
    {
      MarksKeepInv(View(), jid);
      hide Inv;
      var settled;
      settled, o := Settle(jid);
      if settled { return; }
      var job := jobs[jid];
      var s := services[job.target];
      if !Legal(s.status, Active) { return Illegal; }
      if !Advances(s.active, job.version) { return NotMonotone; }
      services := services[job.target := s.(status := Active, active := Some(job.version))];
      jobs := jobs[jid := job.(status := Succeeded)];
      o := Done;
    }

    method Fail(jid: nat) returns (o: Outcome)
      requires Inv(View())
      modifies this
      ensures (View(), o) == MarkFailed(old(View()), jid) && Inv(View())
    {
      MarksKeepInv(View(), jid);
      hide Inv;
      var settled;
      settled, o := Settle(jid);
      if settled { return; }
      var job := jobs[jid];
      var s := services[job.target];
      if !Legal(s.status, Failed) { return Illegal; }
      services := services[job.target := s.(status := Failed)];
      jobs := jobs[jid := job.(status := Broken)];
      o := Done;
    }

    method RetryFailed(sid: nat, jid: nat) returns (o: Outcome)
      requires Unique(View()) && jid !in jobs
      modifies this
      ensures (View(), o) == Retry(old(View()), sid, jid)
      ensures old(Inv(View())) ==> Inv(View())
    {
      if Inv(View()) {
        RetryKeepsInv(View(), sid, jid);
      }
      hide Inv;
      if sid !in services { return Missing; }
      var s := services[sid];
      if s.status != Failed { return NotFailed; }
      var current := FindJob(sid, s.version);
      if current.None? {
        jobs := jobs[jid := Job(sid, s.version, Waiting, 0)];
      } else {
        jobs := jobs[current.value := jobs[current.value].(status := Waiting)];
      }
      services := services[sid := s.(status := Queued)];
      o := Done;
    }

    /** ServiceJobLifecycle.recover inside its transaction: a raise undoes the failed mark as well. */
    method RecoverOrphan(jid: nat, newId: nat) returns (o: Outcome)
      requires Inv(View()) && newId !in jobs
      modifies this
      ensures (View(), o) == Recover(old(View()), jid, newId) && Inv(View())
    {
      RecoverKeepsInv(View(), jid, newId);
      hide Inv;
      hide Retry;
      if jid !in jobs || jobs[jid].status != Running { return Done; }
      var savedServices, savedJobs, target := services, jobs, jobs[jid].target;
      o := Fail(jid);
      assert Unique(View()) by { InvUnique(View()); }
      if o.Done? {
        o := RetryFailed(target, newId);
      }
      if !o.Done? {
        services, jobs := savedServices, savedJobs;
      }
    }
  }
}
