/** Feed sync jobs and their runs (control-plane/app/worker/feed_jobs.py,
    control-plane/app/services/feeds.py). Each operation is one transaction. */
module FeedJobs {
  const MAX_ATTEMPTS: nat := 3

  datatype JobStatus = Queued | Applying | Succeeded | Failed

  datatype RunStatus = Waiting | Running | Success | Partial | Broken

  datatype Run = Run(source: nat, status: RunStatus, deletion: bool, dry: bool)

  datatype Job = Job(run: nat, status: JobStatus, attempts: nat)

  /** `sources` maps a feed source to whether it has been deleted. */
  datatype Db = Db(sources: map<nat, bool>, runs: map<nat, Run>, jobs: map<nat, Job>)

  predicate Terminal(s: JobStatus) { s.Succeeded? || s.Failed? }

  predicate InFlight(j: Job) { j.status.Queued? || j.status.Applying? }

  predicate Gone(db: Db, source: nat) { source !in db.sources || db.sources[source] }

  ghost predicate Pending(db: Db, jid: nat, source: nat)
  {
    jid in db.jobs && InFlight(db.jobs[jid]) && db.jobs[jid].run in db.runs && db.runs[db.jobs[jid].run].source == source
  }

  ghost predicate Busy(db: Db, source: nat) { exists jid :: Pending(db, jid, source) }

  // ----- Transactions -----

  /** _enqueue_locked: a source with a run in flight gets no second one. */
  ghost function Enqueue(db: Db, source: nat, rid: nat, jid: nat, deletion: bool, dry: bool): Db
  {
    if Busy(db, source) then db
    else db.(runs := db.runs[rid := Run(source, Waiting, deletion, dry)], jobs := db.jobs[jid := Job(rid, Queued, 0)])
  }

  /** enqueue_sync. */
  ghost function Sync(db: Db, source: nat, rid: nat, jid: nat, dry: bool): Db
  {
    if Gone(db, source) then db else Enqueue(db, source, rid, jid, false, dry)
  }

  /** delete_source: the run in flight, or a new one, is tagged as the deletion and made a real run. */
  ghost function Delete(db: Db, source: nat, rid: nat, jid: nat): Db
  {
    if Gone(db, source) then db
    else
      var marked := Enqueue(db.(sources := db.sources[source := true]), source, rid, jid, true, false);
      marked.(runs := map r | r in marked.runs ::
                        if marked.runs[r].source == source && marked.runs[r].status in {Waiting, Running}
                        then marked.runs[r].(deletion := true, dry := false) else marked.runs[r])
  }

  function Finish(db: Db, jid: nat, js: JobStatus, rs: RunStatus): Db
    requires jid in db.jobs && db.jobs[jid].run in db.runs
  {
    var j := db.jobs[jid];
    db.(jobs := db.jobs[jid := j.(status := js)], runs := db.runs[j.run := db.runs[j.run].(status := rs)])
  }

  /** _finish_noop, for a job whose run or source is gone. */
  function FinishNoop(db: Db, jid: nat): Db
    requires jid in db.jobs
  {
    var j := db.jobs[jid];
    if j.run in db.runs then Finish(db, jid, Succeeded, Success)
    else db.(jobs := db.jobs[jid := j.(status := Succeeded)])
  }

  predicate SourceGone(db: Db, jid: nat)
    requires jid in db.jobs
  {
    db.jobs[jid].run !in db.runs || Gone(db, db.runs[db.jobs[jid].run].source)
  }

  function Claim(db: Db, jid: nat): Db
  {
    if jid !in db.jobs || db.jobs[jid].status != Queued then db
    else if SourceGone(db, jid) then FinishNoop(db, jid)
    else if db.runs[db.jobs[jid].run].status != Waiting then db
    else
      var j := db.jobs[jid];
      db.(jobs := db.jobs[jid := j.(status := Applying, attempts := j.attempts + 1)],
          runs := db.runs[j.run := db.runs[j.run].(status := Running)])
  }

  /** succeed and fail share their guards. */
  function Complete(db: Db, jid: nat, js: JobStatus, rs: RunStatus): Db
  {
    if jid !in db.jobs || db.jobs[jid].status != Applying then db
    else if SourceGone(db, jid) then FinishNoop(db, jid)
    else if db.runs[db.jobs[jid].run].status != Running then db
    else Finish(db, jid, js, rs)
  }

  function Succeed(db: Db, jid: nat, partial: bool): Db { Complete(db, jid, Succeeded, if partial then Partial else Success) }

  function Fail(db: Db, jid: nat): Db { Complete(db, jid, Failed, Broken) }

  /** Startup recovery of a job left applying: fail it, then queue it again unless its attempts are used up. */
  function Recover(db: Db, jid: nat): Db
  {
    if jid !in db.jobs || db.jobs[jid].status != Applying then db
    else
      var failed := Fail(db, jid);
      if jid !in failed.jobs || failed.jobs[jid].status != Failed || failed.jobs[jid].attempts >= MAX_ATTEMPTS
         || SourceGone(failed, jid)
      then failed
      else Finish(failed, jid, Queued, Waiting)
  }

  // ----- Invariant -----

  /** The run status that goes with a job status. */
  predicate Corresponds(j: JobStatus, r: RunStatus)
  {
    match j
    case Queued => r.Waiting?
    case Applying => r.Running?
    case Succeeded => r.Success? || r.Partial?
    case Failed => r.Broken?
  }

  ghost predicate JobOk(db: Db, jid: nat)
    requires jid in db.jobs
  {
    var j := db.jobs[jid];
    && j.run in db.runs && Corresponds(j.status, db.runs[j.run].status)
    && j.attempts <= MAX_ATTEMPTS && (j.status == Queued ==> j.attempts < MAX_ATTEMPTS)
  }

  ghost predicate Inv(db: Db)
  {
    && (forall jid :: jid in db.jobs ==> JobOk(db, jid))
    && (forall r :: r in db.runs ==> exists jid :: jid in db.jobs && db.jobs[jid].run == r)
    && (forall i, k :: i in db.jobs && k in db.jobs && db.jobs[i].run == db.jobs[k].run ==> i == k)
    && OneInFlight(db)
  }

  /** A source has at most one run in flight. */
  ghost predicate OneInFlight(db: Db)
  {
    forall i, k, source :: Pending(db, i, source) && Pending(db, k, source) ==> i == k
  }

  datatype Op =
    | DoAddSource(source: nat)
    | DoSync(source: nat, rid: nat, jid: nat, dry: bool)
    | DoDelete(source: nat, rid: nat, jid: nat)
    | DoClaim(jid: nat)
    | DoSucceed(jid: nat, partial: bool)
    | DoFail(jid: nat)
    | DoRecover(jid: nat)

  ghost predicate Enabled(db: Db, op: Op)
  {
    match op
    case DoAddSource(source) => source !in db.sources
    case DoSync(_, rid, jid, _) => rid !in db.runs && jid !in db.jobs
    case DoDelete(_, rid, jid) => rid !in db.runs && jid !in db.jobs
    case _ => true
  }

  ghost function Do(db: Db, op: Op): Db
  {
    match op
    case DoAddSource(source) => db.(sources := db.sources[source := false])
    case DoSync(source, rid, jid, dry) => Sync(db, source, rid, jid, dry)
    case DoDelete(source, rid, jid) => Delete(db, source, rid, jid)
    case DoClaim(jid) => Claim(db, jid)
    case DoSucceed(jid, partial) => Succeed(db, jid, partial)
    case DoFail(jid) => Fail(db, jid)
    case DoRecover(jid) => Recover(db, jid)
  }

  lemma EnqueueKeepsInv(db: Db, source: nat, rid: nat, jid: nat, deletion: bool, dry: bool)
    requires Inv(db) && rid !in db.runs && jid !in db.jobs
    ensures Inv(Enqueue(db, source, rid, jid, deletion, dry))
  {
    var db' := Enqueue(db, source, rid, jid, deletion, dry);
    if !Busy(db, source) {
      forall i | i in db'.jobs ensures JobOk(db', i) {
        assert i != jid ==> JobOk(db, i);
      }
      forall r | r in db'.runs ensures exists i :: i in db'.jobs && db'.jobs[i].run == r {
        if r == rid {
          assert db'.jobs[jid].run == r;
        } else {
          var i :| i in db.jobs && db.jobs[i].run == r;
          assert db'.jobs[i].run == r;
        }
      }
      forall i, k | i in db'.jobs && k in db'.jobs && db'.jobs[i].run == db'.jobs[k].run ensures i == k {
        assert i != jid ==> JobOk(db, i);
        assert k != jid ==> JobOk(db, k);
      }
      EnqueueOneInFlight(db, source, rid, jid, deletion, dry);
    }
  }

  lemma EnqueueOneInFlight(db: Db, source: nat, rid: nat, jid: nat, deletion: bool, dry: bool)
    requires Inv(db) && rid !in db.runs && jid !in db.jobs && !Busy(db, source)
    ensures OneInFlight(Enqueue(db, source, rid, jid, deletion, dry))
  {
    var db' := Enqueue(db, source, rid, jid, deletion, dry);
    forall i, src | Pending(db', i, src) ensures (i == jid && src == source) || (Pending(db, i, src) && i != jid) {
      assert i != jid ==> JobOk(db, i);
    }
    forall i, k, src | Pending(db', i, src) && Pending(db', k, src) ensures i == k {
      assert !Pending(db, i, source) && !Pending(db, k, source);
    }
  }

  /** A change of one job and its run. */
  lemma UpdateKeepsInv(db: Db, db': Db, jid: nat, j: Job, r: Run)
    requires Inv(db) && jid in db.jobs && j.run == db.jobs[jid].run && j.run in db.runs
    requires db' == Db(db.sources, db.runs[j.run := r], db.jobs[jid := j]) && r.source == db.runs[j.run].source
    requires Corresponds(j.status, r.status) && j.attempts <= MAX_ATTEMPTS && (j.status == Queued ==> j.attempts < MAX_ATTEMPTS)
    requires InFlight(j) ==> InFlight(db.jobs[jid])
    ensures Inv(db')
  {
    hide OneInFlight;
    forall i | i in db'.jobs ensures JobOk(db', i) {
      assert JobOk(db, i);
    }
    forall x | x in db'.runs ensures exists i :: i in db'.jobs && db'.jobs[i].run == x {
      var i :| i in db.jobs && db.jobs[i].run == x;
      assert db'.jobs[i].run == x;
    }
    UpdateOneInFlight(db, db', jid, j, r);
  }

  lemma UpdateOneInFlight(db: Db, db': Db, jid: nat, j: Job, r: Run)
    requires OneInFlight(db) && jid in db.jobs && j.run == db.jobs[jid].run && j.run in db.runs
    requires db' == Db(db.sources, db.runs[j.run := r], db.jobs[jid := j]) && r.source == db.runs[j.run].source
    requires InFlight(j) ==> InFlight(db.jobs[jid])
    ensures OneInFlight(db')
  {
    forall i, src | Pending(db', i, src) ensures Pending(db, i, src) {
    }
  }

  /** Tagging a run as its source's deletion, or marking a source, changes no status. */
  lemma TagKeepsInv(db: Db, db': Db)
    requires Inv(db) && db'.jobs == db.jobs && db'.runs.Keys == db.runs.Keys
    requires forall r :: r in db.runs ==> db'.runs[r].source == db.runs[r].source && db'.runs[r].status == db.runs[r].status
    ensures Inv(db')
  {
    forall i | i in db'.jobs ensures JobOk(db', i) {
      assert JobOk(db, i);
    }
    forall i, src | Pending(db', i, src) ensures Pending(db, i, src) {
    }
    assert OneInFlight(db');
  }

  lemma DeleteKeepsInv(db: Db, source: nat, rid: nat, jid: nat)
    requires Inv(db) && rid !in db.runs && jid !in db.jobs
    ensures Inv(Delete(db, source, rid, jid))
  {
    if !Gone(db, source) {
      var marked := db.(sources := db.sources[source := true]);
      TagKeepsInv(db, marked);
      EnqueueKeepsInv(marked, source, rid, jid, true, false);
      var queued := Enqueue(marked, source, rid, jid, true, false);
      hide Inv;
      hide Enqueue;
      TagKeepsInv(queued, Delete(db, source, rid, jid));
    }
  }

  lemma JobIsOk(db: Db, jid: nat)
    requires Inv(db) && jid in db.jobs
    ensures JobOk(db, jid)
  {
  }

  lemma ClaimKeepsInv(db: Db, jid: nat)
    requires Inv(db)
    ensures Inv(Claim(db, jid))
  {
    hide Inv;
    if jid in db.jobs && db.jobs[jid].status == Queued {
      JobIsOk(db, jid);
      var j := db.jobs[jid];
      var r := db.runs[j.run];
      NoopKeepsInv(db, jid);
      hide FinishNoop;
      UpdateKeepsInv(db, db.(jobs := db.jobs[jid := j.(status := Applying, attempts := j.attempts + 1)],
                             runs := db.runs[j.run := r.(status := Running)]),
                     jid, j.(status := Applying, attempts := j.attempts + 1), r.(status := Running));
    }
  }

  /** Finishing an applying job in any corresponding pair of statuses. */
  lemma FinishKeepsInv(db: Db, jid: nat, js: JobStatus, rs: RunStatus)
    requires Inv(db) && jid in db.jobs && db.jobs[jid].status == Applying && Corresponds(js, rs)
    requires js == Queued ==> db.jobs[jid].attempts < MAX_ATTEMPTS
    ensures db.jobs[jid].run in db.runs && Inv(Finish(db, jid, js, rs))
  {
    assert JobOk(db, jid);
    var j := db.jobs[jid];
    UpdateKeepsInv(db, Finish(db, jid, js, rs), jid, j.(status := js), db.runs[j.run].(status := rs));
  }

  lemma CompleteKeepsInv(db: Db, jid: nat, js: JobStatus, rs: RunStatus)
    requires Inv(db) && Corresponds(js, rs) && Terminal(js)
    ensures Inv(Complete(db, jid, js, rs))
  {
    hide Inv;
    if jid in db.jobs && db.jobs[jid].status == Applying {
      NoopKeepsInv(db, jid);
      FinishKeepsInv(db, jid, js, rs);
      hide Finish;
      hide FinishNoop;
    }
  }

  lemma RecoverKeepsInv(db: Db, jid: nat)
    requires Inv(db)
    ensures Inv(Recover(db, jid))
  {
    hide Inv;
    if jid in db.jobs && db.jobs[jid].status == Applying {
      CompleteKeepsInv(db, jid, Failed, Broken);
      RecoverCases(db, jid);
      if db.jobs[jid].attempts < MAX_ATTEMPTS {
        FinishKeepsInv(db, jid, Queued, Waiting);
      }
      hide Recover;
    }
  }

  /** Recovery either leaves the job failed (or finished), or queues it again. */
  lemma RecoverCases(db: Db, jid: nat)
    requires Inv(db) && jid in db.jobs && db.jobs[jid].status == Applying
    ensures db.jobs[jid].run in db.runs
    ensures Recover(db, jid) == Fail(db, jid)
            || (db.jobs[jid].attempts < MAX_ATTEMPTS && Recover(db, jid) == Finish(db, jid, Queued, Waiting))
  {
    hide Inv;
    JobIsOk(db, jid);
    FinishTwice(db, jid);
  }

  lemma NoopKeepsInv(db: Db, jid: nat)
    requires Inv(db) && jid in db.jobs
    ensures Inv(FinishNoop(db, jid))
  {
    assert JobOk(db, jid);
    var j := db.jobs[jid];
    UpdateKeepsInv(db, FinishNoop(db, jid), jid, j.(status := Succeeded), db.runs[j.run].(status := Success));
  }

  lemma FinishTwice(db: Db, jid: nat)
    requires jid in db.jobs && db.jobs[jid].run in db.runs
    ensures Finish(Finish(db, jid, Failed, Broken), jid, Queued, Waiting) == Finish(db, jid, Queued, Waiting)
  {
  }

  lemma StepKeepsInv(db: Db, op: Op)
    requires Inv(db) && Enabled(db, op)
    ensures Inv(Do(db, op))
  {
    hide Inv;
    match op
    case DoAddSource(source) => TagKeepsInv(db, db.(sources := db.sources[source := false]));
    case DoSync(source, rid, jid, dry) => EnqueueKeepsInv(db, source, rid, jid, false, dry);
    case DoDelete(source, rid, jid) => DeleteKeepsInv(db, source, rid, jid);
    case DoClaim(jid) => ClaimKeepsInv(db, jid);
    case DoSucceed(jid, partial) => CompleteKeepsInv(db, jid, Succeeded, if partial then Partial else Success);
    case DoFail(jid) => CompleteKeepsInv(db, jid, Failed, Broken);
    case DoRecover(jid) => RecoverKeepsInv(db, jid);
  }

  ghost function RunOps(db: Db, ops: seq<Op>): Db
    decreases ops
  {
    if ops == [] then db else RunOps(if Enabled(db, ops[0]) then Do(db, ops[0]) else db, ops[1..])
  }

  /** Main invariant, over every run of transactions. */
  lemma {:induction false} ReachableInv(db: Db, ops: seq<Op>)
    requires Inv(db)
    ensures Inv(RunOps(db, ops))
    decreases ops
  {
    hide Inv;
    hide Do;
    hide Enabled;
    if ops != [] {
      if Enabled(db, ops[0]) {
        StepKeepsInv(db, ops[0]);
        ReachableInv(Do(db, ops[0]), ops[1..]);
      } else {
        ReachableInv(db, ops[1..]);
      }
    }
  }

  // ----- Progress -----

  /** How much work a job can still cause. */
  function Remaining(j: Job): nat
    requires j.attempts <= MAX_ATTEMPTS
  {
    match j.status
    case Queued => 2 * (MAX_ATTEMPTS - j.attempts)
    case Applying => 2 * (MAX_ATTEMPTS - j.attempts) + 1
    case _ => 0
  }

  /** A finished job is left alone; a job that changes has less left. */
  ghost predicate RanDown(db: Db, db': Db, jid: nat)
    requires jid in db.jobs
  {
    && jid in db'.jobs && db'.jobs[jid].run == db.jobs[jid].run
    && (Terminal(db.jobs[jid].status) ==> db'.jobs[jid] == db.jobs[jid])
    && db.jobs[jid].attempts <= MAX_ATTEMPTS && db'.jobs[jid].attempts <= MAX_ATTEMPTS
    && (db'.jobs[jid] != db.jobs[jid] ==> Remaining(db'.jobs[jid]) < Remaining(db.jobs[jid]))
  }

  lemma CompleteRunsDown(db: Db, k: nat, js: JobStatus, rs: RunStatus, jid: nat)
    requires jid in db.jobs && db.jobs[jid].attempts <= MAX_ATTEMPTS && Terminal(js)
    ensures RanDown(db, Complete(db, k, js, rs), jid)
  {
  }

  /** No transaction touches a finished job, and every one that touches a job uses up some of what it has
      left: recovery cannot go on for ever. */
  lemma JobsRunDown(db: Db, op: Op, jid: nat)
    requires Inv(db) && Enabled(db, op) && jid in db.jobs
    ensures RanDown(db, Do(db, op), jid)
  {
    assert JobOk(db, jid);
    match op
    case DoSucceed(k, partial) =>
      CompleteRunsDown(db, k, Succeeded, if partial then Partial else Success, jid);
    case DoFail(k) =>
      CompleteRunsDown(db, k, Failed, Broken, jid);
    case DoRecover(k) =>
      if k in db.jobs && db.jobs[k].status == Applying {
        RecoverCases(db, k);
        CompleteRunsDown(db, k, Failed, Broken, jid);
        hide Recover;
      }
    case DoClaim(k) =>
      ClaimRunsDown(db, k, jid);
    case _ =>
      hide Inv;
  }

  lemma ClaimRunsDown(db: Db, k: nat, jid: nat)
    requires Inv(db) && jid in db.jobs
    ensures RanDown(db, Claim(db, k), jid)
  {
    assert JobOk(db, jid);
    hide Inv;
  }

  /** An orphaned job of a live source is queued again exactly while it has attempts left, and has failed
      otherwise; one of a gone source ends as a success. */
  lemma RecoverDecides(db: Db, jid: nat)
    requires Inv(db) && jid in db.jobs && db.jobs[jid].status == Applying
    ensures var db' := Recover(db, jid);
            && jid in db'.jobs && db'.jobs[jid].run == db.jobs[jid].run && db'.jobs[jid].attempts == db.jobs[jid].attempts
            && db'.jobs[jid].status ==
                 (if SourceGone(db, jid) then Succeeded else if db.jobs[jid].attempts < MAX_ATTEMPTS then Queued else Failed)
  {
    JobIsOk(db, jid);
    hide Inv;
  }

  /** A job whose source is gone ends as a success at the next thing anyone does with it. */
  lemma GoneEnds(db: Db, jid: nat, js: JobStatus, rs: RunStatus)
    requires Inv(db) && jid in db.jobs && InFlight(db.jobs[jid]) && SourceGone(db, jid)
    ensures db.jobs[jid].status == Queued ==> Claim(db, jid) == FinishNoop(db, jid)
    ensures db.jobs[jid].status == Applying ==> Complete(db, jid, js, rs) == FinishNoop(db, jid) == Recover(db, jid)
    ensures var db' := FinishNoop(db, jid);
            db'.jobs[jid].status == Succeeded && db'.jobs[jid].run in db'.runs && db'.runs[db'.jobs[jid].run].status == Success
  {
    JobIsOk(db, jid);
    hide Inv;
  }

  /** A run of a live source in one place of its life: the job and the run agree, and nothing else of the
      source is in flight. */
  ghost predicate Stands(db: Db, source: nat, jid: nat, j: JobStatus)
  {
    && Inv(db) && !Gone(db, source) && jid in db.jobs && db.jobs[jid].status == j
    && db.jobs[jid].run in db.runs && db.runs[db.jobs[jid].run].source == source
  }

  lemma SyncQueues(db: Db, source: nat, rid: nat, jid: nat, dry: bool)
    requires Inv(db) && !Gone(db, source) && !Busy(db, source) && rid !in db.runs && jid !in db.jobs
    ensures var db' := Sync(db, source, rid, jid, dry);
            Stands(db', source, jid, Queued) && db'.jobs[jid] == Job(rid, Queued, 0) && db'.runs[rid].dry == dry
            && !db'.runs[rid].deletion && db'.runs.Keys == db.runs.Keys + {rid} && db'.jobs.Keys == db.jobs.Keys + {jid}
            && db'.sources == db.sources
  {
    EnqueueKeepsInv(db, source, rid, jid, false, dry);
    hide Inv;
    hide Busy;
  }

  lemma ClaimTakes(db: Db, source: nat, jid: nat)
    requires Stands(db, source, jid, Queued)
    ensures var db' := Claim(db, jid);
            Stands(db', source, jid, Applying) && db'.jobs[jid].attempts == db.jobs[jid].attempts + 1
            && db'.jobs[jid].run == db.jobs[jid].run && db'.sources == db.sources
            && db'.runs == db.runs[db.jobs[jid].run := db.runs[db.jobs[jid].run].(status := Running)]
  {
    JobIsOk(db, jid);
    ClaimKeepsInv(db, jid);
    hide Inv;
  }

  lemma CompleteEnds(db: Db, source: nat, jid: nat, js: JobStatus, rs: RunStatus)
    requires Stands(db, source, jid, Applying) && Corresponds(js, rs) && Terminal(js)
    ensures var db' := Complete(db, jid, js, rs);
            Stands(db', source, jid, js) && db'.runs[db'.jobs[jid].run].status == rs && !Busy(db', source)
  {
    JobIsOk(db, jid);
    CompleteKeepsInv(db, jid, js, rs);
    var db' := Complete(db, jid, js, rs);
    forall k ensures !Pending(db', k, source) {
      if Pending(db', k, source) {
        OnlyOne(db, k, jid, source);
        assert false;
      }
    }
    hide Inv;
  }

  lemma OnlyOne(db: Db, i: nat, k: nat, source: nat)
    requires Inv(db) && Pending(db, i, source) && Pending(db, k, source)
    ensures i == k
  {
  }

  /** Progress: from every consistent ledger, a sync asked for a live source with nothing in flight is
      queued, claimed and ends in the status it is given, and the source is free for the next one. */
  lemma SyncCompletes(db: Db, source: nat, rid: nat, jid: nat, dry: bool, js: JobStatus, rs: RunStatus)
    requires Inv(db) && !Gone(db, source) && !Busy(db, source) && rid !in db.runs && jid !in db.jobs
    requires Corresponds(js, rs) && Terminal(js)
    ensures var db' := Complete(Claim(Sync(db, source, rid, jid, dry), jid), jid, js, rs);
            && Stands(db', source, jid, js) && db'.jobs[jid].attempts == 1
            && db'.runs[db'.jobs[jid].run].status == rs && !Busy(db', source)
  {
    hide Inv;
    hide Busy;
    SyncQueues(db, source, rid, jid, dry);
    var queued := Sync(db, source, rid, jid, dry);
    ClaimTakes(queued, source, jid);
    CompleteEnds(Claim(queued, jid), source, jid, js, rs);
    hide Sync;
    hide Claim;
  }

  // ----- The functions as written -----

  class FeedLedger {
    var sources: map<nat, bool>
    var runs: map<nat, Run>
    var jobs: map<nat, Job>

    ghost function View(): Db
      reads this
    {
      Db(sources, runs, jobs)
    }

    constructor ()
      ensures View() == Db(map[], map[], map[]) && Inv(View())
    {
      sources, runs, jobs := map[], map[], map[];
    }

    /** _inflight_run: is a run of the source queued or applying? */
    method FindInFlight(source: nat) returns (busy: bool)
      ensures busy <==> Busy(View(), source)
    {
      var left := jobs.Keys;
      while left != {}
        invariant left <= jobs.Keys
        invariant forall j :: j in jobs && j !in left ==> !Pending(View(), j, source)
        decreases left
      {
        var j :| j in left;
        if InFlight(jobs[j]) && jobs[j].run in runs && runs[jobs[j].run].source == source {
          assert Pending(View(), j, source);
          return true;
        }
        left := left - {j};
      }
      busy := false;
    }

    method EnqueueLocked(source: nat, rid: nat, jid: nat, deletion: bool, dry: bool)
      requires Inv(View()) && rid !in runs && jid !in jobs
      modifies this
      ensures View() == Enqueue(old(View()), source, rid, jid, deletion, dry) && Inv(View())
    {
      EnqueueKeepsInv(View(), source, rid, jid, deletion, dry);
      hide Inv;
      var busy := FindInFlight(source);
      if busy { return; }
      runs := runs[rid := Run(source, Waiting, deletion, dry)];
      jobs := jobs[jid := Job(rid, Queued, 0)];
    }

    method ClaimJob(jid: nat) returns (proceed: bool)
      requires Inv(View())
      modifies this
      ensures View() == Claim(old(View()), jid) && Inv(View())
      ensures proceed <==> View() != old(View()) && jid in jobs && jobs[jid].status == Applying
    {
      ClaimKeepsInv(View(), jid);
      hide Inv;
      if jid !in jobs || Terminal(jobs[jid].status) || jobs[jid].status != Queued { return false; }
      var job := jobs[jid];
      if job.run !in runs || Gone(Db(sources, runs, jobs), runs[job.run].source) {
        FinishAsNoop(jid);
        return false;
      }
      if runs[job.run].status != Waiting { return false; }
      jobs := jobs[jid := job.(status := Applying, attempts := job.attempts + 1)];
      runs := runs[job.run := runs[job.run].(status := Running)];
      proceed := true;
    }

    /** _finish_noop keeps the invariant: the job and its run end together, as succeeded. */
    method FinishAsNoop(jid: nat)
      requires Inv(View()) && jid in jobs
      modifies this
      ensures View() == FinishNoop(old(View()), jid) && Inv(View())
      ensures jid in jobs && jobs[jid].status == Succeeded && jobs[jid].run in runs && runs[jobs[jid].run].status == Success
    {
      NoopKeepsInv(View(), jid);
      JobIsOk(View(), jid);
      hide Inv;
      var job := jobs[jid];
      jobs := jobs[jid := job.(status := Succeeded)];
      if job.run in runs {
        runs := runs[job.run := runs[job.run].(status := Success)];
      }
    }

    /** succeed (with success or partial) and fail. */
    method CompleteJob(jid: nat, js: JobStatus, rs: RunStatus)
      requires Inv(View()) && Corresponds(js, rs) && Terminal(js)
      modifies this
      ensures View() == Complete(old(View()), jid, js, rs) && Inv(View())
    {
      CompleteKeepsInv(View(), jid, js, rs);
      hide Inv;
      if jid !in jobs || Terminal(jobs[jid].status) || jobs[jid].status != Applying { return; }
      var job := jobs[jid];
      if job.run !in runs || Gone(Db(sources, runs, jobs), runs[job.run].source) {
        FinishAsNoop(jid);
        return;
      }
      if runs[job.run].status != Running { return; }
      jobs := jobs[jid := job.(status := js)];
      runs := runs[job.run := runs[job.run].(status := rs)];
    }

    method RecoverJob(jid: nat)
      requires Inv(View())
      modifies this
      ensures View() == Recover(old(View()), jid) && Inv(View())
    {
      RecoverKeepsInv(View(), jid);
      hide Inv;
      if jid !in jobs || jobs[jid].status != Applying { return; }
      hide Complete;
      hide Finish;
      CompleteJob(jid, Failed, Broken);
      if jid !in jobs || jobs[jid].status != Failed || jobs[jid].attempts >= MAX_ATTEMPTS { return; }
      var job := jobs[jid];
      if job.run !in runs || Gone(Db(sources, runs, jobs), runs[job.run].source) { return; }
      Requeue(jid);
    }

    method Requeue(jid: nat)
      requires jid in jobs && jobs[jid].run in runs
      modifies this
      ensures View() == Finish(old(View()), jid, Queued, Waiting)
    {
      var job := jobs[jid];
      jobs := jobs[jid := job.(status := Queued)];
      runs := runs[job.run := runs[job.run].(status := Waiting)];
    }
  }
}
