/** Packets and map writers interleaved on one CPU of one node, from the loader on. */
module Uptime {
  import opened Bpf
  import opened ApplyPlan
  import opened ApplyRuns
  import opened PortRuns
  import opened Pipeline
  import opened Meaning
  import opened Cpu
  import opened Isolation
  import opened Delivery

  /** Either a step of the map writers or a packet, with the next hops known when it is forwarded. */
  datatype Moment = Writer(e: Event) | Arrives(x: Input, hops: set<nat>)

  ghost predicate PacketsOk(hs: seq<Moment>) { forall i :: 0 <= i < |hs| && hs[i].Arrives? ==> PacketOk(hs[i].x.p) }

  ghost function EnvAt(m: ApplyRuns.Node, hops: set<nat>, ncpus: nat): Env
    requires Ok(m.k)
  {
    Env(View(m.k, m.k.active), hops, ncpus)
  }

  /** The steps of the writers alone. */
  function Writers(hs: seq<Moment>): seq<Event>
  {
    if hs == [] then [] else (if hs[0].Writer? then [hs[0].e] else []) + Writers(hs[1..])
  }

  /** What becomes of the packets, in order. */
  ghost function Outcomes(m: ApplyRuns.Node, c: State, hs: seq<Moment>, ncpus: nat): seq<Outcome>
    requires Inv(m) && ncpus > 0 && PacketsOk(hs)
    decreases hs
  {
    if hs == [] then []
    else match hs[0]
      case Writer(e) => StepKeepsInv(m, e); Outcomes(Do(m, e), c, hs[1..], ncpus)
      case Arrives(x, hops) =>
        var env := EnvAt(m, hops, ncpus);
        [PathOf(c, env, x).out] + Outcomes(m, Step(c, env, x), hs[1..], ncpus)
  }

  /** The services of every committed snapshot have their ids in `ids`. */
  ghost predicate IdsWithin(done: seq<Request>, ids: set<nat>)
  {
    forall r :: r in done && r.ServiceApply? ==> forall s :: s in r.ss ==> s.dpId in ids
  }

  lemma {:induction false} InForceWithin(done: seq<Request>, n: Knobs, ids: set<nat>)
    requires IdsWithin(done, ids)
    ensures forall s :: s in ServicesInForce(done, n).0 ==> s.dpId in ids
    decreases |done|
  {
    if done != [] {
      assert done[|done| - 1] in done;
      if !done[|done| - 1].ServiceApply? {
        InForceWithin(done[..|done| - 1], n, ids);
      }
    }
  }

  /** The service a packet meets is one of `ids`. */
  lemma MetWithin(m: ApplyRuns.Node, es: seq<Event>, x: Input, hops: set<nat>, ncpus: nat, ids: set<nat>)
    requires Loaded(m) && PacketOk(x.p) && ncpus > 0
    requires IdsWithin(ApplyRuns.Committed(m, es), ids)
    ensures Inv(Run(m, es)) && ItemOk(Item(EnvAt(Run(m, es), hops, ncpus), x), ids)
  {
    hide ApplyRuns.Committed;
    hide Loaded;
    hide ShowsServices;
    hide ShowsDeny;
    hide ServiceAt;
    LoadedIsInv(m);
    hide Run;
    var n := SomeKnobs();
    LiveShowsLast(m, es, n);
    var done := ApplyRuns.Committed(m, es);
    var (ss, n') := ServicesInForce(done, n);
    InForceWithin(done, n, ids);
    var v := EnvAt(Run(m, es), hops, ncpus).v;
    if ServiceAt(v, x.p.dst).Some? {
      var s := FoundIsListed(v, ss, n', x.p.dst);
    }
  }

  lemma RoomMeansNeverFull(c: State, e: Env, id: nat, x: Input, ids: set<nat>)
    requires EnvOk(e) && Within(c, ids) && id in ids
    ensures NeverFull(Answers(c, e, id, x))
  {
    hide Within;
    hide AdmitAt;
    forall s: Stage ensures Answers(c, e, id, x)(s) != Full {
      NeverNoRoom(c, ids, s, id);
    }
  }

  /** One packet, in any state reached from the loader. */
  lemma PacketMeetsNoMapError(m: ApplyRuns.Node, es: seq<Event>, c: State, x: Input, hops: set<nat>, ncpus: nat, ids: set<nat>)
    requires Loaded(m) && PacketOk(x.p) && ncpus > 0 && Within(c, ids)
    requires IdsWithin(ApplyRuns.Committed(m, es), ids)
    ensures var e := EnvAt(Run(m, es), hops, ncpus);
            PathOf(c, e, x).out != Drop(MapError) && Within(Step(c, e, x), ids)
  {
    hide ApplyRuns.Committed;
    hide Loaded;
    hide Within;
    hide ServiceAt;
    hide Decide;
    hide NeverFull;
    hide Answers;
    hide ChargeAll;
    LoadedIsInv(m);
    hide Run;
    MetWithin(m, es, x, hops, ncpus, ids);
    var e := EnvAt(Run(m, es), hops, ncpus);
    var id := IdOf(e.v, x.p.dst);
    if ServiceAt(e.v, x.p.dst).Some? {
      RoomMeansNeverFull(c, e, id, x, ids);
    }
    NoMapErrorFromLoader(m, es, x.p, Answers(c, e, id, x), hops);
    StepKeepsWithin(c, Item(e, x), ids);
  }

  lemma EarlierWithin(m: ApplyRuns.Node, es: seq<Event>, fs: seq<Event>, ids: set<nat>)
    requires Inv(m) && IdsWithin(ApplyRuns.Committed(m, es + fs), ids)
    ensures IdsWithin(ApplyRuns.Committed(m, es), ids)
  {
    hide Inv;
    hide ApplyRuns.Committed;
    hide Run;
    RunAppend(m, es, fs);
  }

  lemma {:induction false} OutcomesFrom(m: ApplyRuns.Node, es: seq<Event>, c: State, hs: seq<Moment>, ncpus: nat, ids: set<nat>)
    requires Loaded(m) && ncpus > 0 && PacketsOk(hs) && Within(c, ids)
    requires Inv(m) && IdsWithin(ApplyRuns.Committed(m, es + Writers(hs)), ids)
    ensures Drop(MapError) !in Outcomes(Run(m, es), c, hs, ncpus)
    decreases hs
  {
    hide Loaded;
    hide Within;
    hide Do;
    hide PathOf;
    hide Step;
    hide Run;
    hide ApplyRuns.Committed;
    hide IdsWithin;
    hide OnCourse;
    hide TodoOk;
    hide Separate;
    if hs != [] {
      assert PacketsOk(hs[1..]);
      if hs[0].Writer? {
        RunSnoc(m, es, hs[0].e);
        assert es + Writers(hs) == (es + [hs[0].e]) + Writers(hs[1..]);
        OutcomesFrom(m, es + [hs[0].e], c, hs[1..], ncpus, ids);
      } else {
        EarlierWithin(m, es, Writers(hs), ids);
        PacketMeetsNoMapError(m, es, c, hs[0].x, hs[0].hops, ncpus, ids);
        assert Writers(hs) == Writers(hs[1..]);
        OutcomesFrom(m, es, Step(c, EnvAt(Run(m, es), hs[0].hops, ncpus), hs[0].x), hs[1..], ncpus, ids);
      }
    }
  }

  /** Over every interleaving of applies, crashes, dpstat and packets on a freshly loaded node: as long
      as the ids of all the services ever committed fit a state map, no packet meets a map error. */
  lemma NoMapErrorEver(m: ApplyRuns.Node, c: State, hs: seq<Moment>, ncpus: nat, ids: set<nat>)
    requires Loaded(m) && ncpus > 0 && PacketsOk(hs)
    requires |ids| <= STATE_MAX && (forall s: Stage :: RowsAt(c, s) == map[])
    requires IdsWithin(ApplyRuns.Committed(m, Writers(hs)), ids)
    ensures Drop(MapError) !in Outcomes(m, c, hs, ncpus)
  {
    LoadedIsInv(m);
    assert [] + Writers(hs) == Writers(hs);
    OutcomesFrom(m, [], c, hs, ncpus, ids);
  }
}
