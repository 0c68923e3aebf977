/** The alert lifecycle (control-plane/app/worker/alert_evaluator.py): pending, firing and resolved rows
    driven by one observation per rule and scope and tick. */
module Alerts {
  import opened Wrappers
  import opened Arith

  /** What a tick says about one rule and scope: it fires, it is inside the hysteresis band, or it is
      clear of it. */
  datatype Kind = Fires | Band | Clears

  /** One observation with the thresholds of its effective rule, if there is one. */
  datatype Obs = Obs(key: nat, firing: bool, metric: real, rule: Option<Thresholds>)

  datatype Thresholds = Thresholds(fire: real, clear: real)

  /** `Quiet` is "no unresolved alert"; a resolved row is a quiet one kept as history. */
  datatype Phase = Quiet | Pending(streak: nat) | Firing(clear: nat)

  datatype Row = Row(key: nat, phase: Phase)

  datatype Ticks = Ticks(fire: nat, clear: nat)

  /** _in_hysteresis_band. */
  predicate InBand(o: Obs)
  {
    o.rule.Some? && o.rule.value.fire != o.rule.value.clear && o.metric >= o.rule.value.clear
  }

  function KindOf(o: Obs): Kind { if o.firing then Fires else if InBand(o) then Band else Clears }

  /** One tick for one rule and scope; None is "not observed". */
  function Next(p: Phase, o: Option<Kind>, t: Ticks): Phase
  {
    match p
    case Quiet => if o == Some(Fires) then if t.fire <= 1 then Firing(0) else Pending(1) else Quiet
    case Pending(n) =>
      if o.None? then Quiet
      else if o.value != Fires then Pending(0)
      else if n + 1 >= t.fire then Firing(0) else Pending(n + 1)
    case Firing(n) =>
      if o.None? then Quiet
      else if o.value != Clears then Firing(0)
      else if n + 1 >= t.clear then Quiet else Firing(n + 1)
  }

  // ----- One rule and scope: state as a function of the trace -----

  function After(trace: seq<Option<Kind>>, t: Ticks): Phase
  {
    if trace == [] then Quiet else Next(After(trace[..|trace| - 1], t), trace[|trace| - 1], t)
  }

  /** The length of the trailing run of one observation. */
  function Trail(trace: seq<Option<Kind>>, k: Kind): nat
  {
    if trace == [] || trace[|trace| - 1] != Some(k) then 0 else Trail(trace[..|trace| - 1], k) + 1
  }

  function FireAt(t: Ticks): nat { Max(1, t.fire) }

  function ClearAt(t: Ticks): nat { Max(1, t.clear) }

  /** The streaks are exactly the trailing runs, and each stays below the length that ends its phase. */
  lemma {:induction false} StreaksAreTrails(trace: seq<Option<Kind>>, t: Ticks)
    ensures var p := After(trace, t);
            && (p.Quiet? ==> Trail(trace, Fires) == 0)
            && (p.Pending? ==> p.streak == Trail(trace, Fires) < FireAt(t))
            && (p.Firing? ==> p.clear == Trail(trace, Clears) < ClearAt(t))
  {
    if trace != [] {
      StreaksAreTrails(trace[..|trace| - 1], t);
    }
  }

  /** An alert starts firing exactly when the trailing run of firing ticks reaches the threshold. */
  lemma FiresExactly(trace: seq<Option<Kind>>, o: Option<Kind>, t: Ticks)
    requires !After(trace, t).Firing?
    ensures (trace + [o])[..|trace|] == trace
    ensures After(trace + [o], t).Firing? <==> Trail(trace + [o], Fires) >= FireAt(t)
    ensures After(trace + [o], t).Firing? ==> Trail(trace + [o], Fires) == FireAt(t)
  {
    assert (trace + [o])[..|trace|] == trace;
    StreaksAreTrails(trace, t);
  }

  /** A firing alert resolves exactly after enough clear ticks in a row, or when it is not observed. */
  lemma ResolvesExactly(trace: seq<Option<Kind>>, o: Option<Kind>, t: Ticks)
    requires After(trace, t).Firing?
    ensures (trace + [o])[..|trace|] == trace
    ensures After(trace + [o], t).Quiet? <==> o.None? || Trail(trace + [o], Clears) >= ClearAt(t)
    ensures !After(trace + [o], t).Quiet? ==> After(trace + [o], t).Firing?
  {
    assert (trace + [o])[..|trace|] == trace;
    StreaksAreTrails(trace, t);
  }

  /** Tick `j` does not resolve a firing alert. */
  ghost predicate Holds(trace: seq<Option<Kind>>, j: nat, t: Ticks)
    requires j < |trace|
  {
    trace[j].Some? && Trail(trace[..j + 1], Clears) < ClearAt(t)
  }

  /** Tick `i` completed a run of firing ticks and nothing has resolved the alert since. */
  ghost predicate FiredAt(trace: seq<Option<Kind>>, i: nat, t: Ticks)
  {
    i < |trace| && Trail(trace[..i + 1], Fires) >= FireAt(t) && HoldsAfter(trace, i, t)
  }

  ghost predicate HoldsAfter(trace: seq<Option<Kind>>, i: nat, t: Ticks)
  {
    forall j :: i < j < |trace| ==> Holds(trace, j, t)
  }

  /** Declarative reading of "firing". */
  ghost predicate ShouldFire(trace: seq<Option<Kind>>, t: Ticks)
  {
    exists i: nat :: FiredAt(trace, i, t)
  }

  /** Tick `j` neither loses a pending alert nor makes it fire. */
  ghost predicate Waits(trace: seq<Option<Kind>>, j: nat, t: Ticks)
    requires j < |trace|
  {
    trace[j].Some? && !ShouldFire(trace[..j + 1], t)
  }

  /** It fired at tick `i`, has been observed ever since, and was at no point since then due to be firing. */
  ghost predicate PendsSince(trace: seq<Option<Kind>>, i: nat, t: Ticks)
  {
    && i < |trace| && trace[i] == Some(Fires)
    && forall j :: i <= j < |trace| ==> Waits(trace, j, t)
  }

  /** Declarative reading of "pending". */
  ghost predicate ShouldPend(trace: seq<Option<Kind>>, t: Ticks)
  {
    exists i: nat :: PendsSince(trace, i, t)
  }

  lemma SamePrefix(rest: seq<Option<Kind>>, o: Option<Kind>, j: nat, t: Ticks)
    requires j < |rest|
    ensures (rest + [o])[..j + 1] == rest[..j + 1]
    ensures Holds(rest + [o], j, t) <==> Holds(rest, j, t)
    ensures Waits(rest + [o], j, t) <==> Waits(rest, j, t)
  {
    assert (rest + [o])[..j + 1] == rest[..j + 1];
  }

  lemma HoldsAfterStep(rest: seq<Option<Kind>>, o: Option<Kind>, i: nat, t: Ticks)
    requires i < |rest|
    ensures HoldsAfter(rest + [o], i, t) <==> HoldsAfter(rest, i, t) && Holds(rest + [o], |rest|, t)
  {
    hide Holds;
    var trace := rest + [o];
    forall j: nat | j < |rest| ensures Holds(trace, j, t) <==> Holds(rest, j, t) {
      SamePrefix(rest, o, j, t);
    }
  }

  lemma FiredAtStep(rest: seq<Option<Kind>>, o: Option<Kind>, i: nat, t: Ticks)
    requires i < |rest|
    ensures FiredAt(rest + [o], i, t) <==> FiredAt(rest, i, t) && o.Some? && Trail(rest + [o], Clears) < ClearAt(t)
  {
    hide Trail;
    hide HoldsAfter;
    assert (rest + [o])[..|rest| + 1] == rest + [o];
    SamePrefix(rest, o, i, t);
    HoldsAfterStep(rest, o, i, t);
  }

  /** A tick that is neither absent nor the end of a clear run passes the firing phase on. */
  lemma FireStep(rest: seq<Option<Kind>>, o: Option<Kind>, t: Ticks)
    ensures var trace := rest + [o];
            ShouldFire(trace, t) <==>
              || Trail(trace, Fires) >= FireAt(t)
              || (ShouldFire(rest, t) && o.Some? && Trail(trace, Clears) < ClearAt(t))
  {
    var trace := rest + [o];
    assert trace[..|rest| + 1] == trace;
    assert FiredAt(trace, |rest|, t) <==> Trail(trace, Fires) >= FireAt(t);
    forall i: nat | i < |rest|
      ensures FiredAt(trace, i, t) <==> FiredAt(rest, i, t) && o.Some? && Trail(trace, Clears) < ClearAt(t)
    {
      FiredAtStep(rest, o, i, t);
    }
    assert forall i: nat :: FiredAt(rest, i, t) ==> i < |rest|;
    assert forall i: nat :: FiredAt(trace, i, t) ==> i < |rest| || i == |rest|;
    hide FiredAt;
    hide Trail;
  }

  /** Main theorem, first half: an alert is firing after a trace exactly when the trace says it should. */
  lemma {:induction false} FiringIsDeclared(trace: seq<Option<Kind>>, t: Ticks)
    ensures After(trace, t).Firing? <==> ShouldFire(trace, t)
  {
    hide ShouldFire;
    if trace == [] {
      NothingFires(t);
    } else {
      var rest, o := trace[..|trace| - 1], trace[|trace| - 1];
      assert trace == rest + [o];
      FiringIsDeclared(rest, t);
      FireStep(rest, o, t);
      StreaksAreTrails(rest, t);
      if After(rest, t).Firing? {
        ResolvesExactly(rest, o, t);
      } else {
        FiresExactly(rest, o, t);
      }
    }
  }

  lemma NothingFires(t: Ticks)
    ensures !ShouldFire([], t)
  {
  }

  lemma PendsSinceStep(rest: seq<Option<Kind>>, o: Option<Kind>, i: nat, t: Ticks)
    requires i < |rest|
    ensures PendsSince(rest + [o], i, t) <==> PendsSince(rest, i, t) && o.Some? && !ShouldFire(rest + [o], t)
  {
    hide ShouldFire;
    var trace := rest + [o];
    assert trace[..|rest| + 1] == trace;
    assert Waits(trace, |rest|, t) <==> o.Some? && !ShouldFire(trace, t);
    hide Waits;
    forall j: nat | j < |rest| ensures Waits(trace, j, t) <==> Waits(rest, j, t) {
      SamePrefix(rest, o, j, t);
    }
  }

  lemma PendStep(rest: seq<Option<Kind>>, o: Option<Kind>, t: Ticks)
    ensures var trace := rest + [o];
            ShouldPend(trace, t) <==> !ShouldFire(trace, t) && o.Some? && (o == Some(Fires) || ShouldPend(rest, t))
  {
    hide ShouldFire;
    var trace := rest + [o];
    assert trace[..|rest| + 1] == trace;
    assert Waits(trace, |rest|, t) <==> o.Some? && !ShouldFire(trace, t);
    assert PendsSince(trace, |rest|, t) <==> o == Some(Fires) && !ShouldFire(trace, t);
    forall i: nat | i < |rest|
      ensures PendsSince(trace, i, t) <==> PendsSince(rest, i, t) && o.Some? && !ShouldFire(trace, t)
    {
      PendsSinceStep(rest, o, i, t);
    }
    assert forall i: nat :: PendsSince(rest, i, t) ==> i < |rest|;
    assert forall i: nat :: PendsSince(trace, i, t) ==> i < |rest| || i == |rest|;
    hide PendsSince;
  }

  /** Main theorem, second half: and pending exactly when the trace says that. */
  lemma {:induction false} PendingIsDeclared(trace: seq<Option<Kind>>, t: Ticks)
    ensures After(trace, t).Pending? <==> ShouldPend(trace, t)
  {
    hide ShouldFire;
    hide ShouldPend;
    FiringIsDeclared(trace, t);
    if trace == [] {
      NothingPends(t);
    } else {
      var rest, o := trace[..|trace| - 1], trace[|trace| - 1];
      assert trace == rest + [o];
      PendingIsDeclared(rest, t);
      PendStep(rest, o, t);
      NextPends(After(rest, t), o, t);
      hide Next;
    }
  }

  lemma NextPends(p: Phase, o: Option<Kind>, t: Ticks)
    ensures Next(p, o, t).Pending? <==> !Next(p, o, t).Firing? && o.Some? && (o == Some(Fires) || p.Pending?)
  {
  }

  lemma NothingPends(t: Ticks)
    ensures !ShouldPend([], t)
  {
  }

  // ----- Rows -----

  /** The unresolved alert of a rule and scope, if there is one. */
  function StateOf(rows: seq<Row>, key: nat): Phase
  {
    if rows == [] then Quiet
    else if rows[|rows| - 1].key == key && rows[|rows| - 1].phase != Quiet then rows[|rows| - 1].phase
    else StateOf(rows[..|rows| - 1], key)
  }

  /** At most one unresolved alert per rule and scope. */
  ghost predicate OneActive(rows: seq<Row>)
  {
    forall i, j :: 0 <= i < j < |rows| && rows[i].phase != Quiet && rows[j].phase != Quiet ==> rows[i].key != rows[j].key
  }

  function ObsOf(obs: seq<Obs>, key: nat): Option<Kind>
  {
    if obs == [] then None else if obs[0].key == key then Some(KindOf(obs[0])) else ObsOf(obs[1..], key)
  }

  ghost predicate DistinctKeys(obs: seq<Obs>)
  {
    forall i, j :: 0 <= i < j < |obs| ==> obs[i].key != obs[j].key
  }

  lemma {:induction false} StateAt(rows: seq<Row>, i: nat)
    requires OneActive(rows) && i < |rows| && rows[i].phase != Quiet
    ensures StateOf(rows, rows[i].key) == rows[i].phase
  {
    if i < |rows| - 1 {
      StateAt(rows[..|rows| - 1], i);
    }
  }

  lemma {:induction false} NoState(rows: seq<Row>, key: nat)
    requires forall i :: 0 <= i < |rows| ==> rows[i].key != key || rows[i].phase == Quiet
    ensures StateOf(rows, key) == Quiet
  {
    if rows != [] {
      NoState(rows[..|rows| - 1], key);
    }
  }

  lemma {:induction false} StateFrame(rows: seq<Row>, rows': seq<Row>, key: nat)
    requires |rows'| == |rows|
    requires forall i :: 0 <= i < |rows| && (rows[i].key == key || rows'[i].key == key) ==> rows[i] == rows'[i]
    ensures StateOf(rows, key) == StateOf(rows', key)
  {
    if rows != [] {
      StateFrame(rows[..|rows| - 1], rows'[..|rows| - 1], key);
    }
  }

  lemma {:induction false} ObsAt(obs: seq<Obs>, i: nat)
    requires DistinctKeys(obs) && i < |obs|
    ensures ObsOf(obs, obs[i].key) == Some(KindOf(obs[i]))
  {
    if i > 0 {
      assert obs[1..][i - 1] == obs[i];
      ObsAt(obs[1..], i - 1);
    }
  }

  lemma {:induction false} NoObs(obs: seq<Obs>, key: nat)
    requires forall i :: 0 <= i < |obs| ==> obs[i].key != key
    ensures ObsOf(obs, key) == None
  {
    if obs != [] {
      NoObs(obs[1..], key);
    }
  }

  /** Replacing the phase of one unresolved row changes that rule and scope only. */
  lemma UpdateRow(rows: seq<Row>, i: nat, p: Phase)
    requires OneActive(rows) && i < |rows| && rows[i].phase != Quiet
    ensures var rows' := rows[i := Row(rows[i].key, p)];
            && OneActive(rows') && StateOf(rows', rows[i].key) == p
            && forall key :: key != rows[i].key ==> StateOf(rows', key) == StateOf(rows, key)
  {
    var rows' := rows[i := Row(rows[i].key, p)];
    if p == Quiet {
      forall j | 0 <= j < |rows'| ensures rows'[j].key != rows[i].key || rows'[j].phase == Quiet {
        if j < i { assert rows[j] == rows'[j]; } else if j > i { assert rows[j] == rows'[j]; }
      }
      NoState(rows', rows[i].key);
    } else {
      StateAt(rows', i);
    }
    forall key | key != rows[i].key ensures StateOf(rows', key) == StateOf(rows, key) {
      StateFrame(rows, rows', key);
    }
  }

  lemma AppendRow(rows: seq<Row>, key: nat, p: Phase)
    requires OneActive(rows) && p != Quiet && forall i :: 0 <= i < |rows| ==> rows[i].key != key || rows[i].phase == Quiet
    ensures var rows' := rows + [Row(key, p)];
            && OneActive(rows') && StateOf(rows', key) == p
            && forall other :: other != key ==> StateOf(rows', other) == StateOf(rows, other)
  {
    assert (rows + [Row(key, p)])[..|rows|] == rows;
  }

  class Evaluator {
    const ticks: Ticks
    var rows: seq<Row>

    constructor (t: Ticks)
      ensures ticks == t && rows == []
    {
      ticks, rows := t, [];
    }

    /** The index of the unresolved row of a rule and scope, or the number of rows. */
    method Find(key: nat) returns (i: nat)
      ensures i <= |rows|
      ensures i < |rows| ==> rows[i].key == key && rows[i].phase != Quiet
      ensures i == |rows| ==> forall j :: 0 <= j < |rows| ==> rows[j].key != key || rows[j].phase == Quiet
    {
      i := 0;
      while i < |rows| && (rows[i].key != key || rows[i].phase == Quiet)
        invariant i <= |rows|
        invariant forall j :: 0 <= j < i ==> rows[j].key != key || rows[j].phase == Quiet
      {
        i := i + 1;
      }
    }

    /** _open_pending. */
    method OpenPending(key: nat)
      requires OneActive(rows) && forall j :: 0 <= j < |rows| ==> rows[j].key != key || rows[j].phase == Quiet
      modifies this
      ensures OneActive(rows) && StateOf(rows, key) == Next(Quiet, Some(Fires), ticks)
      ensures forall other :: other != key ==> StateOf(rows, other) == StateOf(old(rows), other)
      ensures |rows| == |old(rows)| + 1 && rows[..|old(rows)|] == old(rows)
    {
      var phase := if ticks.fire <= 1 then Firing(0) else Pending(1);
      AppendRow(rows, key, phase);
      rows := rows + [Row(key, phase)];
    }

    /** _reconcile_observation on one unresolved row. */
    method Observe(i: nat, o: Obs)
      requires OneActive(rows) && i < |rows| && rows[i].phase != Quiet
      modifies this
      ensures OneActive(rows) && |rows| == |old(rows)|
      ensures rows == old(rows)[i := Row(old(rows)[i].key, Next(old(rows)[i].phase, Some(KindOf(o)), ticks))]
    {
      var phase := rows[i].phase;
      if o.firing {
        if phase.Pending? {
          phase := if phase.streak + 1 >= ticks.fire then Firing(0) else Pending(phase.streak + 1);
        } else {
          phase := Firing(0);
        }
      } else if phase.Pending? {
        phase := Pending(0);
      } else if InBand(o) {
        phase := Firing(0);
      } else if phase.clear + 1 >= ticks.clear {
        phase := Quiet;
      } else {
        phase := Firing(phase.clear + 1);
      }
      UpdateRow(rows, i, phase);
      rows := rows[i := Row(rows[i].key, phase)];
    }

    /** reconcile: every rule and scope takes exactly one step of its own lifecycle. */
    method Reconcile(obs: seq<Obs>)
      requires OneActive(rows) && DistinctKeys(obs)
      modifies this
      ensures OneActive(rows)
      ensures forall key :: StateOf(rows, key) == Next(StateOf(old(rows), key), ObsOf(obs, key), ticks)
    {
      hide Next;
      hide StateOf;
      ghost var before := rows;
      for k := 0 to |obs|
        invariant OneActive(rows)
        invariant forall key :: StateOf(rows, key) ==
                    if SeenIn(obs, k, key) then Next(StateOf(before, key), ObsOf(obs, key), ticks) else StateOf(before, key)
      {
        var o := obs[k];
        ghost var at := rows;
        ObsAt(obs, k);
        SeenStep(obs, k);
        var i := Find(o.key);
        if i == |rows| {
          NoState(rows, o.key);
          QuietStep(ticks, KindOf(o));
          if o.firing { OpenPending(o.key); }
        } else {
          StateAt(rows, i);
          UpdateRow(rows, i, Next(rows[i].phase, Some(KindOf(o)), ticks));
          Observe(i, o);
        }
      }
      ResolveUnobserved(obs);
      forall key ensures StateOf(rows, key) == Next(StateOf(before, key), ObsOf(obs, key), ticks) {
        LostStep(StateOf(before, key), ticks);
        if !SeenIn(obs, |obs|, key) { NoObs(obs, key); }
      }
    }

    /** Tick after tick: each rule and scope is in the state its own trace says, and at most one unresolved
        row exists for it. */
    method RunLoop(all: seq<seq<Obs>>)
      requires rows == [] && forall i :: 0 <= i < |all| ==> DistinctKeys(all[i])
      modifies this
      ensures OneActive(rows)
      ensures forall key :: StateOf(rows, key) == After(TraceOf(all, key), ticks)
    {
      for i := 0 to |all|
        invariant OneActive(rows)
        invariant forall key :: StateOf(rows, key) == After(TraceOf(all[..i], key), ticks)
      {
        ghost var before := rows;
        Reconcile(all[i]);
        forall key ensures StateOf(rows, key) == After(TraceOf(all[..i + 1], key), ticks) {
          TraceStep(all, i, key);
          assert StateOf(before, key) == After(TraceOf(all[..i], key), ticks);
        }
      }
      assert all[..|all|] == all;
    }

    /** The last loop of reconcile: alerts that were not observed are resolved. */
    method ResolveUnobserved(obs: seq<Obs>)
      requires OneActive(rows)
      modifies this
      ensures OneActive(rows) && |rows| == |old(rows)|
      ensures forall key :: StateOf(rows, key) == if SeenIn(obs, |obs|, key) then StateOf(old(rows), key) else Quiet
    {
      hide StateOf;
      ghost var before := rows;
      for i := 0 to |rows|
        invariant |rows| == |before| && OneActive(rows)
        invariant forall j :: i <= j < |rows| ==> rows[j] == before[j]
        invariant forall j :: 0 <= j < i ==> rows[j].phase == Quiet || SeenIn(obs, |obs|, rows[j].key)
        invariant forall key :: SeenIn(obs, |obs|, key) ==> StateOf(rows, key) == StateOf(before, key)
      {
        var seen := Observed(obs, rows[i].key);
        if !seen && rows[i].phase != Quiet {
          UpdateRow(rows, i, Quiet);
          rows := rows[i := Row(rows[i].key, Quiet)];
        }
      }
      forall key | !SeenIn(obs, |obs|, key) ensures StateOf(rows, key) == Quiet {
        NoState(rows, key);
      }
    }

    static method Observed(obs: seq<Obs>, key: nat) returns (seen: bool)
      ensures seen <==> SeenIn(obs, |obs|, key)
    {
      for i := 0 to |obs|
        invariant !SeenIn(obs, i, key)
      {
        if obs[i].key == key { return true; }
      }
      seen := false;
    }
  }

  /** What each tick observed for one rule and scope. */
  function TraceOf(all: seq<seq<Obs>>, key: nat): (r: seq<Option<Kind>>)
    ensures |r| == |all|
  {
    seq(|all|, i requires 0 <= i < |all| => ObsOf(all[i], key))
  }

  lemma TraceStep(all: seq<seq<Obs>>, i: nat, key: nat)
    requires i < |all|
    ensures TraceOf(all[..i + 1], key) == TraceOf(all[..i], key) + [ObsOf(all[i], key)]
    ensures TraceOf(all[..i + 1], key)[..i] == TraceOf(all[..i], key)
  {
    assert all[..i + 1][..i] == all[..i];
  }

  // ----- Raw observations -----

  /** The tick has this observation for the rule and scope. */
  ghost predicate Sees(obs: seq<Obs>, key: nat, o: Obs) { o in obs && o.key == key }

  /** The rule fires, or the metric has not fallen below a clear threshold of its own. */
  ghost predicate Persists(o: Obs)
  {
    o.firing || (o.rule.Some? && o.rule.value.clear != o.rule.value.fire && o.metric >= o.rule.value.clear)
  }

  /** The rule does not fire, and the metric is below the clear threshold if the rule has one of its own. */
  ghost predicate Subsides(o: Obs)
  {
    !o.firing && (o.rule.None? || o.rule.value.clear == o.rule.value.fire || o.metric < o.rule.value.clear)
  }

  ghost predicate FireSeen(obs: seq<Obs>, key: nat) { exists o :: Sees(obs, key, o) && o.firing }

  ghost predicate PersistSeen(obs: seq<Obs>, key: nat) { exists o :: Sees(obs, key, o) && Persists(o) }

  ghost predicate SubsideSeen(obs: seq<Obs>, key: nat) { exists o :: Sees(obs, key, o) && Subsides(o) }

  lemma SeenKind(obs: seq<Obs>, key: nat, o: Obs)
    requires DistinctKeys(obs) && Sees(obs, key, o)
    ensures ObsOf(obs, key) == Some(KindOf(o))
  {
    var i :| 0 <= i < |obs| && obs[i] == o;
    ObsAt(obs, i);
  }

  ghost predicate AllDistinct(all: seq<seq<Obs>>) { forall i :: 0 <= i < |all| ==> DistinctKeys(all[i]) }

  /** The phase of a rule and scope after the first `n` ticks. */
  function PhaseAt(all: seq<seq<Obs>>, n: nat, key: nat, t: Ticks): Phase
    requires n <= |all|
  {
    After(TraceOf(all[..n], key), t)
  }

  lemma PhaseStep(all: seq<seq<Obs>>, n: nat, key: nat, t: Ticks)
    requires n < |all|
    ensures PhaseAt(all, n + 1, key, t) == Next(PhaseAt(all, n, key, t), ObsOf(all[n], key), t)
  {
    TraceStep(all, n, key);
  }

  /** Hysteresis, over every run: a firing alert stays firing as long as every tick fires or sees a metric
      that has not fallen below the rule's own clear threshold. */
  lemma {:induction false} BandHolds(all: seq<seq<Obs>>, i: nat, n: nat, key: nat, t: Ticks)
    requires i <= n <= |all| && AllDistinct(all) && PhaseAt(all, i, key, t).Firing?
    requires forall j :: i <= j < n ==> PersistSeen(all[j], key)
    ensures PhaseAt(all, n, key, t).Firing?
    decreases n
  {
    if i < n {
      BandHolds(all, i, n - 1, key, t);
      hide PhaseAt;
      PhaseStep(all, n - 1, key, t);
      assert PersistSeen(all[n - 1], key);
      var o :| Sees(all[n - 1], key, o) && Persists(o);
      SeenKind(all[n - 1], key, o);
    }
  }

  lemma {:induction false} Subsiding(all: seq<seq<Obs>>, i: nat, n: nat, key: nat, t: Ticks)
    requires i <= n <= |all| && AllDistinct(all) && !PhaseAt(all, i, key, t).Pending?
    requires forall j :: i <= j < n ==> SubsideSeen(all[j], key)
    ensures var p := PhaseAt(all, n, key, t); p.Quiet? || (p.Firing? && p.clear >= n - i)
    decreases n
  {
    if i < n {
      Subsiding(all, i, n - 1, key, t);
      hide PhaseAt;
      PhaseStep(all, n - 1, key, t);
      assert SubsideSeen(all[n - 1], key);
      var o :| Sees(all[n - 1], key, o) && Subsides(o);
      SeenKind(all[n - 1], key, o);
    }
  }

  /** A firing alert is resolved once it has been observed below the clear threshold for clear_ticks ticks
      in a row. */
  lemma ClearsBelow(all: seq<seq<Obs>>, i: nat, n: nat, key: nat, t: Ticks)
    requires i + ClearAt(t) <= n <= |all| && AllDistinct(all) && !PhaseAt(all, i, key, t).Pending?
    requires forall j :: i <= j < n ==> SubsideSeen(all[j], key)
    ensures PhaseAt(all, n, key, t).Quiet?
  {
    Subsiding(all, i, n, key, t);
    StreaksAreTrails(TraceOf(all[..n], key), t);
  }

  lemma {:induction false} Rising(all: seq<seq<Obs>>, i: nat, n: nat, key: nat, t: Ticks)
    requires i <= n <= |all| && AllDistinct(all)
    requires forall j :: i <= j < n ==> FireSeen(all[j], key)
    ensures var p := PhaseAt(all, n, key, t); i == n || p.Firing? || (p.Pending? && p.streak >= n - i)
    decreases n
  {
    if i < n {
      Rising(all, i, n - 1, key, t);
      hide PhaseAt;
      PhaseStep(all, n - 1, key, t);
      assert FireSeen(all[n - 1], key);
      var o :| Sees(all[n - 1], key, o) && o.firing;
      SeenKind(all[n - 1], key, o);
    }
  }

  /** An alert is firing once the rule has fired for fire_ticks ticks in a row, whatever was before. */
  lemma FiresAfter(all: seq<seq<Obs>>, i: nat, n: nat, key: nat, t: Ticks)
    requires i + FireAt(t) <= n <= |all| && AllDistinct(all)
    requires forall j :: i <= j < n ==> FireSeen(all[j], key)
    ensures PhaseAt(all, n, key, t).Firing?
  {
    Rising(all, i, n, key, t);
    StreaksAreTrails(TraceOf(all[..n], key), t);
  }

  /** And nothing is left of an alert after a tick that does not observe it. */
  lemma LostIsQuiet(all: seq<seq<Obs>>, n: nat, key: nat, t: Ticks)
    requires n < |all| && forall o :: o in all[n] ==> o.key != key
    ensures PhaseAt(all, n + 1, key, t).Quiet?
  {
    PhaseStep(all, n, key, t);
    hide PhaseAt;
    NoObs(all[n], key);
  }

  ghost predicate SeenIn(obs: seq<Obs>, k: nat, key: nat)
    requires k <= |obs|
  {
    exists i :: 0 <= i < k && obs[i].key == key
  }

  lemma SeenStep(obs: seq<Obs>, k: nat)
    requires DistinctKeys(obs) && k < |obs|
    ensures !SeenIn(obs, k, obs[k].key) && SeenIn(obs, k + 1, obs[k].key)
    ensures forall key :: key != obs[k].key ==> (SeenIn(obs, k + 1, key) <==> SeenIn(obs, k, key))
  {
  }

  lemma QuietStep(t: Ticks, k: Kind)
    ensures !k.Fires? ==> Next(Quiet, Some(k), t) == Quiet
  {
  }

  lemma LostStep(p: Phase, t: Ticks)
    ensures Next(p, None, t) == Quiet
  {
  }
}
