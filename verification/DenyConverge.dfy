/** Convergence of the data plane to the stored deny list (control-plane/app/worker/feed_runner.py,
    feed_scheduler.py): the worker loads a revision in one transaction, applies it with no transaction
    open, and records success in another, while feeds and operators keep committing. */
module DenyConverge {
  import opened Wrappers
  import opened Ipv4
  import opened DenyStore

  /** Where the single worker is with its apply. */
  datatype Pc =
    | Idle
    | Loaded(revision: nat, cidrs: set<Cidr>)
    | Applied(revision: nat, cidrs: set<Cidr>)

  /** `live` is the deny set last committed to the data plane. */
  datatype World = World(store: Store, pc: Pc, live: set<Cidr>)

  datatype Event =
    | Sync(source: nat, deletion: bool, cidrs: set<Cidr>)
    | AddEntry(c: Cidr)
    | RemoveEntry(c: Cidr)
    | NewSource(source: nat)
    | DropSource(source: nat)
    | Converge(expected: nat)
    | ApplySucceeds
    | ApplyFails(committed: bool)
    | Mark
    | Crash(committed: bool)

  predicate NeedsApply(r: Revision) { r.desired != r.active || r.wanted != r.applied }

  /** load_global_snapshot under the convergence guard: only the desired revision, and only if the stored
      rows still have its digest. */
  predicate Loadable(s: Store, expected: nat)
  {
    s.rev.desired == expected && NeedsApply(s.rev) && s.rev.wanted == Some(Cidrs(s))
  }

  function Marked(s: Store, revision: nat, cidrs: set<Cidr>): Store
  {
    if s.rev.desired == revision && s.rev.wanted == Some(cidrs)
    then s.(rev := s.rev.(active := revision, applied := Some(cidrs))) else s
  }

  /** One step; an event that is not enabled changes nothing. */
  function Step(w: World, e: Event): World
  {
    match e
    case Sync(source, deletion, cidrs) => w.(store := Reconcile(w.store, source, deletion, cidrs).0)
    case AddEntry(c) => w.(store := Add(w.store, c).0)
    case RemoveEntry(c) => w.(store := Remove(w.store, c).0)
    case NewSource(source) => w.(store := AddSource(w.store, source).0)
    case DropSource(source) => w.(store := DeleteSource(w.store, source).0)
    case Converge(expected) =>
      if w.pc.Idle? && Loadable(w.store, expected) then w.(pc := Loaded(expected, Cidrs(w.store))) else w
    case ApplySucceeds =>
      if w.pc.Loaded? then w.(live := w.pc.cidrs, pc := Applied(w.pc.revision, w.pc.cidrs)) else w
    case ApplyFails(committed) =>
      if w.pc.Loaded? then w.(live := if committed then w.pc.cidrs else w.live, pc := Idle) else w
    case Mark =>
      if w.pc.Applied? then w.(store := Marked(w.store, w.pc.revision, w.pc.cidrs), pc := Idle) else w
    case Crash(committed) => w.(live := if committed && w.pc.Loaded? then w.pc.cidrs else w.live, pc := Idle)
  }

  // ----- Invariant -----

  ghost predicate RevisionOk(r: Revision)
  {
    r.active <= r.desired && (r.active == r.desired ==> r.applied == r.wanted)
  }

  ghost predicate Good(w: World)
  {
    && Provenance(w.store) && RevisionOk(w.store.rev)
    && (!NeedsApply(w.store.rev) ==> w.live == Cidrs(w.store))
    && (!w.pc.Idle? ==> w.store.rev.active < w.pc.revision <= w.store.rev.desired)
    && (!w.pc.Idle? && w.pc.revision == w.store.rev.desired ==> w.store.rev.wanted == Some(w.pc.cidrs))
    && (w.pc.Applied? ==> w.live == w.pc.cidrs)
  }

  /** What a stored-list transaction does to the revision: nothing, if the set is unchanged; otherwise the
      next desired revision. */
  ghost predicate Advanced(s: Store, t: Store)
  {
    && t.rev.active == s.rev.active && t.rev.applied == s.rev.applied
    && (t.rev == s.rev || t.rev.desired == s.rev.desired + 1)
    && (t.rev == s.rev ==> Cidrs(t) == Cidrs(s))
    && (Cidrs(t) == Cidrs(s) && s.rev.wanted.Some? ==> t.rev == s.rev)
  }

  lemma MaterializedAdvances(s: Store, t: Store)
    requires Provenance(s) && t.rev == s.rev
    ensures Advanced(s, Materialized(t))
  {
  }

  lemma TransactionAdvances(w: World, e: Event)
    requires Provenance(w.store)
    requires e.Sync? || e.AddEntry? || e.RemoveEntry? || e.NewSource? || e.DropSource?
    ensures Provenance(Step(w, e).store) && Advanced(w.store, Step(w, e).store)
    ensures Step(w, e).pc == w.pc && Step(w, e).live == w.live
  {
    hide Provenance;
    hide Rewritten;
    match e
    case Sync(source, deletion, cidrs) =>
      ReconcileKeeps(w.store, source, deletion, cidrs);
      RewrittenRev(w.store, source, cidrs);
      MaterializedAdvances(w.store, Rewritten(w.store, source, cidrs));
      hide Materialized;
    case AddEntry(c) =>
      AddKeeps(w.store, c);
      MaterializedAdvances(w.store, w.store.(entries := w.store.entries[c := Manual]));
      hide Materialized;
    case RemoveEntry(c) =>
      RemoveKeeps(w.store, c);
      MaterializedAdvances(w.store, w.store.(entries := w.store.entries[c := Feed]));
      MaterializedAdvances(w.store, w.store.(entries := w.store.entries - {c}));
      hide Materialized;
    case NewSource(source) =>
      SourceKeeps(w.store, source);
    case DropSource(source) =>
      SourceKeeps(w.store, source);
      DropAdvances(w.store, source);
      hide DeleteSource;
  }

  lemma RewrittenRev(s: Store, source: nat, cidrs: set<Cidr>)
    ensures Rewritten(s, source, cidrs).rev == s.rev
  {
  }

  lemma DropAdvances(s: Store, source: nat)
    requires Provenance(s)
    ensures Advanced(s, DeleteSource(s, source).0)
  {
    var u := s.(sources := s.sources[source := true]);
    RewrittenRev(u, source, {});
    MaterializedAdvances(s, Rewritten(u, source, {}));
    hide Rewritten;
    hide Materialized;
  }

  lemma StepKeepsGood(w: World, e: Event)
    requires Good(w)
    ensures Good(Step(w, e))
    ensures Step(w, e).store.rev.active >= w.store.rev.active && Step(w, e).store.rev.desired >= w.store.rev.desired
  {
    if e.Sync? || e.AddEntry? || e.RemoveEntry? || e.NewSource? || e.DropSource? {
      TransactionAdvances(w, e);
      hide Provenance;
      hide Step;
    } else {
      hide Reconcile;
      hide Add;
      hide Remove;
      hide DeleteSource;
      OtherKeepsGood(w, e);
    }
  }

  lemma OtherKeepsGood(w: World, e: Event)
    requires Good(w)
    requires e.Converge? || e.ApplySucceeds? || e.ApplyFails? || e.Mark? || e.Crash?
    ensures Good(Step(w, e))
    ensures Step(w, e).store.rev.active >= w.store.rev.active && Step(w, e).store.rev.desired >= w.store.rev.desired
  {
    hide Reconcile;
    hide Add;
    hide Remove;
    hide DeleteSource;
    hide Asserted;
  }

  function Run(w: World, es: seq<Event>): World
    decreases es
  {
    if es == [] then w else Run(Step(w, es[0]), es[1..])
  }

  const EMPTY: World := World(Store(map[], {}, map[], Revision(0, None, 0, None)), Idle, {})

  /** Revisions never decrease, and the active one never passes the desired one. */
  lemma {:induction false} RunKeepsGood(w: World, es: seq<Event>)
    requires Good(w)
    ensures Good(Run(w, es))
    ensures Run(w, es).store.rev.active >= w.store.rev.active && Run(w, es).store.rev.desired >= w.store.rev.desired
    decreases es
  {
    hide Good;
    hide Step;
    if es != [] {
      StepKeepsGood(w, es[0]);
      RunKeepsGood(Step(w, es[0]), es[1..]);
    }
  }

  /** Main theorem: after any interleaving of feed syncs, operator edits, worker steps, failed applies
      and crashes, if the recorded revisions and digests agree, the live deny set is the stored set. */
  lemma ConvergedMeansLive(es: seq<Event>)
    ensures var w := Run(EMPTY, es);
            && w.store.rev.active <= w.store.rev.desired
            && (!NeedsApply(w.store.rev) ==> w.live == Cidrs(w.store) == ManualRows(w.store) + Asserted(w.store.asserts))
  {
    assert Good(EMPTY);
    RunKeepsGood(EMPTY, es);
    EffectiveSet(Run(EMPTY, es).store);
    hide Step;
    hide Run;
  }

  /** And the protocol can always get there: with no interference, load, apply and mark agree. */
  lemma UndisturbedConverges(w: World)
    requires Good(w) && w.pc.Idle? && NeedsApply(w.store.rev)
    ensures var w' := Step(Step(Step(w, Converge(w.store.rev.desired)), ApplySucceeds), Mark);
            !NeedsApply(w'.store.rev) && w'.live == Cidrs(w'.store) == Cidrs(w.store)
  {
    hide Reconcile;
    hide Add;
    hide Remove;
    hide DeleteSource;
  }

  // ----- What the set is, in terms of what was asked for -----

  /** The manual rows after one event: a successful add adds, a successful remove removes. */
  function ManualAfter(w: World, e: Event, manual: set<Cidr>): set<Cidr>
  {
    match e
    case AddEntry(c) => if Add(w.store, c).1.Done? then manual + {c} else manual
    case RemoveEntry(c) => if Remove(w.store, c).1.Done? then manual - {c} else manual
    case _ => manual
  }

  /** What a source says after one event: its last completed sync, nothing once it is deleted. */
  function SaysAfter(w: World, e: Event, source: nat, said: set<Cidr>): set<Cidr>
  {
    match e
    case Sync(s, deletion, cidrs) => if s == source && Reconcile(w.store, s, deletion, cidrs).1.Done? then cidrs else said
    case DropSource(s) => if s == source && DeleteSource(w.store, s).1.Done? then {} else said
    case _ => said
  }

  function Blocked(w: World, es: seq<Event>, manual: set<Cidr>): set<Cidr>
    decreases es
  {
    if es == [] then manual else Blocked(Step(w, es[0]), es[1..], ManualAfter(w, es[0], manual))
  }

  function Said(w: World, es: seq<Event>, source: nat, said: set<Cidr>): set<Cidr>
    decreases es
  {
    if es == [] then said else Said(Step(w, es[0]), es[1..], source, SaysAfter(w, es[0], source, said))
  }

  lemma SameRows(s: Store, t: Store)
    requires t.entries == s.entries && t.asserts == s.asserts
    ensures ManualRows(t) == ManualRows(s) && forall source: nat :: FeedRows(t, source) == FeedRows(s, source)
  {
  }

  lemma SyncSays(w: World, e: Event, source: nat)
    requires Provenance(w.store) && e.Sync?
    ensures var t := Step(w, e).store;
            ManualRows(t) == ManualRows(w.store) && FeedRows(t, source) == SaysAfter(w, e, source, FeedRows(w.store, source))
  {
    hide Reconcile;
    hide FeedRows;
    hide ManualRows;
    hide AssertedBy;
    hide Union;
    hide Provenance;
    var t := Step(w, e).store;
    ReconcileOutcome(w.store, e.source, e.deletion, e.cidrs);
    if t != w.store {
      ReconcileIsExact(w.store, e.source, e.deletion, e.cidrs);
      FeedRowsAre(w.store, source);
      FeedRowsAre(t, source);
      assert forall c :: c in FeedRows(t, source) <==> if source == e.source then c in e.cidrs else c in FeedRows(w.store, source);
    } else if Reconcile(w.store, e.source, e.deletion, e.cidrs).1 == Done && source == e.source {
      ReconcileIsExact(w.store, e.source, e.deletion, e.cidrs);
      FeedRowsAre(t, source);
      assert forall c :: c in FeedRows(t, source) <==> c in e.cidrs;
    }
  }

  lemma DropSays(w: World, e: Event, source: nat)
    requires Provenance(w.store) && e.DropSource?
    ensures var t := Step(w, e).store;
            ManualRows(t) == ManualRows(w.store) && FeedRows(t, source) == SaysAfter(w, e, source, FeedRows(w.store, source))
  {
    var t := Step(w, e).store;
    var s := w.store;
    if e.source in s.sources && !s.sources[e.source] {
      var u := s.(sources := s.sources[e.source := true]);
      FeedRowsAre(s, source);
      FeedRowsAre(t, source);
      SameRows(s, u);
      if Reconcile(u, e.source, true, {}).1 == Done {
        ReconcileIsExact(u, e.source, true, {});
      }
      hide Reconcile;
      hide FeedRows;
      hide ManualRows;
    }
  }

  lemma EditSays(w: World, e: Event, source: nat)
    requires Provenance(w.store) && (e.AddEntry? || e.RemoveEntry?)
    ensures var t := Step(w, e).store;
            ManualRows(t) == ManualAfter(w, e, ManualRows(w.store)) && FeedRows(t, source) == FeedRows(w.store, source)
  {
    hide Add;
    hide Remove;
    hide ManualRows;
    hide Provenance;
    hide Asserted;
    if e.AddEntry? {
      AddIsExact(w.store, e.c);
    } else {
      RemoveIsExact(w.store, e.c);
    }
  }

  lemma StepSays(w: World, e: Event, source: nat)
    requires Good(w)
    ensures var t := Step(w, e).store;
            && ManualRows(t) == ManualAfter(w, e, ManualRows(w.store))
            && FeedRows(t, source) == SaysAfter(w, e, source, FeedRows(w.store, source))
  {
    if e.Sync? {
      SyncSays(w, e, source);
      hide Step;
    } else if e.DropSource? {
      DropSays(w, e, source);
      hide Step;
    } else if e.AddEntry? || e.RemoveEntry? {
      EditSays(w, e, source);
      hide Step;
    } else {
      var t := Step(w, e).store;
      assert t.entries == w.store.entries && t.asserts == w.store.asserts;
      SameRows(w.store, t);
    }
  }

  lemma {:induction false} RunSays(w: World, es: seq<Event>, source: nat)
    requires Good(w)
    ensures var t := Run(w, es).store;
            && ManualRows(t) == Blocked(w, es, ManualRows(w.store))
            && FeedRows(t, source) == Said(w, es, source, FeedRows(w.store, source))
    decreases es
  {
    hide Good;
    hide Step;
    hide ManualRows;
    hide FeedRows;
    hide ManualAfter;
    hide SaysAfter;
    if es != [] {
      StepKeepsGood(w, es[0]);
      StepSays(w, es[0], source);
      RunSays(Step(w, es[0]), es[1..], source);
    }
  }

  /** Main theorem on contents: over every run from an empty list, a CIDR is in the stored set exactly when
      an operator added it and has not removed it since, or the last completed sync of some source that
      was not deleted since has it. */
  lemma SetIsWhatWasAsked(es: seq<Event>, c: Cidr)
    ensures c in Cidrs(Run(EMPTY, es).store) <==>
              c in Blocked(EMPTY, es, {}) || exists source: nat :: c in Said(EMPTY, es, source, {})
  {
    hide Run;
    hide Blocked;
    hide Said;
    hide FeedRows;
    hide ManualRows;
    hide Step;
    var t := Run(EMPTY, es).store;
    EmptyIsGood();
    RunKeepsGood(EMPTY, es);
    RunSays(EMPTY, es, 0);
    if c in Cidrs(t) {
      SetByRows(t, c);
      if source: nat :| c in FeedRows(t, source) {
        RunSays(EMPTY, es, source);
      }
    }
    if source: nat :| c in Said(EMPTY, es, source, {}) {
      RunSays(EMPTY, es, source);
      assert c in FeedRows(t, source);
      SetByRows(t, c);
    }
    if c in Blocked(EMPTY, es, {}) {
      SetByRows(t, c);
    }
  }

  lemma EmptyIsGood()
    ensures Good(EMPTY) && ManualRows(EMPTY.store) == {} && forall source: nat :: FeedRows(EMPTY.store, source) == {}
  {
  }

  lemma SetByRows(t: Store, c: Cidr)
    requires Provenance(t)
    ensures c in Cidrs(t) <==> c in ManualRows(t) || exists source: nat :: c in FeedRows(t, source)
  {
    EffectiveSet(t);
    hide ManualRows;
    if c in Asserted(t.asserts) {
      var a :| a in t.asserts && a.cidr == c;
      assert c in FeedRows(t, a.source);
    }
  }
}
