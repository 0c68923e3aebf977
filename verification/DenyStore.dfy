/** The stored global deny list: manual rows, feed rows and which feed asserts what
    (control-plane/app/services/feed_reconcile.py, lists.py, feeds.py). A digest is an injective
    function of the stored set, so it is modelled by the set itself. */
module DenyStore {
  import opened Wrappers
  import opened Arith
  import opened Ipv4

  const MAX_ENTRIES: nat := 1_048_576
  const BATCH: nat := 1_000

  datatype Origin = Manual | Feed

  datatype Assertion = Assertion(source: nat, cidr: Cidr)

  /** The global_deny_state singleton; both digests are empty until the first materialization. */
  datatype Revision = Revision(desired: nat, wanted: Option<set<Cidr>>, active: nat, applied: Option<set<Cidr>>)

  /** `sources` maps a feed source to whether it has been deleted. */
  datatype Store = Store(entries: map<Cidr, Origin>, asserts: set<Assertion>, sources: map<nat, bool>, rev: Revision)

  datatype Outcome = Done | NoOp | TooMany | Missing | Conflict

  function Cidrs(s: Store): set<Cidr> { s.entries.Keys }

  function ManualRows(s: Store): set<Cidr> { set c | c in s.entries && s.entries[c] == Manual }

  ghost predicate AssertedBy(s: Store, source: nat, c: Cidr) { Assertion(source, c) in s.asserts }

  function Asserted(asserts: set<Assertion>): set<Cidr> { set a | a in asserts :: a.cidr }

  // ----- Pieces of a reconcile -----

  /** New rows for unknown CIDRs; existing rows keep their origin. */
  function Upserted(entries: map<Cidr, Origin>, cidrs: set<Cidr>): map<Cidr, Origin>
  {
    map c | c in entries.Keys + cidrs :: if c in entries then entries[c] else Feed
  }

  function Replaced(asserts: set<Assertion>, source: nat, cidrs: set<Cidr>): set<Assertion>
  {
    (set a | a in asserts && (a.source == source ==> a.cidr in cidrs)) + (set c | c in cidrs :: Assertion(source, c))
  }

  function WithoutOrphans(entries: map<Cidr, Origin>, asserts: set<Assertion>): map<Cidr, Origin>
  {
    map c | c in entries && (entries[c] == Feed ==> c in Asserted(asserts)) :: entries[c]
  }

  /** _materialize_locked: a changed set gets the next revision. */
  function Materialized(s: Store): Store
  {
    if s.rev.wanted == Some(Cidrs(s)) then s
    else s.(rev := s.rev.(desired := s.rev.desired + 1, wanted := Some(Cidrs(s))))
  }

  function Rewritten(s: Store, source: nat, cidrs: set<Cidr>): Store
  {
    var asserts := Replaced(s.asserts, source, cidrs);
    s.(entries := WithoutOrphans(Upserted(s.entries, cidrs), asserts), asserts := asserts)
  }

  /** A reconcile of a live source, or of a deleted one when the run was tagged as its deletion. */
  predicate Proceeds(s: Store, source: nat, deletion: bool)
  {
    source in s.sources && (s.sources[source] ==> deletion)
  }

  function Reconcile(s: Store, source: nat, deletion: bool, cidrs: set<Cidr>): (Store, Outcome)
  {
    if !Proceeds(s, source, deletion) then (s, NoOp)
    else
      var t := Rewritten(s, source, cidrs);
      if |Cidrs(t)| > MAX_ENTRIES then (s, TooMany) else (Materialized(t), Done)
  }

  /** _prospective_global_cidrs: what a dry run says the set would become. */
  function Prospective(s: Store, source: nat, cidrs: set<Cidr>): set<Cidr>
  {
    (set c | c in s.entries &&
             !(s.entries[c] == Feed && Assertion(source, c) in s.asserts && c !in cidrs
               && forall a :: a in s.asserts ==> a.cidr != c || a.source == source))
    + cidrs
  }

  function DryRun(s: Store, source: nat, deletion: bool, cidrs: set<Cidr>): (set<Cidr>, Outcome)
  {
    if !Proceeds(s, source, deletion) then (Cidrs(s), NoOp)
    else if |Prospective(s, source, cidrs)| > MAX_ENTRIES then (Cidrs(s), TooMany)
    else (Prospective(s, source, cidrs), Done)
  }

  // ----- Operator edits -----

  function Commit(s: Store, t: Store): (Store, Outcome)
  {
    if |Cidrs(t)| > MAX_ENTRIES then (s, TooMany) else (Materialized(t), Done)
  }

  /** add_blacklist: insert, promote a feed row, or refuse a second manual row. */
  function Add(s: Store, c: Cidr): (Store, Outcome)
  {
    if c in s.entries && s.entries[c] == Manual then (s, Conflict)
    else Commit(s, s.(entries := s.entries[c := Manual]))
  }

  /** remove_blacklist: a manual row some feed still asserts is demoted, any other is deleted. */
  function Remove(s: Store, c: Cidr): (Store, Outcome)
  {
    if c !in s.entries then (s, Missing)
    else if s.entries[c] == Feed then (s, Conflict)
    else
      Commit(s, if c in Asserted(s.asserts) then s.(entries := s.entries[c := Feed]) else s.(entries := s.entries - {c}))
  }

  function AddSource(s: Store, source: nat): (Store, Outcome)
  {
    if source in s.sources then (s, Conflict) else (s.(sources := s.sources[source := false]), Done)
  }

  /** delete_source: mark it deleted and reconcile it to nothing in the same transaction. */
  function DeleteSource(s: Store, source: nat): (Store, Outcome)
  {
    if source !in s.sources || s.sources[source] then (s, Missing)
    else
      var r := Reconcile(s.(sources := s.sources[source := true]), source, true, {});
      if r.1.Done? then r else (s, r.1)
  }

  // ----- Invariant -----

  /** Every feed row has an assertion and every assertion a row; the set fits; the desired digest is the
      stored set. */
  ghost predicate Provenance(s: Store)
  {
    && (forall c :: c in s.entries && s.entries[c] == Feed ==> c in Asserted(s.asserts))
    && (forall a :: a in s.asserts ==> a.cidr in s.entries && a.source in s.sources)
    && |Cidrs(s)| <= MAX_ENTRIES
    && (s.rev.wanted == Some(Cidrs(s)) || (s.rev.wanted == None && s.rev.desired == 0 && Cidrs(s) == {}))
  }

  /** The effective set is the manual rows plus everything some feed asserts. */
  lemma EffectiveSet(s: Store)
    requires Provenance(s)
    ensures Cidrs(s) == ManualRows(s) + Asserted(s.asserts)
  {
  }

  lemma MaterializedKeeps(s: Store)
    requires |Cidrs(s)| <= MAX_ENTRIES
    requires forall c :: c in s.entries && s.entries[c] == Feed ==> c in Asserted(s.asserts)
    requires forall a :: a in s.asserts ==> a.cidr in s.entries && a.source in s.sources
    ensures Provenance(Materialized(s))
  {
  }

  lemma RewrittenKeeps(s: Store, source: nat, cidrs: set<Cidr>)
    requires Provenance(s) && source in s.sources
    ensures var t := Rewritten(s, source, cidrs);
            && (forall c :: c in t.entries && t.entries[c] == Feed ==> c in Asserted(t.asserts))
            && (forall a :: a in t.asserts ==> a.cidr in t.entries && a.source in t.sources)
  {
    var t := Rewritten(s, source, cidrs);
    forall a | a in t.asserts ensures a.cidr in t.entries {
      assert a.cidr in Asserted(t.asserts);
    }
  }

  lemma ReconcileKeeps(s: Store, source: nat, deletion: bool, cidrs: set<Cidr>)
    requires Provenance(s)
    ensures Provenance(Reconcile(s, source, deletion, cidrs).0)
  {
    if Proceeds(s, source, deletion) {
      RewrittenKeeps(s, source, cidrs);
      var t := Rewritten(s, source, cidrs);
      hide Rewritten;
      if |Cidrs(t)| <= MAX_ENTRIES {
        MaterializedKeeps(t);
      }
    }
  }

  lemma AddKeeps(s: Store, c: Cidr)
    requires Provenance(s)
    ensures Provenance(Add(s, c).0)
  {
    var t := s.(entries := s.entries[c := Manual]);
    hide Asserted;
    if |Cidrs(t)| <= MAX_ENTRIES {
      MaterializedKeeps(t);
    }
    hide Materialized;
  }

  lemma RemoveKeeps(s: Store, c: Cidr)
    requires Provenance(s)
    ensures Provenance(Remove(s, c).0)
  {
    if c in s.entries && s.entries[c] == Manual {
      var t := if c in Asserted(s.asserts) then s.(entries := s.entries[c := Feed]) else s.(entries := s.entries - {c});
      assert forall a :: a in s.asserts ==> a.cidr in Asserted(s.asserts);
      hide Asserted;
      if |Cidrs(t)| <= MAX_ENTRIES {
        MaterializedKeeps(t);
      }
      hide Materialized;
    }
  }

  lemma SourceKeeps(s: Store, source: nat)
    requires Provenance(s)
    ensures Provenance(AddSource(s, source).0) && Provenance(DeleteSource(s, source).0)
  {
    if source in s.sources {
      ReconcileKeeps(s.(sources := s.sources[source := true]), source, true, {});
    }
    hide Reconcile;
  }

  /** A reconcile makes one source's assertions exactly its parsed set and leaves every other source's
      assertions and every manual row alone. */
  lemma ReconcileIsExact(s: Store, source: nat, deletion: bool, cidrs: set<Cidr>)
    requires Provenance(s) && Reconcile(s, source, deletion, cidrs).1 == Done
    ensures var t := Reconcile(s, source, deletion, cidrs).0;
            && (forall c :: AssertedBy(t, source, c) <==> c in cidrs)
            && (forall other, c :: other != source ==> (AssertedBy(t, other, c) <==> AssertedBy(s, other, c)))
            && ManualRows(t) == ManualRows(s)
            && Cidrs(t) == ManualRows(s) + Asserted(t.asserts)
  {
    hide Replaced;
    hide Rewritten;
    hide ManualRows;
    hide Asserted;
    var t := Reconcile(s, source, deletion, cidrs).0;
    ReconcileKeeps(s, source, deletion, cidrs);
    EffectiveSet(t);
    RewrittenRows(s, source, cidrs);
    ReplacedIsExact(s.asserts, source, cidrs);
    hide Provenance;
    assert ManualRows(t) == ManualRows(Rewritten(s, source, cidrs)) by { SameManual(Rewritten(s, source, cidrs), t); }
  }

  lemma SameManual(s: Store, t: Store)
    requires s.entries == t.entries
    ensures ManualRows(s) == ManualRows(t)
  {
  }

  lemma ReplacedIsExact(asserts: set<Assertion>, source: nat, cidrs: set<Cidr>)
    ensures var out := Replaced(asserts, source, cidrs);
            && (forall c :: Assertion(source, c) in out <==> c in cidrs)
            && (forall other, c :: other != source ==> (Assertion(other, c) in out <==> Assertion(other, c) in asserts))
  {
  }

  lemma RewrittenRows(s: Store, source: nat, cidrs: set<Cidr>)
    ensures ManualRows(Rewritten(s, source, cidrs)) == ManualRows(s)
    ensures Rewritten(s, source, cidrs).asserts == Replaced(s.asserts, source, cidrs)
  {
    hide Replaced;
    hide Asserted;
  }

  /** A dry run predicts the set, and the refusal, of the real run. */
  lemma DryRunPredicts(s: Store, source: nat, deletion: bool, cidrs: set<Cidr>)
    requires Provenance(s)
    ensures var run, dry := Reconcile(s, source, deletion, cidrs), DryRun(s, source, deletion, cidrs);
            dry.1 == run.1 && dry.0 == Cidrs(run.0)
  {
    if Proceeds(s, source, deletion) {
      ProspectiveIsRewritten(s, source, cidrs);
    }
    hide Prospective;
    hide Rewritten;
  }

  lemma ProspectiveIsRewritten(s: Store, source: nat, cidrs: set<Cidr>)
    requires Provenance(s)
    ensures Prospective(s, source, cidrs) == Cidrs(Rewritten(s, source, cidrs))
  {
    forall c ensures c in Prospective(s, source, cidrs) <==> c in Cidrs(Rewritten(s, source, cidrs)) {
      ProspectiveAt(s, source, cidrs, c);
    }
  }

  lemma ProspectiveAt(s: Store, source: nat, cidrs: set<Cidr>, c: Cidr)
    requires Provenance(s)
    ensures c in Prospective(s, source, cidrs) <==> c in Cidrs(Rewritten(s, source, cidrs))
  {
    var after := Replaced(s.asserts, source, cidrs);
    if c in cidrs {
      assert Assertion(source, c) in after;
      assert c in Asserted(after);
    } else if c in s.entries && s.entries[c] == Feed {
      assert c in Asserted(s.asserts);
      assert c in Asserted(after) <==> exists a :: a in s.asserts && a.cidr == c && a.source != source by {
        if a :| a in s.asserts && a.cidr == c && a.source != source {
          assert a in after;
        }
      }
    }
  }

  // ----- What each edit does, exactly -----

  ghost predicate OthersKept(s: Store, t: Store, c: Cidr)
  {
    && t.asserts == s.asserts && t.sources == s.sources
    && forall x :: x != c ==> (x in t.entries <==> x in s.entries) && (x in s.entries ==> t.entries[x] == s.entries[x])
  }

  /** Adding makes the CIDR a manual row of the set, whether or not a feed already asserts it, and changes
      no other row; only a second manual row and a full list are refused, and then nothing changes. */
  lemma AddIsExact(s: Store, c: Cidr)
    ensures var r := Add(s, c);
            && r.1 == (if c in ManualRows(s) then Conflict else if |Cidrs(s) + {c}| > MAX_ENTRIES then TooMany else Done)
            && (r.1 == Done ==> Cidrs(r.0) == Cidrs(s) + {c} && ManualRows(r.0) == ManualRows(s) + {c} && OthersKept(s, r.0, c))
            && (r.1 != Done ==> r.0 == s)
  {
    hide ManualRows;
    hide OthersKept;
    AddedRow(s, c);
    ManualRow(s, c);
    MaterializedRows(s.(entries := s.entries[c := Manual]));
    hide Materialized;
  }

  lemma ManualRow(s: Store, c: Cidr)
    ensures c in ManualRows(s) <==> c in s.entries && s.entries[c] == Manual
  {
  }

  /** The rows once the CIDR is a manual one, whatever becomes of the revision. */
  lemma AddedRow(s: Store, c: Cidr)
    ensures s.entries[c := Manual].Keys == Cidrs(s) + {c}
    ensures forall t: Store :: t.entries == s.entries[c := Manual] && t.asserts == s.asserts && t.sources == s.sources ==>
              ManualRows(t) == ManualRows(s) + {c} && OthersKept(s, t, c)
  {
    forall t: Store | t.entries == s.entries[c := Manual] && t.asserts == s.asserts && t.sources == s.sources
      ensures ManualRows(t) == ManualRows(s) + {c}
    {
    }
  }

  lemma MaterializedRows(s: Store)
    ensures var t := Materialized(s); t.entries == s.entries && t.asserts == s.asserts && t.sources == s.sources
  {
  }

  /** Removing takes the manual row away: the CIDR stays in the set exactly when a feed asserts it, and no
      other row changes; an unknown CIDR and a feed row are refused. */
  lemma RemoveIsExact(s: Store, c: Cidr)
    requires Provenance(s)
    ensures var r := Remove(s, c);
            && r.1 == (if c !in Cidrs(s) then Missing else if c !in ManualRows(s) then Conflict else Done)
            && (r.1 == Done ==> ManualRows(r.0) == ManualRows(s) - {c} && OthersKept(s, r.0, c)
                                && (c in Cidrs(r.0) <==> c in Asserted(s.asserts)))
            && (r.1 != Done ==> r.0 == s)
  {
    hide Asserted;
    if c in s.entries {
      assert (s.entries - {c}).Keys == Cidrs(s) - {c} && s.entries[c := Feed].Keys == Cidrs(s);
      SmallerSet(Cidrs(s) - {c}, Cidrs(s));
    }
  }

  /** What one source asserts. */
  function FeedRows(s: Store, source: nat): set<Cidr> { set a | a in s.asserts && a.source == source :: a.cidr }

  lemma FeedRowsAre(s: Store, source: nat)
    ensures forall c :: c in FeedRows(s, source) <==> AssertedBy(s, source, c)
  {
    forall c | AssertedBy(s, source, c) ensures c in FeedRows(s, source) {
      assert Assertion(source, c).cidr == c;
    }
  }

  /** The set a reconcile would leave: the manual rows, what the other sources assert, and the feed. */
  function Union(s: Store, source: nat, cidrs: set<Cidr>): set<Cidr>
  {
    ManualRows(s) + (set a | a in s.asserts && a.source != source :: a.cidr) + cidrs
  }

  lemma UnionAt(s: Store, source: nat, cidrs: set<Cidr>, c: Cidr)
    requires Provenance(s)
    ensures c in Cidrs(Rewritten(s, source, cidrs)) <==> c in Union(s, source, cidrs)
  {
    var after := Replaced(s.asserts, source, cidrs);
    if c in cidrs {
      assert Assertion(source, c) in after;
      assert c in Asserted(after);
    } else {
      assert c in Asserted(after) <==> exists a :: a in s.asserts && a.cidr == c && a.source != source by {
        if a :| a in s.asserts && a.cidr == c && a.source != source {
          assert a in after;
        }
      }
      if a :| a in s.asserts && a.cidr == c && a.source != source {
        assert c in s.entries;
      }
    }
  }

  lemma RewrittenIsUnion(s: Store, source: nat, cidrs: set<Cidr>)
    requires Provenance(s)
    ensures Cidrs(Rewritten(s, source, cidrs)) == Union(s, source, cidrs)
  {
    forall c ensures c in Cidrs(Rewritten(s, source, cidrs)) <==> c in Union(s, source, cidrs) {
      UnionAt(s, source, cidrs, c);
    }
    hide Rewritten;
    hide Union;
  }

  /** A reconcile goes through exactly for a known source that is live, or deleted and tagged so, whose feed
      fits; otherwise nothing changes. */
  lemma ReconcileOutcome(s: Store, source: nat, deletion: bool, cidrs: set<Cidr>)
    requires Provenance(s)
    ensures var r := Reconcile(s, source, deletion, cidrs);
            && r.1 == (if source !in s.sources || (s.sources[source] && !deletion) then NoOp
                       else if |Union(s, source, cidrs)| > MAX_ENTRIES then TooMany else Done)
            && (r.1 == Done ==> Cidrs(r.0) == Union(s, source, cidrs)) && (r.1 != Done ==> r.0 == s)
            && r.0.sources == s.sources
  {
    RewrittenIsUnion(s, source, cidrs);
    hide Union;
    hide Rewritten;
    RewrittenSources(s, source, cidrs);
  }

  lemma RewrittenSources(s: Store, source: nat, cidrs: set<Cidr>)
    ensures Rewritten(s, source, cidrs).sources == s.sources
  {
  }

  // ----- The statements as written -----

  function Taken(cidrs: seq<Cidr>, n: nat): set<Cidr>
    requires n <= |cidrs|
  {
    set c | c in cidrs[..n]
  }

  lemma UpsertNone(entries: map<Cidr, Origin>)
    ensures Upserted(entries, {}) == entries
  {
  }

  lemma UpsertOne(entries: map<Cidr, Origin>, cidrs: seq<Cidr>, i: nat)
    requires i < |cidrs|
    ensures var before, after := Upserted(entries, Taken(cidrs, i)), Upserted(entries, Taken(cidrs, i + 1));
            after == if cidrs[i] in before then before else before[cidrs[i] := Feed]
  {
    assert cidrs[..i + 1] == cidrs[..i] + [cidrs[i]];
    assert Taken(cidrs, i + 1) == Taken(cidrs, i) + {cidrs[i]};
  }

  class Tables {
    var entries: map<Cidr, Origin>
    var asserts: set<Assertion>
    var sources: map<nat, bool>
    var rev: Revision

    ghost function View(): Store
      reads this
    {
      Store(entries, asserts, sources, rev)
    }

    constructor ()
      ensures View() == Store(map[], {}, map[], Revision(0, None, 0, None)) && Provenance(View())
    {
      entries, asserts, sources, rev := map[], {}, map[], Revision(0, None, 0, None);
    }

    /** _upsert_feed_entries: batches of a thousand rows, existing rows untouched. */
    method UpsertFeedEntries(cidrs: seq<Cidr>)
      modifies `entries
      ensures entries == Upserted(old(entries), set c | c in cidrs)
    {
      UpsertNone(entries);
      hide Upserted;
      var start := 0;
      assert Taken(cidrs, 0) == {};
      while start < |cidrs|
        invariant start <= |cidrs|
        invariant entries == Upserted(old(entries), Taken(cidrs, start))
      {
        var end := Min(start + BATCH, |cidrs|);
        for i := start to end
          invariant entries == Upserted(old(entries), Taken(cidrs, i))
        {
          UpsertOne(old(entries), cidrs, i);
          if cidrs[i] !in entries {
            entries := entries[cidrs[i] := Feed];
          }
        }
        start := end;
      }
      assert cidrs[..|cidrs|] == cidrs;
    }

    /** _replace_source_assertions: drop what the feed no longer lists, then insert what it does. */
    method ReplaceAssertions(source: nat, cidrs: seq<Cidr>)
      modifies `asserts
      ensures asserts == Replaced(old(asserts), source, set c | c in cidrs)
    {
      var kept := set a | a in asserts && (a.source == source ==> a.cidr in cidrs);
      asserts := kept;
      for i := 0 to |cidrs|
        invariant asserts == kept + (set c | c in cidrs[..i] :: Assertion(source, c))
      {
        assert cidrs[..i + 1] == cidrs[..i] + [cidrs[i]];
        asserts := asserts + {Assertion(source, cidrs[i])};
      }
      assert cidrs[..|cidrs|] == cidrs;
    }

    method MaterializeLocked() returns (changed: bool)
      modifies `rev
      ensures View() == Materialized(old(View())) && (changed <==> View() != old(View()))
    {
      changed := rev.wanted != Some(entries.Keys);
      if changed {
        rev := rev.(desired := rev.desired + 1, wanted := Some(entries.Keys));
      }
    }

    /** reconcile inside its savepoint: over capacity, everything is rolled back. */
    method ReconcileRun(source: nat, deletion: bool, cidrs: seq<Cidr>) returns (o: Outcome)
      requires Provenance(View())
      modifies this
      ensures (View(), o) == Reconcile(old(View()), source, deletion, set c | c in cidrs)
      ensures Provenance(View())
    {
      ghost var s, parsed := View(), set c | c in cidrs;
      ReconcileKeeps(s, source, deletion, parsed);
      hide Provenance;
      hide Upserted;
      hide Replaced;
      if source !in sources || (sources[source] && !deletion) { return NoOp; }
      var savedEntries, savedAsserts := entries, asserts;
      UpsertFeedEntries(cidrs);
      ReplaceAssertions(source, cidrs);
      entries := map c | c in entries && (entries[c] == Feed ==> c in Asserted(asserts)) :: entries[c];
      assert View() == Rewritten(s, source, parsed);
      if |entries| > MAX_ENTRIES {
        entries, asserts := savedEntries, savedAsserts;
        return TooMany;
      }
      var changed := MaterializeLocked();
      o := Done;
    }

    method AddBlacklist(c: Cidr) returns (o: Outcome)
      requires Provenance(View())
      modifies this
      ensures (View(), o) == Add(old(View()), c) && Provenance(View())
    {
      AddKeeps(View(), c);
      hide Provenance;
      if c in entries && entries[c] == Manual { return Conflict; }
      var saved := entries;
      entries := entries[c := Manual];
      if |entries| > MAX_ENTRIES {
        entries := saved;
        return TooMany;
      }
      var changed := MaterializeLocked();
      o := Done;
    }

    method RemoveBlacklist(c: Cidr) returns (o: Outcome)
      requires Provenance(View())
      modifies this
      ensures (View(), o) == Remove(old(View()), c) && Provenance(View())
    {
      RemoveKeeps(View(), c);
      hide Asserted;
      if c !in entries { return Missing; }
      if entries[c] == Feed { return Conflict; }
      var saved := entries;
      if c in Asserted(asserts) {
        entries := entries[c := Feed];
      } else {
        entries := entries - {c};
      }
      if |entries| > MAX_ENTRIES {
        entries := saved;
        return TooMany;
      }
      var changed := MaterializeLocked();
      o := Done;
    }
  }
}
