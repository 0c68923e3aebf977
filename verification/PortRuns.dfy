/** Blocked ports over whole runs: dpstat takes no lock and works slot by slot while helpers carry the
    bitmap from one slot to the other by reference. */
module PortRuns {
  import opened Wrappers
  import opened Bpf
  import opened BlockedPorts
  import opened ApplyRuns

  function Bitmap(k: Kernel, s: nat): MapId
    requires Ok(k) && s < SLOTS
  {
    k.slots[s].inner[PortsMap]
  }

  ghost predicate Holds(k: Kernel, id: MapId, words: seq<Word64>, n: nat)
    requires n <= |words|
  {
    id in k.heap && HasWords(k.heap[id], words, n)
  }

  /** How far set-blocked-ports has come, in terms of the bitmaps both slots refer to right now. */
  ghost predicate PortsInv(m: Node)
    requires Ok(m.k)
  {
    var b0, b1 := Bitmap(m.k, 0), Bitmap(m.k, 1);
    match m.dp
    case Off => true
    case Writing(words, slot, first, id, next) =>
      && |words| == PORT_WORDS && slot < SLOTS && next <= PORT_WORDS
      && (slot == 0 && id.Some? ==> (b0 == id.value || b0 == b1) && Holds(m.k, id.value, words, next))
      && (slot == 1 ==> first.Some? && Holds(m.k, first.value, words, PORT_WORDS))
      && (slot == 1 && id.None? ==> b0 == first.value || b0 == b1)
      && (slot == 1 && id.Some? ==>
            && b0 in {first.value, id.value} && b1 in {first.value, id.value}
            && Holds(m.k, id.value, words, next))
    case Finished(words) =>
      |words| == PORT_WORDS && Holds(m.k, b0, words, PORT_WORDS) && Holds(m.k, b1, words, PORT_WORDS)
  }

  /** All the maps dpstat has written into are bitmaps the loader created. */
  ghost predicate FirstIsBitmap(m: Node)
  {
    m.dp.Writing? && m.dp.first.Some? ==> m.dp.first.value in m.bitmaps
  }

  /** A helper write leaves the contents of every bitmap, and moves a slot's bitmap reference only to
      the one the other slot already has. */
  lemma HelperWriteOnBitmaps(m: Node, w: Write)
    requires Inv(m) && WriteOk(m.k, w, m.bitmaps)
    ensures var k' := Exec(m.k, w);
            && Ok(k')
            && (forall id :: id in m.bitmaps ==> id in k'.heap && k'.heap[id] == m.k.heap[id])
            && ((Bitmap(k', 0) == Bitmap(m.k, 0) && Bitmap(k', 1) == Bitmap(m.k, 1))
                || Bitmap(k', 0) == Bitmap(k', 1) == Bitmap(m.k, 0)
                || Bitmap(k', 0) == Bitmap(k', 1) == Bitmap(m.k, 1))
  {
    hide OnCourse;
    hide TodoOk;
    ExecKeepsOk(m.k, w, m.bitmaps);
  }

  lemma AdvanceKeepsPorts(m: Node)
    requires Inv(m) && PortsInv(m) && FirstIsBitmap(m)
    ensures Ok(Do(m, Advance).k) && PortsInv(Do(m, Advance))
  {
    if m.helper.Running? && m.helper.todo != [] {
      var w := m.helper.todo[0];
      assert WriteOk(m.k, w, m.bitmaps);
      HelperWriteOnBitmaps(m, w);
      assert Bitmap(m.k, 0) in m.bitmaps && Bitmap(m.k, 1) in m.bitmaps by {
        InstalledBitmap(m.k, 0, m.bitmaps);
        InstalledBitmap(m.k, 1, m.bitmaps);
      }
      hide Exec;
      hide OnCourse;
      hide TodoOk;
      hide Separate;
    }
  }

  lemma StoreKeepsHolds(k: Kernel, id: MapId, i: nat, words: seq<Word64>, other: MapId, n: nat)
    requires id in k.heap && i < |words| && n <= |words|
    requires Holds(k, other, words, n)
    ensures var k' := Exec(k, Store(id, Word(i), Bits(words[i]))); Holds(k', other, words, n)
    ensures var k' := Exec(k, Store(id, Word(i), Bits(words[i]))); other == id && n == i ==> Holds(k', id, words, i + 1)
  {
  }

  lemma PortsStepKeepsPorts(m: Node)
    requires Inv(m) && PortsInv(m) && FirstIsBitmap(m)
    ensures Ok(Do(m, PortsStep).k) && PortsInv(Do(m, PortsStep))
  {
    hide OnCourse;
    hide TodoOk;
    if m.dp.Writing? && m.dp.id.Some? && m.dp.next < |m.dp.words| {
      var d := m.dp;
      assert d.id.value in m.k.heap;
      StoreKeepsHolds(m.k, d.id.value, d.next, d.words, d.id.value, d.next);
      if d.slot == 1 {
        StoreKeepsHolds(m.k, d.id.value, d.next, d.words, d.first.value, PORT_WORDS);
      }
      hide Holds;
    } else {
      hide Separate;
      hide HasWords;
    }
  }

  /** Every step keeps the progress of set-blocked-ports, whatever the helpers do meanwhile. */
  lemma StepKeepsPorts(m: Node, e: Event)
    requires Inv(m) && PortsInv(m) && FirstIsBitmap(m)
    ensures Inv(Do(m, e)) && PortsInv(Do(m, e)) && FirstIsBitmap(Do(m, e))
  {
    StepKeepsInv(m, e);
    match e
    case Advance => AdvanceKeepsPorts(m);
    case PortsStep => PortsStepKeepsPorts(m);
    case Start(r, ids) => hide OnCourse; hide TodoOk; hide Separate;
    case Stop =>
    case PortsStart(ws) =>
    case PortsAbort =>
  }

  /** No new set-blocked-ports is started. */
  predicate NoPortsStart(es: seq<Event>) { forall e :: e in es ==> !e.PortsStart? }

  lemma {:induction false} RunKeepsPorts(m: Node, es: seq<Event>)
    requires Inv(m) && PortsInv(m) && FirstIsBitmap(m)
    ensures PortsInv(Run(m, es)) && FirstIsBitmap(Run(m, es))
    ensures m.dp.Finished? && NoPortsStart(es) ==> Run(m, es).dp == m.dp
    decreases es
  {
    hide PortsInv;
    hide OnCourse;
    hide TodoOk;
    hide Separate;
    if es != [] {
      StepKeepsPorts(m, es[0]);
      RunKeepsPorts(Do(m, es[0]), es[1..]);
      assert m.dp.Finished? && !es[0].PortsStart? ==> Do(m, es[0]).dp == m.dp;
    }
  }

  /** Once set-blocked-ports has finished writing the words of `ports`, interleaved in any way with
      applies and crashes, the live lookup blocks exactly those ports, and it stays so over every later
      run of applies. */
  lemma BlockedPortsSurviveFlips(m: Node, es: seq<Event>, ports: seq<nat>, port: nat)
    requires Inv(m) && PortsInv(m) && FirstIsBitmap(m)
    requires m.dp.Finished? && NoPortsStart(es) && port < 65536
    requires |m.dp.words| == PORT_WORDS && (BitSet(m.dp.words, port) <==> port in ports)
    ensures var k := Run(m, es).k;
            Ok(k) && PortBlocked(View(k, k.active).inner[PortsMap], port) == Some(port in ports)
  {
    RunKeepsPorts(m, es);
    var m' := Run(m, es);
    CompleteBitmapAnswers(m'.k.heap[Bitmap(m'.k, m'.k.active)], m.dp.words, port);
  }

  // ----- Progress -----

  /** How many more steps set-blocked-ports needs: for each slot, the lookup, the words and the end. */
  function StepsLeft(d: Dpstat): nat
  {
    match d
    case Writing(words, slot, _, id, next) =>
      (if slot == 0 then PORT_WORDS + 2 else 0)
      + (if id.None? then PORT_WORDS + 2 else if next <= PORT_WORDS then PORT_WORDS - next + 1 else 1)
    case _ => 0
  }

  function PortSteps(es: seq<Event>): nat { if es == [] then 0 else (if es[0].PortsStep? then 1 else 0) + PortSteps(es[1..]) }

  /** Nobody interrupts or restarts set-blocked-ports. */
  ghost predicate LeftAlone(es: seq<Event>) { forall e :: e in es ==> !e.PortsStart? && !e.PortsAbort? }

  lemma PortsStepAdvances(m: Node)
    requires Inv(m) && PortsInv(m) && m.dp.Writing?
    ensures var d := Do(m, PortsStep).dp;
            && (d.Writing? ==> d.words == m.dp.words && StepsLeft(d) < StepsLeft(m.dp))
            && (!d.Writing? ==> d == Finished(m.dp.words))
            && (m.dp.slot < SLOTS)
  {
    hide OnCourse;
    hide TodoOk;
    hide Separate;
    hide Holds;
  }

  lemma OtherStepKeepsPort(m: Node, e: Event)
    requires Ok(m.k) && !e.PortsStart? && !e.PortsAbort? && !e.PortsStep?
    ensures Do(m, e).dp == m.dp
  {
    hide PlanOf;
  }

  /** However applies and crashes interleave, set-blocked-ports is done with its words after a fixed number
      of its own steps, and stays done. */
  lemma {:induction false} PortsFinish(m: Node, es: seq<Event>)
    requires Inv(m) && PortsInv(m) && FirstIsBitmap(m) && LeftAlone(es)
    requires (m.dp.Writing? && StepsLeft(m.dp) <= PortSteps(es)) || m.dp.Finished?
    ensures Run(m, es).dp == Finished(m.dp.words)
    decreases es
  {
    hide PortsInv;
    hide OnCourse;
    hide TodoOk;
    hide Separate;
    hide Do;
    hide StepsLeft;
    if es == [] {
      if m.dp.Writing? {
        SomeStepsLeft(m.dp);
      }
    } else {
      var e := es[0];
      assert e in es && LeftAlone(es[1..]);
      StepKeepsPorts(m, e);
      if e.PortsStep? && m.dp.Writing? {
        PortsStepAdvances(m);
      } else if e.PortsStep? {
        FinishedStays(m);
      } else {
        OtherStepKeepsPort(m, e);
      }
      PortsFinish(Do(m, e), es[1..]);
    }
  }

  lemma SomeStepsLeft(d: Dpstat)
    requires d.Writing?
    ensures StepsLeft(d) > 0
  {
  }

  lemma FinishedStays(m: Node)
    requires Ok(m.k) && m.dp.Finished?
    ensures Do(m, PortsStep).dp == m.dp
  {
  }

  /** From the loader: started once and left alone for its own 2052 steps, the command blocks exactly the
      ports of its words, in the live slot, whatever applies go on meanwhile. */
  lemma PortsTakeEffect(m: Node, before: seq<Event>, ws: seq<Word64>, es: seq<Event>, port: nat)
    requires Loaded(m) && |ws| == PORT_WORDS && port < 65536
    requires Inv(m) && !Run(m, before).dp.Writing? && LeftAlone(es) && PortSteps(es) >= 2 * (PORT_WORDS + 2)
    ensures var k := Run(m, before + [PortsStart(ws)] + es).k;
            Ok(k) && (port in LivePorts(k) <==> BitSet(ws, port))
  {
    hide OnCourse;
    hide TodoOk;
    hide Separate;
    hide Loaded;
    hide LivePorts;
    hide BitSet;
    LoadedIsInv(m);
    var m1 := Run(m, before);
    RunSnoc(m, before, PortsStart(ws));
    var m2 := Run(m, before + [PortsStart(ws)]);
    assert m2.dp == Writing(ws, 0, None, None, 0);
    RunKeepsPorts(m, before + [PortsStart(ws)]);
    RunAppend(m, before + [PortsStart(ws)], es);
    hide Do;
    hide PortsInv;
    hide Run;
    PortsFinish(m2, es);
    PortsFromLoader(m, before + [PortsStart(ws)] + es);
  }

  // ----- Every word of every bitmap exists -----

  ghost predicate WordsInv(m: Node)
  {
    forall id :: id in m.bitmaps ==> id in m.k.heap && AllWords(m.k.heap[id])
  }

  /** No bitmap has a bit set and set-blocked-ports is not running. */
  ghost predicate NoneBlocked(m: Node)
  {
    && m.dp.Off?
    && forall id :: id in m.bitmaps ==> id in m.k.heap && HasWords(m.k.heap[id], NoWords(), PORT_WORDS)
  }

  function NoWords(): seq<Word64> { seq(PORT_WORDS, _ => {}) }

  lemma StoreKeepsWords(bitmap: Inner, i: nat, word: Word64)
    requires AllWords(bitmap)
    ensures AllWords(bitmap[Word(i) := Bits(word)])
  {
  }

  lemma StepKeepsWords(m: Node, e: Event)
    requires Inv(m) && WordsInv(m)
    ensures WordsInv(Do(m, e))
    ensures NoneBlocked(m) && !e.PortsStart? ==> NoneBlocked(Do(m, e))
  {
    hide OnCourse;
    hide PlanOf;
    hide AllWords;
    hide HasWords;
    if e.Advance? && m.helper.Running? && m.helper.todo != [] {
      assert WriteOk(m.k, m.helper.todo[0], m.bitmaps);
      hide TodoOk;
      HelperWriteOnBitmaps(m, m.helper.todo[0]);
    } else if e.PortsStep? && m.dp.Writing? && m.dp.id.Some? && m.dp.next < |m.dp.words| {
      StoreKeepsWords(m.k.heap[m.dp.id.value], m.dp.next, m.dp.words[m.dp.next]);
    }
  }

  lemma {:induction false} RunKeepsWords(m: Node, es: seq<Event>)
    requires Inv(m) && WordsInv(m)
    ensures WordsInv(Run(m, es))
    ensures NoneBlocked(m) && NoPortsStart(es) ==> NoneBlocked(Run(m, es))
    decreases es
  {
    hide WordsInv;
    hide NoneBlocked;
    hide OnCourse;
    hide TodoOk;
    hide Separate;
    if es != [] {
      StepKeepsInv(m, es[0]);
      StepKeepsWords(m, es[0]);
      assert NoPortsStart(es) ==> !es[0].PortsStart? && NoPortsStart(es[1..]);
      RunKeepsWords(Do(m, es[0]), es[1..]);
    }
  }

  // ----- The state the loader leaves -----

  /** Nothing is running, every map has its own inner map in each slot, empty but for the words of the
      port bitmaps, which are zero, and no deny flag is set. */
  ghost predicate Loaded(m: Node)
  {
    && Ok(m.k) && m.helper.Idle? && m.dp.Off?
    && m.bitmaps == {Bitmap(m.k, 0), Bitmap(m.k, 1)}
    && (forall s, t, o: Outer, q: Outer :: 0 <= s < SLOTS && 0 <= t < SLOTS && (s != t || o != q) ==>
         m.k.slots[s].inner[o] != m.k.slots[t].inner[q])
    && (forall s :: 0 <= s < SLOTS ==> m.k.slots[s].flags == DenyFlags(false, false))
    && (forall s, o: Outer :: 0 <= s < SLOTS && !o.PortsMap? ==> m.k.heap[m.k.slots[s].inner[o]] == map[])
    && (forall s :: 0 <= s < SLOTS ==> HasWords(m.k.heap[Bitmap(m.k, s)], NoWords(), PORT_WORDS))
  }

  /** The invariants hold from the start, so every run theorem applies to every run of a loaded node. */
  lemma LoadedIsInv(m: Node)
    requires Loaded(m)
    ensures Inv(m) && PortsInv(m) && FirstIsBitmap(m) && WordsInv(m) && NoneBlocked(m)
  {
    assert SLOTS == 2;
    forall s, o: Outer | 0 <= s < SLOTS && !o.PortsMap? ensures m.k.slots[s].inner[o] !in m.bitmaps {
      assert m.k.slots[s].inner[o] != m.k.slots[0].inner[PortsMap];
      assert m.k.slots[s].inner[o] != m.k.slots[1].inner[PortsMap];
    }
  }

  /** What the live slot blocks right now. */
  ghost function LivePorts(k: Kernel): set<nat>
    requires Ok(k)
  {
    BlockedBy(k.heap[Bitmap(k, k.active)])
  }

  /** From the loader on, over every interleaving: the live bitmap answers every port, blocks nothing
      before the first set-blocked-ports, and exactly the ports of the last one when it has finished. */
  lemma PortsFromLoader(m: Node, es: seq<Event>)
    requires Loaded(m)
    ensures var m' := Run(m, es);
            && Ok(m'.k) && AllWords(m'.k.heap[Bitmap(m'.k, m'.k.active)])
            && (NoPortsStart(es) ==> LivePorts(m'.k) == {})
            && (m'.dp.Finished? ==> |m'.dp.words| == PORT_WORDS && forall port: nat :: port < 65536 ==>
                  (port in LivePorts(m'.k) <==> BitSet(m'.dp.words, port)))
  {
    hide BlockedBy;
    hide AllWords;
    hide Run;
    LoadedIsInv(m);
    RunKeepsWords(m, es);
    RunKeepsPorts(m, es);
    LiveBitmap(Run(m, es));
    if NoPortsStart(es) {
      UnsetBlocksNone(Run(m, es));
    }
    if Run(m, es).dp.Finished? {
      FinishedBlocks(Run(m, es));
    }
    hide Inv;
    hide PortsInv;
    hide WordsInv;
    hide Loaded;
  }

  lemma LiveBitmap(m: Node)
    requires Inv(m) && WordsInv(m)
    ensures Ok(m.k) && AllWords(m.k.heap[Bitmap(m.k, m.k.active)])
  {
    hide OnCourse;
    hide TodoOk;
    hide AllWords;
  }

  lemma UnsetBlocksNone(m: Node)
    requires Inv(m) && NoneBlocked(m)
    ensures Ok(m.k) && LivePorts(m.k) == {}
  {
    hide OnCourse;
    hide TodoOk;
    var bitmap := m.k.heap[Bitmap(m.k, m.k.active)];
    forall port: nat | port < 65536 ensures port !in BlockedBy(bitmap) {
      CompleteBitmapAnswers(bitmap, NoWords(), port);
    }
  }

  lemma FinishedBlocks(m: Node)
    requires Inv(m) && PortsInv(m) && m.dp.Finished?
    ensures Ok(m.k) && |m.dp.words| == PORT_WORDS
    ensures forall port: nat :: port < 65536 ==> (port in LivePorts(m.k) <==> BitSet(m.dp.words, port))
  {
    hide OnCourse;
    hide TodoOk;
    hide Separate;
    var bitmap := m.k.heap[Bitmap(m.k, m.k.active)];
    forall port: nat | port < 65536 ensures port in BlockedBy(bitmap) <==> BitSet(m.dp.words, port) {
      CompleteBitmapAnswers(bitmap, m.dp.words, port);
    }
  }
}
