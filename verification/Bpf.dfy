/** The pinned BPF maps of the gateway. Inner maps live in a table keyed by their BPF map id, and
    the two slots of an ARRAY_OF_MAPS hold ids, so two slots can share one inner map. */
module Bpf {
  import opened Wrappers
  import opened Arith
  import opened Ipv4
  import opened Snapshot

  const SLOTS: nat := 2
  const CONFIG_VERSION: nat := 1
  const U32: nat := 0x1_0000_0000

  type MapId = nat

  /** A 64-bit map word as the set of its one bits. */
  type Word64 = set<nat>

  datatype Outer =
    | ServiceMap | RuleBlockMap | WlBloomMap | WlLpmMap | VipMap | SvcRlMap | FairMap
    | GblBloomMap | GblLpmMap | PortsMap

  /** The maps rebuilt by a service apply, and those rebuilt by a global deny apply. */
  predicate IsService(o: Outer) { !IsGlobal(o) && !o.PortsMap? }

  predicate IsGlobal(o: Outer) { o.GblBloomMap? || o.GblLpmMap? }

  /** A trie key is the network-order namespace (service id, or 0) and a canonical block. */
  datatype Key = Lpm(ns: nat, c: Cidr) | Id(id: nat) | Bloom(ns: nat, src24: nat) | Word(index: nat)

  datatype Val =
    | SvcVal(serviceId: nat, enabled: nat, wlFlags: nat)
    | RuleBlock(version: nat, rules: seq<Rule>)
    | Rates(version: nat, flags: nat, pps: nat, bps: nat)
    | FairVal(version: nat, committed: nat, burst: nat, capBps: nat, capPps: nat)
    | Present
    | Bits(word: Word64)

  type Inner = map<Key, Val>

  datatype NodeConfig = NodeConfig(version: nat, headroom: nat)

  datatype DenyFlags = DenyFlags(active: bool, broad: bool)

  datatype Slot = Slot(inner: map<Outer, MapId>, node: NodeConfig, flags: DenyFlags)

  datatype Kernel = Kernel(heap: map<MapId, Inner>, slots: seq<Slot>, active: nat, version: nat)

  /** What a packet that read a slot number can reach through it. */
  datatype SlotView = SlotView(inner: map<Outer, Inner>, node: NodeConfig, flags: DenyFlags)

  ghost predicate Ok(k: Kernel)
  {
    && |k.slots| == SLOTS && k.active < SLOTS
    && forall s, o: Outer :: 0 <= s < SLOTS ==> o in k.slots[s].inner && k.slots[s].inner[o] in k.heap
  }

  function Inactive(k: Kernel): nat
    requires k.active < SLOTS
  {
    1 - k.active
  }

  ghost function View(k: Kernel, s: nat): SlotView
    requires Ok(k) && s < SLOTS
  {
    SlotView(map o: Outer | true :: k.heap[k.slots[s].inner[o]], k.slots[s].node, k.slots[s].flags)
  }

  // ----- Single map writes -----

  datatype Write =
    | Create(id: MapId)
    | Store(id: MapId, key: Key, val: Val)
    | SetNode(slot: nat, node: NodeConfig)
    | SetFlags(slot: nat, flags: DenyFlags)
    | Install(slot: nat, outer: Outer, id: MapId)
    | Commit(slot: nat, version: nat)

  /** One bpf(2) call, if its operands exist; a bad operand is refused and changes nothing. */
  function Exec(k: Kernel, w: Write): (k': Kernel)
    ensures |k'.slots| == |k.slots|
  {
    match w
    case Create(id) => if id in k.heap then k else k.(heap := k.heap[id := map[]])
    case Store(id, key, val) => if id in k.heap then k.(heap := k.heap[id := k.heap[id][key := val]]) else k
    case SetNode(s, n) => if s < |k.slots| then k.(slots := k.slots[s := k.slots[s].(node := n)]) else k
    case SetFlags(s, f) => if s < |k.slots| then k.(slots := k.slots[s := k.slots[s].(flags := f)]) else k
    case Install(s, o, id) =>
      if s < |k.slots| && id in k.heap
      then k.(slots := k.slots[s := k.slots[s].(inner := k.slots[s].inner[o := id])])
      else k
    case Commit(s, v) => k.(active := s, version := v)
  }

  function ExecAll(k: Kernel, ws: seq<Write>): Kernel
    decreases ws
  {
    if ws == [] then k else ExecAll(Exec(k, ws[0]), ws[1..])
  }

  lemma {:induction false} ExecAllConcat(k: Kernel, a: seq<Write>, b: seq<Write>)
    ensures ExecAll(k, a + b) == ExecAll(ExecAll(k, a), b)
    decreases a
  {
    hide Exec;
    if a == [] {
      assert a + b == b;
    } else {
      assert (a + b)[1..] == a[1..] + b;
      ExecAllConcat(Exec(k, a[0]), a[1..], b);
    }
  }

  // ----- Contents of freshly created inner maps -----

  datatype Put = Put(outer: Outer, key: Key, val: Val)

  /** What an empty inner map of `o` holds after the puts: the last value written to each key. */
  function Contents(ps: seq<Put>, o: Outer): Inner
  {
    if ps == [] then map[]
    else
      var p := ps[|ps| - 1];
      var m := Contents(ps[..|ps| - 1], o);
      if p.outer == o then m[p.key := p.val] else m
  }

  lemma {:induction false} ContentsMember(ps: seq<Put>, o: Outer, key: Key)
    ensures key in Contents(ps, o) <==> exists p :: p in ps && p.outer == o && p.key == key
  {
    if ps != [] {
      var q := ps[|ps| - 1];
      var rest := ps[..|ps| - 1];
      ContentsMember(rest, o, key);
      assert ps == rest + [q];
    }
  }

  /** A key all of whose puts agree holds the agreed value. */
  lemma {:induction false} ContentsValue(ps: seq<Put>, o: Outer, key: Key, val: Val)
    requires exists p :: p in ps && p.outer == o && p.key == key
    requires forall p :: p in ps && p.outer == o && p.key == key ==> p.val == val
    ensures key in Contents(ps, o) && Contents(ps, o)[key] == val
  {
    var q := ps[|ps| - 1];
    var rest := ps[..|ps| - 1];
    assert ps == rest + [q];
    if q.outer != o || q.key != key {
      ContentsValue(rest, o, key, val);
    }
  }

  /** Whatever a key holds, some put wrote it. */
  lemma {:induction false} ContentsFrom(ps: seq<Put>, o: Outer, key: Key) returns (p: Put)
    requires key in Contents(ps, o)
    ensures p in ps && p.outer == o && p.key == key && p.val == Contents(ps, o)[key]
  {
    var q := ps[|ps| - 1];
    var rest := ps[..|ps| - 1];
    assert ps == rest + [q];
    if q.outer == o && q.key == key {
      p := q;
    } else {
      p := ContentsFrom(rest, o, key);
    }
  }

  // ----- Longest-prefix lookup -----

  /** A trie lookup: the entry with the longest matching prefix of at most `len` bits. */
  function LpmLookup(m: Inner, ns: nat, ip: nat, len: nat): Option<Val>
    requires len <= 32
  {
    var key := Lpm(ns, Cidr(len, Mask(ip, len)));
    if key in m then Some(m[key]) else if len == 0 then None else LpmLookup(m, ns, ip, len - 1)
  }

  /** What a lookup returns is stored under some block of the namespace. */
  lemma {:induction false} LpmHit(m: Inner, ns: nat, ip: nat, len: nat) returns (c: Cidr)
    requires len <= 32 && LpmLookup(m, ns, ip, len).Some?
    ensures Lpm(ns, c) in m && LpmLookup(m, ns, ip, len) == Some(m[Lpm(ns, c)])
  {
    c := Cidr(len, Mask(ip, len));
    if Lpm(ns, c) !in m {
      c := LpmHit(m, ns, ip, len - 1);
    }
  }

  ghost predicate Matches(m: Inner, ns: nat, c: Cidr, ip: nat)
  {
    Lpm(ns, c) in m && Canonical(c) && Contains(c, ip)
  }

  /** A canonical block that contains the address is the masked address at its length. */
  lemma MatchIsMask(c: Cidr, ip: nat)
    requires Canonical(c) && Contains(c, ip)
    ensures c == Cidr(c.len, Mask(ip, c.len))
  {
    ContainsIffSameMask(c, ip);
    FloorToFacts(c.addr, Span(c.len));
    DivBounds(c.addr, Span(c.len));
    assert c.addr == c.addr / Span(c.len) * Span(c.len) + c.addr % Span(c.len);
  }

  lemma MaskIsMatch(m: Inner, ns: nat, ip: nat, len: nat)
    requires len <= 32 && ip < ADDR_SPACE
    requires Lpm(ns, Cidr(len, Mask(ip, len))) in m
    ensures Matches(m, ns, Cidr(len, Mask(ip, len)), ip)
  {
    MaskFacts(ip, len);
  }

  /** The lookup finds nothing exactly when no stored block of at most `len` bits contains the address. */
  lemma {:induction false} LpmMissIff(m: Inner, ns: nat, ip: nat, len: nat)
    requires len <= 32 && ip < ADDR_SPACE
    ensures LpmLookup(m, ns, ip, len).None? <==> forall c :: Matches(m, ns, c, ip) ==> c.len > len
  {
    var key := Cidr(len, Mask(ip, len));
    if Lpm(ns, key) in m {
      MaskIsMatch(m, ns, ip, len);
    } else {
      forall c | Matches(m, ns, c, ip) && c.len == len ensures false {
        MatchIsMask(c, ip);
      }
      if len > 0 {
        LpmMissIff(m, ns, ip, len - 1);
      }
    }
  }

  /** When only one stored block contains the address, the lookup returns that block's value. */
  lemma {:induction false} LpmUnique(m: Inner, ns: nat, ip: nat, len: nat, c: Cidr)
    requires len <= 32 && ip < ADDR_SPACE
    requires Matches(m, ns, c, ip) && c.len <= len
    requires forall d :: Matches(m, ns, d, ip) ==> d == c
    ensures LpmLookup(m, ns, ip, len) == Some(m[Lpm(ns, c)])
  {
    if Lpm(ns, Cidr(len, Mask(ip, len))) in m {
      MaskIsMatch(m, ns, ip, len);
    } else {
      MatchIsMask(c, ip);
      LpmUnique(m, ns, ip, len - 1, c);
    }
  }
}
