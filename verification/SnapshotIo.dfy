/** The snapshot reader and writer as they are written: a cursor advanced in place by the apply
    helper, and a byte buffer extended in loops by the serializer. */
module SnapshotIo {
  import opened Wrappers
  import opened Wire
  import opened Ipv4
  import opened Snapshot

  lemma {:induction false} GetLeSnoc(b: seq<Byte>, x: Byte)
    ensures GetLe(b + [x]) == GetLe(b) + x * Limit(|b|)
  {
    if b != [] {
      GetLeSnoc(b[1..], x);
      assert (b + [x])[1..] == b[1..] + [x];
      assert x * Limit(|b|) == 256 * (x * Limit(|b| - 1));
    }
  }

  /** What a loop that has already read `done` will return. */
  function Prepend<T>(done: seq<T>, r: Option<(seq<T>, seq<Byte>)>): Option<(seq<T>, seq<Byte>)>
  {
    match r
    case None => None
    case Some((tail, rest)) => Some((done + tail, rest))
  }

  lemma PrependNothing<T>(r: Option<(seq<T>, seq<Byte>)>)
    ensures Prepend([], r) == r
  {
    if r.Some? {
      assert [] + r.value.0 == r.value.0;
    }
  }

  lemma ContinueRecord(layout: seq<Field>, i: nat, b: seq<Byte>, done: seq<nat>)
    requires i < |layout|
    ensures Prepend(done, Unpack(layout[i..], b)) ==
            if |b| < Width(layout[i]) then None
            else Prepend(done + [Get(layout[i], b[..Width(layout[i])])],
                         Unpack(layout[i + 1..], b[Width(layout[i])..]))
  {
    assert layout[i..][0] == layout[i] && layout[i..][1..] == layout[i + 1..];
    var more := Unpack(layout[i..], b);
    if more.Some? {
      assert done + more.value.0 == (done + [more.value.0[0]]) + more.value.0[1..];
    }
  }

  lemma ContinueRecords(layout: seq<Field>, b: seq<Byte>, n: nat, done: seq<seq<nat>>)
    requires n > 0
    ensures Prepend(done, UnpackAll(layout, b, n)) ==
            match Unpack(layout, b)
            case None => None
            case Some((rec, b1)) => Prepend(done + [rec], UnpackAll(layout, b1, n - 1))
  {
    hide Unpack;
    var more := UnpackAll(layout, b, n);
    if more.Some? {
      assert done + more.value.0 == (done + [more.value.0[0]]) + more.value.0[1..];
    }
  }

  lemma ContinueBlocks(m: Format, b: seq<Byte>, n: nat, done: seq<Block>)
    requires FormatOk(m) && n > 0
    ensures Prepend(done, UnpackBlocks(m, b, n)) ==
            match UnpackBlock(m, b)
            case None => None
            case Some((k, b1)) => Prepend(done + [k], UnpackBlocks(m, b1, n - 1))
  {
    hide UnpackBlock;
    var more := UnpackBlocks(m, b, n);
    if more.Some? {
      assert done + more.value.0 == (done + [more.value.0[0]]) + more.value.0[1..];
    }
  }

  /** struct rdcur: every read is length-checked, and a failed read stops the parse. */
  class Cursor {
    const buf: seq<Byte>
    var pos: nat

    ghost predicate Valid()
      reads this
    {
      pos <= |buf|
    }

    ghost function Rest(): seq<Byte>
      requires Valid()
      reads this
    {
      buf[pos..]
    }

    constructor (bytes: seq<Byte>, start: nat)
      requires start <= |bytes|
      ensures Valid() && Rest() == bytes[start..]
    {
      buf := bytes;
      pos := start;
    }

    method ReadField(f: Field) returns (r: Option<nat>)
      requires Valid()
      modifies `pos
      ensures Valid()
      ensures |old(Rest())| < Width(f) ==> r.None?
      ensures |old(Rest())| >= Width(f) ==>
                r == Some(Get(f, old(Rest())[..Width(f)])) && Rest() == old(Rest())[Width(f)..]
    {
      var n := Width(f);
      if |buf| - pos < n { return None; }
      ghost var field := buf[pos..][..n];
      ghost var word := if f.Be4? then Reversed(field) else field;
      var v: nat, unit: nat := 0, 1;
      for i := 0 to n
        invariant pos == old(pos) && unit == Limit(i) && v == GetLe(word[..i])
      {
        var byte := if f.Be4? then buf[pos + (n - 1 - i)] else buf[pos + i];
        GetLeSnoc(word[..i], byte);
        assert word[..i + 1] == word[..i] + [byte];
        v, unit := v + byte * unit, 256 * unit;
      }
      assert word[..n] == word;
      pos := pos + n;
      r := Some(v);
    }

    method ReadRecord(layout: seq<Field>) returns (r: Option<seq<nat>>)
      requires Valid()
      modifies `pos
      ensures Valid()
      ensures match Unpack(layout, old(Rest()))
              case None => r.None?
              case Some((rec, rest)) => r == Some(rec) && Rest() == rest
      ensures r.Some? ==> |r.value| == |layout|
    {
      hide Get;
      ghost var start := Rest();
      var rec: seq<nat> := [];
      PrependNothing(Unpack(layout, start));
      assert layout[0..] == layout;
      for i := 0 to |layout|
        invariant Valid() && |rec| == i
        invariant Unpack(layout, start) == Prepend(rec, Unpack(layout[i..], Rest()))
      {
        hide Unpack;
        ContinueRecord(layout, i, Rest(), rec);
        var v := ReadField(layout[i]);
        if v.None? { return None; }
        rec := rec + [v.value];
      }
      assert rec + [] == rec;
      r := Some(rec);
    }

    method ReadRecords(layout: seq<Field>, n: nat) returns (r: Option<seq<seq<nat>>>)
      requires Valid()
      modifies `pos
      ensures Valid()
      ensures match UnpackAll(layout, old(Rest()), n)
              case None => r.None?
              case Some((recs, rest)) => r == Some(recs) && Rest() == rest
      ensures r.Some? ==> |r.value| == n && forall i :: 0 <= i < n ==> |r.value[i]| == |layout|
    {
      hide Unpack;
      ghost var start := Rest();
      var recs: seq<seq<nat>> := [];
      PrependNothing(UnpackAll(layout, start, n));
      for i := 0 to n
        invariant Valid() && |recs| == i
        invariant forall j :: 0 <= j < i ==> |recs[j]| == |layout|
        invariant UnpackAll(layout, start, n) == Prepend(recs, UnpackAll(layout, Rest(), n - i))
      {
        hide UnpackAll;
        ContinueRecords(layout, Rest(), n - i, recs);
        var rec := ReadRecord(layout);
        if rec.None? { return None; }
        recs := recs + [rec.value];
      }
      assert recs + [] == recs;
      r := Some(recs);
    }

    /** parse_service and parse_source_list. */
    method ParseService() returns (r: Option<Service>)
      requires Valid() && FormatOk(SERVICE_FORMAT)
      modifies `pos
      ensures Valid()
      ensures match UnpackBlock(SERVICE_FORMAT, old(Rest()))
              case None => r.None?
              case Some((k, rest)) => BlockShaped(SERVICE_FORMAT, k) && r == Some(ServiceOf(k)) && Rest() == rest
    {
      hide Unpack;
      hide UnpackAll;
      hide Fits;
      hide AllFit;
      hide Limit;
      hide ServiceOf;
      hide ToService;
      hide BlockShaped;
      ghost var start := Rest();
      var f := ReadRecord(SERVICE_LAYOUT);
      if f.None? { return None; }
      if f.value[5] != 0 { return None; }
      if f.value[14] > RULE_MAX { return None; }
      var rules := ReadRecords(RULE_LAYOUT, f.value[14]);
      if rules.None? { return None; }
      var n := ReadRecord(U32_LAYOUT);
      if n.None? { return None; }
      if n.value[0] > MAX_LIST_ENTRIES { return None; }
      var wl := ReadRecords(CIDR_LAYOUT, n.value[0]);
      if wl.None? { return None; }
      r := Some(ToService(f.value, ToRules(rules.value), ToCidrs(wl.value)));
      ServiceOfParts(f.value, rules.value, wl.value);
    }

    method ParseServices(n: nat) returns (r: Option<seq<Service>>)
      requires Valid() && FormatOk(SERVICE_FORMAT)
      modifies `pos
      ensures Valid()
      ensures match UnpackBlocks(SERVICE_FORMAT, old(Rest()), n)
              case None => r.None?
              case Some((ks, rest)) => BlocksShaped(SERVICE_FORMAT, ks) && r == Some(ServicesOf(ks)) && Rest() == rest
    {
      hide UnpackBlock;
      hide ServiceOf;
      ghost var start := Rest();
      ghost var done: seq<Block> := [];
      PrependNothing(UnpackBlocks(SERVICE_FORMAT, start, n));
      var ss: seq<Service> := [];
      for i := 0 to n
        invariant Valid()
        invariant BlocksShaped(SERVICE_FORMAT, done) && ss == ServicesOf(done)
        invariant UnpackBlocks(SERVICE_FORMAT, start, n)
                  == Prepend(done, UnpackBlocks(SERVICE_FORMAT, Rest(), n - i))
      {
        hide UnpackBlocks;
        ContinueBlocks(SERVICE_FORMAT, Rest(), n - i, done);
        ghost var block := UnpackBlock(SERVICE_FORMAT, Rest());
        var s := ParseService();
        if s.None? { return None; }
        ServicesOfSnoc(done, block.value.0);
        ss, done := ss + [s.value], done + [block.value.0];
      }
      assert done + [] == done;
      r := Some(ss);
    }

    /** The entry loop of parse_global_deny: canonical form and order are checked entry by entry. */
    method ParseEntries(count: nat) returns (r: Option<seq<Cidr>>)
      requires Valid()
      modifies `pos
      ensures Valid()
      ensures match UnpackAll(CIDR_LAYOUT, old(Rest()), count)
              case None => r.None?
              case Some((es, rest)) =>
                if EntriesOk(ToCidrs(es)) then r == Some(ToCidrs(es)) && Rest() == rest else r.None?
    {
      hide Unpack;
      hide Canonical;
      hide Before;
      ghost var start := Rest();
      ghost var recs: seq<seq<nat>> := [];
      PrependNothing(UnpackAll(CIDR_LAYOUT, start, count));
      var entries: seq<Cidr> := [];
      for i := 0 to count
        invariant Valid() && |entries| == |recs| == i
        invariant (forall j :: 0 <= j < i ==> |recs[j]| == 2) && entries == ToCidrs(recs)
        invariant EntriesOk(entries)
        invariant UnpackAll(CIDR_LAYOUT, start, count) == Prepend(recs, UnpackAll(CIDR_LAYOUT, Rest(), count - i))
      {
        hide UnpackAll;
        ContinueRecords(CIDR_LAYOUT, Rest(), count - i, recs);
        var rec := ReadRecord(CIDR_LAYOUT);
        if rec.None? { return None; }
        var entry := ToCidr(rec.value);
        recs := recs + [rec.value];
        assert entries + [entry] == ToCidrs(recs);
        if !Canonical(entry) || (i > 0 && !Before(entries[i - 1], entry)) {
          assert !EntriesOk(ToCidrs(recs)) by {
            assert ToCidrs(recs)[i] == entry && (i > 0 ==> ToCidrs(recs)[i - 1] == entries[i - 1]);
          }
          BadEntryRejected(recs, UnpackAll(CIDR_LAYOUT, Rest(), count - i - 1));
          return None;
        }
        entries := entries + [entry];
      }
      assert recs + [] == recs;
      r := Some(entries);
    }

    method ParseGlobalDeny() returns (r: Option<Snapshot>)
      requires Valid()
      modifies `pos
      ensures Valid()
      ensures (if r.Some? && Rest() == [] then r else None) == DecodeGlobalDeny(old(Rest()))
    {
      hide Unpack;
      hide UnpackAll;
      hide EntriesOk;
      var h := ReadRecord(GLOBAL_LAYOUT);
      if h.None? { return None; }
      var count := h.value[1];
      if count > MAX_GLOBAL_ENTRIES || count > (|buf| - pos) / 8 { return None; }
      var entries := ParseEntries(count);
      if entries.None? { return None; }
      r := Some(GlobalDeny(h.value[0], entries.value));
    }
  }

  lemma BadEntryRejected(recs: seq<seq<nat>>, more: Option<(seq<seq<nat>>, seq<Byte>)>)
    requires forall j :: 0 <= j < |recs| ==> |recs[j]| == 2
    requires !EntriesOk(ToCidrs(recs))
    requires more.Some? ==> AllFit(CIDR_LAYOUT, more.value.0)
    ensures more.Some? ==> (forall j :: 0 <= j < |recs + more.value.0| ==> |(recs + more.value.0)[j]| == 2)
                           && !EntriesOk(ToCidrs(recs + more.value.0))
  {
    if more.Some? {
      assert ToCidrs(recs + more.value.0)[..|recs|] == ToCidrs(recs);
    }
  }

  lemma ServiceOfParts(f: seq<nat>, rules: seq<seq<nat>>, wl: seq<seq<nat>>)
    requires |f| == |SERVICE_LAYOUT|
    requires forall i :: 0 <= i < |rules| ==> |rules[i]| == 6
    requires forall i :: 0 <= i < |wl| ==> |wl[i]| == 2
    ensures BlockShaped(SERVICE_FORMAT, Block(f, rules, wl))
    ensures ServiceOf(Block(f, rules, wl)) == ToService(f, ToRules(rules), ToCidrs(wl))
  {
  }

  lemma {:induction false} ServicesOfSnoc(ks: seq<Block>, k: Block)
    requires BlocksShaped(SERVICE_FORMAT, ks) && BlockShaped(SERVICE_FORMAT, k)
    ensures BlocksShaped(SERVICE_FORMAT, ks + [k])
    ensures ServicesOf(ks + [k]) == ServicesOf(ks) + [ServiceOf(k)]
  {
    hide ServiceOf;
    if ks != [] {
      ServicesOfSnoc(ks[1..], k);
      assert (ks + [k])[1..] == ks[1..] + [k];
    }
  }

  /** parse_snapshot: the whole file, or nothing. */
  method ParseSnapshot(bytes: seq<Byte>) returns (r: Option<Snapshot>)
    ensures r == Decode(bytes)
  {
    hide Unpack;
    hide UnpackBlocks;
    hide DecodeGlobalDeny;
    if |bytes| < HEADER_SIZE || |bytes| > MAX_BYTES { return None; }
    if bytes[..8] != MAGIC { return None; }
    var c := new Cursor(bytes, 8);
    var head := c.ReadRecord(HEAD_LAYOUT);
    if head.None? || head.value[0] != SCHEMA_VERSION { return None; }
    if head.value[1] == KIND_SERVICE_FULL {
      var n := c.ReadRecord(U32_LAYOUT);
      if n.None? || n.value[0] > MAX_SERVICES { return None; }
      ServiceFormatOk();
      var ss := c.ParseServices(n.value[0]);
      if ss.None? || c.pos != |c.buf| { return None; }
      r := Some(ServiceFull(ss.value));
    } else if head.value[1] == KIND_GLOBAL_DENY {
      var g := c.ParseGlobalDeny();
      if g.None? || c.pos != |c.buf| { return None; }
      r := g;
    } else {
      r := None;
    }
  }

  // ----- The serializer -----

  predicate ServiceFits(s: Service)
  {
    && Fits(SERVICE_LAYOUT, OfService(s))
    && AllFit(RULE_LAYOUT, OfRules(s.rules))
    && Fits(U32_LAYOUT, [|s.wl|])
    && AllFit(CIDR_LAYOUT, OfCidrs(s.wl))
  }

  /** serialize_node_snapshot: the buffer is extended record by record; a value that does not fit
      its field raises instead of being truncated. */
  method SerializeNode(ss: seq<Service>) returns (r: Option<seq<Byte>>)
    ensures r.Some? <==> Fits(U32_LAYOUT, [|ss|]) && forall i :: 0 <= i < |ss| ==> ServiceFits(ss[i])
    ensures r.Some? ==> r.value == Encode(ServiceFull(ss))
  {
    hide ServiceFits;
    hide EncodeHead;
    hide PackBlock;
    hide BlockOf;
    if !Fits(U32_LAYOUT, [|ss|]) { return None; }
    var payload := EncodeHead(KIND_SERVICE_FULL) + Pack(U32_LAYOUT, [|ss|]);
    Regroup3(EncodeHead(KIND_SERVICE_FULL), Pack(U32_LAYOUT, [|ss|]), PackBlocks(SERVICE_FORMAT, BlocksOf(ss)));
    assert ss[0..] == ss;
    for i := 0 to |ss|
      invariant payload + PackBlocks(SERVICE_FORMAT, BlocksOf(ss[i..])) == Encode(ServiceFull(ss))
      invariant forall j :: 0 <= j < i ==> ServiceFits(ss[j])
    {
      var s := ss[i];
      if !ServiceFits(s) { return None; }
      assert ss[i..][0] == s && ss[i..][1..] == ss[i + 1..];
      PackBlocksCons(SERVICE_FORMAT, BlockOf(s), BlocksOf(ss[i + 1..])) by { ServiceFormatOk(); }
      var record := SerializeService(s);
      Regroup3(payload, record, PackBlocks(SERVICE_FORMAT, BlocksOf(ss[i + 1..])));
      payload := payload + record;
    }
    assert BlocksOf(ss[|ss|..]) == [];
    assert payload + [] == payload;
    r := Some(payload);
  }

  method SerializeService(s: Service) returns (record: seq<Byte>)
    requires ServiceFits(s)
    ensures record == PackBlock(SERVICE_FORMAT, BlockOf(s))
  {
    hide Pack;
    hide PackAll;
    hide Fits;
    hide AllFit;
    hide OfService;
    hide OfRules;
    hide OfCidrs;
    record := Pack(SERVICE_LAYOUT, OfService(s));
    var rules := PackRecords(RULE_LAYOUT, OfRules(s.rules));
    var list := PackRecords(CIDR_LAYOUT, OfCidrs(s.wl));
    Regroup4(record, rules, Pack(U32_LAYOUT, [|s.wl|]), list);
    record := record + rules + Pack(U32_LAYOUT, [|s.wl|]) + list;
  }

  method PackRecords(layout: seq<Field>, recs: seq<seq<nat>>) returns (b: seq<Byte>)
    requires forall i :: 0 <= i < |recs| ==> |recs[i]| == |layout|
    ensures b == PackAll(layout, recs)
  {
    hide Pack;
    b := [];
    assert recs[0..] == recs && b + PackAll(layout, recs) == PackAll(layout, recs);
    for i := 0 to |recs|
      invariant b + PackAll(layout, recs[i..]) == PackAll(layout, recs)
    {
      assert recs[i..][0] == recs[i] && recs[i..][1..] == recs[i + 1..];
      Regroup3(b, Pack(layout, recs[i]), PackAll(layout, recs[i + 1..]));
      b := b + Pack(layout, recs[i]);
    }
    assert b + [] == b;
  }

  // ----- Sorting the global entries -----

  function Insert(c: Cidr, es: seq<Cidr>): (r: seq<Cidr>)
    ensures multiset(r) == multiset(es) + multiset{c}
  {
    if es == [] || Before(c, es[0]) then
      [c] + es
    else
      assert es == [es[0]] + es[1..];
      [es[0]] + Insert(c, es[1..])
  }

  /** `sorted(...)` over (prefix length, address bytes). */
  function Sorted(cs: seq<Cidr>): (r: seq<Cidr>)
    ensures multiset(r) == multiset(cs)
  {
    if cs == [] then [] else
      assert cs == [cs[0]] + cs[1..];
      Insert(cs[0], Sorted(cs[1..]))
  }

  predicate Ascending(es: seq<Cidr>)
  {
    forall i :: 0 < i < |es| ==> Before(es[i - 1], es[i])
  }

  lemma {:induction false} InsertAscends(c: Cidr, es: seq<Cidr>)
    requires Ascending(es) && c !in es
    ensures Ascending(Insert(c, es))
    ensures es != [] ==> Insert(c, es)[0] in [c, es[0]]
  {
    if es != [] && !Before(c, es[0]) {
      InsertAscends(c, es[1..]);
      assert c != es[0];
      assert Before(es[0], c);
      if |es| > 1 {
        assert Before(es[0], es[1]);
      }
      var tail := Insert(c, es[1..]);
      assert Before(es[0], tail[0]);
      forall i | 0 < i < |tail| + 1
        ensures Before(([es[0]] + tail)[i - 1], ([es[0]] + tail)[i])
      {
        if i > 1 {
          assert Before(tail[i - 2], tail[i - 1]);
        }
      }
    }
  }

  predicate Distinct(cs: seq<Cidr>)
  {
    forall i, j :: 0 <= i < j < |cs| ==> cs[i] != cs[j]
  }

  lemma {:induction false} SortedAscends(cs: seq<Cidr>)
    requires Distinct(cs)
    ensures Ascending(Sorted(cs))
  {
    if cs != [] {
      SortedAscends(cs[1..]);
      assert cs[0] !in multiset(cs[1..]);
      assert cs[0] !in multiset(Sorted(cs[1..]));
      InsertAscends(cs[0], Sorted(cs[1..]));
    }
  }

  /** serialize_global_snapshot. */
  method SerializeGlobal(revision: nat, cidrs: seq<Cidr>) returns (r: Option<seq<Byte>>)
    requires forall i :: 0 <= i < |cidrs| ==> Canonical(cidrs[i])
    ensures r.Some? <==> |cidrs| <= MAX_GLOBAL_ENTRIES && Fits(GLOBAL_LAYOUT, [revision, |cidrs|])
    ensures r.Some? ==> r.value == Encode(GlobalDeny(revision, Sorted(cidrs)))
  {
    hide Pack;
    hide PackAll;
    hide Fits;
    hide EncodeHead;
    if |cidrs| > MAX_GLOBAL_ENTRIES { return None; }
    var entries := Sorted(cidrs);
    assert |multiset(entries)| == |multiset(cidrs)|;
    if !Fits(GLOBAL_LAYOUT, [revision, |entries|]) { return None; }
    var list := PackRecords(CIDR_LAYOUT, OfCidrs(entries));
    Regroup3(EncodeHead(KIND_GLOBAL_DENY), Pack(GLOBAL_LAYOUT, [revision, |entries|]), list);
    r := Some(EncodeHead(KIND_GLOBAL_DENY) + Pack(GLOBAL_LAYOUT, [revision, |entries|]) + list);
  }

  /** Whatever order the control plane stores them in, a set of distinct canonical CIDRs reaches the
      helper complete and acceptable. */
  lemma {:induction false} GlobalSetSurvives(revision: nat, cidrs: seq<Cidr>)
    requires Distinct(cidrs) && forall i :: 0 <= i < |cidrs| ==> Canonical(cidrs[i])
    requires |cidrs| <= MAX_GLOBAL_ENTRIES && Fits(GLOBAL_LAYOUT, [revision, |cidrs|])
    ensures Decode(Encode(GlobalDeny(revision, Sorted(cidrs)))) == Some(GlobalDeny(revision, Sorted(cidrs)))
    ensures multiset(Sorted(cidrs)) == multiset(cidrs)
  {
    var es := Sorted(cidrs);
    SortedAscends(cidrs);
    assert |multiset(es)| == |multiset(cidrs)|;
    forall i | 0 <= i < |es| ensures Canonical(es[i]) {
      assert es[i] in multiset(es);
      assert es[i] in cidrs;
    }
    GlobalFits(revision, es);
    DecodeEncode(GlobalDeny(revision, es));
  }

  lemma GlobalFits(revision: nat, es: seq<Cidr>)
    requires |es| <= MAX_GLOBAL_ENTRIES
    ensures |Encode(GlobalDeny(revision, es))| <= MAX_BYTES
  {
    PackAllSize(CIDR_LAYOUT, OfCidrs(es));
    CidrSize();
    assert GLOBAL_LAYOUT[1..] == [Le(4)];
    assert Size(GLOBAL_LAYOUT) == 8 + Size(GLOBAL_LAYOUT[1..]);
  }
}
