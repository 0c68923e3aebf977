/** Fixed-layout records on the wire: the `struct.pack` format strings of the serializer and the
    bounds-checked readers of the apply helper, with the proof that they undo each other. */
module Wire {
  import opened Wrappers
  import opened Arith

  type Byte = x: int | 0 <= x < 256

  /** A little-endian integer of the given width, or four network-order address bytes. */
  datatype Field = Le(width: nat) | Be4

  function Width(f: Field): nat
  {
    match f
    case Le(n) => n
    case Be4 => 4
  }

  function Limit(n: nat): (r: nat)
    ensures r > 0
  {
    if n == 0 then 1 else 256 * Limit(n - 1)
  }

  function PutLe(v: nat, n: nat): (b: seq<Byte>)
    ensures |b| == n
  {
    if n == 0 then [] else [v % 256] + PutLe(v / 256, n - 1)
  }

  function GetLe(b: seq<Byte>): (v: nat)
    ensures v < Limit(|b|)
  {
    if b == [] then 0 else b[0] + 256 * GetLe(b[1..])
  }

  lemma {:induction false} LeRoundTrip(v: nat, n: nat)
    requires v < Limit(n)
    ensures GetLe(PutLe(v, n)) == v
  {
    if n > 0 {
      LeRoundTrip(v / 256, n - 1);
      assert PutLe(v, n)[1..] == PutLe(v / 256, n - 1);
    }
  }

  lemma {:induction false} LeBackTrip(b: seq<Byte>)
    ensures PutLe(GetLe(b), |b|) == b
  {
    if b != [] {
      LeBackTrip(b[1..]);
      assert GetLe(b) % 256 == b[0] && GetLe(b) / 256 == GetLe(b[1..]);
    }
  }

  function Reversed(b: seq<Byte>): (r: seq<Byte>)
    ensures |r| == |b|
    ensures forall i :: 0 <= i < |b| ==> r[i] == b[|b| - 1 - i]
  {
    seq(|b|, i requires 0 <= i < |b| => b[|b| - 1 - i])
  }

  function Put(f: Field, v: nat): (b: seq<Byte>)
    ensures |b| == Width(f)
  {
    match f
    case Le(n) => PutLe(v, n)
    case Be4 => Reversed(PutLe(v, 4))
  }

  function Get(f: Field, b: seq<Byte>): (v: nat)
    requires |b| == Width(f)
    ensures v < Limit(Width(f))
  {
    match f
    case Le(_) => GetLe(b)
    case Be4 => GetLe(Reversed(b))
  }

  lemma FieldRoundTrip(f: Field, v: nat)
    requires v < Limit(Width(f))
    ensures Get(f, Put(f, v)) == v
  {
    LeRoundTrip(v, Width(f));
    assert Reversed(Reversed(PutLe(v, Width(f)))) == PutLe(v, Width(f));
  }

  lemma FieldBackTrip(f: Field, b: seq<Byte>)
    requires |b| == Width(f)
    ensures Put(f, Get(f, b)) == b
  {
    match f
    case Le(_) => LeBackTrip(b);
    case Be4 =>
      LeBackTrip(Reversed(b));
      assert Reversed(Reversed(b)) == b;
  }

  // ----- One record -----

  predicate Fits(layout: seq<Field>, rec: seq<nat>)
  {
    |rec| == |layout| && forall i :: 0 <= i < |layout| ==> rec[i] < Limit(Width(layout[i]))
  }

  function Size(layout: seq<Field>): nat
  {
    if layout == [] then 0 else Width(layout[0]) + Size(layout[1..])
  }

  /** struct.pack on values that fit. */
  function Pack(layout: seq<Field>, rec: seq<nat>): (b: seq<Byte>)
    requires |rec| == |layout|
    ensures |b| == Size(layout)
  {
    if layout == [] then [] else Put(layout[0], rec[0]) + Pack(layout[1..], rec[1..])
  }

  /** The reader chain: a record and the unread rest, or None on truncation. */
  function Unpack(layout: seq<Field>, b: seq<Byte>): (r: Option<(seq<nat>, seq<Byte>)>)
    ensures r.Some? ==> Fits(layout, r.value.0)
    ensures r.Some? <==> |b| >= Size(layout)
    ensures r.Some? ==> r.value.1 == b[Size(layout)..]
  {
    if layout == [] then Some(([], b))
    else if |b| < Width(layout[0]) then None
    else
      match Unpack(layout[1..], b[Width(layout[0])..])
      case None => None
      case Some((rec, rest)) => Some(([Get(layout[0], b[..Width(layout[0])])] + rec, rest))
  }

  lemma Split<T>(a: seq<T>, b: seq<T>, c: seq<T>)
    ensures (a + b + c)[..|a|] == a
    ensures (a + b + c)[|a|..] == b + c
  {
  }

  lemma {:induction false} RecordRoundTrip(layout: seq<Field>, rec: seq<nat>, rest: seq<Byte>)
    requires Fits(layout, rec)
    ensures Unpack(layout, Pack(layout, rec) + rest) == Some((rec, rest))
  {
    if layout == [] {
      assert Pack(layout, rec) + rest == rest;
    } else {
      var first, others := Put(layout[0], rec[0]), Pack(layout[1..], rec[1..]);
      RecordRoundTrip(layout[1..], rec[1..], rest);
      FieldRoundTrip(layout[0], rec[0]);
      Split(first, others, rest);
      var b := first + others + rest;
      assert b[..Width(layout[0])] == first;
      assert b[Width(layout[0])..] == others + rest;
      assert [rec[0]] + rec[1..] == rec;
    }
  }

  lemma {:induction false} RecordBackTrip(layout: seq<Field>, b: seq<Byte>)
    requires Unpack(layout, b).Some?
    ensures var r := Unpack(layout, b).value; b == Pack(layout, r.0) + r.1
  {
    if layout != [] {
      var w := Width(layout[0]);
      RecordBackTrip(layout[1..], b[w..]);
      FieldBackTrip(layout[0], b[..w]);
      var r := Unpack(layout, b).value;
      assert r.0[1..] == Unpack(layout[1..], b[w..]).value.0;
      assert b == b[..w] + b[w..];
    }
  }

  // ----- A counted run of equal records -----

  predicate AllFit(layout: seq<Field>, recs: seq<seq<nat>>)
  {
    forall i :: 0 <= i < |recs| ==> Fits(layout, recs[i])
  }

  function PackAll(layout: seq<Field>, recs: seq<seq<nat>>): (b: seq<Byte>)
    requires forall i :: 0 <= i < |recs| ==> |recs[i]| == |layout|
  {
    if recs == [] then [] else Pack(layout, recs[0]) + PackAll(layout, recs[1..])
  }

  function UnpackAll(layout: seq<Field>, b: seq<Byte>, n: nat): (r: Option<(seq<seq<nat>>, seq<Byte>)>)
    ensures r.Some? ==> |r.value.0| == n && AllFit(layout, r.value.0)
  {
    if n == 0 then Some(([], b))
    else
      match Unpack(layout, b)
      case None => None
      case Some((rec, b1)) =>
        match UnpackAll(layout, b1, n - 1)
        case None => None
        case Some((recs, rest)) => Some(([rec] + recs, rest))
  }

  lemma {:induction false} PackAllSize(layout: seq<Field>, recs: seq<seq<nat>>)
    requires forall i :: 0 <= i < |recs| ==> |recs[i]| == |layout|
    ensures |PackAll(layout, recs)| == |recs| * Size(layout)
  {
    if recs != [] {
      PackAllSize(layout, recs[1..]);
      MulStep(|recs[1..]|, Size(layout));
    }
  }

  lemma {:induction false} RecordsRoundTrip(layout: seq<Field>, recs: seq<seq<nat>>, rest: seq<Byte>)
    requires AllFit(layout, recs)
    ensures UnpackAll(layout, PackAll(layout, recs) + rest, |recs|) == Some((recs, rest))
  {
    hide Pack;
    hide Unpack;
    if recs == [] {
      assert PackAll(layout, recs) + rest == rest;
    } else {
      var first, others := Pack(layout, recs[0]), PackAll(layout, recs[1..]);
      RecordRoundTrip(layout, recs[0], others + rest);
      RecordsRoundTrip(layout, recs[1..], rest);
      assert first + others + rest == first + (others + rest);
      assert [recs[0]] + recs[1..] == recs;
    }
  }

  lemma {:induction false} RecordsBackTrip(layout: seq<Field>, b: seq<Byte>, n: nat)
    requires UnpackAll(layout, b, n).Some?
    ensures var r := UnpackAll(layout, b, n).value; b == PackAll(layout, r.0) + r.1
  {
    if n > 0 {
      RecordBackTrip(layout, b);
      var rec, b1 := Unpack(layout, b).value.0, Unpack(layout, b).value.1;
      RecordsBackTrip(layout, b1, n - 1);
      var r := UnpackAll(layout, b, n).value;
      assert r.0[1..] == UnpackAll(layout, b1, n - 1).value.0;
    }
  }

  // ----- A record followed by two counted lists -----

  /** Head fields, one of which counts the first list and one of which is reserved as zero; then
      the first list; then the length and the items of the second list. */
  datatype Format = Format(head: seq<Field>, reserved: nat, count: nat,
                           first: seq<Field>, firstMax: nat,
                           tally: seq<Field>, second: seq<Field>, secondMax: nat)

  datatype Block = Block(fields: seq<nat>, first: seq<seq<nat>>, second: seq<seq<nat>>)

  ghost predicate FormatOk(m: Format)
  {
    m.reserved < |m.head| && m.count < |m.head| && |m.tally| == 1 && m.secondMax < Limit(Width(m.tally[0]))
  }

  ghost predicate BlockOk(m: Format, k: Block)
    requires FormatOk(m)
  {
    && Fits(m.head, k.fields)
    && k.fields[m.reserved] == 0
    && k.fields[m.count] == |k.first| <= m.firstMax
    && AllFit(m.first, k.first)
    && |k.second| <= m.secondMax
    && AllFit(m.second, k.second)
  }

  ghost predicate BlockShaped(m: Format, k: Block)
  {
    && |k.fields| == |m.head| && |m.tally| == 1
    && (forall i :: 0 <= i < |k.first| ==> |k.first[i]| == |m.first|)
    && (forall i :: 0 <= i < |k.second| ==> |k.second[i]| == |m.second|)
  }

  function PackBlock(m: Format, k: Block): seq<Byte>
    requires BlockShaped(m, k)
  {
    Pack(m.head, k.fields)
    + (PackAll(m.first, k.first) + (Pack(m.tally, [|k.second|]) + PackAll(m.second, k.second)))
  }

  function UnpackBlock(m: Format, b: seq<Byte>): Option<(Block, seq<Byte>)>
    requires FormatOk(m)
  {
    match Unpack(m.head, b)
    case None => None
    case Some((f, b1)) =>
      if f[m.reserved] != 0 || f[m.count] > m.firstMax then None else
      match UnpackAll(m.first, b1, f[m.count])
      case None => None
      case Some((xs, b2)) =>
        match Unpack(m.tally, b2)
        case None => None
        case Some((n, b3)) =>
          if n[0] > m.secondMax then None else
          match UnpackAll(m.second, b3, n[0])
          case None => None
          case Some((ys, rest)) => Some((Block(f, xs, ys), rest))
  }

  lemma Regroup<T>(f: seq<T>, xs: seq<T>, n: seq<T>, ys: seq<T>, rest: seq<T>)
    ensures f + (xs + (n + ys)) + rest == f + (xs + (n + (ys + rest)))
  {
  }

  lemma Regroup4<T>(f: seq<T>, xs: seq<T>, n: seq<T>, ys: seq<T>)
    ensures f + xs + n + ys == f + (xs + (n + ys))
  {
  }

  lemma BlockShape(m: Format, k: Block)
    requires FormatOk(m) && BlockOk(m, k)
    ensures BlockShaped(m, k)
  {
  }

  lemma UnpackBlockFrom(m: Format, b: seq<Byte>, k: Block, b1: seq<Byte>, b2: seq<Byte>, b3: seq<Byte>, rest: seq<Byte>)
    requires FormatOk(m) && BlockOk(m, k)
    requires Unpack(m.head, b) == Some((k.fields, b1))
    requires UnpackAll(m.first, b1, |k.first|) == Some((k.first, b2))
    requires Unpack(m.tally, b2) == Some(([|k.second|], b3))
    requires UnpackAll(m.second, b3, |k.second|) == Some((k.second, rest))
    ensures UnpackBlock(m, b) == Some((k, rest))
  {
  }

  lemma BlockRoundTrip(m: Format, k: Block, rest: seq<Byte>)
    requires FormatOk(m) && BlockOk(m, k)
    ensures BlockShaped(m, k) && UnpackBlock(m, PackBlock(m, k) + rest) == Some((k, rest))
  {
    BlockShape(m, k);
    var xs, n, ys := PackAll(m.first, k.first), Pack(m.tally, [|k.second|]), PackAll(m.second, k.second);
    Regroup(Pack(m.head, k.fields), xs, n, ys, rest);
    RecordRoundTrip(m.head, k.fields, xs + (n + (ys + rest)));
    RecordsRoundTrip(m.first, k.first, n + (ys + rest));
    RecordRoundTrip(m.tally, [|k.second|], ys + rest);
    RecordsRoundTrip(m.second, k.second, rest);
    UnpackBlockFrom(m, PackBlock(m, k) + rest, k, xs + (n + (ys + rest)), n + (ys + rest), ys + rest, rest);
  }

  lemma BlockBackTrip(m: Format, b: seq<Byte>)
    requires FormatOk(m) && UnpackBlock(m, b).Some?
    ensures var r := UnpackBlock(m, b).value;
            BlockOk(m, r.0) && BlockShaped(m, r.0) && b == PackBlock(m, r.0) + r.1
  {
    var (f, b1) := Unpack(m.head, b).value;
    var (xs, b2) := UnpackAll(m.first, b1, f[m.count]).value;
    var (n, b3) := Unpack(m.tally, b2).value;
    var (ys, rest) := UnpackAll(m.second, b3, n[0]).value;
    assert n == [|ys|];
    RecordBackTrip(m.head, b);
    RecordsBackTrip(m.first, b1, f[m.count]);
    RecordBackTrip(m.tally, b2);
    RecordsBackTrip(m.second, b3, n[0]);
    Regroup(Pack(m.head, f), PackAll(m.first, xs), Pack(m.tally, n), PackAll(m.second, ys), rest);
  }

  ghost predicate BlocksShaped(m: Format, ks: seq<Block>)
  {
    ks == [] || (BlockShaped(m, ks[0]) && BlocksShaped(m, ks[1..]))
  }

  ghost predicate BlocksOk(m: Format, ks: seq<Block>)
    requires FormatOk(m)
  {
    ks == [] || (BlockOk(m, ks[0]) && BlocksOk(m, ks[1..]))
  }

  function PackBlocks(m: Format, ks: seq<Block>): seq<Byte>
    requires BlocksShaped(m, ks)
  {
    if ks == [] then [] else PackBlock(m, ks[0]) + PackBlocks(m, ks[1..])
  }

  function UnpackBlocks(m: Format, b: seq<Byte>, n: nat): (r: Option<(seq<Block>, seq<Byte>)>)
    requires FormatOk(m)
    ensures r.Some? ==> |r.value.0| == n
    decreases n
  {
    if n == 0 then Some(([], b))
    else
      match UnpackBlock(m, b)
      case None => None
      case Some((k, b1)) =>
        match UnpackBlocks(m, b1, n - 1)
        case None => None
        case Some((ks, rest)) => Some(([k] + ks, rest))
  }

  lemma Regroup3<T>(a: seq<T>, b: seq<T>, c: seq<T>)
    ensures a + b + c == a + (b + c)
  {
  }

  lemma UnpackBlocksCons(m: Format, first: seq<Byte>, others: seq<Byte>, rest: seq<Byte>, k: Block, ks: seq<Block>)
    requires FormatOk(m)
    requires UnpackBlock(m, first + (others + rest)) == Some((k, others + rest))
    requires UnpackBlocks(m, others + rest, |ks|) == Some((ks, rest))
    ensures UnpackBlocks(m, first + others + rest, |ks| + 1) == Some(([k] + ks, rest))
  {
    Regroup3(first, others, rest);
  }

  lemma {:induction false} BlocksRoundTrip(m: Format, ks: seq<Block>, rest: seq<Byte>)
    requires FormatOk(m) && BlocksShaped(m, ks) && BlocksOk(m, ks)
    ensures UnpackBlocks(m, PackBlocks(m, ks) + rest, |ks|) == Some((ks, rest))
  {
    hide PackBlock;
    hide UnpackBlock;
    if ks == [] {
      assert PackBlocks(m, ks) + rest == rest;
    } else {
      BlocksRoundTrip(m, ks[1..], rest);
      BlockRoundTrip(m, ks[0], PackBlocks(m, ks[1..]) + rest);
      UnpackBlocksCons(m, PackBlock(m, ks[0]), PackBlocks(m, ks[1..]), rest, ks[0], ks[1..]);
      assert [ks[0]] + ks[1..] == ks;
    }
  }

  lemma PackBlocksCons(m: Format, k: Block, ks: seq<Block>)
    requires FormatOk(m) && BlockShaped(m, k) && BlocksShaped(m, ks)
    ensures BlocksShaped(m, [k] + ks) && PackBlocks(m, [k] + ks) == PackBlock(m, k) + PackBlocks(m, ks)
    ensures BlockOk(m, k) && BlocksOk(m, ks) ==> BlocksOk(m, [k] + ks)
  {
    assert ([k] + ks)[1..] == ks;
  }

  lemma {:induction false} BlocksBackTrip(m: Format, b: seq<Byte>, n: nat)
    requires FormatOk(m) && UnpackBlocks(m, b, n).Some?
    ensures var r := UnpackBlocks(m, b, n).value;
            BlocksOk(m, r.0) && BlocksShaped(m, r.0) && b == PackBlocks(m, r.0) + r.1
    decreases n
  {
    hide PackBlock;
    hide UnpackBlock;
    if n > 0 {
      var (k, b1) := UnpackBlock(m, b).value;
      var (ks, rest) := UnpackBlocks(m, b1, n - 1).value;
      BlockBackTrip(m, b);
      BlocksBackTrip(m, b1, n - 1);
      PackBlocksCons(m, k, ks);
      Regroup3(PackBlock(m, k), PackBlocks(m, ks), rest);
    }
  }
}
