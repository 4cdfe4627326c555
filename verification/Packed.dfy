/** Packed structs whose fields are plain integers, kept in a JSON object under one key each. */
module Packed {
  import opened Bytes
  import opened Json
  import opened Names

  /** One field of a packed struct: an integer kept under a key, read back as an unsigned 64-bit number or as a
      saturating 32-bit `int`, or reserved bytes. */
  datatype Slot = Field(key: string, width: nat, asInt: bool) | Reserved(width: nat)

  function Widths(layout: seq<Slot>): (ws: seq<nat>)
    ensures |ws| == |layout|
    ensures forall i :: 0 <= i < |ws| ==> ws[i] == layout[i].width
  {
    seq(|layout|, i requires 0 <= i < |layout| => layout[i].width)
  }

  /** The object of a packed struct: each kept field as an unsigned integer, reserved bytes dropped. */
  function StructToIr(layout: seq<Slot>, ps: seq<seq<byte>>): map<string, Json>
    requires |ps| == |layout|
  {
    if layout == [] then map[]
    else
      var n := |layout| - 1;
      var ir := StructToIr(layout[..n], ps[..n]);
      if layout[n].Field? then ir[layout[n].key := Int(FromLE(ps[n]))] else ir
  }

  /** The packed struct of an object, starting from zeroed memory. */
  function IrToStruct(layout: seq<Slot>, ir: Json): (ps: seq<seq<byte>>)
    ensures HasWidths(ps, Widths(layout))
  {
    seq(|layout|, i requires 0 <= i < |layout| =>
      if layout[i].Field? then LE(NumberOf(Get(ir, layout[i].key), layout[i].asInt), layout[i].width)
      else Zeros(layout[i].width))
  }

  function NumberOf(j: Json, asInt: bool): int {
    if asInt then GetInt(j) else GetUint64(j)
  }

  /** The struct with its reserved bytes zeroed. */
  function ClearReserved(layout: seq<Slot>, ps: seq<seq<byte>>): (r: seq<seq<byte>>)
    requires HasWidths(ps, Widths(layout))
    ensures HasWidths(r, Widths(layout))
  {
    seq(|layout|, i requires 0 <= i < |layout| =>
      if layout[i].Field? then ps[i] else Zeros(layout[i].width))
  }

  ghost predicate DistinctKeys(layout: seq<Slot>) {
    forall i, j :: 0 <= i < j < |layout| && layout[i].Field? && layout[j].Field? ==> layout[i].key != layout[j].key
  }

  /** Consecutive fields of one width. */
  function Fields(keys: seq<string>, width: nat, asInt: bool := false): (layout: seq<Slot>)
    ensures |layout| == |keys|
    ensures forall i :: 0 <= i < |keys| ==> layout[i] == Field(keys[i], width, asInt)
  {
    seq(|keys|, i requires 0 <= i < |keys| => Field(keys[i], width, asInt))
  }

  lemma LayoutAppend(a: seq<Slot>, b: seq<Slot>)
    ensures Sum(Widths(a + b)) == Sum(Widths(a)) + Sum(Widths(b))
  {
    assert Widths(a + b) == Widths(a) + Widths(b);
    SumAppend(Widths(a), Widths(b));
  }

  lemma LayoutFields(keys: seq<string>, width: nat, asInt: bool)
    ensures Sum(Widths(Fields(keys, width, asInt))) == |keys| * width
  {
    SumEqual(Widths(Fields(keys, width, asInt)), width);
  }

  lemma FieldsDistinct(keys: seq<string>, width: nat, asInt: bool)
    requires Distinct(keys)
    ensures DistinctKeys(Fields(keys, width, asInt))
  {
  }

  /** Keys that a property separates do not clash. */
  lemma DistinctAppend(a: seq<Slot>, b: seq<Slot>, p: string -> bool)
    requires DistinctKeys(a) && DistinctKeys(b)
    requires forall i :: 0 <= i < |a| && a[i].Field? ==> p(a[i].key)
    requires forall i :: 0 <= i < |b| && b[i].Field? ==> !p(b[i].key)
    ensures DistinctKeys(a + b)
  {
    forall i, j | 0 <= i < j < |a + b| && (a + b)[i].Field? && (a + b)[j].Field?
      ensures (a + b)[i].key != (a + b)[j].key
    {
    }
  }

  lemma {:induction false} StructGet(layout: seq<Slot>, ps: seq<seq<byte>>, i: nat)
    requires |ps| == |layout| && i < |layout| && layout[i].Field? && DistinctKeys(layout)
    ensures Get(Obj(StructToIr(layout, ps)), layout[i].key) == Int(FromLE(ps[i]))
  {
    var n := |layout| - 1;
    if i < n {
      StructGet(layout[..n], ps[..n], i);
      assert layout[..n][i] == layout[i];
    }
  }

  /** Reading a struct and writing it back keeps every field and zeroes the reserved bytes. */
  lemma StructRoundTrip(layout: seq<Slot>, ps: seq<seq<byte>>)
    requires HasWidths(ps, Widths(layout)) && DistinctKeys(layout)
    requires forall i :: 0 <= i < |layout| && layout[i].Field? ==> layout[i].width <= if layout[i].asInt then 2 else 8
    ensures IrToStruct(layout, Obj(StructToIr(layout, ps))) == ClearReserved(layout, ps)
  {
    var ir := Obj(StructToIr(layout, ps));
    forall i | 0 <= i < |layout|
      ensures IrToStruct(layout, ir)[i] == ClearReserved(layout, ps)[i]
    {
      if layout[i].Field? {
        StructGet(layout, ps, i);
        if layout[i].asInt {
          IntRoundTrip(ps[i]);
        } else {
          NumberRoundTrip(ps[i]);
        }
      }
    }
  }

  /** A layout's keys differ, it has the given size, and its integers survive as JSON numbers. */
  ghost predicate GoodLayout(layout: seq<Slot>, size: nat) {
    && DistinctKeys(layout) && Sum(Widths(layout)) == size
    && forall i :: 0 <= i < |layout| && layout[i].Field? ==> layout[i].width <= if layout[i].asInt then 2 else 8
  }

  lemma ReservedSlot(n: nat)
    ensures DistinctKeys([Reserved(n)]) && Sum(Widths([Reserved(n)])) == n
  {
    assert Widths([Reserved(n)]) == [n];
  }

  lemma LayoutTotal(layout: seq<Slot>, size: nat)
    requires GoodLayout(layout, size)
    ensures Sum(Widths(layout)) == size
  {
  }

  // ---- packed structs as JSON objects --------------------------------------------------------------

  function PackedToIr(layout: seq<Slot>, d: seq<byte>): Json
    requires |d| == Sum(Widths(layout))
  {
    Obj(StructToIr(layout, Chop(d, Widths(layout))))
  }

  function PackedFromIr(layout: seq<Slot>, ir: Json): seq<byte> {
    Join(IrToStruct(layout, ir))
  }

  /** The struct with its reserved bytes zeroed. */
  function NormalPacked(layout: seq<Slot>, d: seq<byte>): seq<byte>
    requires |d| == Sum(Widths(layout))
  {
    Join(ClearReserved(layout, Chop(d, Widths(layout))))
  }

  lemma PackedSize(layout: seq<Slot>, ir: Json)
    ensures |PackedFromIr(layout, ir)| == Sum(Widths(layout))
  {
    JoinLength(IrToStruct(layout, ir), Widths(layout));
  }

  lemma NormalPackedSize(layout: seq<Slot>, d: seq<byte>)
    requires |d| == Sum(Widths(layout))
    ensures |NormalPacked(layout, d)| == |d|
  {
    JoinLength(ClearReserved(layout, Chop(d, Widths(layout))), Widths(layout));
  }

  lemma NormalPackedTwice(layout: seq<Slot>, d: seq<byte>)
    requires |d| == Sum(Widths(layout))
    ensures |NormalPacked(layout, d)| == |d| && NormalPacked(layout, NormalPacked(layout, d)) == NormalPacked(layout, d)
  {
    hide Join, Chop, Sum;
    var c := ClearReserved(layout, Chop(d, Widths(layout)));
    ChopJoin(c, Widths(layout));
    assert ClearReserved(layout, c) == c;
  }

  lemma PackedRoundTrip(layout: seq<Slot>, d: seq<byte>, size: nat)
    requires GoodLayout(layout, size) && |d| == size
    ensures PackedFromIr(layout, PackedToIr(layout, d)) == NormalPacked(layout, d)
  {
    StructRoundTrip(layout, Chop(d, Widths(layout)));
  }

  /** Without reserved fields nothing is lost. */
  lemma NothingReserved(layout: seq<Slot>, d: seq<byte>)
    requires |d| == Sum(Widths(layout)) && forall i :: 0 <= i < |layout| ==> layout[i].Field?
    ensures NormalPacked(layout, d) == d
  {
    var p := Chop(d, Widths(layout));
    assert ClearReserved(layout, p) == p;
    JoinChop(d, Widths(layout));
  }

  /** With one reserved field, just its bytes have to be zero. */
  lemma OneReserved(a: seq<Slot>, n: nat, b: seq<Slot>, d: seq<byte>)
    requires |d| == Sum(Widths(a + [Reserved(n)] + b))
    requires forall i :: 0 <= i < |a| ==> a[i].Field?
    requires forall i :: 0 <= i < |b| ==> b[i].Field?
    ensures Sum(Widths(a)) + n <= |d|
    ensures NormalPacked(a + [Reserved(n)] + b, d) == d <==> d[Sum(Widths(a))..Sum(Widths(a)) + n] == Zeros(n)
  {
    var layout := a + [Reserved(n)] + b;
    var ws := Widths(layout);
    var p := Chop(d, ws);
    var c := ClearReserved(layout, p);
    assert ws == Widths(a) + [n] + Widths(b);
    ChopAt(d, Widths(a), n, Widths(b));
    JoinChop(d, ws);
    ChopJoin(p, ws);
    ChopJoin(c, ws);
    assert c == p[|a| := Zeros(n)];
    assert c == p <==> p[|a|] == Zeros(n);
  }
}
