/** Packed structs and arrays of pairs as objects: under each key the bytes at its offset. */
module PackedReadings {
  import opened Bytes
  import opened Json
  import opened Packed
  import opened Readings
  import opened RegisterPairs

  /** The integer kept under the i-th key lies behind the fields before it. */
  lemma {:induction false} PackedAt(layout: seq<Slot>, s: seq<byte>, p: nat, i: nat)
    requires DistinctKeys(layout) && i < |layout| && layout[i].Field?
    ensures var ws := Widths(layout);
      Get(PackedToIr(layout, At(s, p, Sum(ws))), layout[i].key) == Int(FromLE(At(s, p + Sum(ws[..i]), ws[i])))
  {
    hide At, Sum, Chop, FromLE, Get, StructToIr;
    var ws := Widths(layout);
    StructGet(layout, Chop(At(s, p, Sum(ws)), ws), i);
    PieceAt(s, p, ws, i);
  }

  /** The i-th field of a struct at `p` lies behind the fields before it. */
  lemma {:induction false} PieceAt(s: seq<byte>, p: nat, ws: seq<nat>, i: nat)
    requires i < |ws|
    ensures Chop(At(s, p, Sum(ws)), ws)[i] == At(s, p + Sum(ws[..i]), ws[i])
  {
    hide At, Sum, Chop;
    PrefixFits(ws, i);
    ChopSlice(At(s, p, Sum(ws)), ws, i);
    AtAt(s, p, Sum(ws), Sum(ws[..i]), ws[i]);
  }

  lemma PrefixFits(ws: seq<nat>, i: nat)
    requires i < |ws|
    ensures Sum(ws[..i]) + ws[i] <= Sum(ws)
  {
    hide Sum;
    SumPrefix(ws, i);
    SumAppend(ws[..i + 1], ws[i + 1..]);
    assert ws == ws[..i + 1] + ws[i + 1..];
  }

  /** The j-th of some fields of one width behind `q` other bytes. */
  lemma {:induction false} FieldsAt(a: seq<Slot>, keys: seq<string>, w: nat, asInt: bool, b: seq<Slot>, s: seq<byte>,
                                    p: nat, j: nat)
    requires DistinctKeys(a + Fields(keys, w, asInt) + b) && j < |keys|
    ensures var layout := a + Fields(keys, w, asInt) + b;
      Get(PackedToIr(layout, At(s, p, Sum(Widths(layout)))), keys[j]) ==
        Int(FromLE(At(s, p + Sum(Widths(a)) + j * w, w)))
  {
    hide At, Sum, FromLE, Get, PackedToIr, Widths, DistinctKeys, Fields;
    var layout := a + Fields(keys, w, asInt) + b;
    var i := |a| + j;
    PackedAt(layout, s, p, i);
    assert Widths(layout)[..i] == Widths(a) + Widths(Fields(keys[..j], w, asInt));
    SumAppend(Widths(a), Widths(Fields(keys[..j], w, asInt)));
    LayoutFields(keys[..j], w, asInt);
  }

  /** The i-th of some pairs holds the two numbers at its place. */
  lemma {:induction false} PairListed(s: seq<byte>, start: nat, n: nat, first: string, second: string, i: nat)
    requires i < n && first != second
    ensures var pair := PairsToIr(s, start, n, first, second)[i];
      Get(pair, first) == Int(N64(s, start + 16 * i)) && Get(pair, second) == Int(N64(s, start + 16 * i + 8))
    decreases n
  {
    hide At, FromLE, N64;
    if i < n - 1 {
      PairListed(s, start, n - 1, first, second, i);
    } else {
      Read64(s, start + 16 * i);
      Read64(s, start + 16 * i + 8);
    }
  }
}
