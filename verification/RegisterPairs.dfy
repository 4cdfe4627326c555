/** Counted arrays of pairs of 64-bit values, one object per pair with two keys. */
module RegisterPairs {
  import opened Bytes
  import opened Json
  import opened Streams

  const PAIR_SIZE: nat := 16

  function PairToIr(s: seq<byte>, pos: nat, first: string, second: string): Json {
    Obj(map[first := Int(U64(At(s, pos, 8))), second := Int(U64(At(s, pos + 8, 8)))])
  }

  function PairFromIr(ir: Json, first: string, second: string): (p: seq<byte>)
    ensures |p| == PAIR_SIZE
  {
    LE(GetUint64(Get(ir, first)), 8) + LE(GetUint64(Get(ir, second)), 8)
  }

  function PairsToIr(s: seq<byte>, start: nat, n: nat, first: string, second: string): (ir: seq<Json>)
    ensures |ir| == n
  {
    if n == 0 then []
    else PairsToIr(s, start, n - 1, first, second) + [PairToIr(s, start + PAIR_SIZE * (n - 1), first, second)]
  }

  function PairsFromIr(ir: Json, n: nat, first: string, second: string): (p: seq<byte>)
    ensures |p| == PAIR_SIZE * n
  {
    if n == 0 then [] else PairsFromIr(ir, n - 1, first, second) + PairFromIr(ArrayIdx(ir, n - 1), first, second)
  }

  lemma PairRoundTrip(s: seq<byte>, pos: nat, first: string, second: string)
    requires first != second
    ensures PairFromIr(PairToIr(s, pos, first, second), first, second) == At(s, pos, PAIR_SIZE)
  {
    hide At, LE, FromLE;
    NumberRoundTrip(At(s, pos, 8));
    NumberRoundTrip(At(s, pos + 8, 8));
    AtSplit(s, pos, 8, 8);
  }

  /** Writing the pairs read from some bytes gives those bytes. */
  lemma {:induction false} PairsRoundTrip(s: seq<byte>, start: nat, n: nat, first: string, second: string,
                                          all: seq<Json>)
    requires first != second && PairsToIr(s, start, n, first, second) <= all
    ensures PairsFromIr(Arr(all), n, first, second) == At(s, start, PAIR_SIZE * n)
  {
    hide At, PairToIr, PairFromIr;
    if n > 0 {
      PairsRoundTrip(s, start, n - 1, first, second, all);
      PairRoundTrip(s, start + PAIR_SIZE * (n - 1), first, second);
      assert PairsToIr(s, start, n, first, second)[n - 1] == all[n - 1];
      AtSplit(s, start, PAIR_SIZE * (n - 1), PAIR_SIZE);
    }
  }

  /** The cursor moves over one pair at a time. */
  method ReadPairs(section: seq<byte>, start: nat, count: nat, first: string, second: string)
    returns (pairs: seq<Json>, cur: nat)
    ensures pairs == PairsToIr(section, start, count, first, second) && cur == start + PAIR_SIZE * count
  {
    hide At, U64, FromLE;
    pairs := [];
    cur := start;
    for i := 0 to count
      invariant cur == start + PAIR_SIZE * i && pairs == PairsToIr(section, start, i, first, second)
    {
      pairs := pairs + [Obj(map[first := Int(U64(At(section, cur, 8))), second := Int(U64(At(section, cur + 8, 8)))])];
      cur := cur + PAIR_SIZE;
    }
  }

  /** Writes one pair at a time. */
  method WritePairs(pairs: Json, count: nat, first: string, second: string, out: File)
    requires count > 0 ==> pairs.Arr?
    modifies out
    ensures out.Holds(old(out.data), old(out.pos), PairsFromIr(pairs, count, first, second))
  {
    hide PairFromIr, Patch;
    out.HoldsNothing();
    for i := 0 to count
      invariant out.Holds(old(out.data), old(out.pos), PairsFromIr(pairs, i, first, second))
    {
      ghost var d, p := out.data, out.pos;
      var pair := AskElement(pairs, i);
      out.Write(PairFromIr(pair, first, second));
      out.HoldsMore(old(out.data), old(out.pos), PairsFromIr(pairs, i, first, second), d, p,
        PairFromIr(ArrayIdx(pairs, i), first, second));
    }
  }
}
