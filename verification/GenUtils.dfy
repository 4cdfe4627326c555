/** Random numbers, random buffers, and blocks copied into them. */
module GenUtils {
  import opened Buffers
  import opened Bytes
  import opened CperRecord
  import opened GenericStatus

  const RAND_MAX: nat := 0x7FFF_FFFF

  /** Any number the C library may return. */
  method Rand() returns (r: nat)
    ensures r <= RAND_MAX
  {
    r :| 0 <= r <= RAND_MAX;
  }

  method GenerateRandomBytes(size: nat) returns (bytes: array<byte>)
    ensures fresh(bytes) && bytes.Length == size
  {
    bytes := new byte[size];
    for i := 0 to size {
      var r := Rand();
      bytes[i] := r % 0x100;
    }
  }

  // ---- blocks copied in one after another ---------------------------------------------------------------

  /** The total length of the first `n` blocks. */
  function Total(blocks: seq<seq<byte>>, n: nat): nat
    requires n <= |blocks|
  {
    if n == 0 then 0 else Total(blocks, n - 1) + |blocks[n - 1]|
  }

  lemma {:induction false} TotalMonotone(blocks: seq<seq<byte>>, i: nat, n: nat)
    requires i <= n <= |blocks|
    ensures Total(blocks, i) <= Total(blocks, n)
    decreases n
  {
    if i < n {
      TotalMonotone(blocks, i, n - 1);
    }
  }

  /** The j-th block stands behind those before it, the first at `start`. */
  ghost predicate PlacedAt(s: seq<byte>, start: nat, blocks: seq<seq<byte>>, j: nat)
    requires j < |blocks|
  {
    At(s, start + Total(blocks, j), |blocks[j]|) == blocks[j]
  }

  ghost predicate Placed(s: seq<byte>, start: nat, blocks: seq<seq<byte>>, n: nat)
    requires n <= |blocks|
  {
    forall j :: 0 <= j < n ==> PlacedAt(s, start, blocks, j)
  }

  /** `total_len += lengths[i]` over all blocks. */
  method AddLengths(before: nat, blocks: seq<seq<byte>>) returns (total: nat)
    ensures total == before + Total(blocks, |blocks|)
  {
    total := before;
    for i := 0 to |blocks|
      invariant total == before + Total(blocks, i)
    {
      total := total + |blocks[i]|;
    }
  }

  /** Copies the blocks in, one cursor step per block. */
  method CopyBlocks(a: array<byte>, start: nat, blocks: seq<seq<byte>>) returns (cur: nat)
    requires start + Total(blocks, |blocks|) <= a.Length
    modifies a
    ensures cur == start + Total(blocks, |blocks|)
    ensures Placed(a[..], start, blocks, |blocks|)
    ensures a[..start] == old(a[..start])
  {
    hide Patch, PlacedAt;
    cur := start;
    for i := 0 to |blocks|
      invariant start <= cur == start + Total(blocks, i) <= a.Length
      invariant Placed(a[..], start, blocks, i)
      invariant a[..start] == old(a[..start])
    {
      TotalMonotone(blocks, i + 1, |blocks|);
      ghost var before := a[..];
      MemCpy(a, cur, blocks[i]);
      forall j | 0 <= j < i + 1
        ensures PlacedAt(a[..], start, blocks, j)
      {
        PlacedMore(before, start, blocks, i, j);
      }
      PatchFront(before, cur, blocks[i], start);
      cur := cur + |blocks[i]|;
    }
  }

  lemma PatchFront(d: seq<byte>, p: nat, b: seq<byte>, q: nat)
    requires q <= p && p + |b| <= |d|
    ensures |Patch(d, p, b)| == |d| && Patch(d, p, b)[..q] == d[..q]
  {
  }

  lemma {:induction false} PlacedMore(s: seq<byte>, start: nat, blocks: seq<seq<byte>>, i: nat, j: nat)
    requires j <= i < |blocks| && (j < i ==> PlacedAt(s, start, blocks, j))
    ensures PlacedAt(Patch(s, start + Total(blocks, i), blocks[i]), start, blocks, j)
  {
    hide Patch, At;
    var cur := start + Total(blocks, i);
    if j == i {
      PatchRead(s, cur, blocks[i]);
    } else {
      TotalMonotone(blocks, j + 1, i);
      PatchBehind(s, cur, blocks[i], start + Total(blocks, j), |blocks[j]|);
    }
  }

  /** Blocks stay placed while the bytes they lie in do not change. */
  lemma {:induction false} PlacedKept(s: seq<byte>, s': seq<byte>, start: nat, blocks: seq<seq<byte>>, q: nat)
    requires Placed(s, start, blocks, |blocks|) && start + Total(blocks, |blocks|) <= q <= |s|
    requires q <= |s'| && s[..q] == s'[..q]
    ensures Placed(s', start, blocks, |blocks|)
  {
    hide PlacedAt, Total;
    forall j | 0 <= j < |blocks|
      ensures PlacedAt(s', start, blocks, j)
    {
      OnePlacedKept(s, s', start, blocks, q, j);
    }
  }

  lemma {:induction false} OnePlacedKept(s: seq<byte>, s': seq<byte>, start: nat, blocks: seq<seq<byte>>, q: nat, j: nat)
    requires j < |blocks| && PlacedAt(s, start, blocks, j) && start + Total(blocks, |blocks|) <= q <= |s|
    requires q <= |s'| && s[..q] == s'[..q]
    ensures PlacedAt(s', start, blocks, j)
  {
    hide At, Total;
    TotalMonotone(blocks, j + 1, |blocks|);
    TotalStep(blocks, j);
    AtFront(s, s', q, start + Total(blocks, j), |blocks[j]|);
  }

  lemma TotalStep(blocks: seq<seq<byte>>, j: nat)
    requires j < |blocks|
    ensures Total(blocks, j + 1) == Total(blocks, j) + |blocks[j]|
  {
  }

  lemma AtFront(s: seq<byte>, s': seq<byte>, q: nat, p: nat, n: nat)
    requires q <= |s| && q <= |s'| && s[..q] == s'[..q] && p + n <= q
    ensures At(s, p, n) == At(s', p, n)
  {
    assert s[p..p + n] == s[..q][p..p + n] == s'[p..p + n];
  }

  lemma {:induction false} TotalBounded(blocks: seq<seq<byte>>, size: nat, n: nat)
    requires n <= |blocks| && forall i :: 0 <= i < |blocks| ==> |blocks[i]| <= size
    ensures Total(blocks, n) <= size * n
    decreases n
  {
    if n > 0 {
      TotalBounded(blocks, size, n - 1);
    }
  }

  lemma {:induction false} TotalEqual(blocks: seq<seq<byte>>, size: nat, n: nat)
    requires n <= |blocks| && forall i :: 0 <= i < |blocks| ==> |blocks[i]| == size
    ensures Total(blocks, n) == size * n
    decreases n
  {
    if n > 0 {
      TotalEqual(blocks, size, n - 1);
    }
  }

  // ---- the generic error status --------------------------------------------------------------------------

  const ERROR_TYPES: seq<byte> := [1, 16, 4, 5, 6, 7, 8, 9, 17, 18, 19, 20, 21, 22, 23, 24, 25, 26]

  /** The types that the specification gives a meaning. */
  lemma TypesListed(k: byte)
    ensures k in ERROR_TYPES <==> k == 1 || 4 <= k <= 9 || 16 <= k <= 26
  {
    var types := ERROR_TYPES;
    assert types[0] == 1 && types[1] == 16 && types[2] == 4 && types[3] == 5 && types[4] == 6 && types[5] == 7;
    assert types[6] == 8 && types[7] == 9 && types[8] == 17 && types[9] == 18 && types[10] == 19 && types[11] == 20;
    assert types[12] == 21 && types[13] == 22 && types[14] == 23 && types[15] == 24 && types[16] == 25;
    assert types[17] == 26;
  }

  /** Clears the reserved bits of the status at `off` and gives it one of the known types. */
  method CreateValidErrorSection(a: array<byte>, off: nat) returns (ghost status: seq<byte>)
    requires off + 8 <= a.Length
    modifies a
    ensures |status| == 8 && CanonicalStatus(U64(status)) && a[..] == Patch(old(a[..]), off, status)
    ensures status[1] == 1 || 4 <= status[1] <= 9 || 16 <= status[1] <= 26
  {
    hide Patch, And, LE, FromLE, U64, CanonicalStatus;
    ghost var s0 := a[..];
    MaskU64(a, off, 0xFFFF_FFFF_FFFF_FF00);
    ghost var v := And(U64(At(s0, off, 8)), 0xFFFF_FFFF_FFFF_FF00);
    PatchRead(s0, off, LE(v, 8));
    Loads8(v);
    PatchOver(s0, off, LE(v, 8), LE(And(v, 0x7F_FFFF), 8));
    MaskU64(a, off, 0x7F_FFFF);
    var r := Rand();
    var key := ERROR_TYPES[r % |ERROR_TYPES|];
    ghost var w := LE(And(v, 0x7F_FFFF), 8);
    PatchInside(s0, off, w, 1, key);
    MemCpy(a, off + 1, [key]);
    status := w[1 := key];
    StatusFixed(U64(At(s0, off, 8)), key);
  }

  lemma PatchOver(d: seq<byte>, p: nat, a: seq<byte>, b: seq<byte>)
    requires |a| == |b| && p + |a| <= |d|
    ensures Patch(Patch(d, p, a), p, b) == Patch(d, p, b)
  {
  }

  lemma PatchInside(d: seq<byte>, p: nat, a: seq<byte>, i: nat, b: byte)
    requires i < |a| && p + |a| <= |d|
    ensures Patch(Patch(d, p, a), p + i, [b]) == Patch(d, p, a[i := b])
  {
    hide Patch;
    PatchIndex(d, p, a);
    PatchIndex(Patch(d, p, a), p + i, [b]);
    PatchIndex(d, p, a[i := b]);
    assert Patch(Patch(d, p, a), p + i, [b]) == Patch(d, p, a[i := b]);
  }

  /** With the low byte and everything above bit 22 cleared, any byte may stand in the type field. */
  lemma StatusFixed(v: u64, key: byte)
    ensures CanonicalStatus(U64(LE(And(And(v, 0xFFFF_FFFF_FFFF_FF00), 0x7F_FFFF), 8)[1 := key]))
  {
    hide And, LE, FromLE, Low, Pow2, SplitBits;
    var m := And(And(v, 0xFFFF_FFFF_FFFF_FF00), 0x7F_FFFF);
    MaskedLow(v);
    var w := LE(m, 8);
    Loads8(m);
    var r := FromLE(w[1 := key]);
    TypeReplaced(w, key);
    MaskedStatus(r);
  }

  lemma MaskedLow(v: u64)
    ensures var m := And(And(v, 0xFFFF_FFFF_FFFF_FF00), 0x7F_FFFF); m % 256 == 0 && m < 0x80_0000
  {
    hide And, Low, Pow2;
    var m := And(And(v, 0xFFFF_FFFF_FFFF_FF00), 0x7F_FFFF);
    AndLow(And(v, 0xFFFF_FFFF_FFFF_FF00), 0x7F_FFFF, 8);
    AndLow(v, 0xFFFF_FFFF_FFFF_FF00, 8);
    Pow2Values();
    LowMod(0xFFFF_FFFF_FFFF_FF00, 8);
    LowMod(m, 8);
  }

  lemma TypeReplaced(w: seq<byte>, key: byte)
    requires |w| == 8 && FromLE(w) % 256 == 0 && FromLE(w) < 0x80_0000
    ensures FromLE(w[1 := key]) % 256 == 0 && FromLE(w[1 := key]) < 0x80_0000
  {
    hide FromLE;
    var rest := FromLE(w[2..]);
    FromLETwo(w);
    FromLETwo(w[1 := key]);
    assert w[1 := key][2..] == w[2..];
  }

  lemma FromLETwo(w: seq<byte>)
    requires |w| >= 2
    ensures FromLE(w) == w[0] + 256 * (w[1] + 256 * FromLE(w[2..]))
  {
    assert w[1..][1..] == w[2..];
  }

  lemma MaskedStatus(v: u64)
    requires v % 256 == 0 && v < 0x80_0000
    ensures CanonicalStatus(v)
  {
    hide Low, Sum, SplitBits;
    var ws: seq<nat> := [8, 8, 1, 1, 1, 1, 1, 1, 1];
    assert STATUS_BITS == ws + [41];
    var a: seq<nat>, b: seq<nat> := [8, 8, 1, 1], [1, 1, 1, 1];
    assert ws == a + b + [1];
    SumFour(8, 8, 1, 1);
    SumFour(1, 1, 1, 1);
    SumAppend(a, b);
    SumAppend(a + b, [1]);
    SumEqual([1], 1);
    assert Pow2(23) == 0x80_0000 && Pow2(8) == 256;
    TopFieldZero(v, ws, 41);
    LowMod(v, 8);
    StatusFirst(v);
  }

  lemma StatusFirst(v: nat)
    ensures SplitBits(v, STATUS_BITS)[0] == Low(v, 8)
  {
  }
}
