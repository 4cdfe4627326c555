/** Numbers and bit fields in memory, spelled out byte by byte and bit by bit. */
module Readings {
  import opened Bytes

  // ---- bytes --------------------------------------------------------------------------------------------

  /** The byte at `p`; the model reads zeros behind the end. */
  function N8(s: seq<byte>, p: nat): byte {
    if p < |s| then s[p] else 0
  }

  function N16(s: seq<byte>, p: nat): u16 {
    N8(s, p) + 0x100 * N8(s, p + 1)
  }

  function N24(s: seq<byte>, p: nat): nat {
    N8(s, p) + 0x100 * N8(s, p + 1) + 0x1_0000 * N8(s, p + 2)
  }

  function N32(s: seq<byte>, p: nat): u32 {
    N8(s, p) + 0x100 * N8(s, p + 1) + 0x1_0000 * N8(s, p + 2) + 0x100_0000 * N8(s, p + 3)
  }

  function N64(s: seq<byte>, p: nat): u64 {
    N32(s, p) + 0x1_0000_0000 * N32(s, p + 4)
  }

  lemma Read8(s: seq<byte>, p: nat)
    ensures U8(At(s, p, 1)) == FromLE(At(s, p, 1)) == N8(s, p)
  {
    FromOne(At(s, p, 1));
  }

  lemma FromOne(w: seq<byte>)
    requires |w| == 1
    ensures FromLE(w) == w[0]
  {
    assert w[1..] == [];
  }

  lemma Read16(s: seq<byte>, p: nat)
    ensures U16(At(s, p, 2)) == FromLE(At(s, p, 2)) == N16(s, p)
  {
    FromTwo(At(s, p, 2));
  }

  lemma FromTwo(w: seq<byte>)
    requires |w| == 2
    ensures FromLE(w) == w[0] as int + 0x100 * (w[1] as int)
  {
    FromOne(w[1..]);
  }

  lemma Read24(s: seq<byte>, p: nat)
    ensures FromLE(At(s, p, 3)) == N24(s, p)
  {
    FromThree(At(s, p, 3));
  }

  lemma FromThree(w: seq<byte>)
    requires |w| == 3
    ensures FromLE(w) == w[0] as int + 0x100 * (w[1] as int) + 0x1_0000 * (w[2] as int)
  {
    FromTwo(w[1..]);
  }

  lemma Read32(s: seq<byte>, p: nat)
    ensures U32(At(s, p, 4)) == FromLE(At(s, p, 4)) == N32(s, p)
  {
    FromFour(At(s, p, 4));
  }

  lemma FromFour(w: seq<byte>)
    requires |w| == 4
    ensures FromLE(w) == w[0] as int + 0x100 * (w[1] as int) + 0x1_0000 * (w[2] as int) + 0x100_0000 * (w[3] as int)
  {
    FromThree(w[1..]);
  }

  lemma Read64(s: seq<byte>, p: nat)
    ensures U64(At(s, p, 8)) == FromLE(At(s, p, 8)) == N64(s, p)
  {
    hide FromLE, At;
    AtSplit(s, p, 4, 4);
    FromAppended(At(s, p, 4), At(s, p + 4, 4));
    Read32(s, p);
    Read32(s, p + 4);
  }

  lemma FromAppended(a: seq<byte>, b: seq<byte>)
    requires |a| == 4
    ensures FromLE(a + b) == FromLE(a) + 0x1_0000_0000 * FromLE(b)
  {
    var w := a + b;
    FromFour(a);
    assert w[1..][1..][1..][1..] == b;
    assert FromLE(w) == w[0] as int + 0x100 * FromLE(w[1..]);
    assert FromLE(w[1..]) == w[1] + 0x100 * FromLE(w[1..][1..]);
    assert FromLE(w[1..][1..]) == w[2] + 0x100 * FromLE(w[1..][1..][1..]);
    assert FromLE(w[1..][1..][1..]) == w[3] + 0x100 * FromLE(b);
  }

  // ---- bits -----------------------------------------------------------------------------------------------

  lemma DivTwice(v: nat, a: nat, b: nat)
    requires a > 0 && b > 0
    ensures a * b > 0 && v / a / b == v / (a * b)
  {
    var q := v / a / b;
    var r := v / a - b * q;
    assert v == a * (v / a) + v % a && v / a == b * q + r;
    assert a * (b * q) == q * (a * b);
    assert a * (v / a) == a * (b * q) + a * r;
    MulMonotone(r, b - 1, a);
    assert (b - 1) * a == a * b - a;
    MulMonotone(1, b, a);
    DivModUnique(v, a * b, q, a * r + v % a);
  }

  /** Shifting right is dividing by a power of two. */
  lemma {:induction false} HighIsDiv(v: nat, k: nat)
    ensures High(v, k) == v / Pow2(k)
    decreases k
  {
    if k > 0 {
      HighIsDiv(v / 2, k - 1);
      DivTwice(v, 2, Pow2(k - 1));
    }
  }

  lemma {:induction false} HighTwice(v: nat, a: nat, b: nat)
    ensures High(High(v, a), b) == High(v, a + b)
    decreases a
  {
    if a > 0 {
      HighTwice(v / 2, a - 1, b);
    }
  }

  /** Field `i` of a word starts behind the widths before it. */
  lemma {:induction false} FieldAt(v: nat, ws: seq<nat>, i: nat)
    requires i < |ws|
    ensures SplitBits(v, ws)[i] == v / Pow2(Sum(ws[..i])) % Pow2(ws[i])
    decreases i
  {
    hide Pow2;
    FieldShifted(v, ws, i);
    HighIsDiv(v, Sum(ws[..i]));
    LowMod(High(v, Sum(ws[..i])), ws[i]);
  }

  lemma {:induction false} FieldShifted(v: nat, ws: seq<nat>, i: nat)
    requires i < |ws|
    ensures SplitBits(v, ws)[i] == Low(High(v, Sum(ws[..i])), ws[i])
    decreases i
  {
    hide Low, Pow2;
    if i > 0 {
      FieldShifted(High(v, ws[0]), ws[1..], i - 1);
      assert ws[..i][1..] == ws[1..][..i - 1];
      HighTwice(v, ws[0], Sum(ws[1..][..i - 1]));
    } else {
      SumNone(ws);
    }
  }

  /** The powers of two that word layouts are cut at. */
  lemma Powers()
    ensures Pow2(0) == 1 && Pow2(1) == 2 && Pow2(2) == 4 && Pow2(3) == 8 && Pow2(4) == 0x10 && Pow2(5) == 0x20
    ensures Pow2(6) == 0x40 && Pow2(7) == 0x80 && Pow2(8) == 0x100 && Pow2(9) == 0x200 && Pow2(10) == 0x400
  {
  }

  lemma HighPowers()
    ensures Pow2(16) == 0x1_0000 && Pow2(17) == 0x2_0000 && Pow2(18) == 0x4_0000 && Pow2(19) == 0x8_0000
    ensures Pow2(20) == 0x10_0000 && Pow2(21) == 0x20_0000 && Pow2(22) == 0x40_0000 && Pow2(23) == 0x80_0000
    ensures Pow2(25) == 0x200_0000 && Pow2(26) == 0x400_0000 && Pow2(27) == 0x800_0000 && Pow2(28) == 0x1000_0000
    ensures Pow2(29) == 0x2000_0000 && Pow2(30) == 0x4000_0000 && Pow2(32) == 0x1_0000_0000
    ensures Pow2(33) == 0x2_0000_0000
  {
    Pow2Values();
    assert Pow2(33) == 2 * Pow2(32) && Pow2(17) == 2 * Pow2(16) && Pow2(18) == 2 * Pow2(17);
    assert Pow2(19) == 2 * Pow2(18) && Pow2(20) == 2 * Pow2(19) && Pow2(21) == 2 * Pow2(20);
    assert Pow2(22) == 2 * Pow2(21) && Pow2(23) == 2 * Pow2(22) && Pow2(24) == 2 * Pow2(23);
    assert Pow2(25) == 2 * Pow2(24) && Pow2(26) == 2 * Pow2(25) && Pow2(27) == 2 * Pow2(26);
    assert Pow2(28) == 2 * Pow2(27) && Pow2(29) == 2 * Pow2(28) && Pow2(30) == 2 * Pow2(29);
  }
}
