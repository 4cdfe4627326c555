/** Packed little-endian memory: integers as bytes, bit fields as integers, structs as byte slices. */
module Bytes {

  type byte = x: int | 0 <= x < 0x100
  type u16 = x: int | 0 <= x < 0x1_0000
  type u32 = x: int | 0 <= x < 0x1_0000_0000
  type u64 = x: int | 0 <= x < 0x1_0000_0000_0000_0000

  // ---- division facts -------------------------------------------------------------------------

  lemma MulMonotone(a: int, b: int, c: nat)
    requires a <= b
    ensures a * c <= b * c
  {
  }

  lemma MulGap(a: int, b: int, c: nat)
    requires a < b
    ensures a * c + c <= b * c
  {
    MulMonotone(a + 1, b, c);
  }

  /** Quotient and remainder are determined by x == q * d + r with r in range. */
  lemma DivModUnique(x: int, d: int, q: int, r: int)
    requires d > 0 && x == q * d + r && 0 <= r < d
    ensures x / d == q && x % d == r
  {
    var q' := x / d;
    assert x == q' * d + x % d;
    if q' < q {
      MulGap(q', q, d);
    } else if q < q' {
      MulGap(q, q', d);
    }
  }

  /** Reducing modulo `a * b` is reducing the low digit modulo `a` and the rest modulo `b`. */
  lemma ModSplit(x: int, a: int, b: int)
    requires a > 0 && b > 0
    ensures a * b > 0
    ensures x % (a * b) == x % a + a * ((x / a) % b)
  {
    var y := x / a;
    var q, m := y / b, y % b;
    assert y == b * q + m;
    assert x == a * y + x % a;
    assert a * y == a * (b * q) + a * m;
    assert a * (b * q) == q * (a * b);
    MulMonotone(m, b - 1, a);
    assert (b - 1) * a == a * b - a;
    assert m * a == a * m;
    MulMonotone(1, b, a);
    DivModUnique(x, a * b, q, a * m + x % a);
  }

  // ---- integers as little-endian bytes -----------------------------------------------------------

  /** 256 to the power `w`: how many values `w` bytes can hold. */
  function Range(w: nat): (n: nat)
    ensures n > 0
  {
    if w == 0 then 1 else 256 * Range(w - 1)
  }

  /** The low `w` bytes of `v` in two's complement, least significant first. */
  function LE(v: int, w: nat): (s: seq<byte>)
    ensures |s| == w
    decreases w
  {
    if w == 0 then [] else [v % 256] + LE(v / 256, w - 1)
  }

  function FromLE(s: seq<byte>): nat {
    if s == [] then 0 else s[0] + 256 * FromLE(s[1..])
  }

  lemma FromLEBound(s: seq<byte>)
    ensures FromLE(s) < Range(|s|)
  {
    if s != [] {
      FromLEBound(s[1..]);
    }
  }

  /** Storing truncates, loading gives the truncated value back. */
  lemma {:induction false} LoadStore(v: int, w: nat)
    ensures FromLE(LE(v, w)) == v % Range(w)
    decreases w
  {
    if w > 0 {
      LoadStore(v / 256, w - 1);
      assert LE(v, w)[1..] == LE(v / 256, w - 1);
      ModSplit(v, 256, Range(w - 1));
    }
  }

  lemma {:induction false} StoreLoad(s: seq<byte>)
    ensures LE(FromLE(s), |s|) == s
  {
    if s != [] {
      StoreLoad(s[1..]);
      DivModUnique(FromLE(s), 256, FromLE(s[1..]), s[0]);
      assert s == [s[0]] + s[1..];
    }
  }

  function U8(s: seq<byte>): byte
    requires |s| == 1
  {
    s[0]
  }

  function U16(s: seq<byte>): u16
    requires |s| == 2
  {
    FromLEBound(s); FromLE(s)
  }

  function U32(s: seq<byte>): u32
    requires |s| == 4
  {
    FromLEBound(s); FromLE(s)
  }

  function U64(s: seq<byte>): u64
    requires |s| == 8
  {
    FromLEBound(s); FromLE(s)
  }

  /** A stored integer that fits is loaded back unchanged. */
  lemma LoadStoreFits(v: nat, w: nat)
    requires v < Range(w)
    ensures FromLE(LE(v, w)) == v
  {
    LoadStore(v, w);
    DivModUnique(v, Range(w), 0, v);
  }

  /** Storing a value keeps the bytes that are there exactly when it is the value they hold. */
  lemma StoreKept(p: seq<byte>, v: u64)
    requires |p| == 8
    ensures LE(v, 8) == p <==> v == U64(p)
  {
    hide LE, FromLE;
    assert Range(8) == 0x1_0000_0000_0000_0000;
    LoadStoreFits(v, 8);
    StoreLoad(p);
  }

  lemma StoreKept16(p: seq<byte>, v: u16)
    requires |p| == 2
    ensures LE(v, 2) == p <==> v == U16(p)
  {
    hide LE, FromLE;
    assert Range(2) == 0x1_0000;
    LoadStoreFits(v, 2);
    StoreLoad(p);
  }

  // ---- structs as slices ------------------------------------------------------------------------

  function Sum(ws: seq<nat>): nat {
    if ws == [] then 0 else ws[0] + Sum(ws[1..])
  }

  lemma {:induction false} SumAppend(a: seq<nat>, b: seq<nat>)
    ensures Sum(a + b) == Sum(a) + Sum(b)
    decreases |a|
  {
    if a == [] {
      assert a + b == b;
    } else {
      SumAppend(a[1..], b);
      assert (a + b)[1..] == a[1..] + b;
    }
  }

  lemma SumFour(a: nat, b: nat, c: nat, d: nat)
    ensures Sum([a, b, c, d]) == a + b + c + d
  {
    var three: seq<nat>, two: seq<nat>, one: seq<nat> := [b, c, d], [c, d], [d];
    assert [a, b, c, d][1..] == three && three[1..] == two && two[1..] == one && one[1..] == [];
    assert Sum(one) == d;
    assert Sum(two) == c + d;
    assert Sum(three) == b + c + d;
  }

  lemma SumNone(ws: seq<nat>)
    ensures Sum(ws[..0]) == 0
  {
  }

  lemma SumPrefix(ws: seq<nat>, i: nat)
    requires i < |ws|
    ensures Sum(ws[..i + 1]) == Sum(ws[..i]) + ws[i]
  {
    var last: seq<nat> := [ws[i]];
    assert ws[..i + 1] == ws[..i] + last && last[1..] == [];
    SumAppend(ws[..i], last);
  }

  lemma {:induction false} SumEqual(ws: seq<nat>, w: nat)
    requires forall i :: 0 <= i < |ws| ==> ws[i] == w
    ensures Sum(ws) == |ws| * w
    decreases |ws|
  {
    if ws != [] {
      SumEqual(ws[1..], w);
    }
  }

  /** Cuts the first Sum(ws) bytes of `s` into fields of the given widths. */
  function Chop(s: seq<byte>, ws: seq<nat>): (ps: seq<seq<byte>>)
    requires |s| == Sum(ws)
    ensures |ps| == |ws|
    ensures forall i :: 0 <= i < |ps| ==> |ps[i]| == ws[i]
    decreases |ws|
  {
    if ws == [] then [] else [s[..ws[0]]] + Chop(s[ws[0]..], ws[1..])
  }

  function Join(ps: seq<seq<byte>>): seq<byte>
    decreases |ps|
  {
    if ps == [] then [] else ps[0] + Join(ps[1..])
  }

  ghost predicate HasWidths(ps: seq<seq<byte>>, ws: seq<nat>) {
    |ps| == |ws| && forall i :: 0 <= i < |ps| ==> |ps[i]| == ws[i]
  }

  lemma {:induction false} JoinLength(ps: seq<seq<byte>>, ws: seq<nat>)
    requires HasWidths(ps, ws)
    ensures |Join(ps)| == Sum(ws)
    decreases |ps|
  {
    if ps != [] {
      JoinLength(ps[1..], ws[1..]);
    }
  }

  lemma {:induction false} JoinChop(s: seq<byte>, ws: seq<nat>)
    requires |s| == Sum(ws)
    ensures Join(Chop(s, ws)) == s
    decreases |ws|
  {
    if ws != [] {
      JoinChop(s[ws[0]..], ws[1..]);
      assert Chop(s, ws)[1..] == Chop(s[ws[0]..], ws[1..]);
      assert s == s[..ws[0]] + s[ws[0]..];
    }
  }

  lemma {:induction false} ChopJoin(ps: seq<seq<byte>>, ws: seq<nat>)
    requires HasWidths(ps, ws)
    ensures |Join(ps)| == Sum(ws)
    ensures Chop(Join(ps), ws) == ps
    decreases |ps|
  {
    JoinLength(ps, ws);
    if ps != [] {
      ChopJoin(ps[1..], ws[1..]);
      assert Join(ps)[..ws[0]] == ps[0];
      assert Join(ps)[ws[0]..] == Join(ps[1..]);
      assert ps == [ps[0]] + ps[1..];
    }
  }

  lemma {:induction false} JoinAppend(ps: seq<seq<byte>>, p: seq<byte>)
    ensures Join(ps + [p]) == Join(ps) + p
    decreases |ps|
  {
    if ps == [] {
      assert ps + [p] == [p];
      assert [p][1..] == [];
      assert Join([p]) == p + [];
    } else {
      JoinAppend(ps[1..], p);
      assert (ps + [p])[1..] == ps[1..] + [p];
      assert ps[0] + (Join(ps[1..]) + p) == (ps[0] + Join(ps[1..])) + p;
    }
  }

  /** A field sits right after the fields before it. */
  lemma {:induction false} ChopAt(s: seq<byte>, a: seq<nat>, w: nat, b: seq<nat>)
    requires |s| == Sum(a + [w] + b)
    ensures Sum(a) + w <= |s| && Chop(s, a + [w] + b)[|a|] == s[Sum(a)..Sum(a) + w]
    decreases |a|
  {
    var ws := a + [w] + b;
    if a == [] {
      assert ws[0] == w;
    } else {
      assert ws[1..] == a[1..] + [w] + b && ws[0] == a[0];
      ChopAt(s[a[0]..], a[1..], w, b);
    }
  }

  /** The i-th field is the slice behind the widths before it. */
  lemma ChopSlice(s: seq<byte>, ws: seq<nat>, i: nat)
    requires |s| == Sum(ws) && i < |ws|
    ensures Chop(s, ws)[i] == At(s, Sum(ws[..i]), ws[i])
  {
    hide Sum, Chop;
    assert ws == ws[..i] + [ws[i]] + ws[i + 1..];
    ChopAt(s, ws[..i], ws[i], ws[i + 1..]);
  }

  function Zeros(n: nat): (s: seq<byte>)
    ensures |s| == n
    ensures forall i :: 0 <= i < n ==> s[i] == 0
  {
    seq(n, _ => 0)
  }

  lemma {:induction false} ZerosAreZero(n: nat)
    ensures FromLE(Zeros(n)) == 0
  {
    if n > 0 {
      assert Zeros(n)[1..] == Zeros(n - 1);
      ZerosAreZero(n - 1);
    }
  }

  lemma {:induction false} LEZero(n: nat)
    ensures LE(0, n) == Zeros(n)
    decreases n
  {
    if n > 0 {
      LEZero(n - 1);
    }
  }

  /** The `n` bytes at offset `off`, as a cast pointer sees them. Bytes past the buffer read as zero:
      there the C program's behaviour is undefined. */
  function At(s: seq<byte>, off: nat, n: nat): (r: seq<byte>)
    ensures |r| == n
    ensures forall i :: 0 <= i < n ==> r[i] == (if off + i < |s| then s[off + i] else 0)
  {
    if off + n <= |s| then s[off..off + n] else seq(n, i requires 0 <= i => if off + i < |s| then s[off + i] else 0)
  }

  /** The fields at the front of some memory, as a pointer to a packed struct sees them. */
  function Front(s: seq<byte>, ws: seq<nat>): (p: seq<seq<byte>>)
    ensures HasWidths(p, ws)
  {
    Chop(At(s, 0, Sum(ws)), ws)
  }

  lemma FrontJoined(s: seq<byte>, ws: seq<nat>)
    ensures Join(Front(s, ws)) == At(s, 0, Sum(ws))
  {
    JoinChop(At(s, 0, Sum(ws)), ws);
  }

  /** A field at the front of some memory, found at its offset. */
  lemma FrontSlice(s: seq<byte>, ws: seq<nat>, i: nat)
    requires i < |ws| && Sum(ws[..i]) + ws[i] <= Sum(ws)
    ensures Front(s, ws)[i] == At(s, Sum(ws[..i]), ws[i])
  {
    hide At, Sum, Chop;
    ChopSlice(At(s, 0, Sum(ws)), ws, i);
    AtAt(s, 0, Sum(ws), Sum(ws[..i]), ws[i]);
  }

  /** Fields in front of anything else are found there again. */
  lemma FrontOfJoin(p: seq<seq<byte>>, ws: seq<nat>, rest: seq<byte>)
    requires HasWidths(p, ws)
    ensures |Join(p)| == Sum(ws) && Front(Join(p) + rest, ws) == p
  {
    hide Join, Chop, Sum;
    ChopJoin(p, ws);
    assert At(Join(p) + rest, 0, Sum(ws)) == Join(p);
  }

  lemma AtSplit(s: seq<byte>, off: nat, m: nat, n: nat)
    ensures At(s, off, m + n) == At(s, off, m) + At(s, off + m, n)
  {
  }

  /** Concatenations whose first parts have one length agree only part by part. */
  lemma AppendKept(a: seq<byte>, b: seq<byte>, a': seq<byte>, b': seq<byte>)
    requires |a| == |a'|
    ensures a + b == a' + b' <==> a == a' && b == b'
  {
    if a + b == a' + b' {
      assert a == (a + b)[..|a|] && b == (a + b)[|a|..];
      assert a' == (a' + b')[..|a|] && b' == (a' + b')[|a|..];
    }
  }

  lemma ThreePartsKept(a: seq<byte>, b: seq<byte>, c: seq<byte>, a': seq<byte>, b': seq<byte>, c': seq<byte>)
    requires |a| == |a'| && |b| == |b'|
    ensures a + b + c == a' + b' + c' <==> a == a' && b == b' && c == c'
  {
    AppendKept(a, b, a', b');
    AppendKept(a + b, c, a' + b', c');
  }

  /** Slices of the same widths make up the same bytes only if they are the same slices. */
  lemma SlicesKept(p: seq<seq<byte>>, n: seq<seq<byte>>, ws: seq<nat>)
    requires HasWidths(p, ws) && HasWidths(n, ws)
    ensures Join(p) == Join(n) <==> p == n
  {
    hide Join, Chop;
    ChopJoin(p, ws);
    ChopJoin(n, ws);
  }

  lemma AtWhole(s: seq<byte>)
    ensures At(s, 0, |s|) == s
  {
  }

  // ---- bit fields -------------------------------------------------------------------------------

  function Pow2(n: nat): (p: nat)
    ensures p > 0
  {
    if n == 0 then 1 else 2 * Pow2(n - 1)
  }

  lemma {:induction false} Pow2Add(a: nat, b: nat)
    ensures Pow2(a + b) == Pow2(a) * Pow2(b)
  {
    if a > 0 {
      Pow2Add(a - 1, b);
      assert Pow2(a) * Pow2(b) == 2 * (Pow2(a - 1) * Pow2(b));
    }
  }

  lemma Pow2Values()
    ensures Pow2(0) == 1 && Pow2(1) == 2 && Pow2(8) == 0x100 && Pow2(16) == 0x1_0000
    ensures Pow2(32) == 0x1_0000_0000 && Pow2(64) == 0x1_0000_0000_0000_0000
  {
    assert Pow2(8) == 0x100;
    Pow2Add(8, 8);
    Pow2Add(16, 16);
    Pow2Add(32, 32);
  }

  lemma SmallPowers()
    ensures Pow2(1) == 2 && Pow2(2) == 4 && Pow2(5) == 32 && Pow2(6) == 64 && Pow2(7) == 128 && Pow2(8) == 256
    ensures Pow2(14) == 0x4000
  {
    Pow2Add(7, 7);
  }

  lemma {:induction false} Pow2Monotone(a: nat, b: nat)
    requires a <= b
    ensures Pow2(a) <= Pow2(b)
    decreases b - a
  {
    if a < b {
      Pow2Monotone(a + 1, b);
    }
  }

  /** The low `k` bits of `v`: v modulo 2 to the power k. */
  function Low(v: nat, k: nat): (r: nat)
    ensures r < Pow2(k)
    decreases k
  {
    if k == 0 then 0 else v % 2 + 2 * Low(v / 2, k - 1)
  }

  lemma {:induction false} LowAtMost(v: nat, k: nat)
    ensures Low(v, k) <= v
    decreases k
  {
    if k > 0 {
      LowAtMost(v / 2, k - 1);
    }
  }

  lemma LowKept(v: nat, k: nat)
    ensures Low(v, k) == v <==> v < Pow2(k)
  {
    if v < Pow2(k) {
      LowOfLow(v, k);
    }
  }

  lemma {:induction false} LowMod(v: nat, k: nat)
    ensures Low(v, k) == v % Pow2(k)
    decreases k
  {
    if k > 0 {
      LowMod(v / 2, k - 1);
      ModSplit(v, 2, Pow2(k - 1));
    }
  }

  /** `v` shifted right by `k` bits. */
  function High(v: nat, k: nat): nat
    decreases k
  {
    if k == 0 then v else High(v / 2, k - 1)
  }

  /** `l` in the low `k` bits and `h` above them. */
  function Place(l: nat, k: nat, h: nat): (v: nat)
    decreases k
  {
    if k == 0 then h else l % 2 + 2 * Place(l / 2, k - 1, h)
  }

  lemma {:induction false} PlaceParts(l: nat, k: nat, h: nat)
    ensures Low(Place(l, k, h), k) == Low(l, k) && High(Place(l, k, h), k) == h
    decreases k
  {
    if k > 0 {
      PlaceParts(l / 2, k - 1, h);
      assert Place(l, k, h) / 2 == Place(l / 2, k - 1, h) && Place(l, k, h) % 2 == l % 2;
    }
  }

  /** A value is its low bits and the rest, placed together; placing is adding a shifted value. */
  lemma {:induction false} PlaceSum(l: nat, k: nat, h: nat)
    ensures Place(l, k, h) == Low(l, k) + Pow2(k) * h
    decreases k
  {
    if k > 0 {
      PlaceSum(l / 2, k - 1, h);
      DoubleProduct(Pow2(k - 1), h);
      assert Pow2(k) * h == 2 * (Pow2(k - 1) * h);
      assert Place(l, k, h) == l % 2 + 2 * Place(l / 2, k - 1, h) && Low(l, k) == l % 2 + 2 * Low(l / 2, k - 1);
    }
  }

  lemma DoubleProduct(a: nat, b: nat)
    ensures 2 * a * b == 2 * (a * b)
  {
  }

  /** A value is its low bits plus the rest, shifted back. */
  lemma {:induction false} LowAndHigh(v: nat, k: nat)
    ensures Place(v, k, High(v, k)) == v == Low(v, k) + Pow2(k) * High(v, k)
    decreases k
  {
    if k > 0 {
      LowAndHigh(v / 2, k - 1);
      assert Place(v, k, High(v, k)) == v % 2 + 2 * (v / 2);
    }
    PlaceSum(v, k, High(v, k));
  }

  lemma {:induction false} LowOfLow(v: nat, k: nat)
    requires v < Pow2(k)
    ensures Low(v, k) == v && High(v, k) == 0
    decreases k
  {
    if k > 0 {
      LowOfLow(v / 2, k - 1);
    }
  }

  /** The bit fields of `v`, lowest first, with the given widths in bits. */
  function SplitBits(v: nat, ws: seq<nat>): (fs: seq<nat>)
    ensures |fs| == |ws|
    ensures forall i :: 0 <= i < |fs| ==> fs[i] < Pow2(ws[i])
    decreases |ws|
  {
    if ws == [] then [] else [Low(v, ws[0])] + SplitBits(High(v, ws[0]), ws[1..])
  }

  /** Assigns each bit field in turn; a value too large for its field is truncated, as in C. */
  function JoinBits(fs: seq<nat>, ws: seq<nat>): (v: nat)
    requires |fs| == |ws|
    decreases |ws|
  {
    if ws == [] then 0 else Place(fs[0], ws[0], JoinBits(fs[1..], ws[1..]))
  }

  lemma {:induction false} JoinSplitBits(v: nat, ws: seq<nat>)
    ensures JoinBits(SplitBits(v, ws), ws) == Low(v, Sum(ws))
    decreases |ws|
  {
    if ws != [] {
      JoinSplitBits(High(v, ws[0]), ws[1..]);
      assert SplitBits(v, ws)[1..] == SplitBits(High(v, ws[0]), ws[1..]);
      PlaceLow(v, ws[0], Sum(ws[1..]));
    }
  }

  lemma {:induction false} PlaceLow(v: nat, a: nat, b: nat)
    ensures Place(Low(v, a), a, Low(High(v, a), b)) == Low(v, a + b)
    decreases a
  {
    if a > 0 {
      PlaceLow(v / 2, a - 1, b);
      assert Low(v, a) / 2 == Low(v / 2, a - 1) && Low(v, a) % 2 == v % 2;
    }
  }

  /** Each bit field holds what was assigned to it, truncated to its width. */
  lemma {:induction false} SplitJoinBits(fs: seq<nat>, ws: seq<nat>)
    requires |fs| == |ws|
    ensures JoinBits(fs, ws) < Pow2(Sum(ws))
    ensures forall i :: 0 <= i < |ws| ==> SplitBits(JoinBits(fs, ws), ws)[i] == Low(fs[i], ws[i])
    decreases |ws|
  {
    if ws != [] {
      var rest := JoinBits(fs[1..], ws[1..]);
      SplitJoinBits(fs[1..], ws[1..]);
      PlaceParts(fs[0], ws[0], rest);
      PlaceBound(fs[0], ws[0], rest, Sum(ws[1..]));
      var split := SplitBits(JoinBits(fs, ws), ws);
      forall i | 0 <= i < |ws|
        ensures split[i] == Low(fs[i], ws[i])
      {
        if i > 0 {
          assert split[i] == SplitBits(rest, ws[1..])[i - 1];
        }
      }
    }
  }

  /** Every field fits a JSON number, and a one-bit field is a boolean. */
  ghost predicate Small(f: seq<nat>, ws: seq<nat>) {
    |f| == |ws| && forall i :: 0 <= i < |f| ==> f[i] < (if ws[i] == 1 then 2 else 0x1_0000_0000_0000_0000)
  }

  lemma SmallFields(v: u64, ws: seq<nat>)
    requires forall i :: 0 <= i < |ws| ==> ws[i] <= 64
    ensures Small(SplitBits(v, ws), ws)
  {
    hide SplitBits;
    Pow2Values();
    var f := SplitBits(v, ws);
    forall i | 0 <= i < |ws|
      ensures f[i] < if ws[i] == 1 then 2 else 0x1_0000_0000_0000_0000
    {
      Pow2Monotone(ws[i], 64);
    }
  }

  /** Fields that fit their widths are determined by the integer they make up. */
  lemma FieldsKept(f: seq<nat>, g: seq<nat>, ws: seq<nat>)
    requires |f| == |g| == |ws|
    requires forall i :: 0 <= i < |ws| ==> f[i] < Pow2(ws[i]) && g[i] < Pow2(ws[i])
    ensures JoinBits(f, ws) == JoinBits(g, ws) <==> f == g
  {
    hide SplitBits, JoinBits, Pow2, Low;
    SplitJoinBits(f, ws);
    SplitJoinBits(g, ws);
    forall i | 0 <= i < |ws|
      ensures Low(f[i], ws[i]) == f[i] && Low(g[i], ws[i]) == g[i]
    {
      LowOfLow(f[i], ws[i]);
      LowOfLow(g[i], ws[i]);
    }
    if JoinBits(f, ws) == JoinBits(g, ws) {
      assert forall i :: 0 <= i < |ws| ==> f[i] == SplitBits(JoinBits(f, ws), ws)[i] == g[i];
    }
  }

  lemma {:induction false} PlaceBound(l: nat, a: nat, h: nat, b: nat)
    requires h < Pow2(b)
    ensures Place(l, a, h) < Pow2(a + b)
    decreases a
  {
    if a > 0 {
      PlaceBound(l / 2, a - 1, h, b);
    }
  }

  /** Bitwise AND. */
  function And(a: nat, b: nat): (r: nat)
    ensures r <= a && r <= b
  {
    if a == 0 || b == 0 then 0 else (if a % 2 == b % 2 == 1 then 1 else 0) + 2 * And(a / 2, b / 2)
  }

  /** AND acts on the low `k` bits independently of the rest. */
  lemma {:induction false} AndLow(a: nat, b: nat, k: nat)
    ensures Low(And(a, b), k) == And(Low(a, k), Low(b, k))
    decreases k
  {
    if k > 0 {
      hide And, Low;
      AndHalf(a, b);
      AndHalf(Low(a, k), Low(b, k));
      AndLow(a / 2, b / 2, k - 1);
      LowHalf(a, k);
      LowHalf(b, k);
      LowHalf(And(a, b), k);
    } else {
      assert And(0, 0) == 0;
    }
  }

  lemma LowHalf(v: nat, k: nat)
    requires k > 0
    ensures Low(v, k) / 2 == Low(v / 2, k - 1) && Low(v, k) % 2 == v % 2
  {
  }

  lemma AndHalf(a: nat, b: nat)
    ensures And(a, b) / 2 == And(a / 2, b / 2)
    ensures And(a, b) % 2 == if a % 2 == b % 2 == 1 then 1 else 0
  {
  }

  /** Bitwise OR. */
  function Or(a: nat, b: nat): nat
    decreases a + b
  {
    if a == 0 then b else if b == 0 then a
    else (if a % 2 == 1 || b % 2 == 1 then 1 else 0) + 2 * Or(a / 2, b / 2)
  }

  /** `v` shifted left by `k` bits. */
  function Shifted(v: nat, k: nat): nat {
    Place(0, k, v)
  }

  /** Setting bits above those in use places them there. */
  lemma {:induction false} OrPlace(a: nat, k: nat, h: nat)
    requires a < Pow2(k)
    ensures Or(a, Shifted(h, k)) == Place(a, k, h)
    decreases k
  {
    if k > 0 {
      OrPlace(a / 2, k - 1, h);
      var b, c := Shifted(h, k), Shifted(h, k - 1);
      assert b == 2 * c;
      OrHalf(a, b);
      assert Or(a, b) / 2 == Or(a / 2, c) && Or(a, b) % 2 == a % 2;
    }
  }

  lemma OrHalf(a: nat, b: nat)
    ensures Or(a, b) / 2 == Or(a / 2, b / 2)
    ensures Or(a, b) % 2 == if a % 2 == 1 || b % 2 == 1 then 1 else 0
  {
  }

  /** A value that fits the fields below the last one leaves that one zero. */
  lemma {:induction false} TopFieldZero(v: nat, ws: seq<nat>, w: nat)
    requires v < Pow2(Sum(ws))
    ensures SplitBits(v, ws + [w])[|ws|] == 0
    decreases |ws|
  {
    var all := ws + [w];
    if ws == [] {
      LowOfLow(0, w);
    } else {
      assert all[1..] == ws[1..] + [w];
      HighBound(v, ws[0], Sum(ws[1..]));
      TopFieldZero(High(v, ws[0]), ws[1..], w);
    }
  }

  lemma {:induction false} HighBound(v: nat, a: nat, b: nat)
    requires v < Pow2(a + b)
    ensures High(v, a) < Pow2(b)
    decreases a
  {
    if a > 0 {
      HighBound(v / 2, a - 1, b);
    }
  }

  // ---- writing into a buffer ---------------------------------------------------------------------

  function Head(d: seq<byte>, p: nat): (r: seq<byte>)
    ensures |r| == p
  {
    if p <= |d| then d[..p] else d + Zeros(p - |d|)
  }

  function Tail(d: seq<byte>, p: nat): seq<byte> {
    if p <= |d| then d[p..] else []
  }

  /** `d` after the bytes `b` are stored at offset `p`; a gap past the end is filled with zeros. */
  function Patch(d: seq<byte>, p: nat, b: seq<byte>): (r: seq<byte>)
    ensures |r| >= |d|
  {
    if b == [] then d else Head(d, p) + b + Tail(d, p + |b|)
  }

  /** Two consecutive stores are one store of both pieces. */
  lemma PatchTwice(d: seq<byte>, p: nat, a: seq<byte>, b: seq<byte>)
    ensures Patch(Patch(d, p, a), p + |a|, b) == Patch(d, p, a + b)
  {
    if a == [] {
      assert a + b == b;
    } else if b == [] {
      assert a + b == a;
    } else {
      hide Head, Tail;
      var n, head := p + |a|, Head(d, p);
      AfterAppend(head + a, Tail(d, n), |b|);
      TailOfTail(d, n, |b|);
      assert (head + a) + b == head + (a + b);
    }
  }

  lemma AfterAppend(a: seq<byte>, b: seq<byte>, k: nat)
    ensures Head(a + b, |a|) == a && Tail(a + b, |a| + k) == Tail(b, k)
  {
  }

  lemma TailOfTail(d: seq<byte>, n: nat, k: nat)
    ensures Tail(Tail(d, n), k) == Tail(d, n + k)
  {
  }

  /** Inside a buffer, a store replaces just the bytes it covers. */
  lemma PatchIndex(d: seq<byte>, p: nat, b: seq<byte>)
    requires p + |b| <= |d|
    ensures |Patch(d, p, b)| == |d|
    ensures forall k :: 0 <= k < |d| ==> Patch(d, p, b)[k] == if p <= k < p + |b| then b[k - p] else d[k]
  {
  }

  lemma PatchLength(d: seq<byte>, p: nat, b: seq<byte>)
    requires p + |b| <= |d|
    ensures |Patch(d, p, b)| == |d|
  {
  }

  /** What was stored is there. */
  lemma PatchRead(d: seq<byte>, p: nat, b: seq<byte>)
    ensures At(Patch(d, p, b), p, |b|) == b
  {
  }

  /** What lies before and behind it is as it was. */
  lemma PatchElsewhere(d: seq<byte>, p: nat, b: seq<byte>, q: nat, n: nat)
    requires p + |b| <= |d| && (q + n <= p || p + |b| <= q)
    ensures At(Patch(d, p, b), q, n) == At(d, q, n)
  {
    hide Patch, At;
    PatchIndex(d, p, b);
    var s := Patch(d, p, b);
    assert forall i :: 0 <= i < n ==> At(s, q, n)[i] == At(d, q, n)[i];
  }

  /** A store leaves everything before it, also when it extends the buffer. */
  lemma PatchBehind(d: seq<byte>, p: nat, b: seq<byte>, q: nat, n: nat)
    requires q + n <= p
    ensures At(Patch(d, p, b), q, n) == At(d, q, n)
  {
    hide At;
    var s := Patch(d, p, b);
    assert forall i :: 0 <= i < n ==> At(s, q, n)[i] == At(d, q, n)[i];
  }

  lemma AtAt(s: seq<byte>, p: nat, n: nat, q: nat, m: nat)
    requires q + m <= n
    ensures At(At(s, p, n), q, m) == At(s, p + q, m)
  {
  }

  lemma AtLeft(a: seq<byte>, b: seq<byte>, p: nat, n: nat)
    requires p + n <= |a|
    ensures At(a + b, p, n) == At(a, p, n)
  {
    assert (a + b)[p..p + n] == a[p..p + n];
  }

  lemma AtEnd(a: seq<byte>, b: seq<byte>)
    ensures At(a + b, |a|, |b|) == b
  {
  }

  lemma AtMiddle(a: seq<byte>, b: seq<byte>, c: seq<byte>, p: nat, n: nat)
    requires p + n <= |b|
    ensures At(a + b + c, |a| + p, n) == At(b, p, n)
  {
    hide At;
    AtLeft(a + b, c, |a| + p, n);
    AtEnd(a, b);
    AtAt(a + b, |a|, |b|, p, n);
  }
}
