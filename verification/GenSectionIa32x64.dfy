/** Random IA32/x64 sections, and why the reader stays in step with them. */
module GenSectionIa32x64 {
  import opened Buffers
  import opened Bytes
  import opened CperRecord
  import opened GenUtils
  import opened Guids
  import opened Ia32x64Checks
  import opened Readings
  import opened SectionIa32x64

  // ---- error structures -----------------------------------------------------------------------------

  lemma ErrorInfoSlices(e: seq<byte>)
    requires |e| == ERROR_INFO_SIZE
    ensures var p := ErrorInfoParts(e); p[0] == At(e, 0, 16) && p[1] == At(e, 16, 8) && p[2] == At(e, 24, 8)
  {
    hide Chop, At;
    ErrorInfoWidths();
    ChopSlice(e, ERROR_INFO_WIDTHS, 0);
    ChopSlice(e, ERROR_INFO_WIDTHS, 1);
    ChopSlice(e, ERROR_INFO_WIDTHS, 2);
    assert ERROR_INFO_WIDTHS[..0] == [] && ERROR_INFO_WIDTHS[..1] == [16] && ERROR_INFO_WIDTHS[..2] == [16, 8];
  }

  /** The masks clear the unnamed validation bits and the reserved bits of a check. */
  ghost predicate GoodMasks(kind: CheckKind, clear: u64, keep: u64) {
    LayoutSize(kind);
    var ws := Layout(kind);
    var reserved := ws[|ws| - 1];
    ws[0] == 16 && Low(clear, 16) < Pow2(NamedBits(kind)) && reserved <= 64 && keep < Pow2(64 - reserved)
  }

  lemma MaskedCheck(kind: CheckKind, v: u64, clear: u64, keep: u64)
    requires kind != Unknown && GoodMasks(kind, clear, keep)
    ensures CanonicalCheck(kind, And(And(v, clear), keep))
  {
    hide And, Low, High, Pow2, Sum, SplitBits, Layout, NamedBits;
    LayoutSize(kind);
    var ws, r := Layout(kind), And(And(v, clear), keep);
    var n := |ws| - 1;
    assert ws == ws[..n] + [ws[n]];
    SumAppend(ws[..n], [ws[n]]);
    SumEqual([ws[n]], ws[n]);
    TopFieldZero(r, ws[..n], ws[n]);
    AndLow(And(v, clear), keep, 16);
    AndLow(v, clear, 16);
    FirstField(r, ws);
  }

  lemma FirstField(v: nat, ws: seq<nat>)
    requires ws != []
    ensures SplitBits(v, ws)[0] == Low(v, ws[0])
  {
  }

  const CACHE_CLEAR: u64 := 0xFFFF_FFFF_FFDF_00FF
  const CACHE_KEEP: u64 := 0x3FFF_FFFF
  const BUS_CLEAR: u64 := 0xFFFF_FFFF_FFDF_07FF
  const BUS_KEEP: u64 := 0x7_FFFF_FFFF
  const MS_CLEAR: u64 := 0xFFFF_FFFF_FFFF_001F
  const MS_KEEP: u64 := 0xFF_FFFF

  lemma MaskPowers()
    ensures Pow2(5) == 0x20 && Pow2(6) == 0x40 && Pow2(8) == 0x100 && Pow2(11) == 0x800 && Pow2(16) == 0x1_0000
    ensures Pow2(24) == 0x100_0000 && Pow2(30) == 0x4000_0000 && Pow2(35) == 0x8_0000_0000
  {
    Pow2Values();
    assert Pow2(3) == 8 && Pow2(5) == 0x20 && Pow2(6) == 0x40;
    hide Pow2;
    Pow2Add(8, 3);
    Pow2Add(16, 8);
    Pow2Add(24, 6);
    Pow2Add(32, 3);
  }

  lemma MasksAreGood()
    ensures GoodMasks(CacheOrTlb, CACHE_CLEAR, CACHE_KEEP)
    ensures GoodMasks(Bus, BUS_CLEAR, BUS_KEEP)
    ensures GoodMasks(Ms, MS_CLEAR, MS_KEEP)
  {
    hide Low, Pow2;
    MaskPowers();
    LowMod(CACHE_CLEAR, 16);
    LowMod(BUS_CLEAR, 16);
    LowMod(MS_CLEAR, 16);
  }

  lemma {:induction false} AndHigh(a: nat, b: nat, k: nat)
    ensures High(And(a, b), k) == And(High(a, k), High(b, k))
    decreases k
  {
    if k > 0 {
      hide And;
      AndHalf(a, b);
      AndHigh(a / 2, b / 2, k - 1);
    }
  }

  /** AND with all ones keeps the low bits. */
  lemma {:induction false} AndOnes(a: nat, k: nat)
    ensures And(a, Pow2(k) - 1) == Low(a, k)
    decreases k
  {
    if k > 0 {
      var ones := Pow2(k - 1) - 1;
      AndOnes(a / 2, k - 1);
      assert Pow2(k) - 1 == 2 * ones + 1 && Low(a, k) == a % 2 + 2 * Low(a / 2, k - 1);
      hide And, Low, Pow2;
      AndOdd(a, ones);
    } else {
      assert And(a, 0) == 0 && Pow2(0) == 1 && Low(a, 0) == 0;
      hide And, Low, Pow2;
    }
  }

  lemma AndOdd(a: nat, ones: nat)
    ensures And(a, 2 * ones + 1) == a % 2 + 2 * And(a / 2, ones)
  {
    assert And(a, 2 * ones + 1) / 2 == And(a / 2, ones) && And(a, 2 * ones + 1) % 2 == a % 2 by {
      AndHalf(a, 2 * ones + 1);
    }
  }

  lemma {:induction false} LowLow(v: nat, a: nat, b: nat)
    requires b <= a
    ensures Low(Low(v, a), b) == Low(v, b)
    decreases b
  {
    if b > 0 {
      LowHalf(v, a);
      LowLow(v / 2, a - 1, b - 1);
    }
  }

  /** Two masks act on the low `k` bits and on the rest separately. */
  lemma {:induction false} MaskSplit(v: nat, clear: nat, keep: nat, k: nat)
    ensures And(And(v, clear), keep) ==
      And(And(Low(v, k), Low(clear, k)), Low(keep, k)) + Pow2(k) * And(And(High(v, k), High(clear, k)), High(keep, k))
  {
    hide And, Low, High, Pow2;
    var r := And(And(v, clear), keep);
    LowAndHigh(r, k);
    AndLow(And(v, clear), keep, k);
    AndLow(v, clear, k);
    AndHigh(And(v, clear), keep, k);
    AndHigh(v, clear, k);
  }

  /** Masks of `a` and of `b` ones keep as many low bits as the fewer ones. */
  lemma {:induction false} TwoMasks(v: nat, a: nat, b: nat)
    ensures And(And(v, Pow2(a) - 1), Pow2(b) - 1) == Low(v, if a < b then a else b)
  {
    hide And, Low, Pow2;
    AndOnes(v, a);
    AndOnes(Low(v, a), b);
    if b <= a {
      LowLow(v, a, b);
    } else {
      Pow2Monotone(a, b);
      LowOfLow(Low(v, a), b);
    }
  }

  /** With `a` low ones of sixteen, then `b` of six, then ones only, and `c` of those kept. */
  lemma {:induction false} MasksTakeApart(v: nat, clear: nat, keep: nat, a: nat, b: nat, c: nat)
    requires a <= 16 && b <= 6 && c <= 42
    requires Low(clear, 16) == Pow2(a) - 1 && Low(High(clear, 16), 6) == Pow2(b) - 1 && High(clear, 22) == Pow2(42) - 1
    requires Low(keep, 16) == Pow2(16) - 1 && Low(High(keep, 16), 6) == Pow2(6) - 1 && High(keep, 22) == Pow2(c) - 1
    ensures And(And(v, clear), keep) ==
      Low(v, a) + Pow2(16) * (Low(High(v, 16), b) + Pow2(6) * Low(High(v, 22), c))
  {
    hide And, Low, High, Pow2;
    var rest := And(And(High(v, 16), High(clear, 16)), High(keep, 16));
    assert And(And(v, clear), keep) == Low(v, a) + Pow2(16) * rest by {
      MaskSplit(v, clear, keep, 16);
      TwoMasks(Low(v, 16), a, 16);
      LowLow(v, 16, a);
    }
    assert rest == Low(High(v, 16), b) + Pow2(6) * Low(High(v, 22), c) by {
      MaskSplit(High(v, 16), High(clear, 16), High(keep, 16), 6);
      HighTwice(v, 16, 6);
      HighTwice(clear, 16, 6);
      HighTwice(keep, 16, 6);
      TwoMasks(Low(High(v, 16), 6), b, 6);
      LowLow(High(v, 16), 6, b);
      TwoMasks(High(v, 22), 42, c);
    }
  }

  lemma {:induction false} MaskParts(v: u64)
    ensures Low(v, 16) == v % 0x1_0000 && Low(High(v, 16), 6) == v / 0x1_0000 % 64 && High(v, 22) == v / 0x40_0000
    ensures Pow2(16) == 0x1_0000 && Pow2(6) == 64 && Pow2(42) == 0x400_0000_0000
  {
    hide Low, High, Pow2;
    HighIsDiv(v, 16);
    HighIsDiv(v, 22);
    LowMod(v, 16);
    LowMod(High(v, 16), 6);
    HighPowers();
    Powers();
    Pow2Add(32, 10);
  }

  /** Just the bits of `v` below `a`, those from 16 to 15 + `b`, and those from 22 to 21 + `c`. */
  function Picked(v: nat, a: nat, b: nat, c: nat): nat {
    v % Pow2(a) + 0x1_0000 * (v / 0x1_0000 % Pow2(b)) + 0x40_0000 * (v / 0x40_0000 % Pow2(c))
  }

  lemma {:induction false} PickedParts(v: u64, a: nat, b: nat, c: nat)
    ensures Low(v, a) + Pow2(16) * (Low(High(v, 16), b) + Pow2(6) * Low(High(v, 22), c)) == Picked(v, a, b, c)
  {
    hide Low, High, Pow2;
    MaskParts(v);
    HighIsDiv(v, 16);
    HighPowers();
    LowMod(v, a);
    LowMod(High(v, 16), b);
    LowMod(High(v, 22), c);
  }

  /** Exactly which bits the masks leave. In a cache, TLB or bus check they also clear bit 21, the top bit of the
      operation, in an MS check bit 5, the last of the named validation bits. */
  lemma MasksExactly(v: u64)
    ensures And(And(v, CACHE_CLEAR), CACHE_KEEP) == Picked(v, 8, 5, 8)
    ensures And(And(v, BUS_CLEAR), BUS_KEEP) == Picked(v, 11, 5, 13)
    ensures And(And(v, MS_CLEAR), MS_KEEP) == Picked(v, 5, 6, 2)
  {
    hide And, Low, High, Pow2, Picked;
    MaskPowers();
    Powers();
    assert Pow2(13) == 0x2000 by {
      Pow2Add(8, 5);
    }
    MaskParts(CACHE_CLEAR);
    MaskParts(CACHE_KEEP);
    MasksTakeApart(v, CACHE_CLEAR, CACHE_KEEP, 8, 5, 8);
    PickedParts(v, 8, 5, 8);
    MaskParts(BUS_CLEAR);
    MaskParts(BUS_KEEP);
    MasksTakeApart(v, BUS_CLEAR, BUS_KEEP, 11, 5, 13);
    PickedParts(v, 11, 5, 13);
    MaskParts(MS_CLEAR);
    MaskParts(MS_KEEP);
    MasksTakeApart(v, MS_CLEAR, MS_KEEP, 5, 6, 2);
    PickedParts(v, 5, 6, 2);
  }

  lemma KindsOfTypes()
    ensures KindOf(CACHE_CHECK) == CacheOrTlb && KindOf(TLB_CHECK) == CacheOrTlb
    ensures KindOf(BUS_CHECK) == Bus && KindOf(MS_CHECK) == Ms
  {
  }

  /** A type GUID at the front, two masks applied to the check information. */
  lemma ShapedCheck(e0: seq<byte>, e1: seq<byte>, e2: seq<byte>, e3: seq<byte>, g: Guid, clear: u64, keep: u64)
    requires |e0| == ERROR_INFO_SIZE && U64(At(e0, 16, 8)) < 32
    requires KindOf(g) != Unknown && GoodMasks(KindOf(g), clear, keep)
    requires e1 == Patch(e0, 0, GuidBytes(g))
    requires e2 == Patch(e1, 24, LE(And(U64(At(e1, 24, 8)), clear), 8))
    requires e3 == Patch(e2, 24, LE(And(U64(At(e2, 24, 8)), keep), 8))
    ensures |e3| == ERROR_INFO_SIZE && CanonicalErrorInfo(e3) && GuidOf(At(e3, 0, 16)) == g
  {
    hide Patch, At, LE, FromLE, U64, GuidBytes, GuidOf, KindOf, And, GoodMasks, CanonicalCheck;
    var v := U64(At(e1, 24, 8));
    PatchLength(e0, 0, GuidBytes(g));
    PatchLength(e1, 24, LE(And(v, clear), 8));
    PatchLength(e2, 24, LE(And(U64(At(e2, 24, 8)), keep), 8));
    PatchRead(e0, 0, GuidBytes(g));
    PatchElsewhere(e0, 0, GuidBytes(g), 16, 8);
    PatchRead(e1, 24, LE(And(v, clear), 8));
    PatchElsewhere(e1, 24, LE(And(v, clear), 8), 0, 16);
    PatchElsewhere(e1, 24, LE(And(v, clear), 8), 16, 8);
    Loads8(And(v, clear));
    PatchRead(e2, 24, LE(And(And(v, clear), keep), 8));
    PatchElsewhere(e2, 24, LE(And(And(v, clear), keep), 8), 0, 16);
    PatchElsewhere(e2, 24, LE(And(And(v, clear), keep), 8), 16, 8);
    Loads8(And(And(v, clear), keep));
    MaskedCheck(KindOf(g), v, clear, keep);
    GuidOfBytes(g);
    ErrorInfoSlices(e3);
  }

  /** Stores the type and masks the check information. */
  method ShapeCheck(e: array<byte>, g: Guid, clear: u64, keep: u64)
    requires e.Length == ERROR_INFO_SIZE && U64(At(e[..], 16, 8)) < 32
    requires KindOf(g) != Unknown && GoodMasks(KindOf(g), clear, keep)
    modifies e
    ensures CanonicalErrorInfo(e[..]) && GuidOf(At(e[..], 0, 16)) == g
  {
    hide Patch, At, LE, FromLE, U64, GuidBytes, GuidOf, KindOf, And, GoodMasks, CanonicalErrorInfo;
    ghost var e0 := e[..];
    MemCpy(e, 0, GuidBytes(g));
    ghost var e1 := e[..];
    MaskU64(e, 24, clear);
    ghost var e2 := e[..];
    MaskU64(e, 24, keep);
    ShapedCheck(e0, e1, e2, e[..], g, clear, keep);
  }

  /** A random error structure of one of the four types with nothing reserved set. */
  method GenerateErrorStructure() returns (e: array<byte>)
    ensures fresh(e) && e.Length == ERROR_INFO_SIZE && CanonicalErrorInfo(e[..])
    ensures GuidOf(At(e[..], 0, 16)) in [CACHE_CHECK, TLB_CHECK, BUS_CHECK, MS_CHECK]
  {
    hide Patch, At, LE, FromLE, U64, GuidOf, KindOf, And, GoodMasks, CanonicalErrorInfo;
    e := GenerateRandomBytes(ERROR_INFO_SIZE);
    ghost var v := U64(At(e[..], 16, 8));
    ghost var e0 := e[..];
    MaskU64(e, 16, 0x1F);
    PatchRead(e0, 16, LE(And(v, 0x1F), 8));
    Loads8(And(v, 0x1F));
    var r := Rand();
    var errorType := r % 4;
    KindsOfTypes();
    MasksAreGood();
    if errorType == 0 {
      ShapeCheck(e, CACHE_CHECK, CACHE_CLEAR, CACHE_KEEP);
    } else if errorType == 1 {
      ShapeCheck(e, TLB_CHECK, CACHE_CLEAR, CACHE_KEEP);
    } else if errorType == 2 {
      ShapeCheck(e, BUS_CHECK, BUS_CLEAR, BUS_KEEP);
    } else {
      ShapeCheck(e, MS_CHECK, MS_CLEAR, MS_KEEP);
    }
  }

  // ---- contexts ---------------------------------------------------------------------------------------

  lemma ContextSlices(s: seq<byte>, cur: nat)
    ensures ContextKind(s, cur) == U16(At(s, cur, 2))
    ensures ContextPayloadSize(s, cur) == PayloadSize(U16(At(s, cur, 2)), U16(At(s, cur + 2, 2)))
  {
    hide Chop, At, FromLE, U16;
    ContextWidthsSum();
    var h := At(s, cur, CONTEXT_HEADER_SIZE);
    ChopSlice(h, CONTEXT_WIDTHS, 0);
    ChopSlice(h, CONTEXT_WIDTHS, 1);
    assert CONTEXT_WIDTHS[..0] == [] && CONTEXT_WIDTHS[..1] == [2];
    AtAt(s, cur, CONTEXT_HEADER_SIZE, 0, 2);
    AtAt(s, cur, CONTEXT_HEADER_SIZE, 2, 2);
  }

  /** A context structure on its own: as long as its header says, nothing reserved set. */
  ghost predicate GoodContext(c: seq<byte>) {
    |c| >= CONTEXT_HEADER_SIZE && |c| == ContextSize(c, 0) && CanonicalContext(c, 0)
  }

  /** A context means the same wherever it is copied to. */
  lemma ContextCopied(s: seq<byte>, cur: nat, c: seq<byte>)
    requires GoodContext(c) && At(s, cur, |c|) == c
    ensures ContextSize(s, cur) == |c| && CanonicalContext(s, cur)
  {
    hide At, U16, ContextKind, ContextPayloadSize;
    ContextSlices(s, cur);
    ContextSlices(c, 0);
    AtAt(s, cur, |c|, 0, 2);
    AtAt(s, cur, |c|, 2, 2);
    if ContextKind(s, cur) == CONTEXT_X64 {
      AtAt(s, cur, |c|, CONTEXT_HEADER_SIZE + X64_RESERVED, 4);
    }
  }

  /** The reserved word is cleared, then type and size are stored at the front. */
  lemma StampedContext(c0: seq<byte>, c1: seq<byte>, c2: seq<byte>, kind: u16, size: u16)
    requires |c0| == CONTEXT_HEADER_SIZE + size && PayloadSize(kind, size) == size
    requires kind == CONTEXT_X64 ==> At(c0, CONTEXT_HEADER_SIZE + X64_RESERVED, 4) == Zeros(4)
    requires c1 == Patch(c0, 0, LE(kind, 2)) && c2 == Patch(c1, 2, LE(size, 2))
    ensures GoodContext(c2) && ContextKind(c2, 0) == kind
  {
    hide Patch, At, LE, FromLE, U16, ContextKind, ContextPayloadSize;
    PatchLength(c0, 0, LE(kind, 2));
    PatchLength(c1, 2, LE(size, 2));
    PatchRead(c0, 0, LE(kind, 2));
    PatchElsewhere(c1, 2, LE(size, 2), 0, 2);
    PatchRead(c1, 2, LE(size, 2));
    Loads2(kind);
    Loads2(size);
    ContextSlices(c2, 0);
    PatchElsewhere(c0, 0, LE(kind, 2), CONTEXT_HEADER_SIZE + X64_RESERVED, 4);
    PatchElsewhere(c1, 2, LE(size, 2), CONTEXT_HEADER_SIZE + X64_RESERVED, 4);
  }

  const MAX_CONTEXT: nat := 260

  /** A random context of one of the eight types. */
  method GenerateContextStructure() returns (c: array<byte>)
    ensures fresh(c) && GoodContext(c[..]) && ContextKind(c[..], 0) < 8 && c.Length <= MAX_CONTEXT
  {
    hide Patch, LE, ContextKind, GoodContext, At;
    var r := Rand();
    var regType := r % 8;
    var regSize: u16;
    if regType == 2 {
      regSize := 92;
    } else if regType == 3 {
      regSize := 244;
    } else {
      r := Rand();
      regSize := (r % 5 + 1) * 32;
    }
    c := GenerateRandomBytes(CONTEXT_HEADER_SIZE + regSize);
    if regType == 3 {
      ghost var random := c[..];
      MemCpy(c, CONTEXT_HEADER_SIZE + X64_RESERVED, Zeros(4));
      PatchRead(random, CONTEXT_HEADER_SIZE + X64_RESERVED, Zeros(4));
    }
    ghost var c0 := c[..];
    MemCpy(c, 0, LE(regType, 2));
    ghost var c1 := c[..];
    MemCpy(c, 2, LE(regSize, 2));
    StampedContext(c0, c1, c[..], regType, regSize);
  }

  // ---- the section ---------------------------------------------------------------------------------------

  /** The structures the generator placed are the ones the reader lands on, and the reader ends where the section
      does. */
  ghost predicate InStep(s: seq<byte>, errors: seq<seq<byte>>, contexts: seq<seq<byte>>) {
    && ErrorCount(s) == |errors| && ContextCount(s) == |contexts|
    && (forall i :: 0 <= i < |errors| ==> ErrorAt(s, i) == errors[i])
    && (forall i :: 0 <= i < |contexts| ==> At(s, Cursor(s, ContextStart(s), i), |contexts[i]|) == contexts[i])
    && SectionEnd(s) == |s|
  }

  /** After `n` contexts the cursor stands behind the first `n` the generator placed. */
  lemma {:induction false} CursorLands(s: seq<byte>, start: nat, contexts: seq<seq<byte>>, n: nat)
    requires n <= |contexts| && Placed(s, start, contexts, |contexts|)
    requires forall i :: 0 <= i < |contexts| ==> GoodContext(contexts[i])
    ensures Cursor(s, start, n) == start + Total(contexts, n)
    ensures n < |contexts| ==> At(s, Cursor(s, start, n), |contexts[n]|) == contexts[n]
  {
    hide At, ContextSize, GoodContext;
    if n > 0 {
      CursorLands(s, start, contexts, n - 1);
      ContextCopied(s, Cursor(s, start, n - 1), contexts[n - 1]);
    }
    assert n < |contexts| ==> PlacedAt(s, start, contexts, n);
  }

  lemma RecordSlices(s: seq<byte>)
    ensures RecordParts(s)[0] == At(s, 0, 8) && RecordParts(s)[6] == At(s, 48, 16)
  {
    hide Chop, At, Sum;
    RecordWidths();
    var r := At(s, 0, RECORD_SIZE);
    ChopSlice(r, RECORD_WIDTHS, 0);
    ChopSlice(r, RECORD_WIDTHS, 6);
    assert RECORD_WIDTHS[..0] == [] && RECORD_WIDTHS[..6] == RECORD_WIDTHS[..6][..6];
    SumEqual(RECORD_WIDTHS[..6], 8);
    SumEqual([], 8);
    AtAt(s, 0, RECORD_SIZE, 0, 8);
    AtAt(s, 0, RECORD_SIZE, 48, 16);
  }

  /** Two flags, then the two counts shifted above them. */
  lemma CountsSet(flags: nat, errors: nat, contexts: nat)
    requires flags < 4 && errors < 64 && contexts < 64
    ensures var v := Or(Or(flags, Shifted(errors, 2)), Shifted(contexts, 8));
      v == flags + 4 * errors + 256 * contexts
      && SplitBits(v, VALID_BITS)[2] == errors && SplitBits(v, VALID_BITS)[3] == contexts
  {
    hide Or, Shifted, Place, SplitBits, JoinBits, Low, Pow2;
    CountsSum(flags, errors, contexts);
    var f: seq<nat> := [flags % 2, flags / 2, errors, contexts, 0];
    FieldsPlaced(f);
    CountFields(f);
  }

  lemma CountFields(f: seq<nat>)
    requires |f| == 5 && f[2] < 64 && f[3] < 64
    ensures var g := SplitBits(JoinBits(f, VALID_BITS), VALID_BITS); g[2] == f[2] && g[3] == f[3]
  {
    hide SplitBits, JoinBits, Low, Pow2;
    SmallPowers();
    SplitJoinBits(f, VALID_BITS);
    LowOfLow(f[2], 6);
    LowOfLow(f[3], 6);
  }

  lemma CountsSum(flags: nat, errors: nat, contexts: nat)
    requires flags < 4 && errors < 64
    ensures Or(flags, Shifted(errors, 2)) == flags + 4 * errors
    ensures Or(Or(flags, Shifted(errors, 2)), Shifted(contexts, 8)) == flags + 4 * errors + 256 * contexts
  {
    hide Or, Shifted, Place, Low, Pow2;
    SmallPowers();
    OrPlace(flags, 2, errors);
    PlaceSum(flags, 2, errors);
    LowOfLow(flags, 2);
    var w := flags + 4 * errors;
    OrPlace(w, 8, contexts);
    PlaceSum(w, 8, contexts);
    LowOfLow(w, 8);
  }

  lemma FieldsPlaced(f: seq<nat>)
    requires |f| == 5 && f[0] < 2 && f[1] < 2 && f[2] < 64 && f[3] < 64 && f[4] == 0
    ensures JoinBits(f, VALID_BITS) == f[0] + 2 * f[1] + 4 * f[2] + 256 * f[3]
  {
    hide Place, Low, JoinBits, Pow2;
    SmallPowers();
    PlaceSum(0, 50, 0);
    LowOfLow(0, 50);
    PlaceSum(f[3], 6, 0);
    LowOfLow(f[3], 6);
    PlaceSum(f[2], 6, f[3]);
    LowOfLow(f[2], 6);
    PlaceSum(f[1], 1, f[2] + 64 * f[3]);
    LowOfLow(f[1], 1);
    PlaceSum(f[0], 1, f[1] + 2 * (f[2] + 64 * f[3]));
    LowOfLow(f[0], 1);
    JoinUnrolled(f);
  }

  lemma JoinUnrolled(f: seq<nat>)
    requires |f| == 5
    ensures JoinBits(f, VALID_BITS) ==
      Place(f[0], 1, Place(f[1], 1, Place(f[2], 6, Place(f[3], 6, Place(f[4], 50, 0)))))
  {
    hide Place;
    var v := VALID_BITS;
    assert v[1..] == [1, 6, 6, 50] && v[2..] == [6, 6, 50] && v[3..] == [6, 50] && v[4..] == [50];
    assert f[1..][1..] == f[2..] && f[2..][1..] == f[3..] && f[3..][1..] == f[4..] && f[4..][1..] == [];
    assert JoinBits(f[4..], v[4..]) == Place(f[4], 50, 0);
    assert JoinBits(f[3..], v[3..]) == Place(f[3], 6, JoinBits(f[4..], v[4..]));
    assert JoinBits(f[2..], v[2..]) == Place(f[2], 6, JoinBits(f[3..], v[3..]));
    assert JoinBits(f[1..], v[1..]) == Place(f[1], 1, JoinBits(f[2..], v[2..]));
  }

  lemma ErrorsFound(s: seq<byte>, errors: seq<seq<byte>>)
    requires forall i :: 0 <= i < |errors| ==> |errors[i]| == ERROR_INFO_SIZE && CanonicalErrorInfo(errors[i])
    requires Placed(s, RECORD_SIZE, errors, |errors|)
    ensures forall i :: 0 <= i < |errors| ==> ErrorAt(s, i) == errors[i]
    ensures ErrorsClear(s, |errors|)
  {
    hide At, CanonicalErrorInfo;
    forall i | 0 <= i < |errors|
      ensures ErrorAt(s, i) == errors[i]
    {
      TotalEqual(errors, ERROR_INFO_SIZE, i);
      assert PlacedAt(s, RECORD_SIZE, errors, i);
    }
  }

  lemma ContextsFound(s: seq<byte>, start: nat, contexts: seq<seq<byte>>)
    requires forall i :: 0 <= i < |contexts| ==> GoodContext(contexts[i])
    requires Placed(s, start, contexts, |contexts|)
    ensures forall i :: 0 <= i < |contexts| ==> At(s, Cursor(s, start, i), |contexts[i]|) == contexts[i]
    ensures ContextsClear(s, start, |contexts|)
  {
    hide At, GoodContext, CanonicalContext, Cursor;
    forall i | 0 <= i < |contexts|
      ensures At(s, Cursor(s, start, i), |contexts[i]|) == contexts[i]
      ensures CanonicalContext(s, Cursor(s, start, i))
    {
      CursorLands(s, start, contexts, i);
      ContextCopied(s, Cursor(s, start, i), contexts[i]);
    }
  }

  /** What the generator lays out is in step with the reader, and nothing reserved is set. */
  lemma GeneratedCanonical(s: seq<byte>, flags: nat, errors: seq<seq<byte>>, contexts: seq<seq<byte>>)
    requires flags < 4 && |errors| < 64 && |contexts| < 64
    requires U64(At(s, 0, 8)) == Or(Or(flags, Shifted(|errors|, 2)), Shifted(|contexts|, 8))
    requires At(s, 48, 16) == Zeros(16)
    requires forall i :: 0 <= i < |errors| ==> |errors[i]| == ERROR_INFO_SIZE && CanonicalErrorInfo(errors[i])
    requires forall i :: 0 <= i < |contexts| ==> GoodContext(contexts[i])
    requires Placed(s, RECORD_SIZE, errors, |errors|)
    requires Placed(s, RECORD_SIZE + ERROR_INFO_SIZE * |errors|, contexts, |contexts|)
    requires |s| == RECORD_SIZE + ERROR_INFO_SIZE * |errors| + Total(contexts, |contexts|)
    ensures InStep(s, errors, contexts) && CanonicalSection(s)
  {
    hide At, U64, CanonicalErrorInfo, GoodContext, RecordParts, Or, Shifted, CanonicalContext, SplitBits, Cursor,
      ErrorsClear, ContextsClear, ErrorAt;
    RecordSlices(s);
    CountsSet(flags, |errors|, |contexts|);
    ErrorsFound(s, errors);
    ContextsFound(s, ContextStart(s), contexts);
    CursorLands(s, ContextStart(s), contexts, |contexts|);
  }

  method GenerateStructures(errorCount: nat, contextCount: nat)
    returns (errors: seq<seq<byte>>, contexts: seq<seq<byte>>)
    ensures |errors| == errorCount && |contexts| == contextCount
    ensures forall i :: 0 <= i < errorCount ==> |errors[i]| == ERROR_INFO_SIZE && CanonicalErrorInfo(errors[i])
    ensures forall i :: 0 <= i < contextCount ==> GoodContext(contexts[i]) && |contexts[i]| <= MAX_CONTEXT
  {
    hide CanonicalErrorInfo, GoodContext, At, GuidOf, ContextKind;
    errors, contexts := [], [];
    for i := 0 to errorCount
      invariant |errors| == i
      invariant forall j :: 0 <= j < i ==> |errors[j]| == ERROR_INFO_SIZE && CanonicalErrorInfo(errors[j])
    {
      var e := GenerateErrorStructure();
      errors := errors + [e[..]];
    }
    for i := 0 to contextCount
      invariant |contexts| == i
      invariant forall j :: 0 <= j < i ==> GoodContext(contexts[j]) && |contexts[j]| <= MAX_CONTEXT
    {
      var c := GenerateContextStructure();
      contexts := contexts + [c[..]];
    }
  }

  /** A random section with one to four structures of each kind. */
  method GenerateSectionIa32x64() returns (section: array<byte>, ghost errors: seq<seq<byte>>,
                                           ghost contexts: seq<seq<byte>>)
    ensures fresh(section) && 1 <= |errors| <= 4 && 1 <= |contexts| <= 4
    ensures InStep(section[..], errors, contexts) && CanonicalSection(section[..])
    ensures RECORD_SIZE <= section.Length <= RECORD_SIZE + 4 * ERROR_INFO_SIZE + 4 * MAX_CONTEXT
  {
    hide CanonicalErrorInfo, GoodContext, At, CanonicalSection, InStep, Patch, LE, FromLE, U64, And, Or, Shifted,
      PlacedAt, ContextStart;
    var e := Rand();
    var c := Rand();
    var errorNum, contextNum := e % 4 + 1, c % 4 + 1;
    var es, cs := GenerateStructures(errorNum, contextNum);
    errors, contexts := es, cs;
    var total := AddLengths(RECORD_SIZE + ERROR_INFO_SIZE * errorNum, cs);
    TotalBounded(cs, MAX_CONTEXT, contextNum);
    section := GenerateRandomBytes(total);
    ghost var flags := StampHeader(section, errorNum, contextNum);
    ghost var stamped := section[..];
    TotalEqual(es, ERROR_INFO_SIZE, errorNum);
    var cur := CopyBlocks(section, RECORD_SIZE, es);
    ghost var half := section[..];
    cur := CopyBlocks(section, cur, cs);
    ghost var s := section[..];
    var start := RECORD_SIZE + ERROR_INFO_SIZE * errorNum;
    PlacedKept(half, s, RECORD_SIZE, es, start);
    assert s[..RECORD_SIZE] == half[..start][..RECORD_SIZE] == stamped[..RECORD_SIZE];
    AtFront(stamped, s, RECORD_SIZE, 0, 8);
    AtFront(stamped, s, RECORD_SIZE, 48, 16);
    GeneratedCanonical(s, flags, es, cs);
  }

  /** Zeroes the reserved end of the CPUID block and stores the counts above the two flags. */
  method StampHeader(section: array<byte>, errorNum: nat, contextNum: nat) returns (ghost flags: nat)
    requires section.Length >= RECORD_SIZE && errorNum < 64 && contextNum < 64
    modifies section
    ensures flags < 4 && At(section[..], 48, 16) == Zeros(16)
    ensures U64(At(section[..], 0, 8)) == Or(Or(flags, Shifted(errorNum, 2)), Shifted(contextNum, 8))
  {
    hide At, Patch, LE, FromLE, U64, And, Or, Shifted;
    ghost var s0 := section[..];
    ZeroBytes(section, 48, 16);
    ghost var s1 := section[..];
    MaskU64(section, 0, 0x3);
    ghost var s2 := section[..];
    flags := And(U64(At(s1, 0, 8)), 0x3);
    ShiftedSmall(flags, errorNum, contextNum);
    SetU64(section, 0, Shifted(errorNum, 2));
    ghost var s3 := section[..];
    SetU64(section, 0, Shifted(contextNum, 8));
    PatchRead(s0, 48, Zeros(16));
    PatchRead(s1, 0, LE(flags, 8));
    PatchElsewhere(s1, 0, LE(flags, 8), 48, 16);
    Loads8(flags);
    PatchRead(s2, 0, LE(Or(flags, Shifted(errorNum, 2)), 8));
    PatchElsewhere(s2, 0, LE(Or(flags, Shifted(errorNum, 2)), 8), 48, 16);
    Loads8(Or(flags, Shifted(errorNum, 2)));
    PatchRead(s3, 0, LE(Or(Or(flags, Shifted(errorNum, 2)), Shifted(contextNum, 8)), 8));
    PatchElsewhere(s3, 0, LE(Or(Or(flags, Shifted(errorNum, 2)), Shifted(contextNum, 8)), 8), 48, 16);
    Loads8(Or(Or(flags, Shifted(errorNum, 2)), Shifted(contextNum, 8)));
  }

  lemma ShiftedSmall(flags: nat, errors: nat, contexts: nat)
    requires flags < 4 && errors < 64 && contexts < 64
    ensures Shifted(errors, 2) < 0x100 && Shifted(contexts, 8) < 0x4000 && Or(flags, Shifted(errors, 2)) < 0x100
    ensures Or(Or(flags, Shifted(errors, 2)), Shifted(contexts, 8)) < 0x4000
  {
    hide Or, Place, Low, Pow2;
    SmallPowers();
    PlaceSum(0, 2, errors);
    PlaceSum(0, 8, contexts);
    LowOfLow(0, 2);
    LowOfLow(0, 8);
    CountsSum(flags, errors, contexts);
  }
}
