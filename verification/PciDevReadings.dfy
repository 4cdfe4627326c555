/** What the reader shows of a PCI/PCI-X device error section, from its bytes. */
module PciDevReadings {
  import opened Bytes
  import opened CperUtils
  import opened GenericStatus
  import opened Json
  import opened NameReadings
  import opened Names
  import opened Packed
  import opened PackedReadings
  import opened Readings
  import opened RegisterPairs
  import opened SectionPciDev

  // ---- the error status -------------------------------------------------------------------------------------

  lemma StatusOffsets()
    ensures var ws := STATUS_BITS;
      && Sum(ws[..1]) == 8 && Sum(ws[..2]) == 16 && Sum(ws[..3]) == 17 && Sum(ws[..4]) == 18 && Sum(ws[..5]) == 19
      && Sum(ws[..6]) == 20 && Sum(ws[..7]) == 21 && Sum(ws[..8]) == 22
  {
    hide Sum;
    SumNone(STATUS_BITS);
    SumPrefix(STATUS_BITS, 0);
    SumPrefix(STATUS_BITS, 1);
    SumPrefix(STATUS_BITS, 2);
    SumPrefix(STATUS_BITS, 3);
    SumPrefix(STATUS_BITS, 4);
    SumPrefix(STATUS_BITS, 5);
    SumPrefix(STATUS_BITS, 6);
    SumPrefix(STATUS_BITS, 7);
  }

  lemma StatusFieldsAt(v: nat)
    ensures var f := SplitBits(v, STATUS_BITS);
      && f[1] == v / 0x100 % 0x100 && f[2] == v / 0x1_0000 % 2 && f[3] == v / 0x2_0000 % 2
      && f[4] == v / 0x4_0000 % 2 && f[5] == v / 0x8_0000 % 2 && f[6] == v / 0x10_0000 % 2
      && f[7] == v / 0x20_0000 % 2 && f[8] == v / 0x40_0000 % 2
  {
    hide Sum, Pow2, SplitBits;
    StatusOffsets();
    Powers();
    HighPowers();
    FieldAt(v, STATUS_BITS, 1);
    FieldAt(v, STATUS_BITS, 2);
    FieldAt(v, STATUS_BITS, 3);
    FieldAt(v, STATUS_BITS, 4);
    FieldAt(v, STATUS_BITS, 5);
    FieldAt(v, STATUS_BITS, 6);
    FieldAt(v, STATUS_BITS, 7);
    FieldAt(v, STATUS_BITS, 8);
  }

  lemma StatusMembers(f: seq<nat>)
    requires |f| == 10
    ensures var ir := Obj(Members(StatusKeys(), StatusValues(f)));
      && Get(Get(ir, "errorType"), "value") == Int(f[1])
      && Get(ir, "addressSignal") == Bool(f[2] != 0) && Get(ir, "controlSignal") == Bool(f[3] != 0)
      && Get(ir, "dataSignal") == Bool(f[4] != 0) && Get(ir, "detectedByResponder") == Bool(f[5] != 0)
      && Get(ir, "detectedByRequester") == Bool(f[6] != 0) && Get(ir, "firstError") == Bool(f[7] != 0)
      && Get(ir, "overflowDroppedLogs") == Bool(f[8] != 0)
  {
    hide Distinct, Members;
    var k, v := StatusKeys(), StatusValues(f);
    StatusKeysDistinct();
    MembersHas(k, v);
    var ir := Obj(Members(k, v));
    assert Get(ir, k[0]) == v[0] && Get(ir, k[1]) == v[1] && Get(ir, k[2]) == v[2] && Get(ir, k[3]) == v[3];
    assert Get(ir, k[4]) == v[4] && Get(ir, k[5]) == v[5] && Get(ir, k[6]) == v[6] && Get(ir, k[7]) == v[7];
  }

  /** The error type in bits 8 to 15 and the seven flags above it. */
  predicate StatusIs(ir: Json, v: nat) {
    && Get(Get(ir, "errorType"), "value") == Int(v / 0x100 % 0x100)
    && Marks(ir, "addressSignal", v, 0x1_0000) && Marks(ir, "controlSignal", v, 0x2_0000)
    && Marks(ir, "dataSignal", v, 0x4_0000) && Marks(ir, "detectedByResponder", v, 0x8_0000)
    && Marks(ir, "detectedByRequester", v, 0x10_0000) && Marks(ir, "firstError", v, 0x20_0000)
    && Marks(ir, "overflowDroppedLogs", v, 0x40_0000)
  }

  lemma StatusShown(v: u64)
    ensures StatusIs(StatusToIr(v), v)
  {
    hide Get, Members, SplitBits, StatusValues, StatusKeys;
    StatusKeysDistinct();
    StatusFieldsAt(v);
    StatusMembers(SplitBits(v, STATUS_BITS));
  }

  // ---- the section ------------------------------------------------------------------------------------------

  lemma FixedOffsets()
    ensures var ws := FIXED_WIDTHS;
      && Sum(ws) == 40 && Sum(ws[..0]) == 0 && Sum(ws[..1]) == 8 && Sum(ws[..2]) == 16 && Sum(ws[..3]) == 32
      && Sum(ws[..4]) == 36
  {
    hide Sum;
    FixedWidths();
    SumNone(FIXED_WIDTHS);
    SumPrefix(FIXED_WIDTHS, 0);
    SumPrefix(FIXED_WIDTHS, 1);
    SumPrefix(FIXED_WIDTHS, 2);
    SumPrefix(FIXED_WIDTHS, 3);
  }

  const FRONT: nat := 0

  lemma FixedNumbers(s: seq<byte>)
    ensures var p := Front(s, FIXED_WIDTHS);
      && U64(p[0]) == N64(s, FRONT) && U64(p[1]) == N64(s, 8) && p[2] == At(s, 16, 16) && U32(p[3]) == N32(s, 32)
      && U32(p[4]) == N32(s, 36)
  {
    hide At, Sum, Chop, FromLE, N32, N64;
    FixedOffsets();
    PieceAt(s, FRONT, FIXED_WIDTHS, 0);
    PieceAt(s, FRONT, FIXED_WIDTHS, 1);
    PieceAt(s, FRONT, FIXED_WIDTHS, 2);
    PieceAt(s, FRONT, FIXED_WIDTHS, 3);
    PieceAt(s, FRONT, FIXED_WIDTHS, 4);
    Read64(s, FRONT);
    Read64(s, 8);
    Read32(s, 32);
    Read32(s, 36);
  }

  lemma IdOffsets()
    ensures DistinctKeys(IdLayout()) && IdLayout()[..7] == IdFields()
    ensures var ws := Widths(IdLayout());
      && Sum(ws) == 16 && Sum(ws[..0]) == 0 && Sum(ws[..1]) == 2 && Sum(ws[..2]) == 4 && Sum(ws[..3]) == 7
      && Sum(ws[..4]) == 8 && Sum(ws[..5]) == 9 && Sum(ws[..6]) == 10
  {
    hide Sum;
    IdGood();
    var ws := Widths(IdLayout());
    SumNone(ws);
    SumPrefix(ws, 0);
    SumPrefix(ws, 1);
    SumPrefix(ws, 2);
    SumPrefix(ws, 3);
    SumPrefix(ws, 4);
    SumPrefix(ws, 5);
  }

  /** Seven numbers at `p`. */
  predicate IdIs(ir: Json, s: seq<byte>, p: nat) {
    && Get(ir, "vendorID") == Int(N16(s, p)) && Get(ir, "deviceID") == Int(N16(s, p + 2))
    && Get(ir, "classCode") == Int(N24(s, p + 4)) && Get(ir, "functionNumber") == Int(N8(s, p + 7))
    && Get(ir, "deviceNumber") == Int(N8(s, p + 8)) && Get(ir, "busNumber") == Int(N8(s, p + 9))
    && Get(ir, "segmentNumber") == Int(N8(s, p + 10))
  }

  lemma IdShown(s: seq<byte>, p: nat)
    ensures IdIs(IdToIr(At(s, p, 16)), s, p)
  {
    hide At, Sum, FromLE, Get, PackedToIr, DistinctKeys, N8, N16, N24;
    IdOffsets();
    var layout := IdLayout();
    PackedAt(layout, s, p, 0);
    PackedAt(layout, s, p, 1);
    PackedAt(layout, s, p, 2);
    PackedAt(layout, s, p, 3);
    PackedAt(layout, s, p, 4);
    PackedAt(layout, s, p, 5);
    PackedAt(layout, s, p, 6);
    Read16(s, p);
    Read16(s, p + 2);
    Read24(s, p + 4);
    Read8(s, p + 7);
    Read8(s, p + 8);
    Read8(s, p + 9);
    Read8(s, p + 10);
  }

  /** The sum of the numbers of memory and I/O pairs, modulo 2 to the power 32; none when that is negative as a signed
      number. */
  function Pairs(s: seq<byte>): nat {
    var n := (N32(s, 32) + N32(s, 36)) % 0x1_0000_0000;
    if n / 0x8000_0000 == 1 then 0 else n
  }

  /** The fields at the front of the section. */
  lemma PciDevShown(s: seq<byte>)
    ensures var ir := SectionToIr(s);
      && PciDevMarks(Get(ir, "validationBits"), N64(s, FRONT)) && StatusIs(Get(ir, "errorStatus"), N64(s, 8))
      && IdIs(Get(ir, "idInfo"), s, 16) && Get(ir, "memoryNumber") == Int(N32(s, 32))
      && Get(ir, "ioNumber") == Int(N32(s, 36))
  {
    hide At, Front, FromLE, N32, N64, BitfieldToIr, StatusToIr, IdToIr, PciDevMarks, StatusIs, IdIs, PairsToIr,
      PairCount, PciDevValidNames;
    FixedNumbers(s);
    PciDevBits(N64(s, FRONT));
    StatusShown(N64(s, 8));
    IdShown(s, 16);
  }

  /** The pairs lie behind one another from byte 40 on, and the section ends behind the last. */
  lemma PciDevPairsShown(s: seq<byte>)
    ensures var pairs := Get(SectionToIr(s), "registerDataPairs");
      && pairs.Arr? && |pairs.a| == Pairs(s)
      && (forall i: nat :: i < Pairs(s) ==>
            Get(pairs.a[i], "firstHalf") == Int(N64(s, 40 + 16 * i)) &&
            Get(pairs.a[i], "secondHalf") == Int(N64(s, 48 + 16 * i)))
    ensures SectionEnd(s) == 40 + 16 * Pairs(s)
  {
    hide At, Front, FromLE, N32, N64, BitfieldToIr, StatusToIr, IdToIr, PairsToIr;
    FixedNumbers(s);
    PciDevPairs(s);
    forall i: nat | i < Pairs(s)
      ensures var pair := PairsToIr(s, 40, Pairs(s), "firstHalf", "secondHalf")[i];
        Get(pair, "firstHalf") == Int(N64(s, 40 + 16 * i)) && Get(pair, "secondHalf") == Int(N64(s, 48 + 16 * i))
    {
      PairListed(s, 40, Pairs(s), "firstHalf", "secondHalf", i);
    }
  }

  lemma PciDevPairs(s: seq<byte>)
    ensures Get(SectionToIr(s), "registerDataPairs") ==
      Arr(PairsToIr(s, 40, PairCount(s), "firstHalf", "secondHalf"))
  {
    hide At, Front, U32, U64, BitfieldToIr, StatusToIr, IdToIr, PairsToIr, PairCount;
  }
}
