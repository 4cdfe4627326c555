/** What the reader shows of the check information of an IA32/x64 error, from its 64 bits. */
module Ia32x64CheckReadings {
  import opened Bytes
  import opened CperUtils
  import opened Ia32x64Checks
  import opened Json
  import opened NameReadings
  import opened Names
  import opened Readings

  /** Five flags in a row, the first of weight `d`. */
  predicate ErrorMarks(ir: Json, v: nat, d: nat)
    requires d > 0
  {
    && Marks(ir, "processorContextCorrupt", v, d) && Marks(ir, "uncorrected", v, 2 * d)
    && Marks(ir, "preciseIP", v, 4 * d) && Marks(ir, "restartableIP", v, 8 * d) && Marks(ir, "overflow", v, 16 * d)
  }

  lemma CacheOffsets()
    ensures var ws := CACHE_BITS;
      && Sum(ws[..0]) == 0 && Sum(ws[..1]) == 16 && Sum(ws[..2]) == 18 && Sum(ws[..3]) == 22 && Sum(ws[..4]) == 25
      && Sum(ws[..5]) == 26 && Sum(ws[..6]) == 27 && Sum(ws[..7]) == 28 && Sum(ws[..8]) == 29
  {
    hide Sum;
    SumNone(CACHE_BITS);
    SumPrefix(CACHE_BITS, 0);
    SumPrefix(CACHE_BITS, 1);
    SumPrefix(CACHE_BITS, 2);
    SumPrefix(CACHE_BITS, 3);
    SumPrefix(CACHE_BITS, 4);
    SumPrefix(CACHE_BITS, 5);
    SumPrefix(CACHE_BITS, 6);
    SumPrefix(CACHE_BITS, 7);
  }

  lemma BusOffsets()
    ensures var ws := BUS_BITS;
      && Sum(ws[..0]) == 0 && Sum(ws[..1]) == 16 && Sum(ws[..2]) == 18 && Sum(ws[..3]) == 22 && Sum(ws[..4]) == 25
      && Sum(ws[..5]) == 26 && Sum(ws[..6]) == 27 && Sum(ws[..7]) == 28 && Sum(ws[..8]) == 29 && Sum(ws[..9]) == 30
      && Sum(ws[..10]) == 32 && Sum(ws[..11]) == 33
  {
    hide Sum;
    SumNone(BUS_BITS);
    SumPrefix(BUS_BITS, 0);
    SumPrefix(BUS_BITS, 1);
    SumPrefix(BUS_BITS, 2);
    SumPrefix(BUS_BITS, 3);
    SumPrefix(BUS_BITS, 4);
    SumPrefix(BUS_BITS, 5);
    SumPrefix(BUS_BITS, 6);
    SumPrefix(BUS_BITS, 7);
    SumPrefix(BUS_BITS, 8);
    SumPrefix(BUS_BITS, 9);
    SumPrefix(BUS_BITS, 10);
  }

  lemma MsOffsets()
    ensures var ws := MS_BITS;
      && Sum(ws[..0]) == 0 && Sum(ws[..1]) == 16 && Sum(ws[..2]) == 19 && Sum(ws[..3]) == 20 && Sum(ws[..4]) == 21
      && Sum(ws[..5]) == 22 && Sum(ws[..6]) == 23
  {
    hide Sum;
    SumNone(MS_BITS);
    SumPrefix(MS_BITS, 0);
    SumPrefix(MS_BITS, 1);
    SumPrefix(MS_BITS, 2);
    SumPrefix(MS_BITS, 3);
    SumPrefix(MS_BITS, 4);
    SumPrefix(MS_BITS, 5);
  }

  lemma CacheFields(v: nat)
    ensures var f := SplitBits(v, CACHE_BITS);
      && f[0] == v % 0x1_0000 && f[1] == v / 0x1_0000 % 4 && f[2] == v / 0x4_0000 % 16 && f[3] == v / 0x40_0000 % 8
      && f[4] == v / 0x200_0000 % 2 && f[5] == v / 0x400_0000 % 2 && f[6] == v / 0x800_0000 % 2
      && f[7] == v / 0x1000_0000 % 2 && f[8] == v / 0x2000_0000 % 2
  {
    hide Sum, Pow2, SplitBits;
    CacheOffsets();
    Powers();
    HighPowers();
    FieldAt(v, CACHE_BITS, 0);
    FieldAt(v, CACHE_BITS, 1);
    FieldAt(v, CACHE_BITS, 2);
    FieldAt(v, CACHE_BITS, 3);
    FieldAt(v, CACHE_BITS, 4);
    FieldAt(v, CACHE_BITS, 5);
    FieldAt(v, CACHE_BITS, 6);
    FieldAt(v, CACHE_BITS, 7);
    FieldAt(v, CACHE_BITS, 8);
  }

  lemma BusFields(v: nat)
    ensures var f := SplitBits(v, BUS_BITS);
      && f[0] == v % 0x1_0000 && f[1] == v / 0x1_0000 % 4 && f[2] == v / 0x4_0000 % 16 && f[3] == v / 0x40_0000 % 8
      && f[4] == v / 0x200_0000 % 2 && f[5] == v / 0x400_0000 % 2 && f[6] == v / 0x800_0000 % 2
      && f[7] == v / 0x1000_0000 % 2 && f[8] == v / 0x2000_0000 % 2 && f[9] == v / 0x4000_0000 % 4
      && f[10] == v / 0x1_0000_0000 % 2 && f[11] == v / 0x2_0000_0000 % 4
  {
    hide Sum, Pow2, SplitBits;
    BusOffsets();
    Powers();
    HighPowers();
    FieldAt(v, BUS_BITS, 0);
    FieldAt(v, BUS_BITS, 1);
    FieldAt(v, BUS_BITS, 2);
    FieldAt(v, BUS_BITS, 3);
    FieldAt(v, BUS_BITS, 4);
    FieldAt(v, BUS_BITS, 5);
    FieldAt(v, BUS_BITS, 6);
    FieldAt(v, BUS_BITS, 7);
    FieldAt(v, BUS_BITS, 8);
    FieldAt(v, BUS_BITS, 9);
    FieldAt(v, BUS_BITS, 10);
    FieldAt(v, BUS_BITS, 11);
  }

  lemma MsFields(v: nat)
    ensures var f := SplitBits(v, MS_BITS);
      && f[0] == v % 0x1_0000 && f[1] == v / 0x1_0000 % 8 && f[2] == v / 0x8_0000 % 2 && f[3] == v / 0x10_0000 % 2
      && f[4] == v / 0x20_0000 % 2 && f[5] == v / 0x40_0000 % 2 && f[6] == v / 0x80_0000 % 2
  {
    hide Sum, Pow2, SplitBits;
    MsOffsets();
    Powers();
    HighPowers();
    FieldAt(v, MS_BITS, 0);
    FieldAt(v, MS_BITS, 1);
    FieldAt(v, MS_BITS, 2);
    FieldAt(v, MS_BITS, 3);
    FieldAt(v, MS_BITS, 4);
    FieldAt(v, MS_BITS, 5);
    FieldAt(v, MS_BITS, 6);
  }

  /** Transaction type in bits 16 and 17, operation in bits 18 to 21, level in bits 22 to 24, flags in bits 25 to 29. */
  predicate TransferShown(ir: Json, v: nat) {
    var transaction, operation := v / 0x1_0000 % 4, v / 0x4_0000 % 16;
    && Named(Get(ir, "transactionType"), transaction, TransactionText(transaction))
    && Named(Get(ir, "operation"), operation, OperationText(operation))
    && Get(ir, "level") == Int(v / 0x40_0000 % 8)
    && ErrorMarks(ir, v, 0x200_0000)
  }

  predicate CacheIs(ir: Json, v: nat) {
    CheckMarks(Get(ir, "validationBits"), v % 0x1_0000) && TransferShown(ir, v)
  }

  lemma CacheShown(v: u64)
    ensures CacheIs(CheckToIr(CacheOrTlb, v), v)
  {
    hide BitfieldToIr, Pair, Distinct, Get, Members, CacheCheckNames, SplitBits, CheckMarks, Named, TransactionText,
      OperationText, CacheKeys;
    var f := SplitBits(v, CACHE_BITS);
    CacheFields(v);
    CacheMembers(f);
    CacheBits(f[0]);
    TransactionNamed(f[1]);
    OperationNamed(f[2]);
  }

  lemma CacheMembers(f: seq<nat>)
    requires |f| == 10
    ensures var ir := Obj(Members(CacheKeys(), CacheValues(f)));
      && Get(ir, "validationBits") == BitfieldToIr(f[0], CacheCheckNames())
      && Get(ir, "transactionType") == Pair(f[1], TransactionTypes)
      && Get(ir, "operation") == Pair(f[2], OperationTypes)
      && Get(ir, "level") == Int(f[3])
      && Get(ir, "processorContextCorrupt") == Bool(f[4] != 0) && Get(ir, "uncorrected") == Bool(f[5] != 0)
      && Get(ir, "preciseIP") == Bool(f[6] != 0) && Get(ir, "restartableIP") == Bool(f[7] != 0)
      && Get(ir, "overflow") == Bool(f[8] != 0)
  {
    hide BitfieldToIr, Pair, Distinct, Get, Members, CacheCheckNames;
    var k, v := CacheKeys(), CacheValues(f);
    KeysDistinct();
    MembersHas(k, v);
    var ir := Obj(Members(k, v));
    assert Get(ir, k[0]) == v[0] && Get(ir, k[1]) == v[1] && Get(ir, k[2]) == v[2] && Get(ir, k[3]) == v[3];
    assert Get(ir, k[4]) == v[4] && Get(ir, k[5]) == v[5] && Get(ir, k[6]) == v[6] && Get(ir, k[7]) == v[7];
    assert Get(ir, k[8]) == v[8];
  }

  /** Besides, participation type in bits 30 and 31, time-out in bit 32 and address space in bits 33 and 34. */
  predicate BusIs(ir: Json, v: nat) {
    var participation, space := v / 0x4000_0000 % 4, v / 0x2_0000_0000 % 4;
    && BusMarks(Get(ir, "validationBits"), v % 0x1_0000)
    && TransferShown(ir, v)
    && Named(Get(ir, "participationType"), participation, ParticipationText(participation))
    && Marks(ir, "timedOut", v, 0x1_0000_0000)
    && Named(Get(ir, "addressSpace"), space, AddressSpaceText(space))
  }

  lemma BusShown(v: u64)
    ensures BusIs(CheckToIr(Bus, v), v)
  {
    hide BitfieldToIr, Pair, Distinct, Get, Members, BusCheckNames, SplitBits, BusMarks, Named, TransactionText,
      OperationText, ParticipationText, AddressSpaceText, BusKeys;
    var f := SplitBits(v, BUS_BITS);
    BusFields(v);
    BusMembers(f);
    BusBits(f[0]);
    TransactionNamed(f[1]);
    OperationNamed(f[2]);
    ParticipationNamed(f[9]);
    AddressSpaceNamed(f[11]);
  }

  lemma BusMembers(f: seq<nat>)
    requires |f| == 13
    ensures var ir := Obj(Members(BusKeys(), BusValues(f)));
      && Get(ir, "validationBits") == BitfieldToIr(f[0], BusCheckNames())
      && Get(ir, "transactionType") == Pair(f[1], TransactionTypes)
      && Get(ir, "operation") == Pair(f[2], OperationTypes)
      && Get(ir, "level") == Int(f[3])
      && Get(ir, "processorContextCorrupt") == Bool(f[4] != 0) && Get(ir, "uncorrected") == Bool(f[5] != 0)
      && Get(ir, "preciseIP") == Bool(f[6] != 0) && Get(ir, "restartableIP") == Bool(f[7] != 0)
      && Get(ir, "overflow") == Bool(f[8] != 0)
      && Get(ir, "participationType") == Pair(f[9], ParticipationTypes) && Get(ir, "timedOut") == Bool(f[10] != 0)
      && Get(ir, "addressSpace") == Pair(f[11], AddressSpaceTypes)
  {
    hide BitfieldToIr, Pair, Distinct, Get, Members, BusCheckNames;
    var k, v := BusKeys(), BusValues(f);
    KeysDistinct();
    MembersHas(k, v);
    var ir := Obj(Members(k, v));
    assert Get(ir, k[0]) == v[0] && Get(ir, k[1]) == v[1] && Get(ir, k[2]) == v[2] && Get(ir, k[3]) == v[3];
    assert Get(ir, k[4]) == v[4] && Get(ir, k[5]) == v[5] && Get(ir, k[6]) == v[6] && Get(ir, k[7]) == v[7];
    assert Get(ir, k[8]) == v[8] && Get(ir, k[9]) == v[9] && Get(ir, k[10]) == v[10] && Get(ir, k[11]) == v[11];
  }

  /** Error type in bits 16 to 18, flags in bits 19 to 23. */
  predicate MsIs(ir: Json, v: nat) {
    var errorType := v / 0x1_0000 % 8;
    && MsMarks(Get(ir, "validationBits"), v % 0x1_0000)
    && Named(Get(ir, "errorType"), errorType, MsErrorText(errorType))
    && ErrorMarks(ir, v, 0x8_0000)
  }

  lemma MsShown(v: u64)
    ensures MsIs(CheckToIr(Ms, v), v)
  {
    hide BitfieldToIr, Pair, Distinct, Get, Members, MsCheckNames, SplitBits, MsMarks, Named, MsErrorText, MsKeys;
    var f := SplitBits(v, MS_BITS);
    MsFields(v);
    MsMembers(f);
    MsBits(f[0]);
    MsErrorNamed(f[1]);
  }

  lemma MsMembers(f: seq<nat>)
    requires |f| == 8
    ensures var ir := Obj(Members(MsKeys(), MsValues(f)));
      && Get(ir, "validationBits") == BitfieldToIr(f[0], MsCheckNames())
      && Get(ir, "errorType") == Pair(f[1], MsErrorTypes)
      && Get(ir, "processorContextCorrupt") == Bool(f[2] != 0) && Get(ir, "uncorrected") == Bool(f[3] != 0)
      && Get(ir, "preciseIP") == Bool(f[4] != 0) && Get(ir, "restartableIP") == Bool(f[5] != 0)
      && Get(ir, "overflow") == Bool(f[6] != 0)
  {
    hide BitfieldToIr, Pair, Distinct, Get, Members, MsCheckNames;
    var k, v := MsKeys(), MsValues(f);
    KeysDistinct();
    MembersHas(k, v);
    var ir := Obj(Members(k, v));
    assert Get(ir, k[0]) == v[0] && Get(ir, k[1]) == v[1] && Get(ir, k[2]) == v[2] && Get(ir, k[3]) == v[3];
    assert Get(ir, k[4]) == v[4] && Get(ir, k[5]) == v[5] && Get(ir, k[6]) == v[6];
  }

  lemma UnknownShown(v: u64)
    ensures CheckToIr(CheckKind.Unknown, v) == Null
  {
    hide SplitBits, Members;
  }
}
