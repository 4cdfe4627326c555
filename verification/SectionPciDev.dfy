/** PCI/PCI-X device error sections: UEFI Specification 2.9, section N.2.9. */
module SectionPciDev {
  import opened Bytes
  import opened CperUtils
  import opened GenericStatus
  import opened Json
  import opened Names
  import opened Packed
  import opened RegisterPairs
  import opened Streams

  const FIXED_SIZE: nat := 40

  /** Validation bits, error status, ID information, the numbers of memory and I/O pairs. */
  const FIXED_WIDTHS: seq<nat> := [8, 8, 16, 4, 4]

  lemma FixedWidths()
    ensures Sum(FIXED_WIDTHS) == FIXED_SIZE
  {
  }

  // ---- the ID information -----------------------------------------------------------------------------

  const ID_RESERVED: nat := 11

  function IdFields(): seq<Slot> {
    [Field("vendorID", 2, false), Field("deviceID", 2, false), Field("classCode", 3, false),
     Field("functionNumber", 1, false), Field("deviceNumber", 1, false), Field("busNumber", 1, false),
     Field("segmentNumber", 1, false)]
  }

  function IdLayout(): seq<Slot> {
    IdFields() + [Reserved(5)]
  }

  lemma IdKeys()
    ensures DistinctKeys(IdFields()) && Sum(Widths(IdFields())) == ID_RESERVED
  {
    var a: seq<nat>, b: seq<nat> := [2, 2, 3, 1], [1, 1, 1];
    assert Widths(IdFields()) == a + b;
    SumAppend(a, b);
  }

  lemma IdGood()
    ensures GoodLayout(IdLayout(), 16)
  {
    hide Sum, Widths, DistinctKeys;
    IdKeys();
    ReservedSlot(5);
    LayoutAppend(IdFields(), [Reserved(5)]);
    DistinctAppend(IdFields(), [Reserved(5)], k => true);
  }

  function IdToIr(d: seq<byte>): Json
    requires |d| == 16
  {
    IdGood();
    PackedToIr(IdLayout(), d)
  }

  function IdFromIr(ir: Json): (d: seq<byte>)
    ensures |d| == 16
  {
    IdGood();
    PackedSize(IdLayout(), ir);
    PackedFromIr(IdLayout(), ir)
  }

  function NormalId(d: seq<byte>): (r: seq<byte>)
    requires |d| == 16
    ensures |r| == 16
  {
    IdGood();
    NormalPackedSize(IdLayout(), d);
    NormalPacked(IdLayout(), d)
  }

  lemma IdTrip(d: seq<byte>)
    requires |d| == 16
    ensures IdFromIr(IdToIr(d)) == NormalId(d)
    ensures NormalId(d) == d <==> d[ID_RESERVED..16] == Zeros(5)
  {
    hide Sum, Widths, PackedToIr, PackedFromIr, NormalPacked, GoodLayout, IdFields;
    IdGood();
    IdKeys();
    LayoutTotal(IdLayout(), 16);
    PackedRoundTrip(IdLayout(), d, 16);
    IdAllFields();
    assert IdLayout() == IdFields() + [Reserved(5)] + [];
    OneReserved(IdFields(), 5, [], d);
  }

  lemma IdAllFields()
    ensures forall i :: 0 <= i < |IdFields()| ==> IdFields()[i].Field?
  {
  }

  // ---- the section --------------------------------------------------------------------------------------

  /** The sum of the two counts, in 32 bits and then as a signed integer: a negative count reads no pairs. */
  function CountOf(memory: u32, io: u32): nat {
    var sum := (memory + io) % 0x1_0000_0000;
    if sum < 0x8000_0000 then sum else 0
  }

  function PairCount(s: seq<byte>): nat {
    CountOf(U32(Front(s, FIXED_WIDTHS)[3]), U32(Front(s, FIXED_WIDTHS)[4]))
  }

  function SectionEnd(s: seq<byte>): nat {
    FIXED_SIZE + PAIR_SIZE * PairCount(s)
  }

  function RecordToIr(p: seq<seq<byte>>, pairs: seq<Json>): Json
    requires HasWidths(p, FIXED_WIDTHS)
  {
    Obj(map[
      "validationBits" := BitfieldToIr(U64(p[0]), PciDevValidNames()),
      "errorStatus" := StatusToIr(U64(p[1])),
      "idInfo" := IdToIr(p[2]),
      "memoryNumber" := Int(U32(p[3])),
      "ioNumber" := Int(U32(p[4])),
      "registerDataPairs" := Arr(pairs)])
  }

  function SectionToIr(s: seq<byte>): Json {
    RecordToIr(Front(s, FIXED_WIDTHS), PairsToIr(s, FIXED_SIZE, PairCount(s), "firstHalf", "secondHalf"))
  }

  function FixedFromIr(ir: Json): (p: seq<seq<byte>>)
  {
    [LE(IrToBitfield(Get(ir, "validationBits"), PciDevValidNames()), 8),
     LE(StatusFromIr(Get(ir, "errorStatus")), 8),
     IdFromIr(Get(ir, "idInfo")),
     LE(GetUint64(Get(ir, "memoryNumber")), 4),
     LE(GetUint64(Get(ir, "ioNumber")), 4)]
  }

  /** As many pairs are written as the array holds, whatever the two numbers say. */
  function SectionFromIr(ir: Json): seq<byte> {
    var pairs := Get(ir, "registerDataPairs");
    Join(FixedFromIr(ir)) + PairsFromIr(pairs, ArrayLength(pairs), "firstHalf", "secondHalf")
  }

  /** The writer asks for the length of the array of pairs. */
  predicate Writable(ir: Json) {
    Get(ir, "registerDataPairs").Arr?
  }

  lemma ReadWritable(s: seq<byte>)
    ensures Writable(SectionToIr(s))
  {
    hide BitfieldToIr, StatusToIr, IdToIr, Front;
  }

  lemma FixedFromIrWidths(ir: Json)
    ensures HasWidths(FixedFromIr(ir), FIXED_WIDTHS) && |Join(FixedFromIr(ir))| == FIXED_SIZE
  {
    hide Join, LE, Get, IrToBitfield, StatusFromIr, IdFromIr, PciDevValidNames, Sum;
    FixedWidths();
    JoinLength(FixedFromIr(ir), FIXED_WIDTHS);
  }

  lemma MissingSection()
    ensures !Writable(Null) && |SectionFromIr(Null)| == FIXED_SIZE
  {
    hide FixedFromIr, Join;
    FixedFromIrWidths(Null);
  }

  // ---- what the trip keeps ---------------------------------------------------------------------------------

  function NormalParts(p: seq<seq<byte>>): seq<seq<byte>>
    requires HasWidths(p, FIXED_WIDTHS)
  {
    [LE(Low(U64(p[0]), 5), 8), LE(NormalStatus(U64(p[1])), 8), NormalId(p[2]), p[3], p[4]]
  }

  lemma NormalPartsWidths(p: seq<seq<byte>>)
    requires HasWidths(p, FIXED_WIDTHS)
    ensures HasWidths(NormalParts(p), FIXED_WIDTHS)
  {
    hide Low, U64, NormalStatus, NormalId, LE;
  }

  function NormalSection(s: seq<byte>): seq<byte> {
    Join(NormalParts(Front(s, FIXED_WIDTHS))) + At(s, FIXED_SIZE, PAIR_SIZE * PairCount(s))
  }

  ghost predicate CleanParts(p: seq<seq<byte>>)
    requires HasWidths(p, FIXED_WIDTHS)
  {
    U64(p[0]) < 32 && CanonicalStatus(U64(p[1])) && p[2][ID_RESERVED..16] == Zeros(5)
  }

  /** Nothing unnamed or reserved is set, and the section ends behind its last pair. */
  ghost predicate CanonicalSection(s: seq<byte>) {
    CleanParts(Front(s, FIXED_WIDTHS)) && |s| == SectionEnd(s)
  }

  lemma ValidRoundTrip(v: u64)
    ensures IrToBitfield(BitfieldToIr(v, PciDevValidNames()), PciDevValidNames()) == Low(v, 5)
  {
    hide BitfieldToIr, IrToBitfield, Distinct, PciDevValidNames;
    PciDevNamesDistinct();
    BitfieldRoundTrip(v, PciDevValidNames());
  }

  lemma FixedRoundTrip(p: seq<seq<byte>>, pairs: seq<Json>)
    requires HasWidths(p, FIXED_WIDTHS)
    ensures var ir := RecordToIr(p, pairs);
      FixedFromIr(ir) == NormalParts(p) && Get(ir, "registerDataPairs") == Arr(pairs)
  {
    hide BitfieldToIr, IrToBitfield, StatusToIr, StatusFromIr, IdToIr, IdFromIr, NormalId, NormalStatus, LE,
      FromLE, Low,
      PciDevValidNames;
    ValidRoundTrip(U64(p[0]));
    StatusRoundTrip(U64(p[1]));
    IdTrip(p[2]);
    NumberRoundTrip(p[3]);
    NumberRoundTrip(p[4]);
  }

  lemma SectionRoundTrip(s: seq<byte>)
    ensures SectionFromIr(SectionToIr(s)) == NormalSection(s)
  {
    hide RecordToIr, FixedFromIr, NormalParts, Join, Front, Get, At, PairsToIr, PairsFromIr, PairCount;
    var pairs := PairsToIr(s, FIXED_SIZE, PairCount(s), "firstHalf", "secondHalf");
    FixedRoundTrip(Front(s, FIXED_WIDTHS), pairs);
    PairsRoundTrip(s, FIXED_SIZE, PairCount(s), "firstHalf", "secondHalf", pairs);
  }

  lemma PartsKept(p: seq<seq<byte>>)
    requires HasWidths(p, FIXED_WIDTHS)
    ensures NormalParts(p) == p <==> CleanParts(p)
  {
    hide LE, FromLE, Low, NormalStatus, CanonicalStatus, NormalId;
    var v := U64(p[0]);
    LowKept(v, 5);
    SmallPowers();
    StoreKept(p[0], Low(v, 5));
    StoreKept(p[1], NormalStatus(U64(p[1])));
    StatusKept(U64(p[1]));
    IdTrip(p[2]);
    var n := NormalParts(p);
    assert n == p <==> n[0] == p[0] && n[1] == p[1] && n[2] == p[2];
  }

  /** The sections that come back byte for byte are exactly the canonical ones. */
  lemma SectionKept(s: seq<byte>)
    ensures NormalSection(s) == s <==> CanonicalSection(s)
  {
    hide NormalParts, Front, Join, Chop, Sum, CleanParts, PairCount;
    var p, n := Front(s, FIXED_WIDTHS), NormalParts(Front(s, FIXED_WIDTHS));
    FixedWidths();
    FrontJoined(s, FIXED_WIDTHS);
    NormalPartsWidths(p);
    JoinLength(n, FIXED_WIDTHS);
    PartsKept(p);
    SlicesKept(p, n, FIXED_WIDTHS);
    AtSplit(s, 0, FIXED_SIZE, PAIR_SIZE * PairCount(s));
    AppendKept(Join(n), At(s, FIXED_SIZE, PAIR_SIZE * PairCount(s)),
      At(s, 0, FIXED_SIZE), At(s, FIXED_SIZE, PAIR_SIZE * PairCount(s)));
    if |s| == SectionEnd(s) {
      assert At(s, 0, |s|) == s;
    }
  }

  /** Reading a section and writing it back gives the same bytes exactly when the section is canonical. */
  lemma RoundTrip(s: seq<byte>)
    ensures SectionFromIr(SectionToIr(s)) == s <==> CanonicalSection(s)
  {
    hide SectionFromIr, SectionToIr, NormalSection, CanonicalSection;
    SectionRoundTrip(s);
    SectionKept(s);
  }

  lemma NormalIdClean(d: seq<byte>)
    requires |d| == 16
    ensures NormalId(d)[ID_RESERVED..16] == Zeros(5)
  {
    hide Sum, Widths, GoodLayout, NormalPacked;
    IdGood();
    LayoutTotal(IdLayout(), 16);
    NormalPackedTwice(IdLayout(), d);
    IdTrip(NormalId(d));
  }

  lemma NormalPartsClean(p: seq<seq<byte>>)
    requires HasWidths(p, FIXED_WIDTHS)
    ensures HasWidths(NormalParts(p), FIXED_WIDTHS) && CleanParts(NormalParts(p))
  {
    hide LE, U64, Low, NormalStatus, CanonicalStatus, NormalId, Pow2;
    NormalPartsWidths(p);
    SmallPowers();
    StoreKept(LE(Low(U64(p[0]), 5), 8), Low(U64(p[0]), 5));
    StoreKept(LE(NormalStatus(U64(p[1])), 8), NormalStatus(U64(p[1])));
    NormalStatusCanonical(U64(p[1]));
    NormalIdClean(p[2]);
  }

  /** What is written is canonical: a second trip changes nothing. */
  lemma NormalCanonical(s: seq<byte>)
    ensures CanonicalSection(NormalSection(s))
  {
    hide NormalParts, CleanParts, Front, Join, U32, Sum;
    var p := Front(s, FIXED_WIDTHS);
    NormalPartsClean(p);
    FixedWidths();
    FrontOfJoin(NormalParts(p), FIXED_WIDTHS, At(s, FIXED_SIZE, PAIR_SIZE * PairCount(s)));
    CountsStay(p);
  }

  lemma CountsStay(p: seq<seq<byte>>)
    requires HasWidths(p, FIXED_WIDTHS)
    ensures NormalParts(p)[3] == p[3] && NormalParts(p)[4] == p[4]
  {
    hide LE, U64, Low, NormalStatus, NormalId;
  }

  lemma NormalLength(s: seq<byte>)
    ensures |NormalSection(s)| == SectionEnd(s)
  {
    hide NormalParts, Front, Join, Sum, PairCount;
    FixedWidths();
    NormalPartsWidths(Front(s, FIXED_WIDTHS));
    JoinLength(NormalParts(Front(s, FIXED_WIDTHS)), FIXED_WIDTHS);
  }

  // ---- reader and writer -----------------------------------------------------------------------------------

  method ReadSection(section: seq<byte>) returns (ir: Json, end: nat)
    ensures ir == SectionToIr(section) && end == SectionEnd(section)
  {
    hide RecordToIr, Front, PairsToIr, U32;
    var p := Front(section, FIXED_WIDTHS);
    var count := CountOf(U32(p[3]), U32(p[4]));
    var pairs;
    pairs, end := ReadPairs(section, FIXED_SIZE, count, "firstHalf", "secondHalf");
    ir := RecordToIr(p, pairs);
  }

  /** Assigns the fields of zeroed memory in turn, writes them, then the pairs. */
  method WriteSection(ir: Json, out: File)
    requires Writable(ir)
    modifies out
    ensures out.Holds(old(out.data), old(out.pos), SectionFromIr(ir))
  {
    hide LE, Get, Join, Patch, IrToBitfield, StatusFromIr, IdFromIr, PairsFromIr, PciDevValidNames, Distinct;
    var fixed := [Zeros(8), Zeros(8), Zeros(16), Zeros(4), Zeros(4)];
    PciDevNamesDistinct();
    var valid := ParseBitfield(Get(ir, "validationBits"), PciDevValidNames());
    fixed := fixed[0 := LE(valid, 8)];
    fixed := fixed[1 := LE(StatusFromIr(Get(ir, "errorStatus")), 8)];
    fixed := fixed[2 := IdFromIr(Get(ir, "idInfo"))];
    fixed := fixed[3 := LE(GetUint64(Get(ir, "memoryNumber")), 4)];
    fixed := fixed[4 := LE(GetUint64(Get(ir, "ioNumber")), 4)];
    assert fixed == FixedFromIr(ir);
    out.Write(Join(fixed));
    ghost var d, p := out.data, out.pos;
    var pairs := Get(ir, "registerDataPairs");
    var numPairs := AskLength(pairs);
    WritePairs(pairs, numPairs, "firstHalf", "secondHalf", out);
    out.HoldsMore(old(out.data), old(out.pos), Join(fixed), d, p,
      PairsFromIr(pairs, numPairs, "firstHalf", "secondHalf"));
  }
}
