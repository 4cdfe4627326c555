/** CXL protocol error sections: UEFI Specification 2.9, section N.2.13. */
module SectionCxlProtocol {
  import opened Base64
  import opened Bytes
  import opened CperUtils
  import opened Json
  import opened Names
  import opened Options
  import opened Packed
  import opened Payloads
  import opened Streams

  const FIXED_SIZE: nat := 116
  const CAPABILITY_SIZE: nat := 60

  const DEVICE_AGENT: u64 := 0
  const PORT_AGENT: u64 := 1

  /** Validation bits, agent type, agent address, device ID, device serial, capability structure, DVSEC length, error
      log length, reserved. */
  const FIXED_WIDTHS: seq<nat> := [8, 8, 8, 16, 8, 60, 2, 2, 4]

  lemma FixedWidths()
    ensures Sum(FIXED_WIDTHS) == FIXED_SIZE
  {
    hide Sum;
    var a: seq<nat>, b: seq<nat>, c: seq<nat> := [8, 8, 8, 16], [8, 60, 2, 2], [4];
    SumFour(8, 8, 8, 16);
    SumFour(8, 60, 2, 2);
    SumAppend(a, b);
    SumAppend(a + b, c);
    SumEqual(c, 4);
    assert FIXED_WIDTHS == a + b + c;
  }

  // ---- the agent's address ------------------------------------------------------------------------------

  const ADDRESS_RESERVED: nat := 5

  function AddressFields(): seq<Slot> {
    [Field("functionNumber", 1, false), Field("deviceNumber", 1, false), Field("busNumber", 1, false),
     Field("segmentNumber", 2, false)]
  }

  function AddressLayout(): seq<Slot> {
    AddressFields() + [Reserved(3)]
  }

  lemma AddressKeys()
    ensures DistinctKeys(AddressFields()) && Sum(Widths(AddressFields())) == ADDRESS_RESERVED
    ensures forall i :: 0 <= i < |AddressFields()| ==> AddressFields()[i].Field?
  {
    SumFour(1, 1, 1, 2);
    assert Widths(AddressFields()) == [1, 1, 1, 2];
  }

  lemma AddressGood()
    ensures GoodLayout(AddressLayout(), 8)
  {
    hide Sum, Widths, DistinctKeys;
    AddressKeys();
    ReservedSlot(3);
    LayoutAppend(AddressFields(), [Reserved(3)]);
    DistinctAppend(AddressFields(), [Reserved(3)], k => true);
  }

  /** A device is addressed by its bus position, a port by its base address, anything else not at all. */
  function AddressToIr(agent: u64, d: seq<byte>): Json
    requires |d| == 8
  {
    if agent == DEVICE_AGENT then
      AddressGood();
      PackedToIr(AddressLayout(), d)
    else if agent == PORT_AGENT then Obj(map["value" := Int(U64(d))])
    else Obj(map[])
  }

  function AddressFromIr(agent: u64, ir: Json): (d: seq<byte>)
    ensures |d| == 8
  {
    if agent == DEVICE_AGENT then
      AddressGood();
      PackedSize(AddressLayout(), ir);
      PackedFromIr(AddressLayout(), ir)
    else if agent == PORT_AGENT then LE(GetUint64(Get(ir, "value")), 8)
    else Zeros(8)
  }

  function NormalAddress(agent: u64, d: seq<byte>): (r: seq<byte>)
    requires |d| == 8
    ensures |r| == 8
  {
    if agent == DEVICE_AGENT then
      AddressGood();
      NormalPackedSize(AddressLayout(), d);
      NormalPacked(AddressLayout(), d)
    else if agent == PORT_AGENT then d
    else Zeros(8)
  }

  ghost predicate CleanAddress(agent: u64, d: seq<byte>)
    requires |d| == 8
  {
    if agent == DEVICE_AGENT then d[ADDRESS_RESERVED..8] == Zeros(3)
    else if agent == PORT_AGENT then true
    else d == Zeros(8)
  }

  lemma AddressTrip(agent: u64, d: seq<byte>)
    requires |d| == 8
    ensures AddressFromIr(agent, AddressToIr(agent, d)) == NormalAddress(agent, d)
    ensures NormalAddress(agent, d) == d <==> CleanAddress(agent, d)
  {
    hide Sum, Widths, PackedToIr, PackedFromIr, NormalPacked, GoodLayout, AddressFields, LE, FromLE;
    if agent == DEVICE_AGENT {
      AddressGood();
      AddressKeys();
      LayoutTotal(AddressLayout(), 8);
      PackedRoundTrip(AddressLayout(), d, 8);
      assert AddressLayout() == AddressFields() + [Reserved(3)] + [];
      OneReserved(AddressFields(), 3, [], d);
    } else if agent == PORT_AGENT {
      NumberRoundTrip(d);
    }
  }

  // ---- the device ID ---------------------------------------------------------------------------------------

  /** Vendor, device, subsystem vendor, subsystem device, class code, slot number above three reserved bits,
      reserved. */
  const DEVICE_WIDTHS: seq<nat> := [2, 2, 2, 2, 2, 2, 4]

  lemma DeviceWidths()
    ensures Sum(DEVICE_WIDTHS) == 16
  {
  }

  function DeviceParts(d: seq<byte>): (p: seq<seq<byte>>)
    requires |d| == 16
    ensures HasWidths(p, DEVICE_WIDTHS)
  {
    DeviceWidths();
    Chop(d, DEVICE_WIDTHS)
  }

  function DeviceMembers(p: seq<seq<byte>>): Json
    requires HasWidths(p, DEVICE_WIDTHS)
  {
    Obj(map[
      "vendorID" := Int(U16(p[0])),
      "deviceID" := Int(U16(p[1])),
      "subsystemVendorID" := Int(U16(p[2])),
      "subsystemDeviceID" := Int(U16(p[3])),
      "classCode" := Int(U16(p[4])),
      "slotNumber" := Int(High(U16(p[5]), 3))])
  }

  function DeviceToIr(d: seq<byte>): Json
    requires |d| == 16
  {
    DeviceMembers(DeviceParts(d))
  }

  /** A slot number in the upper thirteen of sixteen bits; larger ones are truncated. */
  function SlotWord(slot: nat): nat {
    Shifted(Low(slot, 13), 3)
  }

  lemma SlotTruncated(high: nat, slot: nat)
    requires slot < 0x2000
    ensures SlotWord(0x2000 * high + slot) == 8 * slot
  {
    hide Low, Place, Pow2;
    SlotPowers();
    LowMod(0x2000 * high + slot, 13);
    DivModUnique(0x2000 * high + slot, 0x2000, high, slot);
    PlaceSum(0, 3, slot);
    LowAtMost(0, 3);
  }

  lemma SlotPowers()
    ensures Pow2(13) == 0x2000 && Pow2(3) == 8
  {
    Pow2Add(6, 7);
  }

  function DeviceFieldsFromIr(ir: Json): (p: seq<seq<byte>>)
    ensures HasWidths(p, DEVICE_WIDTHS)
  {
    [LE(GetUint64(Get(ir, "vendorID")), 2), LE(GetUint64(Get(ir, "deviceID")), 2),
     LE(GetUint64(Get(ir, "subsystemVendorID")), 2), LE(GetUint64(Get(ir, "subsystemDeviceID")), 2),
     LE(GetUint64(Get(ir, "classCode")), 2), LE(SlotWord(GetUint64(Get(ir, "slotNumber"))), 2), Zeros(4)]
  }

  function DeviceFromIr(ir: Json): (d: seq<byte>)
    ensures |d| == 16
  {
    DeviceWidths();
    JoinLength(DeviceFieldsFromIr(ir), DEVICE_WIDTHS);
    Join(DeviceFieldsFromIr(ir))
  }

  function NormalDeviceParts(p: seq<seq<byte>>): (r: seq<seq<byte>>)
    requires HasWidths(p, DEVICE_WIDTHS)
    ensures HasWidths(r, DEVICE_WIDTHS)
  {
    p[5 := LE(Shifted(High(U16(p[5]), 3), 3), 2)][6 := Zeros(4)]
  }

  function NormalDevice(d: seq<byte>): (r: seq<byte>)
    requires |d| == 16
    ensures |r| == 16
  {
    DeviceWidths();
    JoinLength(NormalDeviceParts(DeviceParts(d)), DEVICE_WIDTHS);
    Join(NormalDeviceParts(DeviceParts(d)))
  }

  ghost predicate CleanDevice(d: seq<byte>)
    requires |d| == 16
  {
    Low(U16(DeviceParts(d)[5]), 3) == 0 && DeviceParts(d)[6] == Zeros(4)
  }

  lemma DeviceFieldsTrip(p: seq<seq<byte>>)
    requires HasWidths(p, DEVICE_WIDTHS)
    ensures DeviceFieldsFromIr(DeviceMembers(p)) == NormalDeviceParts(p)
  {
    hide LE, FromLE, High, Low, Shifted;
    NumberRoundTrip(p[0]);
    NumberRoundTrip(p[1]);
    NumberRoundTrip(p[2]);
    NumberRoundTrip(p[3]);
    NumberRoundTrip(p[4]);
    SlotFits(U16(p[5]));
  }

  lemma SlotFits(v: u16)
    ensures High(v, 3) <= v && Low(High(v, 3), 13) == High(v, 3)
    ensures Shifted(High(v, 3), 3) == v <==> Low(v, 3) == 0
    ensures Shifted(High(v, 3), 3) < 0x1_0000
  {
    hide High, Low, Place;
    Pow2Values();
    assert Pow2(3) == 8;
    HighBound(v, 3, 13);
    LowOfLow(High(v, 3), 13);
    LowAndHigh(v, 3);
    PlaceSum(0, 3, High(v, 3));
    LowOfLow(0, 3);
  }

  lemma DeviceTrip(d: seq<byte>)
    requires |d| == 16
    ensures DeviceFromIr(DeviceToIr(d)) == NormalDevice(d)
    ensures NormalDevice(d) == d <==> CleanDevice(d)
  {
    hide LE, FromLE, Join, Chop, High, Low, Shifted, DeviceMembers, DeviceFieldsFromIr, Sum;
    var p := DeviceParts(d);
    var v, n := U16(p[5]), NormalDeviceParts(p);
    DeviceFieldsTrip(p);
    DeviceWidths();
    JoinChop(d, DEVICE_WIDTHS);
    SlicesKept(p, n, DEVICE_WIDTHS);
    SlotFits(v);
    StoreKept16(p[5], Shifted(High(v, 3), 3));
    assert n == p <==> n[5] == p[5] && n[6] == p[6];
  }

  // ---- the section ------------------------------------------------------------------------------------------

  function DvsecLength(s: seq<byte>): u16 { U16(Front(s, FIXED_WIDTHS)[6]) }

  function LogLength(s: seq<byte>): u16 { U16(Front(s, FIXED_WIDTHS)[7]) }

  function SectionEnd(s: seq<byte>): nat {
    FIXED_SIZE + DvsecLength(s) + LogLength(s)
  }

  /** The two tails, one behind the other. */
  function Dvsec(s: seq<byte>): seq<byte> { At(s, FIXED_SIZE, DvsecLength(s)) }

  function Log(s: seq<byte>): seq<byte> { At(s, FIXED_SIZE + DvsecLength(s), LogLength(s)) }

  function CxlKeys(): seq<string> {
    ["validationBits", "agentType", "cxlAgentAddress", "deviceID", "deviceSerial", "capabilityStructure", "dvsecLength",
     "errorLogLength", "cxlDVSEC", "cxlErrorLog"]
  }

  lemma CxlKeysDistinct()
    ensures Distinct(CxlKeys())
  {
  }

  /** Serial number and capability structure are shown for devices only. */
  function CxlValues(p: seq<seq<byte>>, dvsec: string, log: string): (vs: seq<Option<Json>>)
    requires HasWidths(p, FIXED_WIDTHS)
    ensures |vs| == |CxlKeys()|
  {
    var agent := U64(p[1]);
    [Some(BitfieldToIr(U64(p[0]), CxlValidNames())),
     Some(Pair(agent, CxlAgentTypes)),
     Some(AddressToIr(agent, p[2])),
     Some(DeviceToIr(p[3])),
     if agent == DEVICE_AGENT then Some(Int(U64(p[4]))) else None,
     if agent == DEVICE_AGENT then Some(Str(Encode(p[5]))) else None,
     Some(Int(U16(p[6]))),
     Some(Int(U16(p[7]))),
     Some(Str(dvsec)),
     Some(Str(log))]
  }

  function RecordToIr(p: seq<seq<byte>>, dvsec: string, log: string): Json
    requires HasWidths(p, FIXED_WIDTHS)
  {
    Obj(Present(CxlKeys(), CxlValues(p, dvsec, log)))
  }

  function SectionToIr(s: seq<byte>): Json {
    RecordToIr(Front(s, FIXED_WIDTHS), Encode(Dvsec(s)), Encode(Log(s)))
  }

  /** The decoded structure in its sixty bytes. */
  ghost function CapabilityFromIr(ir: Json): (c: seq<byte>)
    ensures |c| == CAPABILITY_SIZE
  {
    At(Payload(GetString(Get(ir, "capabilityStructure"))), 0, CAPABILITY_SIZE)
  }

  ghost function FixedFromIr(ir: Json): seq<seq<byte>> {
    var agent := PairValue(Get(ir, "agentType"));
    [LE(IrToBitfield(Get(ir, "validationBits"), CxlValidNames()), 8),
     LE(agent, 8),
     AddressFromIr(agent, Get(ir, "cxlAgentAddress")),
     DeviceFromIr(Get(ir, "deviceID")),
     if agent == DEVICE_AGENT then LE(GetUint64(Get(ir, "deviceSerial")), 8) else Zeros(8),
     if agent == DEVICE_AGENT then CapabilityFromIr(ir) else Zeros(CAPABILITY_SIZE),
     LE(GetInt(Get(ir, "dvsecLength")), 2),
     LE(GetInt(Get(ir, "errorLogLength")), 2),
     Zeros(4)]
  }

  /** The tails go out as long as they decode to, whatever the two lengths say. */
  ghost function SectionFromIr(ir: Json): seq<byte> {
    Join(FixedFromIr(ir)) + Payload(GetString(Get(ir, "cxlDVSEC"))) + Payload(GetString(Get(ir, "cxlErrorLog")))
  }

  lemma MissingSection()
    ensures |SectionFromIr(Null)| == FIXED_SIZE
  {
    hide Join, Payload, LE, IrToBitfield, AddressFromIr, DeviceFromIr, CxlValidNames, PairValue, Sum, CapabilityFromIr;
    FixedWidths();
    JoinLength(FixedFromIr(Null), FIXED_WIDTHS);
    NoPayload();
  }

  // ---- what the trip keeps --------------------------------------------------------------------------------------

  function NormalParts(p: seq<seq<byte>>): seq<seq<byte>>
    requires HasWidths(p, FIXED_WIDTHS)
  {
    var agent := U64(p[1]);
    [LE(Low(U64(p[0]), 7), 8), p[1], NormalAddress(agent, p[2]), NormalDevice(p[3]),
     if agent == DEVICE_AGENT then p[4] else Zeros(8),
     if agent == DEVICE_AGENT then p[5] else Zeros(CAPABILITY_SIZE),
     p[6], p[7], Zeros(4)]
  }

  ghost predicate CleanParts(p: seq<seq<byte>>)
    requires HasWidths(p, FIXED_WIDTHS)
  {
    var agent := U64(p[1]);
    && U64(p[0]) < 128 && CleanAddress(agent, p[2]) && CleanDevice(p[3])
    && (agent != DEVICE_AGENT ==> p[4] == Zeros(8) && p[5] == Zeros(CAPABILITY_SIZE))
    && p[8] == Zeros(4)
  }

  /** Nothing unnamed or reserved is set, what only devices have is zero for others, and the section ends behind the
      error log. */
  ghost predicate CanonicalSection(s: seq<byte>) {
    CleanParts(Front(s, FIXED_WIDTHS)) && |s| == SectionEnd(s)
  }

  function NormalSection(s: seq<byte>): seq<byte> {
    Join(NormalParts(Front(s, FIXED_WIDTHS))) + Dvsec(s) + Log(s)
  }

  lemma RecordMembers(p: seq<seq<byte>>, dvsec: string, log: string)
    requires HasWidths(p, FIXED_WIDTHS)
    ensures var ir, agent := RecordToIr(p, dvsec, log), U64(p[1]);
      && Get(ir, "validationBits") == BitfieldToIr(U64(p[0]), CxlValidNames())
      && Get(ir, "agentType") == Pair(agent, CxlAgentTypes)
      && Get(ir, "cxlAgentAddress") == AddressToIr(agent, p[2])
      && Get(ir, "deviceID") == DeviceToIr(p[3])
      && Get(ir, "deviceSerial") == (if agent == DEVICE_AGENT then Int(U64(p[4])) else Null)
      && Get(ir, "capabilityStructure") == (if agent == DEVICE_AGENT then Str(Encode(p[5])) else Null)
      && Get(ir, "dvsecLength") == Int(U16(p[6])) && Get(ir, "errorLogLength") == Int(U16(p[7]))
      && Get(ir, "cxlDVSEC") == Str(dvsec) && Get(ir, "cxlErrorLog") == Str(log)
  {
    hide Present, Get, BitfieldToIr, Pair, AddressToIr, DeviceToIr, Encode, U16, U64, Distinct, CxlValidNames;
    CxlKeysDistinct();
    var k, v, ir := CxlKeys(), CxlValues(p, dvsec, log), RecordToIr(p, dvsec, log);
    PresentHas(k, v);
    assert Get(ir, k[0]) == OrNull(v[0]) && Get(ir, k[1]) == OrNull(v[1]) && Get(ir, k[2]) == OrNull(v[2]);
    assert Get(ir, k[3]) == OrNull(v[3]) && Get(ir, k[4]) == OrNull(v[4]) && Get(ir, k[5]) == OrNull(v[5]);
    assert Get(ir, k[6]) == OrNull(v[6]) && Get(ir, k[7]) == OrNull(v[7]) && Get(ir, k[8]) == OrNull(v[8]);
    assert Get(ir, k[9]) == OrNull(v[9]);
  }

  lemma ValidRoundTrip(v: u64)
    ensures IrToBitfield(BitfieldToIr(v, CxlValidNames()), CxlValidNames()) == Low(v, 7)
  {
    hide BitfieldToIr, IrToBitfield, Distinct, CxlValidNames;
    CxlNamesDistinct();
    BitfieldRoundTrip(v, CxlValidNames());
  }

  lemma FixedRoundTrip(p: seq<seq<byte>>, dvsec: string, log: string)
    requires HasWidths(p, FIXED_WIDTHS)
    ensures FixedFromIr(RecordToIr(p, dvsec, log)) == NormalParts(p)
  {
    hide RecordToIr, Get, BitfieldToIr, IrToBitfield, Pair, PairValue, AddressToIr, AddressFromIr, NormalAddress,
      DeviceToIr, DeviceFromIr, NormalDevice, Encode, Payload, LE, FromLE, Low, CxlValidNames;
    RecordMembers(p, dvsec, log);
    ValidRoundTrip(U64(p[0]));
    PairRoundTrip(U64(p[1]), CxlAgentTypes);
    StoreLoad(p[1]);
    AddressTrip(U64(p[1]), p[2]);
    DeviceTrip(p[3]);
    NumberRoundTrip(p[4]);
    PayloadRoundTrip(p[5]);
    assert At(p[5], 0, CAPABILITY_SIZE) == p[5];
    IntRoundTrip(p[6]);
    IntRoundTrip(p[7]);
  }

  lemma SectionRoundTrip(s: seq<byte>)
    ensures SectionFromIr(SectionToIr(s)) == NormalSection(s)
  {
    hide RecordToIr, FixedFromIr, NormalParts, Join, Front, Get, Dvsec, Log, Encode, Payload, AddressToIr,
      DeviceToIr, Pair, BitfieldToIr;
    FixedRoundTrip(Front(s, FIXED_WIDTHS), Encode(Dvsec(s)), Encode(Log(s)));
    RecordMembers(Front(s, FIXED_WIDTHS), Encode(Dvsec(s)), Encode(Log(s)));
    PayloadRoundTrip(Dvsec(s));
    PayloadRoundTrip(Log(s));
  }

  lemma NormalPartsWidths(p: seq<seq<byte>>)
    requires HasWidths(p, FIXED_WIDTHS)
    ensures HasWidths(NormalParts(p), FIXED_WIDTHS)
  {
    hide Low, U64, NormalAddress, NormalDevice, LE;
  }

  lemma PartsKept(p: seq<seq<byte>>)
    requires HasWidths(p, FIXED_WIDTHS)
    ensures NormalParts(p) == p <==> CleanParts(p)
  {
    hide LE, FromLE, Low, NormalAddress, NormalDevice, CleanAddress, CleanDevice, NormalParts, Zeros;
    var v := U64(p[0]);
    assert Pow2(7) == 128;
    LowKept(v, 7);
    StoreKept(p[0], Low(v, 7));
    AddressTrip(U64(p[1]), p[2]);
    DeviceTrip(p[3]);
    PartsListed(p);
  }

  lemma PartsListed(p: seq<seq<byte>>)
    requires HasWidths(p, FIXED_WIDTHS)
    ensures var agent := U64(p[1]);
      NormalParts(p) == p <==>
        && LE(Low(U64(p[0]), 7), 8) == p[0] && NormalAddress(agent, p[2]) == p[2] && NormalDevice(p[3]) == p[3]
        && (agent != DEVICE_AGENT ==> p[4] == Zeros(8) && p[5] == Zeros(CAPABILITY_SIZE)) && p[8] == Zeros(4)
  {
    hide LE, U64, Low, NormalAddress, NormalDevice, Zeros;
    var n := NormalParts(p);
    assert n == p <==> n[0] == p[0] && n[2] == p[2] && n[3] == p[3] && n[4] == p[4] && n[5] == p[5] && n[8] == p[8];
  }

  /** The sections that come back byte for byte are exactly the canonical ones. */
  lemma SectionKept(s: seq<byte>)
    ensures NormalSection(s) == s <==> CanonicalSection(s)
  {
    hide NormalParts, Front, Join, Chop, Sum, CleanParts, U16, At;
    var p, n := Front(s, FIXED_WIDTHS), NormalParts(Front(s, FIXED_WIDTHS));
    FixedWidths();
    FrontJoined(s, FIXED_WIDTHS);
    NormalPartsWidths(p);
    JoinLength(n, FIXED_WIDTHS);
    PartsKept(p);
    SlicesKept(p, n, FIXED_WIDTHS);
    AtSplit(s, 0, FIXED_SIZE, DvsecLength(s));
    AtSplit(s, 0, FIXED_SIZE + DvsecLength(s), LogLength(s));
    ThreePartsKept(Join(n), Dvsec(s), Log(s), At(s, 0, FIXED_SIZE), Dvsec(s), Log(s));
    AtWhole(s);
  }

  /** Reading a section and writing it back gives the same bytes, through three separate base64 texts, exactly when the
      section is canonical. */
  lemma RoundTrip(s: seq<byte>)
    ensures SectionFromIr(SectionToIr(s)) == s <==> CanonicalSection(s)
  {
    hide SectionFromIr, SectionToIr, NormalSection, CanonicalSection;
    SectionRoundTrip(s);
    SectionKept(s);
  }

  lemma NormalAddressClean(agent: u64, d: seq<byte>)
    requires |d| == 8
    ensures CleanAddress(agent, NormalAddress(agent, d))
  {
    hide Sum, Widths, GoodLayout, NormalPacked, AddressFields;
    if agent == DEVICE_AGENT {
      AddressGood();
      LayoutTotal(AddressLayout(), 8);
      NormalPackedTwice(AddressLayout(), d);
      AddressTrip(agent, NormalAddress(agent, d));
    }
  }

  lemma NormalDeviceClean(d: seq<byte>)
    requires |d| == 16
    ensures CleanDevice(NormalDevice(d))
  {
    hide LE, FromLE, Join, Chop, High, Low, Shifted, Sum;
    var p := DeviceParts(d);
    var h := High(U16(p[5]), 3);
    DeviceWidths();
    ChopJoin(NormalDeviceParts(p), DEVICE_WIDTHS);
    SlotFits(U16(p[5]));
    ShiftedClean(h);
    StoreKept16(LE(Shifted(h, 3), 2), Shifted(h, 3));
  }

  lemma ShiftedClean(h: nat)
    ensures Low(Shifted(h, 3), 3) == 0
  {
    hide Low, High, Place;
    PlaceParts(0, 3, h);
    LowAtMost(0, 3);
  }

  lemma NormalPartsClean(p: seq<seq<byte>>)
    requires HasWidths(p, FIXED_WIDTHS)
    ensures HasWidths(NormalParts(p), FIXED_WIDTHS) && CleanParts(NormalParts(p))
  {
    hide LE, U64, Low, NormalAddress, NormalDevice, CleanAddress, CleanDevice, Zeros, Pow2;
    NormalPartsWidths(p);
    SmallPowers();
    StoreKept(LE(Low(U64(p[0]), 7), 8), Low(U64(p[0]), 7));
    NormalAddressClean(U64(p[1]), p[2]);
    NormalDeviceClean(p[3]);
  }

  /** What is written is canonical: a second trip changes nothing. */
  lemma NormalCanonical(s: seq<byte>)
    ensures CanonicalSection(NormalSection(s))
  {
    hide NormalParts, CleanParts, Front, Join, U16, Sum, At;
    var p := Front(s, FIXED_WIDTHS);
    NormalPartsClean(p);
    FixedWidths();
    assert NormalSection(s) == Join(NormalParts(p)) + (Dvsec(s) + Log(s));
    FrontOfJoin(NormalParts(p), FIXED_WIDTHS, Dvsec(s) + Log(s));
    LengthsStay(p);
  }

  lemma LengthsStay(p: seq<seq<byte>>)
    requires HasWidths(p, FIXED_WIDTHS)
    ensures NormalParts(p)[6] == p[6] && NormalParts(p)[7] == p[7]
  {
    hide LE, U64, Low, NormalAddress, NormalDevice, Zeros;
  }

  lemma NormalLength(s: seq<byte>)
    ensures |NormalSection(s)| == SectionEnd(s)
  {
    hide NormalParts, Front, Join, Sum, U16;
    FixedWidths();
    NormalPartsWidths(Front(s, FIXED_WIDTHS));
    JoinLength(NormalParts(Front(s, FIXED_WIDTHS)), FIXED_WIDTHS);
  }

  // ---- reader and writer --------------------------------------------------------------------------------------------

  /** Encodes a tail at the cursor and moves the cursor behind it. */
  method ReadTail(section: seq<byte>, cur: nat, length: u16) returns (text: string, next: nat)
    ensures text == Encode(At(section, cur, length)) && next == cur + length
  {
    hide Encode;
    var encoded := Base64Encode(At(section, cur, length));
    text := encoded.value;
    next := cur + length;
  }

  method ReadSection(section: seq<byte>) returns (ir: Json, end: nat)
    ensures ir == SectionToIr(section) && end == SectionEnd(section)
  {
    hide RecordToIr, Front, Encode, U16, At;
    var p := Front(section, FIXED_WIDTHS);
    var dvsec, cur := ReadTail(section, FIXED_SIZE, U16(p[6]));
    var log;
    log, end := ReadTail(section, cur, U16(p[7]));
    ir := RecordToIr(p, dvsec, log);
  }

  method WriteSection(ir: Json, out: File)
    modifies out
    ensures out.Holds(old(out.data), old(out.pos), SectionFromIr(ir))
  {
    hide LE, Get, Join, Patch, IrToBitfield, AddressFromIr, DeviceFromIr, Payload, CxlValidNames, Distinct, PairValue;
    var fixed := [Zeros(8), Zeros(8), Zeros(8), Zeros(16), Zeros(8), Zeros(CAPABILITY_SIZE), Zeros(2), Zeros(2),
      Zeros(4)];
    CxlNamesDistinct();
    var valid := ParseBitfield(Get(ir, "validationBits"), CxlValidNames());
    fixed := fixed[0 := LE(valid, 8)];
    var agent := PairValue(Get(ir, "agentType"));
    fixed := fixed[1 := LE(agent, 8)];
    fixed := fixed[2 := AddressFromIr(agent, Get(ir, "cxlAgentAddress"))];
    fixed := fixed[3 := DeviceFromIr(Get(ir, "deviceID"))];
    if agent == DEVICE_AGENT {
      fixed := fixed[4 := LE(GetUint64(Get(ir, "deviceSerial")), 8)];
      var capability := ParseCapability(ir);
      fixed := fixed[5 := capability];
    }
    fixed := fixed[6 := LE(GetInt(Get(ir, "dvsecLength")), 2)];
    fixed := fixed[7 := LE(GetInt(Get(ir, "errorLogLength")), 2)];
    assert fixed == FixedFromIr(ir);
    out.Write(Join(fixed));
    ghost var d, p := out.data, out.pos;
    ghost var dvsec, log := GetString(Get(ir, "cxlDVSEC")), GetString(Get(ir, "cxlErrorLog"));
    WritePayload(GetString(Get(ir, "cxlDVSEC")), out);
    out.HoldsMore(old(out.data), old(out.pos), Join(fixed), d, p, Payload(dvsec));
    d, p := out.data, out.pos;
    WritePayload(GetString(Get(ir, "cxlErrorLog")), out);
    out.HoldsMore(old(out.data), old(out.pos), Join(fixed) + Payload(dvsec), d, p, Payload(log));
  }

  method ParseCapability(ir: Json) returns (capability: seq<byte>)
    ensures capability == CapabilityFromIr(ir)
  {
    hide Decode, Get;
    capability := Zeros(CAPABILITY_SIZE);
    var decoded := Base64Decode(GetString(Get(ir, "capabilityStructure")));
    if decoded.Some? {
      capability := At(decoded.value, 0, CAPABILITY_SIZE);
    }
  }
}
