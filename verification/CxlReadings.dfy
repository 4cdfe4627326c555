/** What the reader shows of a CXL protocol error section, from its bytes. */
module CxlReadings {
  import opened Base64
  import opened Bytes
  import opened CperUtils
  import opened Json
  import opened NameReadings
  import opened Names
  import opened Packed
  import opened PackedReadings
  import opened Readings
  import opened SectionCxlProtocol

  const FRONT: nat := 0

  lemma CxlOffsets()
    ensures var ws := FIXED_WIDTHS;
      && Sum(ws) == 116 && Sum(ws[..0]) == 0 && Sum(ws[..1]) == 8 && Sum(ws[..2]) == 16 && Sum(ws[..3]) == 24
      && Sum(ws[..4]) == 40 && Sum(ws[..5]) == 48 && Sum(ws[..6]) == 108 && Sum(ws[..7]) == 110
  {
    hide Sum;
    FixedWidths();
    SumNone(FIXED_WIDTHS);
    SumPrefix(FIXED_WIDTHS, 0);
    SumPrefix(FIXED_WIDTHS, 1);
    SumPrefix(FIXED_WIDTHS, 2);
    SumPrefix(FIXED_WIDTHS, 3);
    SumPrefix(FIXED_WIDTHS, 4);
    SumPrefix(FIXED_WIDTHS, 5);
    SumPrefix(FIXED_WIDTHS, 6);
  }

  lemma CxlPieces(s: seq<byte>)
    ensures var p := Front(s, FIXED_WIDTHS);
      && p[0] == At(s, FRONT, 8) && p[1] == At(s, 8, 8) && p[2] == At(s, 16, 8) && p[3] == At(s, 24, 16)
      && p[4] == At(s, 40, 8) && p[5] == At(s, 48, 60) && p[6] == At(s, 108, 2) && p[7] == At(s, 110, 2)
  {
    hide At, Sum, Chop;
    CxlOffsets();
    PieceAt(s, FRONT, FIXED_WIDTHS, 0);
    PieceAt(s, FRONT, FIXED_WIDTHS, 1);
    PieceAt(s, FRONT, FIXED_WIDTHS, 2);
    PieceAt(s, FRONT, FIXED_WIDTHS, 3);
    PieceAt(s, FRONT, FIXED_WIDTHS, 4);
    PieceAt(s, FRONT, FIXED_WIDTHS, 5);
    PieceAt(s, FRONT, FIXED_WIDTHS, 6);
    PieceAt(s, FRONT, FIXED_WIDTHS, 7);
  }

  lemma CxlNumbers(s: seq<byte>)
    ensures var p := Front(s, FIXED_WIDTHS);
      && U64(p[0]) == N64(s, FRONT) && U64(p[1]) == N64(s, 8) && U64(p[4]) == N64(s, 40) && U16(p[6]) == N16(s, 108)
      && U16(p[7]) == N16(s, 110)
  {
    hide At, Front, FromLE, N16, N64;
    CxlPieces(s);
    Read64(s, FRONT);
    Read64(s, 8);
    Read64(s, 40);
    Read16(s, 108);
    Read16(s, 110);
  }

  // ---- the agent's address ------------------------------------------------------------------------------------

  lemma AddressOffsets()
    ensures DistinctKeys(AddressLayout()) && AddressLayout()[..4] == AddressFields()
    ensures var ws := Widths(AddressLayout());
      && Sum(ws) == 8 && Sum(ws[..0]) == 0 && Sum(ws[..1]) == 1 && Sum(ws[..2]) == 2 && Sum(ws[..3]) == 3
  {
    hide Sum;
    AddressGood();
    var ws := Widths(AddressLayout());
    SumNone(ws);
    SumPrefix(ws, 0);
    SumPrefix(ws, 1);
    SumPrefix(ws, 2);
  }

  /** A device at `p` has four numbers, a port one, and nothing is shown for other agents. */
  predicate AddressIs(ir: Json, agent: nat, s: seq<byte>, p: nat) {
    if agent == 0 then
      && Get(ir, "functionNumber") == Int(N8(s, p)) && Get(ir, "deviceNumber") == Int(N8(s, p + 1))
      && Get(ir, "busNumber") == Int(N8(s, p + 2)) && Get(ir, "segmentNumber") == Int(N16(s, p + 3))
    else if agent == 1 then Get(ir, "value") == Int(N64(s, p))
    else ir == Obj(map[])
  }

  lemma AddressShown(agent: u64, s: seq<byte>, p: nat)
    ensures AddressIs(AddressToIr(agent, At(s, p, 8)), agent, s, p)
  {
    hide At, FromLE, N8, N16, N64, DistinctKeys, Sum, PackedToIr;
    if agent == 0 {
      DeviceAddressShown(s, p);
    } else {
      Read64(s, p);
    }
  }

  lemma DeviceAddressShown(s: seq<byte>, p: nat)
    ensures GoodLayout(AddressLayout(), 8) && Sum(Widths(AddressLayout())) == 8
    ensures AddressIs(PackedToIr(AddressLayout(), At(s, p, 8)), FRONT, s, p)
  {
    hide At, Sum, FromLE, Get, PackedToIr, DistinctKeys, N8, N16, N64;
    AddressGood();
    AddressOffsets();
    var layout := AddressLayout();
    PackedAt(layout, s, p, 0);
    PackedAt(layout, s, p, 1);
    PackedAt(layout, s, p, 2);
    PackedAt(layout, s, p, 3);
    Read8(s, p);
    Read8(s, p + 1);
    Read8(s, p + 2);
    Read16(s, p + 3);
  }

  // ---- the device ID ------------------------------------------------------------------------------------------

  lemma DeviceOffsets()
    ensures var ws := DEVICE_WIDTHS;
      && Sum(ws) == 16 && Sum(ws[..0]) == 0 && Sum(ws[..1]) == 2 && Sum(ws[..2]) == 4 && Sum(ws[..3]) == 6
      && Sum(ws[..4]) == 8 && Sum(ws[..5]) == 10
  {
    hide Sum;
    DeviceWidths();
    SumNone(DEVICE_WIDTHS);
    SumPrefix(DEVICE_WIDTHS, 0);
    SumPrefix(DEVICE_WIDTHS, 1);
    SumPrefix(DEVICE_WIDTHS, 2);
    SumPrefix(DEVICE_WIDTHS, 3);
    SumPrefix(DEVICE_WIDTHS, 4);
  }

  /** Five numbers at `p`, and the slot number in the upper thirteen bits of the sixth. */
  predicate DeviceIs(ir: Json, s: seq<byte>, p: nat) {
    && Get(ir, "vendorID") == Int(N16(s, p)) && Get(ir, "deviceID") == Int(N16(s, p + 2))
    && Get(ir, "subsystemVendorID") == Int(N16(s, p + 4)) && Get(ir, "subsystemDeviceID") == Int(N16(s, p + 6))
    && Get(ir, "classCode") == Int(N16(s, p + 8)) && Get(ir, "slotNumber") == Int(N16(s, p + 10) / 8)
  }

  lemma DeviceShown(s: seq<byte>, p: nat)
    ensures DeviceIs(DeviceToIr(At(s, p, 16)), s, p)
  {
    hide At, FromLE, N16, High, DeviceParts;
    DeviceNumbers(s, p);
    HighIsDiv(N16(s, p + 10), 3);
    Powers();
  }

  lemma DeviceNumbers(s: seq<byte>, p: nat)
    ensures var d := DeviceParts(At(s, p, 16));
      && U16(d[0]) == N16(s, p) && U16(d[1]) == N16(s, p + 2) && U16(d[2]) == N16(s, p + 4)
      && U16(d[3]) == N16(s, p + 6) && U16(d[4]) == N16(s, p + 8) && U16(d[5]) == N16(s, p + 10)
  {
    hide At, Sum, Chop, FromLE, N16;
    DeviceOffsets();
    PieceAt(s, p, DEVICE_WIDTHS, 0);
    PieceAt(s, p, DEVICE_WIDTHS, 1);
    PieceAt(s, p, DEVICE_WIDTHS, 2);
    PieceAt(s, p, DEVICE_WIDTHS, 3);
    PieceAt(s, p, DEVICE_WIDTHS, 4);
    PieceAt(s, p, DEVICE_WIDTHS, 5);
    Read16(s, p);
    Read16(s, p + 2);
    Read16(s, p + 4);
    Read16(s, p + 6);
    Read16(s, p + 8);
    Read16(s, p + 10);
  }

  // ---- the section --------------------------------------------------------------------------------------------

  /** The fields at the front of the section; serial number and capability structure are shown for devices only. */
  lemma CxlShown(s: seq<byte>)
    ensures var ir, agent := SectionToIr(s), N64(s, 8);
      && CxlMarks(Get(ir, "validationBits"), N64(s, FRONT)) && Named(Get(ir, "agentType"), agent, AgentText(agent))
      && AddressIs(Get(ir, "cxlAgentAddress"), agent, s, 16) && DeviceIs(Get(ir, "deviceID"), s, 24)
      && Get(ir, "deviceSerial") == (if agent == 0 then Int(N64(s, 40)) else Null)
      && Get(ir, "capabilityStructure") == (if agent == 0 then Str(Encode(At(s, 48, 60))) else Null)
      && Get(ir, "dvsecLength") == Int(N16(s, 108)) && Get(ir, "errorLogLength") == Int(N16(s, 110))
  {
    hide At, Front, U16, U64, N16, N64, BitfieldToIr, AddressToIr, DeviceToIr, Pair, CxlMarks, Named, AgentText,
      AddressIs, DeviceIs, Encode, CxlValidNames, RecordToIr, Get, Dvsec, Log;
    CxlPieces(s);
    CxlNumbers(s);
    RecordMembers(Front(s, FIXED_WIDTHS), Encode(Dvsec(s)), Encode(Log(s)));
    CxlBits(N64(s, FRONT));
    AgentNamed(N64(s, 8));
    AddressShown(N64(s, 8), s, 16);
    DeviceShown(s, 24);
  }

  /** The two tails, one behind the other from byte 116 on, each as long as the section says. */
  lemma CxlTailsShown(s: seq<byte>)
    ensures var ir, n, m := SectionToIr(s), N16(s, 108), N16(s, 110);
      && Get(ir, "cxlDVSEC") == Str(Encode(At(s, 116, n))) && Get(ir, "cxlErrorLog") == Str(Encode(At(s, 116 + n, m)))
      && SectionEnd(s) == 116 + n + m
  {
    hide At, Front, U16, U64, N16, BitfieldToIr, AddressToIr, DeviceToIr, Pair, Encode, CxlValidNames, RecordToIr, Get;
    CxlNumbers(s);
    RecordMembers(Front(s, FIXED_WIDTHS), Encode(Dvsec(s)), Encode(Log(s)));
  }
}
