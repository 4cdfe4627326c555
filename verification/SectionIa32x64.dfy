/** IA32/x64 processor error sections: UEFI Specification 2.9, section N.2.4.2. */
module SectionIa32x64 {
  import opened Base64
  import opened Bytes
  import opened CperUtils
  import opened Guids
  import opened Ia32x64Checks
  import opened Ia32x64Registers
  import opened Json
  import opened Names
  import opened Options
  import opened Packed
  import opened Streams

  const RECORD_SIZE: nat := 64
  const ERROR_INFO_SIZE: nat := 64
  const CONTEXT_HEADER_SIZE: nat := 16

  const CONTEXT_IA32: u16 := 2
  const CONTEXT_X64: u16 := 3

  // ---- error information --------------------------------------------------------------------------

  const ERROR_INFO_WIDTHS: seq<nat> := [16, 8, 8, 8, 8, 8, 8]

  lemma ErrorInfoWidths()
    ensures Sum(ERROR_INFO_WIDTHS) == ERROR_INFO_SIZE
  {
  }

  /** GUID, validation bits, check information, target, requestor, responder, instruction pointer. */
  function ErrorInfoParts(e: seq<byte>): (p: seq<seq<byte>>)
    requires |e| == ERROR_INFO_SIZE
    ensures HasWidths(p, ERROR_INFO_WIDTHS)
  {
    ErrorInfoWidths();
    Chop(e, ERROR_INFO_WIDTHS)
  }

  function ErrorTypeName(g: Guid): string {
    if g == CACHE_CHECK then "Cache Check Error"
    else if g == TLB_CHECK then "TLB Check Error"
    else if g == BUS_CHECK then "Bus Check Error"
    else if g == MS_CHECK then "MS Check Error"
    else "Unknown"
  }

  function ErrorInfoToIr(e: seq<byte>): Json
    requires |e| == ERROR_INFO_SIZE
  {
    var p := ErrorInfoParts(e);
    var g := GuidOf(p[0]);
    Obj(map[
      "type" := Obj(map["guid" := Str(GuidToString(g)), "name" := Str(ErrorTypeName(g))]),
      "validationBits" := BitfieldToIr(U64(p[1]), ErrorInfoValidNames()),
      "checkInfo" := CheckToIr(KindOf(g), U64(p[2])),
      "targetAddressID" := Int(U64(p[3])),
      "requestorID" := Int(U64(p[4])),
      "responderID" := Int(U64(p[5])),
      "instructionPointer" := Int(U64(p[6]))])
  }

  function ErrorInfoFields(guid: seq<byte>, valid: nat, check: nat, ids: seq<u64>): (p: seq<seq<byte>>)
    requires |guid| == 16 && |ids| == 4
    ensures HasWidths(p, ERROR_INFO_WIDTHS)
  {
    [guid, LE(valid, 8), LE(check, 8), LE(ids[0], 8), LE(ids[1], 8), LE(ids[2], 8), LE(ids[3], 8)]
  }

  function ErrorInfoFromIr(ir: Json): (p: seq<seq<byte>>) {
    var g := StringToGuid(GetString(Get(Get(ir, "type"), "guid")), ZERO_GUID);
    ErrorInfoFields(
      GuidBytes(g),
      IrToBitfield(Get(ir, "validationBits"), ErrorInfoValidNames()),
      CheckFromIr(KindOf(g), Get(ir, "checkInfo")),
      [GetUint64(Get(ir, "targetAddressID")), GetUint64(Get(ir, "requestorID")),
       GetUint64(Get(ir, "responderID")), GetUint64(Get(ir, "instructionPointer"))])
  }

  /** Five validation bits and the canonical part of the check information are kept. */
  function NormalParts(p: seq<seq<byte>>): seq<seq<byte>>
    requires HasWidths(p, ERROR_INFO_WIDTHS)
  {
    p[1 := LE(Low(U64(p[1]), 5), 8)][2 := LE(NormalCheck(KindOf(GuidOf(p[0])), U64(p[2])), 8)]
  }

  lemma NormalPartsWidths(p: seq<seq<byte>>)
    requires HasWidths(p, ERROR_INFO_WIDTHS)
    ensures HasWidths(NormalParts(p), ERROR_INFO_WIDTHS)
  {
    hide Low, U64, NormalCheck, KindOf, GuidOf, LE;
  }

  function NormalErrorInfo(e: seq<byte>): (r: seq<byte>)
    requires |e| == ERROR_INFO_SIZE
  {
    Join(NormalParts(ErrorInfoParts(e)))
  }

  lemma NormalErrorInfoSize(e: seq<byte>)
    requires |e| == ERROR_INFO_SIZE
    ensures |NormalErrorInfo(e)| == ERROR_INFO_SIZE
  {
    hide Join, NormalParts, Sum;
    ErrorInfoWidths();
    NormalPartsWidths(ErrorInfoParts(e));
    JoinLength(NormalParts(ErrorInfoParts(e)), ERROR_INFO_WIDTHS);
  }

  ghost predicate CanonicalErrorInfo(e: seq<byte>)
    requires |e| == ERROR_INFO_SIZE
  {
    var p := ErrorInfoParts(e);
    U64(p[1]) < 32 && CanonicalCheck(KindOf(GuidOf(p[0])), U64(p[2]))
  }

  lemma ErrorInfoRoundTrip(e: seq<byte>)
    requires |e| == ERROR_INFO_SIZE
    ensures Join(ErrorInfoFromIr(ErrorInfoToIr(e))) == NormalErrorInfo(e)
  {
    hide GuidOf, GuidBytes, GuidToString, StringToGuid, BitfieldToIr, IrToBitfield, CheckToIr, CheckFromIr, KindOf,
      Join, LE, FromLE, ErrorInfoParts, Distinct, Low, NormalCheck, ErrorInfoValidNames, ErrorTypeName;
    var p := ErrorInfoParts(e);
    var g := GuidOf(p[0]);
    GuidRoundTrip(g, ZERO_GUID);
    GuidBytesOf(p[0]);
    ErrorInfoNamesDistinct();
    BitfieldRoundTrip(U64(p[1]), ErrorInfoValidNames());
    CheckRoundTrip(KindOf(g), U64(p[2]));
    forall i | 3 <= i < 7
      ensures LE(GetUint64(Int(U64(p[i]))), 8) == p[i]
    {
      NumberRoundTrip(p[i]);
    }
    assert ErrorInfoFromIr(ErrorInfoToIr(e)) == NormalParts(p);
  }

  lemma ErrorInfoKept(e: seq<byte>)
    requires |e| == ERROR_INFO_SIZE
    ensures NormalErrorInfo(e) == e <==> CanonicalErrorInfo(e)
  {
    hide GuidOf, KindOf, Join, Chop, LE, FromLE, Low, NormalCheck, CanonicalCheck, Sum;
    var p := ErrorInfoParts(e);
    var kind := KindOf(GuidOf(p[0]));
    var v, c := U64(p[1]), U64(p[2]);
    ErrorInfoWidths();
    JoinChop(e, ERROR_INFO_WIDTHS);
    var n := NormalParts(p);
    NormalPartsWidths(p);
    SlicesKept(p, n, ERROR_INFO_WIDTHS);
    StoreKept(p[1], Low(v, 5));
    StoreKept(p[2], NormalCheck(kind, c));
    CheckKept(kind, c);
    LowKept(v, 5);
    assert Pow2(5) == 32;
    assert n == p <==> n[1] == p[1] && n[2] == p[2];
  }

  // ---- processor contexts -----------------------------------------------------------------------------

  const CONTEXT_WIDTHS: seq<nat> := [2, 2, 4, 8]

  /** Register type, array size, MSR address, memory-mapped register address. */
  function ContextParts(h: seq<byte>): (p: seq<seq<byte>>)
    requires |h| == CONTEXT_HEADER_SIZE
    ensures HasWidths(p, CONTEXT_WIDTHS)
  {
    assert Sum(CONTEXT_WIDTHS) == CONTEXT_HEADER_SIZE;
    Chop(h, CONTEXT_WIDTHS)
  }

  /** A register file has a fixed size whatever the header's array size says; other data is as long as it says. */
  function PayloadSize(kind: u16, arraySize: u16): nat {
    if kind == CONTEXT_IA32 then IA32_REGISTERS_SIZE
    else if kind == CONTEXT_X64 then X64_REGISTERS_SIZE
    else arraySize
  }

  ghost predicate FitsKind(kind: u16, d: seq<byte>) {
    |d| < 0x1_0000 && (kind == CONTEXT_IA32 ==> |d| == IA32_REGISTERS_SIZE)
    && (kind == CONTEXT_X64 ==> |d| == X64_REGISTERS_SIZE)
  }

  function PayloadToIr(kind: u16, d: seq<byte>): Json
    requires FitsKind(kind, d)
  {
    if kind == CONTEXT_IA32 then
      Ia32Layout();
      PackedToIr(Ia32Registers(), d)
    else if kind == CONTEXT_X64 then
      X64Layout();
      PackedToIr(X64Registers(), d)
    else
      Obj(map["data" := Str(Encode(d))])
  }

  ghost function PayloadFromIr(kind: u16, registers: Json): seq<byte> {
    if kind == CONTEXT_IA32 then PackedFromIr(Ia32Written(), registers)
    else if kind == CONTEXT_X64 then PackedFromIr(X64Written(), registers)
    else
      var decoded := Decode(GetString(Get(registers, "data")));
      if decoded.Some? then decoded.value else []
  }

  function NormalPayload(kind: u16, d: seq<byte>): seq<byte>
    requires FitsKind(kind, d)
  {
    if kind == CONTEXT_X64 then
      X64Layout();
      NormalPacked(X64Registers(), d)
    else d
  }

  lemma PayloadRoundTrip(kind: u16, d: seq<byte>)
    requires FitsKind(kind, d)
    ensures PayloadFromIr(kind, PayloadToIr(kind, d)) == NormalPayload(kind, d)
  {
    hide PackedToIr, PackedFromIr, NormalPacked, Ia32Registers, X64Registers, Ia32Written, X64Written,
      GoodLayout, Encode, Decode;
    WriterAgrees();
    if kind == CONTEXT_IA32 {
      Ia32Layout();
      PackedRoundTrip(Ia32Registers(), d, IA32_REGISTERS_SIZE);
      Ia32AllFields();
      LayoutTotal(Ia32Registers(), IA32_REGISTERS_SIZE);
      NothingReserved(Ia32Registers(), d);
    } else if kind == CONTEXT_X64 {
      X64Layout();
      PackedRoundTrip(X64Registers(), d, X64_REGISTERS_SIZE);
    } else {
      DecodeEncode(d);
    }
  }

  lemma Ia32AllFields()
    ensures forall i :: 0 <= i < |Ia32Registers()| ==> Ia32Registers()[i].Field?
  {
    hide Ia32GeneralKeys, SegmentKeys, Ia32ControlKeys, Ia32WideKeys, TableKeys;
  }

  /** The reserved word of a 64-bit register file. */
  const X64_RESERVED: nat := 140

  lemma PayloadKept(kind: u16, d: seq<byte>)
    requires FitsKind(kind, d)
    ensures |NormalPayload(kind, d)| == |d|
    ensures NormalPayload(kind, d) == d <==> (kind == CONTEXT_X64 ==> d[X64_RESERVED..X64_RESERVED + 4] == Zeros(4))
  {
    hide X64Registers, NormalPacked, GoodLayout, Sum, Widths;
    if kind == CONTEXT_X64 {
      X64Kept(d);
    }
  }

  lemma X64Kept(d: seq<byte>)
    requires |d| == X64_REGISTERS_SIZE
    ensures Sum(Widths(X64Registers())) == X64_REGISTERS_SIZE && |NormalPacked(X64Registers(), d)| == |d|
    ensures NormalPacked(X64Registers(), d) == d <==> d[X64_RESERVED..X64_RESERVED + 4] == Zeros(4)
  {
    hide X64GeneralKeys, SegmentKeys, X64ControlKeys, TableKeys, NormalPacked, Sum, Widths, GoodLayout, Fields;
    var a := Fields(X64GeneralKeys(), 8) + Fields(SegmentKeys(), 2, true);
    var b := Fields(X64ControlKeys(), 8) + Fields(TableKeys(), 2, true);
    X64Layout();
    LayoutTotal(X64Registers(), X64_REGISTERS_SIZE);
    assert X64Registers() == a + [Reserved(4)] + b;
    X64ReservedOffset();
    NormalPackedSize(X64Registers(), d);
    OneReserved(a, 4, b, d);
  }

  lemma X64ReservedOffset()
    ensures Sum(Widths(Fields(X64GeneralKeys(), 8) + Fields(SegmentKeys(), 2, true))) == X64_RESERVED
  {
    hide Sum, Widths;
    LayoutFields(X64GeneralKeys(), 8, false);
    LayoutFields(SegmentKeys(), 2, true);
    LayoutAppend(Fields(X64GeneralKeys(), 8), Fields(SegmentKeys(), 2, true));
  }

  // A context is read where a cursor stands in the section.

  function ContextKind(s: seq<byte>, cur: nat): u16 {
    U16(ContextParts(At(s, cur, CONTEXT_HEADER_SIZE))[0])
  }

  function ContextPayloadSize(s: seq<byte>, cur: nat): nat {
    var p := ContextParts(At(s, cur, CONTEXT_HEADER_SIZE));
    PayloadSize(U16(p[0]), U16(p[1]))
  }

  /** The payload: `n` bytes right after the header. */
  function ContextPayload(s: seq<byte>, cur: nat): (d: seq<byte>)
    ensures FitsKind(ContextKind(s, cur), d)
  {
    At(s, cur + CONTEXT_HEADER_SIZE, ContextPayloadSize(s, cur))
  }

  /** How far the cursor moves over one context. */
  function ContextSize(s: seq<byte>, cur: nat): nat {
    CONTEXT_HEADER_SIZE + ContextPayloadSize(s, cur)
  }

  function ContextHeaderToIr(h: seq<byte>, registers: Json): Json
    requires |h| == CONTEXT_HEADER_SIZE
  {
    var p := ContextParts(h);
    Obj(map[
      "registerContextType" := Pair(U16(p[0]), RegisterContextTypes),
      "registerArraySize" := Int(U16(p[1])),
      "msrAddress" := Int(U32(p[2])),
      "mmRegisterAddress" := Int(U64(p[3])),
      "registerArray" := registers])
  }

  function ContextToIr(s: seq<byte>, cur: nat): Json {
    ContextHeaderToIr(At(s, cur, CONTEXT_HEADER_SIZE), PayloadToIr(ContextKind(s, cur), ContextPayload(s, cur)))
  }

  function IrContextKind(ir: Json): u16 {
    PairValue(Get(ir, "registerContextType")) % 0x1_0000
  }

  /** A type too large for sixteen bits loses what does not fit. */
  lemma KindTruncated(high: nat, kind: u16)
    requires high < 0x1_0000
    ensures IrContextKind(Obj(map["registerContextType" := Obj(map["value" := Int(0x1_0000 * high + kind)])])) == kind
  {
    var pair := Obj(map["value" := Int(0x1_0000 * high + kind)]);
    assert Get(Obj(map["registerContextType" := pair]), "registerContextType") == pair;
    DivModUnique(0x1_0000 * high + kind, 0x1_0000, high, kind);
  }

  function ContextHeaderFromIr(ir: Json): (p: seq<seq<byte>>)
    ensures HasWidths(p, CONTEXT_WIDTHS)
  {
    [LE(IrContextKind(ir), 2),
     LE(GetUint64(Get(ir, "registerArraySize")), 2),
     LE(GetUint64(Get(ir, "msrAddress")), 4),
     LE(GetUint64(Get(ir, "mmRegisterAddress")), 8)]
  }

  ghost function ContextFromIr(ir: Json): seq<byte> {
    Join(ContextHeaderFromIr(ir)) + PayloadFromIr(IrContextKind(ir), Get(ir, "registerArray"))
  }

  function NormalContext(s: seq<byte>, cur: nat): seq<byte> {
    At(s, cur, CONTEXT_HEADER_SIZE) + NormalPayload(ContextKind(s, cur), ContextPayload(s, cur))
  }

  lemma ContextRoundTrip(s: seq<byte>, cur: nat)
    ensures ContextFromIr(ContextToIr(s, cur)) == NormalContext(s, cur)
  {
    hide PayloadToIr, PayloadFromIr, NormalPayload, FitsKind;
    var registers := PayloadToIr(ContextKind(s, cur), ContextPayload(s, cur));
    ContextHeaderRoundTrip(At(s, cur, CONTEXT_HEADER_SIZE), registers);
    PayloadRoundTrip(ContextKind(s, cur), ContextPayload(s, cur));
  }

  lemma ContextHeaderRoundTrip(h: seq<byte>, registers: Json)
    requires |h| == CONTEXT_HEADER_SIZE
    ensures var ir := ContextHeaderToIr(h, registers);
      && Join(ContextHeaderFromIr(ir)) == h && Get(ir, "registerArray") == registers
      && IrContextKind(ir) == U16(ContextParts(h)[0])
  {
    hide Pair, PairValue, Join, Sum, Chop, LE, FromLE;
    var p := ContextParts(h);
    PairRoundTrip(U16(p[0]), RegisterContextTypes);
    StoreLoad(p[0]);
    NumberRoundTrip(p[1]);
    NumberRoundTrip(p[2]);
    NumberRoundTrip(p[3]);
    assert ContextHeaderFromIr(ContextHeaderToIr(h, registers)) == p;
    ContextWidthsSum();
    JoinChop(h, CONTEXT_WIDTHS);
  }

  lemma ContextWidthsSum()
    ensures Sum(CONTEXT_WIDTHS) == CONTEXT_HEADER_SIZE
  {
  }

  ghost predicate CanonicalContext(s: seq<byte>, cur: nat) {
    ContextKind(s, cur) == CONTEXT_X64 ==> At(s, cur + CONTEXT_HEADER_SIZE + X64_RESERVED, 4) == Zeros(4)
  }

  lemma ContextKept(s: seq<byte>, cur: nat)
    ensures |NormalContext(s, cur)| == ContextSize(s, cur)
    ensures NormalContext(s, cur) == At(s, cur, ContextSize(s, cur)) <==> CanonicalContext(s, cur)
  {
    hide NormalPayload, ContextParts, U16;
    var n := ContextPayloadSize(s, cur);
    var h, d := At(s, cur, CONTEXT_HEADER_SIZE), ContextPayload(s, cur);
    PayloadKept(ContextKind(s, cur), d);
    AtSplit(s, cur, CONTEXT_HEADER_SIZE, n);
    AppendKept(h, d, h, NormalPayload(ContextKind(s, cur), d));
    if ContextKind(s, cur) == CONTEXT_X64 {
      assert n == X64_REGISTERS_SIZE;
      assert d[X64_RESERVED..X64_RESERVED + 4] == At(s, cur + CONTEXT_HEADER_SIZE + X64_RESERVED, 4);
    }
  }

  // ---- the section ------------------------------------------------------------------------------------

  const RECORD_WIDTHS: seq<nat> := [8, 8, 8, 8, 8, 8, 16]

  /** Two flags, the counts of error and context structures, reserved bits. */
  const VALID_BITS: seq<nat> := [1, 1, 6, 6, 50]

  lemma RecordWidths()
    ensures Sum(RECORD_WIDTHS) == RECORD_SIZE && Sum(VALID_BITS) == 64
  {
  }

  /** Validation bits, APIC ID, EAX, EBX, ECX, EDX, reserved. */
  function RecordParts(s: seq<byte>): (p: seq<seq<byte>>)
    ensures HasWidths(p, RECORD_WIDTHS)
  {
    RecordWidths();
    Chop(At(s, 0, RECORD_SIZE), RECORD_WIDTHS)
  }

  function ValidFields(s: seq<byte>): (f: seq<nat>)
    ensures |f| == 5 && f[0] < 2 && f[1] < 2 && f[2] < 64 && f[3] < 64
  {
    SmallPowers();
    SplitBits(U64(RecordParts(s)[0]), VALID_BITS)
  }

  function ErrorCount(s: seq<byte>): nat { ValidFields(s)[2] }

  function ContextCount(s: seq<byte>): nat { ValidFields(s)[3] }

  function ErrorAt(s: seq<byte>, i: nat): (e: seq<byte>)
    ensures |e| == ERROR_INFO_SIZE
  {
    At(s, RECORD_SIZE + ERROR_INFO_SIZE * i, ERROR_INFO_SIZE)
  }

  /** Where the contexts start. */
  function ContextStart(s: seq<byte>): nat {
    RECORD_SIZE + ERROR_INFO_SIZE * ErrorCount(s)
  }

  /** Where the cursor stands after `n` contexts. */
  function Cursor(s: seq<byte>, start: nat, n: nat): (cur: nat)
    ensures cur >= start
  {
    if n == 0 then start
    else
      var cur := Cursor(s, start, n - 1);
      cur + ContextSize(s, cur)
  }

  function SectionEnd(s: seq<byte>): nat {
    Cursor(s, ContextStart(s), ContextCount(s))
  }

  function ErrorsToIr(s: seq<byte>, n: nat): (ir: seq<Json>)
    ensures |ir| == n
  {
    if n == 0 then [] else ErrorsToIr(s, n - 1) + [ErrorInfoToIr(ErrorAt(s, n - 1))]
  }

  function ContextsToIr(s: seq<byte>, start: nat, n: nat): (ir: seq<Json>)
    ensures |ir| == n
  {
    if n == 0 then [] else ContextsToIr(s, start, n - 1) + [ContextToIr(s, Cursor(s, start, n - 1))]
  }

  function RecordToIr(f: seq<nat>, p: seq<seq<byte>>, errors: seq<Json>, contexts: seq<Json>): Json
    requires |f| == 5 && HasWidths(p, RECORD_WIDTHS)
  {
    Obj(map[
      "validationBits" := Obj(map[
        "localAPICIDValid" := Flag(f[0]),
        "cpuIDInfoValid" := Flag(f[1]),
        "processorErrorInfoNum" := Int(f[2]),
        "processorContextInfoNum" := Int(f[3])]),
      "localAPICID" := Int(U64(p[1])),
      "cpuidInfo" := Obj(map[
        "eax" := Int(U64(p[2])),
        "ebx" := Int(U64(p[3])),
        "ecx" := Int(U64(p[4])),
        "edx" := Int(U64(p[5]))]),
      "processorErrorInfo" := Arr(errors),
      "processorContextInfo" := Arr(contexts)])
  }

  function SectionToIr(s: seq<byte>): Json {
    RecordToIr(ValidFields(s), RecordParts(s), ErrorsToIr(s, ErrorCount(s)),
               ContextsToIr(s, ContextStart(s), ContextCount(s)))
  }

  /** The counts are masked to six bits. */
  function IrErrorCount(ir: Json): nat {
    GetInt(Get(Get(ir, "validationBits"), "processorErrorInfoNum")) % 64
  }

  function IrContextCount(ir: Json): nat {
    GetInt(Get(Get(ir, "validationBits"), "processorContextInfoNum")) % 64
  }

  function ValidFromIr(ir: Json): nat {
    var validation := Get(ir, "validationBits");
    JoinBits([FlagBit(Get(validation, "localAPICIDValid")), FlagBit(Get(validation, "cpuIDInfoValid")),
              IrErrorCount(ir), IrContextCount(ir), 0], VALID_BITS)
  }

  function RecordFromIr(ir: Json): seq<seq<byte>> {
    var cpuid := Get(ir, "cpuidInfo");
    [LE(ValidFromIr(ir), 8),
     LE(GetUint64(Get(ir, "localAPICID")), 8),
     LE(GetUint64(Get(cpuid, "eax")), 8),
     LE(GetUint64(Get(cpuid, "ebx")), 8),
     LE(GetUint64(Get(cpuid, "ecx")), 8),
     LE(GetUint64(Get(cpuid, "edx")), 8),
     Zeros(16)]
  }

  function ErrorsFromIr(ir: Json, n: nat): seq<byte> {
    if n == 0 then [] else ErrorsFromIr(ir, n - 1) + Join(ErrorInfoFromIr(ArrayIdx(ir, n - 1)))
  }

  ghost function ContextsFromIr(ir: Json, n: nat): seq<byte> {
    if n == 0 then [] else ContextsFromIr(ir, n - 1) + ContextFromIr(ArrayIdx(ir, n - 1))
  }

  ghost function SectionFromIr(ir: Json): seq<byte> {
    Join(RecordFromIr(ir)) + ErrorsFromIr(Get(ir, "processorErrorInfo"), IrErrorCount(ir))
    + ContextsFromIr(Get(ir, "processorContextInfo"), IrContextCount(ir))
  }

  /** The arrays are there unless they are not looked at. */
  predicate Writable(ir: Json) {
    && (IrErrorCount(ir) > 0 ==> Get(ir, "processorErrorInfo").Arr?)
    && (IrContextCount(ir) > 0 ==> Get(ir, "processorContextInfo").Arr?)
  }

  lemma ReadWritable(s: seq<byte>)
    ensures Writable(SectionToIr(s))
  {
    hide RecordToIr, ErrorCount, ContextCount, ValidFields, RecordParts, Get, ErrorsToIr, ContextsToIr, ContextStart;
    RecordMembers(ValidFields(s), RecordParts(s), ErrorsToIr(s, ErrorCount(s)),
                  ContextsToIr(s, ContextStart(s), ContextCount(s)));
  }

  /** Whatever numbers an object gives, the counts stored are the numbers of structures written, and those are the
      numbers given modulo 64. */
  lemma CountsWritten(ir: Json)
    ensures var f := SplitBits(ValidFromIr(ir), VALID_BITS);
      f[2] == IrErrorCount(ir) < 64 && f[3] == IrContextCount(ir) < 64
    ensures var given := Get(ir, "validationBits");
      && (GetInt(Get(given, "processorErrorInfoNum")) - IrErrorCount(ir)) % 64 == 0
      && (GetInt(Get(given, "processorContextInfoNum")) - IrContextCount(ir)) % 64 == 0
  {
    hide SplitBits, JoinBits, Low, Get, FlagBit, GetInt, Sum;
    var valid := Get(ir, "validationBits");
    SplitJoinBits([FlagBit(Get(valid, "localAPICIDValid")), FlagBit(Get(valid, "cpuIDInfoValid")), IrErrorCount(ir),
                   IrContextCount(ir), 0], VALID_BITS);
    SmallPowers();
    LowOfLow(IrErrorCount(ir), 6);
    LowOfLow(IrContextCount(ir), 6);
  }

  /** A missing section is written as a record without structures. */
  lemma MissingSection()
    ensures Writable(Null) && |SectionFromIr(Null)| == RECORD_SIZE
  {
    hide LE, JoinBits, Sum, Join, FlagBit;
    RecordWidths();
    JoinLength(RecordFromIr(Null), RECORD_WIDTHS);
  }

  // ---- what the trip keeps ------------------------------------------------------------------------------

  function NormalRecord(s: seq<byte>): seq<byte> {
    Join(NormalRecordParts(RecordParts(s)))
  }

  /** The fifty reserved validation bits and the reserved end of the CPUID block are zeroed. */
  function NormalRecordParts(p: seq<seq<byte>>): seq<seq<byte>>
    requires HasWidths(p, RECORD_WIDTHS)
  {
    p[0 := LE(Low(U64(p[0]), 14), 8)][6 := Zeros(16)]
  }

  function NormalErrors(s: seq<byte>, n: nat): (r: seq<byte>)
    ensures |r| == ERROR_INFO_SIZE * n
  {
    if n == 0 then []
    else
      NormalErrorInfoSize(ErrorAt(s, n - 1));
      NormalErrors(s, n - 1) + NormalErrorInfo(ErrorAt(s, n - 1))
  }

  function NormalContexts(s: seq<byte>, start: nat, n: nat): (r: seq<byte>)
    ensures |r| == Cursor(s, start, n) - start
  {
    if n == 0 then []
    else
      ContextKept(s, Cursor(s, start, n - 1));
      NormalContexts(s, start, n - 1) + NormalContext(s, Cursor(s, start, n - 1))
  }

  function NormalSection(s: seq<byte>): seq<byte> {
    NormalRecord(s) + NormalErrors(s, ErrorCount(s)) + NormalContexts(s, ContextStart(s), ContextCount(s))
  }

  lemma {:induction false} ErrorsRoundTrip(s: seq<byte>, n: nat, all: seq<Json>)
    requires ErrorsToIr(s, n) <= all
    ensures ErrorsFromIr(Arr(all), n) == NormalErrors(s, n)
  {
    hide ErrorInfoToIr, ErrorInfoFromIr, NormalErrorInfo, Join, ErrorAt;
    if n > 0 {
      ErrorsRoundTrip(s, n - 1, all);
      ErrorInfoRoundTrip(ErrorAt(s, n - 1));
      assert ErrorsToIr(s, n)[n - 1] == all[n - 1];
    }
  }

  lemma {:induction false} ContextsRoundTrip(s: seq<byte>, start: nat, n: nat, all: seq<Json>)
    requires ContextsToIr(s, start, n) <= all
    ensures ContextsFromIr(Arr(all), n) == NormalContexts(s, start, n)
  {
    hide ContextToIr, ContextFromIr, NormalContext, ContextSize;
    if n > 0 {
      ContextsRoundTrip(s, start, n - 1, all);
      ContextRoundTrip(s, Cursor(s, start, n - 1));
      assert ContextsToIr(s, start, n)[n - 1] == all[n - 1];
    }
  }

  lemma RecordMembers(f: seq<nat>, p: seq<seq<byte>>, errors: seq<Json>, contexts: seq<Json>)
    requires |f| == 5 && HasWidths(p, RECORD_WIDTHS)
    ensures var ir := RecordToIr(f, p, errors, contexts);
      var validation, cpuid := Get(ir, "validationBits"), Get(ir, "cpuidInfo");
      && Get(ir, "processorErrorInfo") == Arr(errors) && Get(ir, "processorContextInfo") == Arr(contexts)
      && Get(ir, "localAPICID") == Int(U64(p[1]))
      && Get(validation, "localAPICIDValid") == Flag(f[0]) && Get(validation, "cpuIDInfoValid") == Flag(f[1])
      && Get(validation, "processorErrorInfoNum") == Int(f[2])
      && Get(validation, "processorContextInfoNum") == Int(f[3])
      && Get(cpuid, "eax") == Int(U64(p[2])) && Get(cpuid, "ebx") == Int(U64(p[3]))
      && Get(cpuid, "ecx") == Int(U64(p[4])) && Get(cpuid, "edx") == Int(U64(p[5]))
  {
    hide U64, FromLE, Flag;
  }

  lemma RecordRoundTrip(s: seq<byte>, errors: seq<Json>, contexts: seq<Json>)
    ensures var ir := RecordToIr(ValidFields(s), RecordParts(s), errors, contexts);
      && IrErrorCount(ir) == ErrorCount(s) && IrContextCount(ir) == ContextCount(s)
      && Join(RecordFromIr(ir)) == NormalRecord(s)
  {
    hide RecordToIr, Join, LE, FromLE, Flag, FlagBit, JoinBits, SplitBits, Get, Low, RecordParts, ValidFields;
    var p, f := RecordParts(s), ValidFields(s);
    RecordMembers(f, p, errors, contexts);
    FlagRoundTrip(f[0]);
    FlagRoundTrip(f[1]);
    ValidFieldsRoundTrip(s);
    NumberRoundTrip(p[1]);
    NumberRoundTrip(p[2]);
    NumberRoundTrip(p[3]);
    NumberRoundTrip(p[4]);
    NumberRoundTrip(p[5]);
    assert RecordFromIr(RecordToIr(f, p, errors, contexts)) == NormalRecordParts(p);
  }

  lemma ValidFieldsRoundTrip(s: seq<byte>)
    ensures var f := ValidFields(s);
      JoinBits([f[0], f[1], f[2], f[3], 0], VALID_BITS) == Low(U64(RecordParts(s)[0]), 14)
  {
    hide Sum, SplitBits, JoinBits, RecordParts, U64, Low;
    var v, f := U64(RecordParts(s)[0]), ValidFields(s);
    var ws: seq<nat> := [1, 1, 6, 6];
    SumFour(1, 1, 6, 6);
    JoinSplitBits(v, ws);
    LowBitsOnly(v, ws, 50);
    assert VALID_BITS == ws + [50];
    assert SplitBits(v, ws) == f[..4];
    assert f[..4] + [0] == [f[0], f[1], f[2], f[3], 0];
  }

  /** Splitting off one more field on top leaves the lower ones alone; joining a zero there adds nothing. */
  lemma {:induction false} LowBitsOnly(v: nat, ws: seq<nat>, w: nat)
    ensures SplitBits(v, ws + [w])[..|ws|] == SplitBits(v, ws)
    ensures JoinBits(SplitBits(v, ws) + [0], ws + [w]) == JoinBits(SplitBits(v, ws), ws)
    decreases |ws|
  {
    var all := ws + [w];
    if ws == [] {
      assert all[1..] == [];
      var zero: seq<nat> := [0];
      assert SplitBits(v, ws) + [0] == zero && zero[1..] == [];
      PlaceSum(0, w, 0);
      LowOfLow(0, w);
    } else {
      assert all[1..] == ws[1..] + [w];
      LowBitsOnly(High(v, ws[0]), ws[1..], w);
      var f := SplitBits(v, ws);
      assert (f + [0])[1..] == f[1..] + [0];
      assert f[1..] == SplitBits(High(v, ws[0]), ws[1..]);
    }
  }

  /** Writing the section read from any bytes gives those bytes with everything the section does not name cleared. */
  lemma SectionRoundTrip(s: seq<byte>)
    ensures SectionFromIr(SectionToIr(s)) == NormalSection(s)
  {
    hide RecordToIr, RecordFromIr, Join, NormalRecord, ErrorCount, ContextCount, ValidFields, RecordParts,
      IrErrorCount, IrContextCount, Get, ErrorsToIr, ErrorsFromIr, NormalErrors, ContextsToIr, ContextsFromIr,
      NormalContexts;
    var errors := ErrorsToIr(s, ErrorCount(s));
    var contexts := ContextsToIr(s, ContextStart(s), ContextCount(s));
    RecordMembers(ValidFields(s), RecordParts(s), errors, contexts);
    RecordRoundTrip(s, errors, contexts);
    ErrorsRoundTrip(s, ErrorCount(s), errors);
    ContextsRoundTrip(s, ContextStart(s), ContextCount(s), contexts);
  }

  ghost predicate RecordClear(s: seq<byte>) {
    U64(RecordParts(s)[0]) < 0x4000 && RecordParts(s)[6] == Zeros(16)
  }

  ghost predicate ErrorsClear(s: seq<byte>, n: nat) {
    forall i: nat :: i < n ==> CanonicalErrorInfo(ErrorAt(s, i))
  }

  ghost predicate ContextsClear(s: seq<byte>, start: nat, n: nat) {
    forall i: nat :: i < n ==> CanonicalContext(s, Cursor(s, start, i))
  }

  /** Reserved bits and bytes are zero in the record, in every error structure and in every context. */
  ghost predicate ReservedClear(s: seq<byte>) {
    RecordClear(s) && ErrorsClear(s, ErrorCount(s)) && ContextsClear(s, ContextStart(s), ContextCount(s))
  }

  /** Nothing reserved is set, and the section ends where its last context does. */
  ghost predicate CanonicalSection(s: seq<byte>) {
    ReservedClear(s) && |s| == SectionEnd(s)
  }

  lemma RecordKept(s: seq<byte>)
    ensures |NormalRecord(s)| == RECORD_SIZE
    ensures NormalRecord(s) == At(s, 0, RECORD_SIZE) <==> RecordClear(s)
  {
    hide Join, LE, FromLE, Low, Sum, Chop;
    var p := RecordParts(s);
    var v, n := U64(p[0]), NormalRecordParts(p);
    RecordWidths();
    JoinChop(At(s, 0, RECORD_SIZE), RECORD_WIDTHS);
    assert HasWidths(n, RECORD_WIDTHS);
    JoinLength(n, RECORD_WIDTHS);
    SlicesKept(p, n, RECORD_WIDTHS);
    LowKept(v, 14);
    assert Pow2(14) == 0x4000;
    LowAtMost(v, 14);
    StoreKept(p[0], Low(v, 14));
    assert n == p <==> n[0] == p[0] && n[6] == p[6];
  }

  lemma ErrorsStep(s: seq<byte>, n: nat)
    ensures n == 0 ==> ErrorsClear(s, n)
    ensures n > 0 ==> (ErrorsClear(s, n) <==> ErrorsClear(s, n - 1) && CanonicalErrorInfo(ErrorAt(s, n - 1)))
    ensures n > 0 ==> NormalErrors(s, n) == NormalErrors(s, n - 1) + NormalErrorInfo(ErrorAt(s, n - 1))
  {
    hide CanonicalErrorInfo, NormalErrorInfo, ErrorAt;
  }

  lemma ContextsStep(s: seq<byte>, start: nat, n: nat)
    ensures n == 0 ==> ContextsClear(s, start, n)
    ensures var cur := Cursor(s, start, if n == 0 then 0 else n - 1);
      n > 0 ==>
        && (ContextsClear(s, start, n) <==> ContextsClear(s, start, n - 1) && CanonicalContext(s, cur))
        && NormalContexts(s, start, n) == NormalContexts(s, start, n - 1) + NormalContext(s, cur)
  {
    hide CanonicalContext, NormalContext, Cursor;
  }

  lemma {:induction false} ErrorsKept(s: seq<byte>, n: nat)
    ensures NormalErrors(s, n) == At(s, RECORD_SIZE, ERROR_INFO_SIZE * n) <==> ErrorsClear(s, n)
  {
    hide NormalErrorInfo, CanonicalErrorInfo, At, NormalErrors, ErrorsClear;
    ErrorsStep(s, n);
    if n > 0 {
      var e := ErrorAt(s, n - 1);
      ErrorsKept(s, n - 1);
      ErrorInfoKept(e);
      AtSplit(s, RECORD_SIZE, ERROR_INFO_SIZE * (n - 1), ERROR_INFO_SIZE);
      NormalErrorInfoSize(e);
      AppendKept(NormalErrors(s, n - 1), NormalErrorInfo(e), At(s, RECORD_SIZE, ERROR_INFO_SIZE * (n - 1)), e);
    }
  }

  lemma {:induction false} ContextsKept(s: seq<byte>, start: nat, n: nat)
    ensures NormalContexts(s, start, n) == At(s, start, Cursor(s, start, n) - start) <==> ContextsClear(s, start, n)
  {
    hide NormalContext, CanonicalContext, ContextSize, At, NormalContexts, ContextsClear;
    ContextsStep(s, start, n);
    if n > 0 {
      var cur := Cursor(s, start, n - 1);
      ContextsKept(s, start, n - 1);
      ContextKept(s, cur);
      AtSplit(s, start, cur - start, ContextSize(s, cur));
      AppendKept(NormalContexts(s, start, n - 1), NormalContext(s, cur), At(s, start, cur - start),
                 At(s, cur, ContextSize(s, cur)));
    }
  }

  /** As far as the section goes, its bytes are kept exactly when nothing reserved is set. */
  lemma ReservedKept(s: seq<byte>)
    ensures |NormalSection(s)| == SectionEnd(s)
    ensures NormalSection(s) == At(s, 0, SectionEnd(s)) <==> ReservedClear(s)
  {
    hide NormalRecord, NormalErrors, NormalContexts, RecordClear, ErrorsClear, ContextsClear, Cursor, ErrorCount,
      ContextCount, At;
    var start, end, n := ContextStart(s), SectionEnd(s), ERROR_INFO_SIZE * ErrorCount(s);
    RecordKept(s);
    ErrorsKept(s, ErrorCount(s));
    ContextsKept(s, start, ContextCount(s));
    AtSplit(s, 0, RECORD_SIZE, n);
    AtSplit(s, 0, start, end - start);
    ThreePartsKept(NormalRecord(s), NormalErrors(s, ErrorCount(s)), NormalContexts(s, start, ContextCount(s)),
      At(s, 0, RECORD_SIZE), At(s, RECORD_SIZE, n), At(s, start, end - start));
  }

  /** The sections that come back byte for byte are exactly the canonical ones. */
  lemma SectionKept(s: seq<byte>)
    ensures NormalSection(s) == s <==> CanonicalSection(s)
  {
    hide NormalSection, ReservedClear, SectionEnd;
    ReservedKept(s);
    if |s| == SectionEnd(s) {
      assert At(s, 0, |s|) == s;
    }
  }

  /** Reading a section and writing it back gives the same bytes exactly when the section is canonical. */
  lemma RoundTrip(s: seq<byte>)
    ensures SectionFromIr(SectionToIr(s)) == s <==> CanonicalSection(s)
  {
    hide SectionFromIr, SectionToIr, NormalSection, CanonicalSection;
    SectionRoundTrip(s);
    SectionKept(s);
  }

  // ---- the reader -----------------------------------------------------------------------------------------

  /** Reads the registers or raw data at the cursor and moves the cursor behind them. */
  method ReadPayload(section: seq<byte>, cur: nat, kind: u16, arraySize: u16) returns (registers: Json, next: nat)
    ensures next == cur + PayloadSize(kind, arraySize)
    ensures FitsKind(kind, At(section, cur, PayloadSize(kind, arraySize)))
    ensures registers == PayloadToIr(kind, At(section, cur, PayloadSize(kind, arraySize)))
  {
    hide PackedToIr, Ia32Registers, X64Registers, GoodLayout, Encode, Sum, Widths;
    if kind == CONTEXT_IA32 {
      RegistersFit();
      registers := PackedToIr(Ia32Registers(), At(section, cur, IA32_REGISTERS_SIZE));
      next := cur + IA32_REGISTERS_SIZE;
    } else if kind == CONTEXT_X64 {
      RegistersFit();
      registers := PackedToIr(X64Registers(), At(section, cur, X64_REGISTERS_SIZE));
      next := cur + X64_REGISTERS_SIZE;
    } else {
      registers := Null;
      var encoded := Base64Encode(At(section, cur, arraySize));
      if encoded.Some? {
        registers := Obj(map["data" := Str(encoded.value)]);
      }
      next := cur + arraySize;
    }
  }

  lemma RegistersFit()
    ensures Sum(Widths(Ia32Registers())) == IA32_REGISTERS_SIZE && Sum(Widths(X64Registers())) == X64_REGISTERS_SIZE
  {
    Ia32Layout();
    X64Layout();
    LayoutTotal(Ia32Registers(), IA32_REGISTERS_SIZE);
    LayoutTotal(X64Registers(), X64_REGISTERS_SIZE);
  }

  /** Reads the context at the cursor and moves the cursor behind it. */
  method ReadContext(section: seq<byte>, cur: nat) returns (ir: Json, next: nat)
    ensures ir == ContextToIr(section, cur) && next == cur + ContextSize(section, cur)
  {
    hide PayloadToIr, PayloadSize, ContextParts, FitsKind, U16, ContextHeaderToIr;
    var header := At(section, cur, CONTEXT_HEADER_SIZE);
    var p := ContextParts(header);
    var registers;
    registers, next := ReadPayload(section, cur + CONTEXT_HEADER_SIZE, U16(p[0]), U16(p[1]));
    ir := ContextHeaderToIr(header, registers);
  }

  /** One cursor steps over the fixed-size error structures. */
  method ReadErrors(section: seq<byte>, count: nat) returns (errors: seq<Json>, cur: nat)
    ensures errors == ErrorsToIr(section, count) && cur == RECORD_SIZE + ERROR_INFO_SIZE * count
  {
    hide ErrorInfoToIr;
    cur := RECORD_SIZE;
    errors := [];
    for i := 0 to count
      invariant cur == RECORD_SIZE + ERROR_INFO_SIZE * i && errors == ErrorsToIr(section, i)
    {
      errors := errors + [ErrorInfoToIr(At(section, cur, ERROR_INFO_SIZE))];
      cur := cur + ERROR_INFO_SIZE;
    }
  }

  /** Another steps over the contexts, whose size depends on their type. */
  method ReadContexts(section: seq<byte>, start: nat, count: nat) returns (contexts: seq<Json>, cur: nat)
    ensures contexts == ContextsToIr(section, start, count) && cur == Cursor(section, start, count)
  {
    hide ContextToIr, ContextSize;
    cur := start;
    contexts := [];
    for i := 0 to count
      invariant cur == Cursor(section, start, i) && contexts == ContextsToIr(section, start, i)
    {
      var context;
      context, cur := ReadContext(section, cur);
      contexts := contexts + [context];
    }
  }

  method ReadSection(section: seq<byte>) returns (ir: Json, end: nat)
    ensures ir == SectionToIr(section) && end == SectionEnd(section)
  {
    hide ErrorsToIr, ContextsToIr, RecordToIr, Cursor, RecordParts, ContextSize, SplitBits, U64;
    var f := ValidFields(section);
    var errors, start := ReadErrors(section, f[2]);
    var contexts;
    contexts, end := ReadContexts(section, start, f[3]);
    ir := RecordToIr(f, RecordParts(section), errors, contexts);
  }

  // ---- the writer -----------------------------------------------------------------------------------------

  /** Assigns the fields of zeroed memory in turn; the check information goes in as its GUID says. */
  method WriteErrorInfo(ir: Json, out: File)
    modifies out
    ensures out.Holds(old(out.data), old(out.pos), Join(ErrorInfoFromIr(ir)))
  {
    hide GuidBytes, StringToGuid, IrToBitfield, CheckFromIr, LE, Get, Join;
    var info := [Zeros(16), Zeros(8), Zeros(8), Zeros(8), Zeros(8), Zeros(8), Zeros(8)];
    var kind := Get(ir, "type");
    var guid := StringToGuid(GetString(Get(kind, "guid")), ZERO_GUID);
    info := info[0 := GuidBytes(guid)];
    ErrorInfoNamesDistinct();
    var valid := ParseBitfield(Get(ir, "validationBits"), ErrorInfoValidNames());
    info := info[1 := LE(valid, 8)];
    info := info[2 := LE(CheckFromIr(KindOf(guid), Get(ir, "checkInfo")), 8)];
    info := info[3 := LE(GetUint64(Get(ir, "targetAddressID")), 8)];
    info := info[4 := LE(GetUint64(Get(ir, "requestorID")), 8)];
    info := info[5 := LE(GetUint64(Get(ir, "responderID")), 8)];
    info := info[6 := LE(GetUint64(Get(ir, "instructionPointer")), 8)];
    assert info == ErrorInfoFromIr(ir);
    out.Write(Join(info));
  }

  /** The header goes out first; what follows depends on the type just written. */
  method WriteContext(ir: Json, out: File)
    modifies out
    ensures out.Holds(old(out.data), old(out.pos), ContextFromIr(ir))
  {
    hide LE, Get, Join, PairValue, PayloadFromIr;
    var header := [Zeros(2), Zeros(2), Zeros(4), Zeros(8)];
    var kind := PairValue(Get(ir, "registerContextType")) % 0x1_0000;
    header := header[0 := LE(kind, 2)];
    header := header[1 := LE(GetUint64(Get(ir, "registerArraySize")), 2)];
    header := header[2 := LE(GetUint64(Get(ir, "msrAddress")), 4)];
    header := header[3 := LE(GetUint64(Get(ir, "mmRegisterAddress")), 8)];
    assert header == ContextHeaderFromIr(ir);
    out.Write(Join(header));
    ghost var d, p := out.data, out.pos;
    WritePayload(kind, Get(ir, "registerArray"), out);
    out.HoldsMore(old(out.data), old(out.pos), Join(header), d, p, PayloadFromIr(kind, Get(ir, "registerArray")));
  }

  method WritePayload(kind: u16, registers: Json, out: File)
    modifies out
    ensures out.Holds(old(out.data), old(out.pos), PayloadFromIr(kind, registers))
  {
    hide PackedFromIr, Ia32Written, X64Written, Decode, Get;
    if kind == CONTEXT_IA32 {
      out.Write(PackedFromIr(Ia32Written(), registers));
    } else if kind == CONTEXT_X64 {
      out.Write(PackedFromIr(X64Written(), registers));
    } else {
      var decoded := Base64Decode(GetString(Get(registers, "data")));
      if decoded.Some? {
        out.Write(decoded.value);
      }
    }
  }

  method WriteErrors(errors: Json, count: nat, out: File)
    requires count > 0 ==> errors.Arr?
    modifies out
    ensures out.Holds(old(out.data), old(out.pos), ErrorsFromIr(errors, count))
  {
    hide ErrorInfoFromIr, Join, Patch;
    out.HoldsNothing();
    for i := 0 to count
      invariant out.Holds(old(out.data), old(out.pos), ErrorsFromIr(errors, i))
    {
      ghost var d, q := out.data, out.pos;
      var error := AskElement(errors, i);
      WriteErrorInfo(error, out);
      out.HoldsMore(old(out.data), old(out.pos), ErrorsFromIr(errors, i), d, q,
        Join(ErrorInfoFromIr(ArrayIdx(errors, i))));
    }
  }

  method WriteContexts(contexts: Json, count: nat, out: File)
    requires count > 0 ==> contexts.Arr?
    modifies out
    ensures out.Holds(old(out.data), old(out.pos), ContextsFromIr(contexts, count))
  {
    hide ContextFromIr, Patch;
    out.HoldsNothing();
    for i := 0 to count
      invariant out.Holds(old(out.data), old(out.pos), ContextsFromIr(contexts, i))
    {
      ghost var d, q := out.data, out.pos;
      var context := AskElement(contexts, i);
      WriteContext(context, out);
      out.HoldsMore(old(out.data), old(out.pos), ContextsFromIr(contexts, i), d, q,
        ContextFromIr(ArrayIdx(contexts, i)));
    }
  }

  /** The record goes out before its counts are used to walk the two arrays. */
  method WriteSection(ir: Json, out: File)
    requires Writable(ir)
    modifies out
    ensures out.Holds(old(out.data), old(out.pos), SectionFromIr(ir))
  {
    hide RecordFromIr, ErrorsFromIr, ContextsFromIr, Join, Get, Patch, IrErrorCount, IrContextCount;
    ghost var r := Join(RecordFromIr(ir));
    ghost var e := ErrorsFromIr(Get(ir, "processorErrorInfo"), IrErrorCount(ir));
    ghost var c := ContextsFromIr(Get(ir, "processorContextInfo"), IrContextCount(ir));
    out.Write(Join(RecordFromIr(ir)));
    ghost var d, q := out.data, out.pos;
    WriteErrors(Get(ir, "processorErrorInfo"), IrErrorCount(ir), out);
    out.HoldsMore(old(out.data), old(out.pos), r, d, q, e);
    d, q := out.data, out.pos;
    WriteContexts(Get(ir, "processorContextInfo"), IrContextCount(ir), out);
    out.HoldsMore(old(out.data), old(out.pos), r + e, d, q, c);
  }
}
