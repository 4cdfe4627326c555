/** What the reader shows of an IA32/x64 processor error section, from its bytes. */
module Ia32x64Readings {
  import opened Base64
  import opened Bytes
  import opened CperUtils
  import opened GuidReadings
  import opened Guids
  import opened Ia32x64CheckReadings
  import opened Ia32x64Checks
  import opened Ia32x64Registers
  import opened Json
  import opened NameReadings
  import opened Names
  import opened Packed
  import opened PackedReadings
  import opened Readings
  import opened SectionIa32x64
  import opened TextReadings

  // ---- error information ------------------------------------------------------------------------------------

  lemma ErrorInfoOffsets()
    ensures var ws := ERROR_INFO_WIDTHS;
      && Sum(ws) == 64 && Sum(ws[..0]) == 0 && Sum(ws[..1]) == 16 && Sum(ws[..2]) == 24 && Sum(ws[..3]) == 32
      && Sum(ws[..4]) == 40 && Sum(ws[..5]) == 48 && Sum(ws[..6]) == 56
  {
    hide Sum;
    ErrorInfoWidths();
    SumNone(ERROR_INFO_WIDTHS);
    SumPrefix(ERROR_INFO_WIDTHS, 0);
    SumPrefix(ERROR_INFO_WIDTHS, 1);
    SumPrefix(ERROR_INFO_WIDTHS, 2);
    SumPrefix(ERROR_INFO_WIDTHS, 3);
    SumPrefix(ERROR_INFO_WIDTHS, 4);
    SumPrefix(ERROR_INFO_WIDTHS, 5);
  }

  lemma ErrorInfoSlices(s: seq<byte>, p: nat)
    ensures var e := ErrorInfoParts(At(s, p, 64));
      && e[0] == At(s, p, 16) && e[1] == At(s, p + 16, 8) && e[2] == At(s, p + 24, 8) && e[3] == At(s, p + 32, 8)
      && e[4] == At(s, p + 40, 8) && e[5] == At(s, p + 48, 8) && e[6] == At(s, p + 56, 8)
  {
    hide At, Sum, Chop;
    ErrorInfoOffsets();
    PieceAt(s, p, ERROR_INFO_WIDTHS, 0);
    PieceAt(s, p, ERROR_INFO_WIDTHS, 1);
    PieceAt(s, p, ERROR_INFO_WIDTHS, 2);
    PieceAt(s, p, ERROR_INFO_WIDTHS, 3);
    PieceAt(s, p, ERROR_INFO_WIDTHS, 4);
    PieceAt(s, p, ERROR_INFO_WIDTHS, 5);
    PieceAt(s, p, ERROR_INFO_WIDTHS, 6);
  }

  /** The error structure at `p`: type, validation bits, check information as the type says, four identifiers. */
  lemma ErrorInfoShown(s: seq<byte>, p: nat)
    ensures var ir := ErrorInfoToIr(At(s, p, 64));
      && Get(Get(ir, "type"), "guid") == Str(GuidText(s, p))
      && Get(Get(ir, "type"), "name") == Str(CheckText(At(s, p, 16)))
      && ErrorInfoMarks(Get(ir, "validationBits"), N64(s, p + 16))
      && Get(ir, "checkInfo") == CheckToIr(CheckKindOf(At(s, p, 16)), N64(s, p + 24))
      && Get(ir, "targetAddressID") == Int(N64(s, p + 32)) && Get(ir, "requestorID") == Int(N64(s, p + 40))
      && Get(ir, "responderID") == Int(N64(s, p + 48)) && Get(ir, "instructionPointer") == Int(N64(s, p + 56))
  {
    hide At, FromLE, GuidOf, GuidToString, GuidText, CheckText, CheckKindOf, KindOf, ErrorTypeName, CheckToIr, N64,
      BitfieldToIr, ErrorInfoMarks, ErrorInfoParts, ErrorInfoValidNames;
    ErrorInfoSlices(s, p);
    GuidShown(s, p);
    CheckShown(At(s, p, 16));
    Read64(s, p + 16);
    ErrorInfoBits(N64(s, p + 16));
    Read64(s, p + 24);
    Read64(s, p + 32);
    Read64(s, p + 40);
    Read64(s, p + 48);
    Read64(s, p + 56);
  }

  // ---- registers --------------------------------------------------------------------------------------------

  /** The 32-bit register file at `p`. */
  predicate Registers32(ir: Json, s: seq<byte>, p: nat) {
    General32(ir, s, p) && Segments(ir, s, p + 32) && Control32(ir, s, p + 44) && Tables32(ir, s, p + 72)
  }

  predicate General32(ir: Json, s: seq<byte>, p: nat) {
    && Get(ir, "eax") == Int(N32(s, p)) && Get(ir, "ebx") == Int(N32(s, p + 4))
    && Get(ir, "ecx") == Int(N32(s, p + 8)) && Get(ir, "edx") == Int(N32(s, p + 12))
    && Get(ir, "esi") == Int(N32(s, p + 16)) && Get(ir, "edi") == Int(N32(s, p + 20))
    && Get(ir, "ebp") == Int(N32(s, p + 24)) && Get(ir, "esp") == Int(N32(s, p + 28))
  }

  predicate Segments(ir: Json, s: seq<byte>, p: nat) {
    && Get(ir, "cs") == Int(N16(s, p)) && Get(ir, "ds") == Int(N16(s, p + 2)) && Get(ir, "ss") == Int(N16(s, p + 4))
    && Get(ir, "es") == Int(N16(s, p + 6)) && Get(ir, "fs") == Int(N16(s, p + 8))
    && Get(ir, "gs") == Int(N16(s, p + 10))
  }

  predicate Control32(ir: Json, s: seq<byte>, p: nat) {
    && Get(ir, "eflags") == Int(N32(s, p)) && Get(ir, "eip") == Int(N32(s, p + 4))
    && Get(ir, "cr0") == Int(N32(s, p + 8)) && Get(ir, "cr1") == Int(N32(s, p + 12))
    && Get(ir, "cr2") == Int(N32(s, p + 16)) && Get(ir, "cr3") == Int(N32(s, p + 20))
    && Get(ir, "cr4") == Int(N32(s, p + 24))
  }

  predicate Tables32(ir: Json, s: seq<byte>, p: nat) {
    && Get(ir, "gdtr") == Int(N64(s, p)) && Get(ir, "idtr") == Int(N64(s, p + 8))
    && Get(ir, "ldtr") == Int(N16(s, p + 16)) && Get(ir, "tr") == Int(N16(s, p + 18))
  }

  /** The 64-bit register file at `p`, with four reserved bytes behind the segment registers. */
  predicate Registers64(ir: Json, s: seq<byte>, p: nat) {
    General64(ir, s, p) && Segments(ir, s, p + 128) && Control64(ir, s, p + 144) &&
    Get(ir, "ldtr") == Int(N16(s, p + 240)) && Get(ir, "tr") == Int(N16(s, p + 242))
  }

  predicate General64(ir: Json, s: seq<byte>, p: nat) {
    && Get(ir, "rax") == Int(N64(s, p)) && Get(ir, "rbx") == Int(N64(s, p + 8))
    && Get(ir, "rcx") == Int(N64(s, p + 16)) && Get(ir, "rdx") == Int(N64(s, p + 24))
    && Get(ir, "rsi") == Int(N64(s, p + 32)) && Get(ir, "rdi") == Int(N64(s, p + 40))
    && Get(ir, "rbp") == Int(N64(s, p + 48)) && Get(ir, "rsp") == Int(N64(s, p + 56))
    && Get(ir, "r8") == Int(N64(s, p + 64)) && Get(ir, "r9") == Int(N64(s, p + 72))
    && Get(ir, "r10") == Int(N64(s, p + 80)) && Get(ir, "r11") == Int(N64(s, p + 88))
    && Get(ir, "r12") == Int(N64(s, p + 96)) && Get(ir, "r13") == Int(N64(s, p + 104))
    && Get(ir, "r14") == Int(N64(s, p + 112)) && Get(ir, "r15") == Int(N64(s, p + 120))
  }

  predicate Control64(ir: Json, s: seq<byte>, p: nat) {
    && Get(ir, "rflags") == Int(N64(s, p)) && Get(ir, "eip") == Int(N64(s, p + 8))
    && Get(ir, "cr0") == Int(N64(s, p + 16)) && Get(ir, "cr1") == Int(N64(s, p + 24))
    && Get(ir, "cr2") == Int(N64(s, p + 32)) && Get(ir, "cr3") == Int(N64(s, p + 40))
    && Get(ir, "cr4") == Int(N64(s, p + 48)) && Get(ir, "cr8") == Int(N64(s, p + 56))
    && Get(ir, "gdtr_0") == Int(N64(s, p + 64)) && Get(ir, "gdtr_1") == Int(N64(s, p + 72))
    && Get(ir, "idtr_0") == Int(N64(s, p + 80)) && Get(ir, "idtr_1") == Int(N64(s, p + 88))
  }

  /** Consecutive numbers of one width under the given keys. */
  ghost predicate Numbers(ir: Json, keys: seq<string>, w: nat, s: seq<byte>, p: nat) {
    forall i :: 0 <= i < |keys| ==> Get(ir, keys[i]) == Int(FromLE(At(s, p + i * w, w)))
  }

  lemma Listed16(ir: Json, keys: seq<string>, s: seq<byte>, p: nat, i: nat)
    requires Numbers(ir, keys, 2, s, p) && i < |keys|
    ensures Get(ir, keys[i]) == Int(N16(s, p + 2 * i))
  {
    hide At, FromLE, N16, Get;
    Read16(s, p + 2 * i);
    assert p + i * 2 == p + 2 * i;
  }

  lemma Listed32(ir: Json, keys: seq<string>, s: seq<byte>, p: nat, i: nat)
    requires Numbers(ir, keys, 4, s, p) && i < |keys|
    ensures Get(ir, keys[i]) == Int(N32(s, p + 4 * i))
  {
    hide At, FromLE, N32, Get;
    Read32(s, p + 4 * i);
    assert p + i * 4 == p + 4 * i;
  }

  lemma Listed64(ir: Json, keys: seq<string>, s: seq<byte>, p: nat, i: nat)
    requires Numbers(ir, keys, 8, s, p) && i < |keys|
    ensures Get(ir, keys[i]) == Int(N64(s, p + 8 * i))
  {
    hide At, FromLE, N64, Get;
    Read64(s, p + 8 * i);
    assert p + i * 8 == p + 8 * i;
  }

  lemma SegmentsListed(ir: Json, s: seq<byte>, p: nat)
    requires Numbers(ir, SegmentKeys(), 2, s, p)
    ensures Segments(ir, s, p)
  {
    hide N16, Numbers, Get;
    forall i: nat | i < 6
      ensures Get(ir, SegmentKeys()[i]) == Int(N16(s, p + 2 * i))
    {
      Listed16(ir, SegmentKeys(), s, p, i);
    }
    var k := SegmentKeys();
    assert Get(ir, k[0]) == Int(N16(s, p + 2 * 0)) && Get(ir, k[1]) == Int(N16(s, p + 2 * 1));
    assert Get(ir, k[2]) == Int(N16(s, p + 2 * 2)) && Get(ir, k[3]) == Int(N16(s, p + 2 * 3));
    assert Get(ir, k[4]) == Int(N16(s, p + 2 * 4)) && Get(ir, k[5]) == Int(N16(s, p + 2 * 5));
  }

  lemma General32Listed(ir: Json, s: seq<byte>, p: nat)
    requires Numbers(ir, Ia32GeneralKeys(), 4, s, p)
    ensures General32(ir, s, p)
  {
    hide N32, Numbers, Get;
    var k := Ia32GeneralKeys();
    Listed32(ir, k, s, p, 0);
    Listed32(ir, k, s, p, 1);
    Listed32(ir, k, s, p, 2);
    Listed32(ir, k, s, p, 3);
    Listed32(ir, k, s, p, 4);
    Listed32(ir, k, s, p, 5);
    Listed32(ir, k, s, p, 6);
    Listed32(ir, k, s, p, 7);
  }

  lemma Control32Listed(ir: Json, s: seq<byte>, p: nat)
    requires Numbers(ir, Ia32ControlKeys(), 4, s, p)
    ensures Control32(ir, s, p)
  {
    hide N32, Numbers, Get;
    var k := Ia32ControlKeys();
    Listed32(ir, k, s, p, 0);
    Listed32(ir, k, s, p, 1);
    Listed32(ir, k, s, p, 2);
    Listed32(ir, k, s, p, 3);
    Listed32(ir, k, s, p, 4);
    Listed32(ir, k, s, p, 5);
    Listed32(ir, k, s, p, 6);
  }

  lemma Tables32Listed(ir: Json, s: seq<byte>, p: nat)
    requires Numbers(ir, Ia32WideKeys(), 8, s, p) && Numbers(ir, TableKeys(), 2, s, p + 16)
    ensures Tables32(ir, s, p)
  {
    hide N16, N64, Numbers, Get;
    Listed64(ir, Ia32WideKeys(), s, p, 0);
    Listed64(ir, Ia32WideKeys(), s, p, 1);
    Listed16(ir, TableKeys(), s, p + 16, 0);
    Listed16(ir, TableKeys(), s, p + 16, 1);
  }

  lemma General64Listed(ir: Json, s: seq<byte>, p: nat)
    requires Numbers(ir, X64GeneralKeys(), 8, s, p)
    ensures General64(ir, s, p)
  {
    hide N64, Numbers, Get;
    var k := X64GeneralKeys();
    Listed64(ir, k, s, p, 0);
    Listed64(ir, k, s, p, 1);
    Listed64(ir, k, s, p, 2);
    Listed64(ir, k, s, p, 3);
    Listed64(ir, k, s, p, 4);
    Listed64(ir, k, s, p, 5);
    Listed64(ir, k, s, p, 6);
    Listed64(ir, k, s, p, 7);
    Listed64(ir, k, s, p, 8);
    Listed64(ir, k, s, p, 9);
    Listed64(ir, k, s, p, 10);
    Listed64(ir, k, s, p, 11);
    Listed64(ir, k, s, p, 12);
    Listed64(ir, k, s, p, 13);
    Listed64(ir, k, s, p, 14);
    Listed64(ir, k, s, p, 15);
  }

  lemma Control64Listed(ir: Json, s: seq<byte>, p: nat)
    requires Numbers(ir, X64ControlKeys(), 8, s, p)
    ensures Control64(ir, s, p)
  {
    hide N64, Numbers, Get;
    var k := X64ControlKeys();
    Listed64(ir, k, s, p, 0);
    Listed64(ir, k, s, p, 1);
    Listed64(ir, k, s, p, 2);
    Listed64(ir, k, s, p, 3);
    Listed64(ir, k, s, p, 4);
    Listed64(ir, k, s, p, 5);
    Listed64(ir, k, s, p, 6);
    Listed64(ir, k, s, p, 7);
    Listed64(ir, k, s, p, 8);
    Listed64(ir, k, s, p, 9);
    Listed64(ir, k, s, p, 10);
    Listed64(ir, k, s, p, 11);
  }

  /** Some fields of one width, behind the fields `a`. */
  lemma FieldsShown(a: seq<Slot>, keys: seq<string>, w: nat, asInt: bool, b: seq<Slot>, s: seq<byte>, p: nat)
    requires DistinctKeys(a + Fields(keys, w, asInt) + b)
    ensures var layout := a + Fields(keys, w, asInt) + b;
      Numbers(PackedToIr(layout, At(s, p, Sum(Widths(layout)))), keys, w, s, p + Sum(Widths(a)))
  {
    hide At, Sum, FromLE, Get, PackedToIr, Widths, DistinctKeys, Fields;
    forall j: nat | j < |keys|
      ensures Get(PackedToIr(a + Fields(keys, w, asInt) + b, At(s, p, Sum(Widths(a + Fields(keys, w, asInt) + b)))),
                  keys[j]) == Int(FromLE(At(s, p + Sum(Widths(a)) + j * w, w)))
    {
      FieldsAt(a, keys, w, asInt, b, s, p, j);
    }
  }

  lemma Registers32Shown(s: seq<byte>, p: nat)
    ensures GoodLayout(Ia32Registers(), 92) && Sum(Widths(Ia32Registers())) == 92
    ensures Registers32(PackedToIr(Ia32Registers(), At(s, p, 92)), s, p)
  {
    hide At, Sum, Widths, PackedToIr, Fields, DistinctKeys, Numbers, General32, Segments, Control32, Tables32,
      SegmentKeys, TableKeys, Ia32GeneralKeys, Ia32ControlKeys, Ia32WideKeys;
    Ia32Layout();
    LayoutTotal(Ia32Registers(), 92);
    GoodKeys(Ia32Registers(), 92);
    Ia32Sizes();
    var a, b, c := Fields(Ia32GeneralKeys(), 4), Fields(SegmentKeys(), 2), Fields(Ia32ControlKeys(), 4);
    var d, e := Fields(Ia32WideKeys(), 8), Fields(TableKeys(), 2);
    var layout, ir := Ia32Registers(), PackedToIr(Ia32Registers(), At(s, p, 92));
    assert [] + a + (b + c + d + e) == layout;
    FieldsShown([], Ia32GeneralKeys(), 4, false, b + c + d + e, s, p);
    assert a + b + (c + d + e) == layout;
    FieldsShown(a, SegmentKeys(), 2, false, c + d + e, s, p);
    assert (a + b) + c + (d + e) == layout;
    FieldsShown(a + b, Ia32ControlKeys(), 4, false, d + e, s, p);
    assert (a + b + c) + d + e == layout;
    FieldsShown(a + b + c, Ia32WideKeys(), 8, false, e, s, p);
    assert (a + b + c + d) + e + [] == layout;
    FieldsShown(a + b + c + d, TableKeys(), 2, false, [], s, p);
    General32Listed(ir, s, p);
    SegmentsListed(ir, s, p + 32);
    Control32Listed(ir, s, p + 44);
    Tables32Listed(ir, s, p + 72);
  }

  lemma GoodKeys(layout: seq<Slot>, size: nat)
    requires GoodLayout(layout, size)
    ensures DistinctKeys(layout)
  {
  }

  lemma Ia32Sizes()
    ensures var a, b, c := Fields(Ia32GeneralKeys(), 4), Fields(SegmentKeys(), 2), Fields(Ia32ControlKeys(), 4);
      var d := Fields(Ia32WideKeys(), 8);
      && Sum(Widths([])) == 0 && Sum(Widths(a)) == 32 && Sum(Widths(a + b)) == 44 && Sum(Widths(a + b + c)) == 72
      && Sum(Widths(a + b + c + d)) == 88
  {
    hide Sum, Widths, Fields;
    var a, b, c := Fields(Ia32GeneralKeys(), 4), Fields(SegmentKeys(), 2), Fields(Ia32ControlKeys(), 4);
    var d := Fields(Ia32WideKeys(), 8);
    NoSlots();
    LayoutFields(Ia32GeneralKeys(), 4, false);
    LayoutFields(SegmentKeys(), 2, false);
    LayoutFields(Ia32ControlKeys(), 4, false);
    LayoutFields(Ia32WideKeys(), 8, false);
    LayoutAppend(a, b);
    LayoutAppend(a + b, c);
    LayoutAppend(a + b + c, d);
  }

  lemma NoSlots()
    ensures Sum(Widths([])) == 0
  {
  }

  lemma Registers64Shown(s: seq<byte>, p: nat)
    ensures GoodLayout(X64Registers(), 244) && Sum(Widths(X64Registers())) == 244
    ensures Registers64(PackedToIr(X64Registers(), At(s, p, 244)), s, p)
  {
    hide At, Sum, Widths, PackedToIr, Fields, DistinctKeys, Numbers, General64, Segments, Control64, SegmentKeys,
      X64GeneralKeys, X64ControlKeys, N16, Get;
    X64Layout();
    LayoutTotal(X64Registers(), 244);
    GoodKeys(X64Registers(), 244);
    X64Sizes();
    var a, b, c := Fields(X64GeneralKeys(), 8), Fields(SegmentKeys(), 2, true), [Reserved(4)];
    var d, e := Fields(X64ControlKeys(), 8), Fields(TableKeys(), 2, true);
    var layout, ir := X64Registers(), PackedToIr(X64Registers(), At(s, p, 244));
    assert [] + a + (b + c + d + e) == layout;
    FieldsShown([], X64GeneralKeys(), 8, false, b + c + d + e, s, p);
    assert a + b + (c + d + e) == layout;
    FieldsShown(a, SegmentKeys(), 2, true, c + d + e, s, p);
    assert (a + b + c) + d + e == layout;
    FieldsShown(a + b + c, X64ControlKeys(), 8, false, e, s, p);
    assert (a + b + c + d) + e + [] == layout;
    FieldsShown(a + b + c + d, TableKeys(), 2, true, [], s, p);
    General64Listed(ir, s, p);
    SegmentsListed(ir, s, p + 128);
    Control64Listed(ir, s, p + 144);
    Listed16(ir, TableKeys(), s, p + 240, 0);
    Listed16(ir, TableKeys(), s, p + 240, 1);
  }

  lemma X64Sizes()
    ensures var a, b, c := Fields(X64GeneralKeys(), 8), Fields(SegmentKeys(), 2, true), [Reserved(4)];
      var d := Fields(X64ControlKeys(), 8);
      && Sum(Widths([])) == 0 && Sum(Widths(a)) == 128 && Sum(Widths(a + b + c)) == 144
      && Sum(Widths(a + b + c + d)) == 240
  {
    hide Sum, Widths, Fields;
    var a, b, c := Fields(X64GeneralKeys(), 8), Fields(SegmentKeys(), 2, true), [Reserved(4)];
    var d := Fields(X64ControlKeys(), 8);
    NoSlots();
    LayoutFields(X64GeneralKeys(), 8, false);
    LayoutFields(SegmentKeys(), 2, true);
    LayoutFields(X64ControlKeys(), 8, false);
    ReservedSlot(4);
    LayoutAppend(a, b);
    LayoutAppend(a + b, c);
    LayoutAppend(a + b + c, d);
  }

  // ---- contexts ---------------------------------------------------------------------------------------------

  lemma ContextOffsets()
    ensures var ws := CONTEXT_WIDTHS;
      Sum(ws) == 16 && Sum(ws[..0]) == 0 && Sum(ws[..1]) == 2 && Sum(ws[..2]) == 4 && Sum(ws[..3]) == 8
  {
    hide Sum;
    ContextWidthsSum();
    SumNone(CONTEXT_WIDTHS);
    SumPrefix(CONTEXT_WIDTHS, 0);
    SumPrefix(CONTEXT_WIDTHS, 1);
    SumPrefix(CONTEXT_WIDTHS, 2);
  }

  lemma ContextHeader(s: seq<byte>, p: nat)
    ensures var h := ContextParts(At(s, p, 16));
      && U16(h[0]) == N16(s, p) && U16(h[1]) == N16(s, p + 2) && U32(h[2]) == N32(s, p + 4)
      && U64(h[3]) == N64(s, p + 8)
  {
    hide At, Sum, Chop, FromLE, N16, N32, N64;
    ContextOffsets();
    PieceAt(s, p, CONTEXT_WIDTHS, 0);
    PieceAt(s, p, CONTEXT_WIDTHS, 1);
    PieceAt(s, p, CONTEXT_WIDTHS, 2);
    PieceAt(s, p, CONTEXT_WIDTHS, 3);
    Read16(s, p);
    Read16(s, p + 2);
    Read32(s, p + 4);
    Read64(s, p + 8);
  }

  /** What follows a context's header: registers for the types 2 and 3, else as much data as the header says. */
  function DataSize(s: seq<byte>, p: nat): nat {
    if N16(s, p) == 2 then 92 else if N16(s, p) == 3 then 244 else N16(s, p + 2)
  }

  predicate DataShown(ir: Json, s: seq<byte>, p: nat) {
    if N16(s, p) == 2 then Registers32(ir, s, p + 16)
    else if N16(s, p) == 3 then Registers64(ir, s, p + 16)
    else Get(ir, "data") == Str(Encode(At(s, p + 16, N16(s, p + 2))))
  }

  lemma ContextMoves(s: seq<byte>, p: nat)
    ensures ContextSize(s, p) == 16 + DataSize(s, p)
  {
    hide At, U16, N16, ContextParts;
    ContextHeader(s, p);
  }

  /** The context at `p`. */
  lemma ContextShown(s: seq<byte>, p: nat)
    ensures var ir := ContextToIr(s, p);
      && Named(Get(ir, "registerContextType"), N16(s, p), ContextText(N16(s, p)))
      && Get(ir, "registerArraySize") == Int(N16(s, p + 2)) && Get(ir, "msrAddress") == Int(N32(s, p + 4))
      && Get(ir, "mmRegisterAddress") == Int(N64(s, p + 8)) && DataShown(Get(ir, "registerArray"), s, p)
  {
    hide At, U16, U32, U64, N16, N32, N64, ContextParts, ContextText, Named, Pair, DataShown, Encode, PackedToIr,
      Ia32Registers, X64Registers, GoodLayout, Sum, Widths;
    ContextHeader(s, p);
    ContextNamed(N16(s, p));
    PayloadShown(s, p);
  }

  lemma PayloadShown(s: seq<byte>, p: nat)
    ensures DataShown(PayloadToIr(ContextKind(s, p), ContextPayload(s, p)), s, p)
  {
    hide At, U16, N16, ContextParts, Registers32, Registers64, Encode, PackedToIr, Ia32Registers, X64Registers,
      GoodLayout, Sum, Widths;
    ContextHeader(s, p);
    if N16(s, p) == 2 {
      Registers32Shown(s, p + 16);
    } else if N16(s, p) == 3 {
      Registers64Shown(s, p + 16);
    }
  }

  /** Where the i-th context is when the first is at `start`. */
  function ContextPlace(s: seq<byte>, start: nat, i: nat): nat {
    if i == 0 then start
    else
      var p := ContextPlace(s, start, i - 1);
      p + 16 + DataSize(s, p)
  }

  lemma {:induction false} ContextPlaced(s: seq<byte>, start: nat, i: nat)
    ensures Cursor(s, start, i) == ContextPlace(s, start, i)
    decreases i
  {
    hide ContextSize, DataSize;
    if i > 0 {
      ContextPlaced(s, start, i - 1);
      ContextMoves(s, Cursor(s, start, i - 1));
    }
  }

  // ---- the section ------------------------------------------------------------------------------------------

  lemma RecordOffsets()
    ensures var ws := RECORD_WIDTHS;
      && Sum(ws) == 64 && Sum(ws[..0]) == 0 && Sum(ws[..1]) == 8 && Sum(ws[..2]) == 16 && Sum(ws[..3]) == 24
      && Sum(ws[..4]) == 32 && Sum(ws[..5]) == 40
  {
    hide Sum;
    RecordWidths();
    SumNone(RECORD_WIDTHS);
    SumPrefix(RECORD_WIDTHS, 0);
    SumPrefix(RECORD_WIDTHS, 1);
    SumPrefix(RECORD_WIDTHS, 2);
    SumPrefix(RECORD_WIDTHS, 3);
    SumPrefix(RECORD_WIDTHS, 4);
  }

  const FRONT: nat := 0

  lemma RecordNumbers(s: seq<byte>)
    ensures var r := RecordParts(s);
      && U64(r[0]) == N64(s, FRONT) && U64(r[1]) == N64(s, 8) && U64(r[2]) == N64(s, 16) && U64(r[3]) == N64(s, 24)
      && U64(r[4]) == N64(s, 32) && U64(r[5]) == N64(s, 40)
  {
    hide At, Sum, Chop, FromLE, N64;
    RecordOffsets();
    PieceAt(s, FRONT, RECORD_WIDTHS, 0);
    PieceAt(s, FRONT, RECORD_WIDTHS, 1);
    PieceAt(s, FRONT, RECORD_WIDTHS, 2);
    PieceAt(s, FRONT, RECORD_WIDTHS, 3);
    PieceAt(s, FRONT, RECORD_WIDTHS, 4);
    PieceAt(s, FRONT, RECORD_WIDTHS, 5);
    Read64(s, FRONT);
    Read64(s, 8);
    Read64(s, 16);
    Read64(s, 24);
    Read64(s, 32);
    Read64(s, 40);
  }

  lemma ValidOffsets()
    ensures var ws := VALID_BITS; Sum(ws[..0]) == 0 && Sum(ws[..1]) == 1 && Sum(ws[..2]) == 2 && Sum(ws[..3]) == 8
  {
    hide Sum;
    SumNone(VALID_BITS);
    SumPrefix(VALID_BITS, 0);
    SumPrefix(VALID_BITS, 1);
    SumPrefix(VALID_BITS, 2);
  }

  lemma ValidNumbers(s: seq<byte>)
    ensures var f, v := ValidFields(s), N64(s, FRONT);
      f[0] == v % 2 && f[1] == v / 2 % 2 && f[2] == v / 4 % 64 && f[3] == v / 0x100 % 64
  {
    hide Sum, Pow2, SplitBits, RecordParts, N64, U64;
    var v := N64(s, FRONT);
    RecordNumbers(s);
    ValidOffsets();
    Powers();
    FieldAt(v, VALID_BITS, 0);
    FieldAt(v, VALID_BITS, 1);
    FieldAt(v, VALID_BITS, 2);
    FieldAt(v, VALID_BITS, 3);
  }

  /** The numbers of error structures and of contexts. */
  function Errors(s: seq<byte>): nat { N64(s, FRONT) / 4 % 64 }

  function Contexts(s: seq<byte>): nat { N64(s, FRONT) / 0x100 % 64 }

  /** The fields at the front of the section. */
  lemma SectionShown(s: seq<byte>)
    ensures var ir, v := SectionToIr(s), N64(s, FRONT);
      var valid, cpuid := Get(ir, "validationBits"), Get(ir, "cpuidInfo");
      && Marks(valid, "localAPICIDValid", v, 1) && Marks(valid, "cpuIDInfoValid", v, 2)
      && Get(valid, "processorErrorInfoNum") == Int(Errors(s))
      && Get(valid, "processorContextInfoNum") == Int(Contexts(s))
      && Get(ir, "localAPICID") == Int(N64(s, 8))
      && Get(cpuid, "eax") == Int(N64(s, 16)) && Get(cpuid, "ebx") == Int(N64(s, 24))
      && Get(cpuid, "ecx") == Int(N64(s, 32)) && Get(cpuid, "edx") == Int(N64(s, 40))
  {
    hide RecordToIr, RecordParts, ValidFields, N64, U64, Get, ErrorsToIr, ContextsToIr, ContextStart;
    ValidNumbers(s);
    RecordNumbers(s);
    RecordMembers(ValidFields(s), RecordParts(s), ErrorsToIr(s, ErrorCount(s)),
                  ContextsToIr(s, ContextStart(s), ContextCount(s)));
  }

  lemma {:induction false} ErrorListed(s: seq<byte>, n: nat, i: nat)
    requires i < n
    ensures ErrorsToIr(s, n)[i] == ErrorInfoToIr(At(s, 64 + 64 * i, 64))
    decreases n
  {
    hide ErrorInfoToIr, At;
    if i < n - 1 {
      ErrorListed(s, n - 1, i);
    }
  }

  lemma {:induction false} ContextListed(s: seq<byte>, start: nat, n: nat, i: nat)
    requires i < n
    ensures ContextsToIr(s, start, n)[i] == ContextToIr(s, ContextPlace(s, start, i))
    decreases n
  {
    hide ContextToIr, DataSize, ContextSize;
    if i < n - 1 {
      ContextListed(s, start, n - 1, i);
    } else {
      ContextPlaced(s, start, i);
    }
  }

  /** As many error structures as bits 2 to 7 say, 64 bytes each from byte 64 on, then as many contexts as bits 8 to 13
      say, each where the one before it ends; the section ends behind the last. */
  lemma StructuresShown(s: seq<byte>)
    ensures var ir := SectionToIr(s);
      var errors, contexts := Get(ir, "processorErrorInfo"), Get(ir, "processorContextInfo");
      && errors.Arr? && |errors.a| == Errors(s) && contexts.Arr? && |contexts.a| == Contexts(s)
      && (forall i: nat :: i < Errors(s) ==> errors.a[i] == ErrorInfoToIr(At(s, 64 + 64 * i, 64)))
      && (forall i: nat :: i < Contexts(s) ==>
            contexts.a[i] == ContextToIr(s, ContextPlace(s, 64 + 64 * Errors(s), i)))
    ensures SectionEnd(s) == ContextPlace(s, 64 + 64 * Errors(s), Contexts(s))
  {
    hide RecordToIr, RecordParts, ValidFields, N64, U64, Get, ErrorsToIr, ContextsToIr, ErrorInfoToIr, ContextToIr, At,
      Cursor, ContextPlace;
    ValidNumbers(s);
    var e, c, start := ErrorCount(s), ContextCount(s), ContextStart(s);
    RecordMembers(ValidFields(s), RecordParts(s), ErrorsToIr(s, e), ContextsToIr(s, start, c));
    forall i: nat | i < e
      ensures ErrorsToIr(s, e)[i] == ErrorInfoToIr(At(s, 64 + 64 * i, 64))
    {
      ErrorListed(s, e, i);
    }
    forall i: nat | i < c
      ensures ContextsToIr(s, start, c)[i] == ContextToIr(s, ContextPlace(s, start, i))
    {
      ContextListed(s, start, c, i);
    }
    ContextPlaced(s, start, c);
  }

  /** What an error structure's check information is shown as. */
  predicate CheckIs(ir: Json, m: seq<byte>, v: nat) {
    if m == CheckBytes(0) || m == CheckBytes(1) then CacheIs(ir, v)
    else if m == CheckBytes(2) then BusIs(ir, v)
    else if m == CheckBytes(3) then MsIs(ir, v)
    else ir == Null
  }

  /** Bytes 24 to 31 of the i-th error structure are taken apart as its first sixteen bytes say. */
  lemma CheckInfoShown(s: seq<byte>, i: nat)
    requires i < Errors(s)
    ensures var p := 64 + 64 * i;
      CheckIs(Get(ArrayIdx(Get(SectionToIr(s), "processorErrorInfo"), i), "checkInfo"), At(s, p, 16), N64(s, p + 24))
  {
    hide SectionToIr, ErrorInfoToIr, ContextToIr, ContextPlace, CacheIs, BusIs, MsIs, CheckToIr, At, N64, CheckBytes,
      CheckText, GuidText, ErrorInfoMarks, SectionEnd, Contexts;
    var p := 64 + 64 * i;
    StructuresShown(s);
    ErrorInfoShown(s, p);
    CheckKindShown(At(s, p, 16), N64(s, p + 24));
  }

  lemma CheckKindShown(m: seq<byte>, v: u64)
    ensures CheckIs(CheckToIr(CheckKindOf(m), v), m, v)
  {
    hide CheckBytes, CacheIs, BusIs, MsIs, CheckToIr;
    CacheShown(v);
    BusShown(v);
    MsShown(v);
    UnknownShown(v);
  }
}
