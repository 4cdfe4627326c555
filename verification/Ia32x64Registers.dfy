/** The register files an IA32/x64 context can hold, as layouts of packed integers. */
module Ia32x64Registers {
  import opened Bytes
  import opened Names
  import opened Packed

  const IA32_REGISTERS_SIZE: nat := 92
  const X64_REGISTERS_SIZE: nat := 244

  function SegmentKeys(): seq<string> { ["cs", "ds", "ss", "es", "fs", "gs"] }

  function TableKeys(): seq<string> { ["ldtr", "tr"] }

  function Ia32GeneralKeys(): seq<string> { ["eax", "ebx", "ecx", "edx", "esi", "edi", "ebp", "esp"] }

  function Ia32ControlKeys(): seq<string> { ["eflags", "eip", "cr0", "cr1", "cr2", "cr3", "cr4"] }

  function Ia32WideKeys(): seq<string> { ["gdtr", "idtr"] }

  /** The 32-bit registers. GDTR and IDTR are two 32-bit halves, shown as one 64-bit value. */
  function Ia32Registers(): seq<Slot> {
    Fields(Ia32GeneralKeys(), 4) + Fields(SegmentKeys(), 2) + Fields(Ia32ControlKeys(), 4) +
    Fields(Ia32WideKeys(), 8) + Fields(TableKeys(), 2)
  }

  function X64GeneralKeys(): seq<string> {
    ["rax", "rbx", "rcx", "rdx", "rsi", "rdi", "rbp", "rsp", "r8", "r9", "r10", "r11", "r12", "r13", "r14", "r15"]
  }

  function X64ControlKeys(): seq<string> {
    ["rflags", "eip", "cr0", "cr1", "cr2", "cr3", "cr4", "cr8", "gdtr_0", "gdtr_1", "idtr_0", "idtr_1"]
  }

  /** The 64-bit registers, with the reserved word between the segment registers and RFLAGS. */
  function X64Registers(): seq<Slot> {
    Fields(X64GeneralKeys(), 8) + Fields(SegmentKeys(), 2, true) + [Reserved(4)] + Fields(X64ControlKeys(), 8) +
    Fields(TableKeys(), 2, true)
  }

  /** The keys under which the writer looks the registers up, in the order of the struct. */
  function Ia32Written(): seq<Slot> {
    Fields(["eax", "ebx", "ecx", "edx", "esi", "edi", "ebp", "esp"], 4) +
    Fields(["cs", "ds", "ss", "es", "fs", "gs"], 2) +
    Fields(["eflags", "eip", "cr0", "cr1", "cr2", "cr3", "cr4"], 4) +
    Fields(["gdtr", "idtr"], 8) +
    Fields(["ldtr", "tr"], 2)
  }

  function X64Written(): seq<Slot> {
    Fields(["rax", "rbx", "rcx", "rdx", "rsi", "rdi", "rbp", "rsp", "r8", "r9", "r10", "r11", "r12", "r13", "r14",
            "r15"], 8) +
    Fields(["cs", "ds", "ss", "es", "fs", "gs"], 2, true) +
    [Reserved(4)] +
    Fields(["rflags", "eip", "cr0", "cr1", "cr2", "cr3", "cr4", "cr8", "gdtr_0", "gdtr_1", "idtr_0", "idtr_1"], 8) +
    Fields(["ldtr", "tr"], 2, true)
  }

  lemma WriterAgrees()
    ensures Ia32Written() == Ia32Registers() && X64Written() == X64Registers()
  {
    hide Fields;
  }

  predicate IsGeneral(k: string) {
    (|k| == 3 && k[0] == 'e' && k[1] != 'i') || (2 <= |k| <= 3 && k[0] == 'r')
  }

  predicate IsSegment(k: string) { |k| == 2 && k[1] == 's' }

  predicate IsTable(k: string) { k == "ldtr" || k == "tr" }

  ghost predicate Plain(keys: seq<string>) {
    forall i :: 0 <= i < |keys| ==> !IsGeneral(keys[i]) && !IsSegment(keys[i]) && !IsTable(keys[i])
  }

  lemma CommonKeyLists()
    ensures |SegmentKeys()| == 6 && Distinct(SegmentKeys())
    ensures forall i :: 0 <= i < 6 ==>
      IsSegment(SegmentKeys()[i]) && !IsGeneral(SegmentKeys()[i]) && !IsTable(SegmentKeys()[i])
    ensures |TableKeys()| == 2 && Distinct(TableKeys())
    ensures forall i :: 0 <= i < 2 ==>
      IsTable(TableKeys()[i]) && !IsGeneral(TableKeys()[i]) && !IsSegment(TableKeys()[i])
  {
  }

  lemma Ia32GeneralList()
    ensures |Ia32GeneralKeys()| == 8 && Distinct(Ia32GeneralKeys())
    ensures forall i :: 0 <= i < 8 ==> IsGeneral(Ia32GeneralKeys()[i]) && !IsTable(Ia32GeneralKeys()[i])
  {
  }

  lemma Ia32ControlList()
    ensures |Ia32ControlKeys()| == 7 && Distinct(Ia32ControlKeys()) && Plain(Ia32ControlKeys())
    ensures |Ia32WideKeys()| == 2 && Distinct(Ia32WideKeys()) && Plain(Ia32WideKeys())
    ensures forall i :: 0 <= i < 7 ==> !IsWide(Ia32ControlKeys()[i])
    ensures forall i :: 0 <= i < 2 ==> IsWide(Ia32WideKeys()[i])
  {
  }

  predicate IsWide(k: string) { |k| == 4 }

  lemma X64GeneralList()
    ensures |X64GeneralKeys()| == 16 && Distinct(X64GeneralKeys())
    ensures forall i :: 0 <= i < 16 ==> IsGeneral(X64GeneralKeys()[i]) && !IsTable(X64GeneralKeys()[i])
  {
  }

  lemma X64ControlList()
    ensures |X64ControlKeys()| == 12 && Distinct(X64ControlKeys()) && Plain(X64ControlKeys())
  {
  }

  lemma Piece(keys: seq<string>, width: nat, asInt: bool)
    requires Distinct(keys)
    ensures DistinctKeys(Fields(keys, width, asInt)) && Sum(Widths(Fields(keys, width, asInt))) == |keys| * width
  {
    FieldsDistinct(keys, width, asInt);
    LayoutFields(keys, width, asInt);
  }

  lemma Ia32Layout()
    ensures GoodLayout(Ia32Registers(), IA32_REGISTERS_SIZE)
  {
    hide Sum, Widths, Distinct, SegmentKeys, TableKeys, Ia32GeneralKeys, Ia32ControlKeys, Ia32WideKeys, IsSegment,
      IsTable, IsGeneral, IsWide, DistinctKeys;
    CommonKeyLists();
    Ia32GeneralList();
    Ia32ControlList();
    Piece(Ia32GeneralKeys(), 4, false);
    Piece(SegmentKeys(), 2, false);
    Piece(Ia32ControlKeys(), 4, false);
    Piece(Ia32WideKeys(), 8, false);
    Piece(TableKeys(), 2, false);
    var a, b, c := Fields(Ia32GeneralKeys(), 4), Fields(SegmentKeys(), 2), Fields(Ia32ControlKeys(), 4);
    var d, e := Fields(Ia32WideKeys(), 8), Fields(TableKeys(), 2);
    DistinctAppend(a, b, k => IsGeneral(k));
    DistinctAppend(a + b, c, k => IsSegment(k) || IsGeneral(k));
    DistinctAppend(a + b + c, d, k => IsSegment(k) || IsGeneral(k) || !IsWide(k));
    DistinctAppend(a + b + c + d, e, k => !IsTable(k));
    LayoutAppend(a, b);
    LayoutAppend(a + b, c);
    LayoutAppend(a + b + c, d);
    LayoutAppend(a + b + c + d, e);
  }

  lemma X64Layout()
    ensures GoodLayout(X64Registers(), X64_REGISTERS_SIZE)
  {
    hide Sum, Widths, Distinct, SegmentKeys, TableKeys, X64GeneralKeys, X64ControlKeys, IsSegment, IsTable, IsGeneral,
      DistinctKeys;
    CommonKeyLists();
    X64GeneralList();
    X64ControlList();
    Piece(X64GeneralKeys(), 8, false);
    Piece(SegmentKeys(), 2, true);
    Piece(X64ControlKeys(), 8, false);
    Piece(TableKeys(), 2, true);
    ReservedSlot(4);
    var a, b, c := Fields(X64GeneralKeys(), 8), Fields(SegmentKeys(), 2, true), [Reserved(4)];
    var d, e := Fields(X64ControlKeys(), 8), Fields(TableKeys(), 2, true);
    DistinctAppend(a, b, k => IsGeneral(k));
    DistinctAppend(a + b, c, k => true);
    DistinctAppend(a + b + c, d, k => IsSegment(k) || IsGeneral(k));
    DistinctAppend(a + b + c + d, e, k => !IsTable(k));
    LayoutAppend(a, b);
    LayoutAppend(a + b, c);
    LayoutAppend(a + b + c, d);
    LayoutAppend(a + b + c + d, e);
  }
}
