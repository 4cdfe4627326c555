/** NVIDIA error sections: a signature, a few numbers and a counted array of registers. */
module SectionNvidia {
  import opened Buffers
  import opened Bytes
  import opened CperUtils
  import opened Json
  import opened RegisterPairs
  import opened Streams

  const FIXED_SIZE: nat := 32
  const SIGNATURE_SIZE: nat := 16

  /** Signature, error type, error instance, severity, socket, number of registers, reserved, instance base. */
  const FIXED_WIDTHS: seq<nat> := [16, 2, 2, 1, 1, 1, 1, 8]

  lemma FixedWidths()
    ensures Sum(FIXED_WIDTHS) == FIXED_SIZE
  {
    hide Sum;
    SumFour(16, 2, 2, 1);
    SumFour(1, 1, 1, 8);
    SumAppend([16, 2, 2, 1], [1, 1, 1, 8]);
    var a: seq<nat>, b: seq<nat> := [16, 2, 2, 1], [1, 1, 1, 8];
    assert FIXED_WIDTHS == a + b;
  }

  function NumberRegs(s: seq<byte>): nat {
    U8(Front(s, FIXED_WIDTHS)[5])
  }

  function SectionEnd(s: seq<byte>): nat {
    FIXED_SIZE + PAIR_SIZE * NumberRegs(s)
  }

  /** The memory the signature is read from as a C string: it runs on into the next fields if it is not terminated. */
  function Memory(s: seq<byte>): (m: seq<byte>)
    ensures |m| >= FIXED_SIZE
  {
    if |s| < FIXED_SIZE then At(s, 0, FIXED_SIZE) else s
  }

  function RecordToIr(p: seq<seq<byte>>, signature: string, registers: seq<Json>): Json
    requires HasWidths(p, FIXED_WIDTHS)
  {
    Obj(map[
      "signature" := Str(signature),
      "errorType" := Int(U16(p[1])),
      "errorInstance" := Int(U16(p[2])),
      "severity" := Int(U8(p[3])),
      "socket" := Int(U8(p[4])),
      "numberRegs" := Int(U8(p[5])),
      "instanceBase" := Int(U64(p[7])),
      "registers" := Arr(registers)])
  }

  function SectionToIr(s: seq<byte>): Json {
    RecordToIr(Front(s, FIXED_WIDTHS), CString(Memory(s)), PairsToIr(s, FIXED_SIZE, NumberRegs(s), "address", "value"))
  }

  function FixedFromIr(ir: Json): (p: seq<seq<byte>>) {
    [TextBuffer(GetString(Get(ir, "signature")), SIGNATURE_SIZE),
     LE(GetInt(Get(ir, "errorType")), 2),
     LE(GetInt(Get(ir, "errorInstance")), 2),
     LE(GetInt(Get(ir, "severity")), 1),
     LE(GetInt(Get(ir, "socket")), 1),
     LE(GetInt(Get(ir, "numberRegs")), 1),
     Zeros(1),
     LE(GetUint64(Get(ir, "instanceBase")), 8)]
  }

  lemma FixedFromIrWidths(ir: Json)
    ensures HasWidths(FixedFromIr(ir), FIXED_WIDTHS) && |Join(FixedFromIr(ir))| == FIXED_SIZE
  {
    hide Join, LE, Get, TextBuffer;
    FixedWidths();
    JoinLength(FixedFromIr(ir), FIXED_WIDTHS);
  }

  function SectionFromIr(ir: Json): seq<byte> {
    var registers := Get(ir, "registers");
    Join(FixedFromIr(ir)) + PairsFromIr(registers, ArrayLength(registers), "address", "value")
  }

  /** The writer asks for the length of the array of registers and copies the signature. */
  predicate Writable(ir: Json) {
    Get(ir, "registers").Arr? && !Get(ir, "signature").Null?
  }

  lemma MissingSection()
    ensures !Writable(Null) && |SectionFromIr(Null)| == FIXED_SIZE
  {
    hide FixedFromIr, Join;
    FixedFromIrWidths(Null);
  }

  // ---- what the trip keeps ---------------------------------------------------------------------------------

  function NormalParts(p: seq<seq<byte>>, signature: string): seq<seq<byte>>
    requires HasWidths(p, FIXED_WIDTHS)
  {
    p[0 := TextBuffer(signature, SIGNATURE_SIZE)][6 := Zeros(1)]
  }

  function NormalSection(s: seq<byte>): seq<byte> {
    Join(NormalParts(Front(s, FIXED_WIDTHS), CString(Memory(s)))) + At(s, FIXED_SIZE, PAIR_SIZE * NumberRegs(s))
  }

  /** The signature is terminated and clean, the reserved byte is zero, and the section ends behind its last
      register. */
  ghost predicate CanonicalSection(s: seq<byte>) {
    var p := Front(s, FIXED_WIDTHS);
    CleanText(p[0]) && p[6] == Zeros(1) && |s| == SectionEnd(s)
  }

  lemma FixedRoundTrip(p: seq<seq<byte>>, signature: string, registers: seq<Json>)
    requires HasWidths(p, FIXED_WIDTHS)
    ensures var ir := RecordToIr(p, signature, registers);
      FixedFromIr(ir) == NormalParts(p, signature) && Get(ir, "registers") == Arr(registers)
  {
    hide LE, FromLE, TextBuffer, Get;
    RecordMembers(p, signature, registers);
    IntRoundTrip(p[1]);
    IntRoundTrip(p[2]);
    IntRoundTrip(p[3]);
    IntRoundTrip(p[4]);
    IntRoundTrip(p[5]);
    NumberRoundTrip(p[7]);
    ByteLoad(p[3]);
    ByteLoad(p[4]);
    ByteLoad(p[5]);
  }

  lemma ByteLoad(p: seq<byte>)
    requires |p| == 1
    ensures U8(p) == FromLE(p)
  {
  }

  lemma RecordMembers(p: seq<seq<byte>>, signature: string, registers: seq<Json>)
    requires HasWidths(p, FIXED_WIDTHS)
    ensures var ir := RecordToIr(p, signature, registers);
      && Get(ir, "signature") == Str(signature) && Get(ir, "errorType") == Int(U16(p[1]))
      && Get(ir, "errorInstance") == Int(U16(p[2])) && Get(ir, "severity") == Int(U8(p[3]))
      && Get(ir, "socket") == Int(U8(p[4])) && Get(ir, "numberRegs") == Int(U8(p[5]))
      && Get(ir, "instanceBase") == Int(U64(p[7])) && Get(ir, "registers") == Arr(registers)
  {
    hide U16, U8, U64;
  }

  lemma ReadWritable(s: seq<byte>)
    ensures Writable(SectionToIr(s))
  {
    hide RecordToIr, Front, Get, PairsToIr, CString;
    RecordMembers(Front(s, FIXED_WIDTHS), CString(Memory(s)),
                  PairsToIr(s, FIXED_SIZE, NumberRegs(s), "address", "value"));
  }

  lemma SectionRoundTrip(s: seq<byte>)
    ensures SectionFromIr(SectionToIr(s)) == NormalSection(s)
  {
    hide RecordToIr, FixedFromIr, NormalParts, Join, Front, Get, At, PairsToIr, PairsFromIr, NumberRegs, CString;
    var registers := PairsToIr(s, FIXED_SIZE, NumberRegs(s), "address", "value");
    FixedRoundTrip(Front(s, FIXED_WIDTHS), CString(Memory(s)), registers);
    KeysDiffer();
    PairsRoundTrip(s, FIXED_SIZE, NumberRegs(s), "address", "value", registers);
  }

  lemma KeysDiffer()
    ensures "address" != "value"
  {
  }

  lemma SignatureKept(s: seq<byte>)
    ensures var signature := Front(s, FIXED_WIDTHS)[0];
      TextBuffer(CString(Memory(s)), SIGNATURE_SIZE) == signature <==> CleanText(signature)
  {
    hide CString, TextBuffer, CleanText, Chop;
    FixedWidths();
    ChopSlice(At(s, 0, FIXED_SIZE), FIXED_WIDTHS, 0);
    assert FIXED_WIDTHS[..0] == [];
    assert Memory(s)[..SIGNATURE_SIZE] == Front(s, FIXED_WIDTHS)[0];
    TextKept(Memory(s), SIGNATURE_SIZE);
  }

  lemma NormalPartsWidths(p: seq<seq<byte>>, signature: string)
    requires HasWidths(p, FIXED_WIDTHS)
    ensures HasWidths(NormalParts(p, signature), FIXED_WIDTHS)
  {
    hide TextBuffer;
  }

  /** The sections that come back byte for byte are exactly the canonical ones. */
  lemma SectionKept(s: seq<byte>)
    ensures NormalSection(s) == s <==> CanonicalSection(s)
  {
    hide Front, Join, Chop, Sum, NumberRegs, CString, TextBuffer, CleanText;
    var p, n := Front(s, FIXED_WIDTHS), NormalParts(Front(s, FIXED_WIDTHS), CString(Memory(s)));
    FixedWidths();
    FrontJoined(s, FIXED_WIDTHS);
    NormalPartsWidths(p, CString(Memory(s)));
    JoinLength(n, FIXED_WIDTHS);
    SignatureKept(s);
    assert n == p <==> n[0] == p[0] && n[6] == p[6];
    SlicesKept(p, n, FIXED_WIDTHS);
    AtSplit(s, 0, FIXED_SIZE, PAIR_SIZE * NumberRegs(s));
    AppendKept(Join(n), At(s, FIXED_SIZE, PAIR_SIZE * NumberRegs(s)),
      At(s, 0, FIXED_SIZE), At(s, FIXED_SIZE, PAIR_SIZE * NumberRegs(s)));
    if |s| == SectionEnd(s) {
      assert At(s, 0, |s|) == s;
    }
  }

  /** Reading a section and writing it back gives the same bytes exactly when the section is canonical. */
  lemma RoundTrip(s: seq<byte>)
    ensures SectionFromIr(SectionToIr(s)) == s <==> CanonicalSection(s)
  {
    hide SectionFromIr, SectionToIr, NormalSection, CanonicalSection;
    SectionRoundTrip(s);
    SectionKept(s);
  }

  /** What is written is canonical: a second trip changes nothing. */
  lemma NormalCanonical(s: seq<byte>)
    ensures CanonicalSection(NormalSection(s))
  {
    hide Front, Join, Sum, CString, TextBuffer, CleanText, Memory;
    var p, signature := Front(s, FIXED_WIDTHS), CString(Memory(s));
    NormalPartsWidths(p, signature);
    FixedWidths();
    FrontOfJoin(NormalParts(p, signature), FIXED_WIDTHS, At(s, FIXED_SIZE, PAIR_SIZE * NumberRegs(s)));
    CStringChars(Memory(s));
    TextBufferClean(signature, SIGNATURE_SIZE);
  }

  lemma NormalLength(s: seq<byte>)
    ensures |NormalSection(s)| == SectionEnd(s)
  {
    hide NormalParts, Front, Join, Sum, NumberRegs, CString;
    FixedWidths();
    NormalPartsWidths(Front(s, FIXED_WIDTHS), CString(Memory(s)));
    JoinLength(NormalParts(Front(s, FIXED_WIDTHS), CString(Memory(s))), FIXED_WIDTHS);
  }

  // ---- reader and writer -----------------------------------------------------------------------------------

  method ReadSection(section: seq<byte>) returns (ir: Json, end: nat)
    ensures ir == SectionToIr(section) && end == SectionEnd(section)
  {
    hide RecordToIr, Front, PairsToIr, CString;
    var p := Front(section, FIXED_WIDTHS);
    var registers;
    registers, end := ReadPairs(section, FIXED_SIZE, U8(p[5]), "address", "value");
    ir := RecordToIr(p, CString(Memory(section)), registers);
  }

  /** Stores the two words of one register. */
  method StoreRegister(section: array<byte>, pos: nat, register: Json)
    requires pos + PAIR_SIZE <= section.Length
    modifies section
    ensures section[..] == Patch(old(section[..]), pos, PairFromIr(register, "address", "value"))
  {
    hide LE, Get, Patch;
    var address, value := LE(GetUint64(Get(register, "address")), 8), LE(GetUint64(Get(register, "value")), 8);
    MemCpy(section, pos, address);
    MemCpy(section, pos + 8, value);
    PatchTwice(old(section[..]), pos, address, value);
  }

  /** Two words per register, behind the fixed fields. */
  method FillRegisters(section: array<byte>, registers: Json, numRegs: nat)
    requires section.Length == FIXED_SIZE + PAIR_SIZE * numRegs && (numRegs > 0 ==> registers.Arr?)
    modifies section
    ensures section[..] == old(section[..FIXED_SIZE]) + PairsFromIr(registers, numRegs, "address", "value")
  {
    hide PairFromIr, Patch;
    ghost var head := section[..FIXED_SIZE];
    var pos := FIXED_SIZE;
    for i := 0 to numRegs
      invariant pos == FIXED_SIZE + PAIR_SIZE * i
      invariant section[..pos] == head + PairsFromIr(registers, i, "address", "value")
    {
      var register := AskElement(registers, i);
      PatchGrows(section[..], pos, PairFromIr(register, "address", "value"));
      StoreRegister(section, pos, register);
      pos := pos + PAIR_SIZE;
    }
    assert section[..pos] == section[..];
  }

  lemma SignatureFirst(ir: Json)
    ensures var p := FixedFromIr(ir);
      |p| == 8 && p[0 := TextBuffer(GetString(Get(ir, "signature")), SIGNATURE_SIZE)] == p
  {
    hide LE, TextBuffer, Get;
  }

  /** The section is made up in one zeroed buffer: the fields at its front, then the registers. */
  method WriteSection(ir: Json, out: File)
    requires Writable(ir)
    modifies out
    ensures out.Holds(old(out.data), old(out.pos), SectionFromIr(ir))
  {
    hide Get, Join, Patch, FixedFromIr, PairsFromIr, TextBuffer;
    var registers := Get(ir, "registers");
    var numRegs := AskLength(registers);
    var section := new byte[FIXED_SIZE + PAIR_SIZE * numRegs](_ => 0);
    ghost var zeros := section[..];
    FixedFromIrWidths(ir);
    var signature := AskString(Get(ir, "signature"));
    SignatureFirst(ir);
    MemCpy(section, 0, Join(FixedFromIr(ir)[0 := TextBuffer(signature, SIGNATURE_SIZE)]));
    PatchGrows(zeros, 0, Join(FixedFromIr(ir)));
    assert section[..FIXED_SIZE] == Join(FixedFromIr(ir));
    FillRegisters(section, registers, numRegs);
    out.Write(section[..]);
  }
}
