/** The table of section types and the choice of a converter for each section. */
module Sections {
  import opened Base64
  import opened Bytes
  import opened CperUtils
  import opened Guids
  import opened Json
  import opened Options
  import opened Payloads
  import opened Streams
  import Ia32x64Normal
  import SectionCxlProtocol
  import SectionIa32x64
  import SectionNvidia
  import SectionPciDev

  /** The pairs of functions that convert sections of one type to the intermediate representation and back. */
  datatype Converter =
    | Generic
    | Ia32x64
    | Arm
    | Memory
    | Memory2
    | Pcie
    | Firmware
    | PciBus
    | PciDev
    | DmarGeneric
    | DmarVtd
    | DmarIommu
    | CcixPer
    | CxlProtocol
    | CxlComponent
    | Nvidia

  /** One row of the table; a section type may lack a converter. */
  datatype Definition = Definition(guid: Guid, readableName: string, toIr: Option<Converter>, toCper: Option<Converter>)

  /** What the converters that are not part of this model compute: any functions at all. */
  datatype Others = Others(toIr: (Converter, seq<byte>) -> Json, toCper: (Converter, Json) -> seq<byte>)

  function TwoWay(guid: Guid, name: string, c: Converter): Definition {
    Definition(guid, name, Some(c), Some(c))
  }

  function SectionDefinitions(): seq<Definition> {
    [TwoWay(PROCESSOR_GENERIC_SECTION, "Processor Generic", Generic),
     TwoWay(IA32X64_SECTION, "IA32/X64", Ia32x64),
     Definition(IPF_SECTION, "IPF", None, None),
     TwoWay(ARM_SECTION, "ARM", Arm),
     TwoWay(MEMORY_SECTION, "Platform Memory", Memory),
     TwoWay(MEMORY2_SECTION, "Platform Memory 2", Memory2),
     TwoWay(PCIE_SECTION, "PCIe", Pcie),
     TwoWay(FIRMWARE_SECTION, "Firmware Error Record Reference", Firmware),
     TwoWay(PCI_BUS_SECTION, "PCI/PCI-X Bus", PciBus),
     TwoWay(PCI_DEV_SECTION, "PCI Component/Device", PciDev),
     TwoWay(DMAR_GENERIC_SECTION, "DMAr Generic", DmarGeneric),
     TwoWay(DMAR_VTD_SECTION, "Intel VT for Directed I/O Specific DMAr", DmarVtd),
     TwoWay(DMAR_IOMMU_SECTION, "IOMMU Specific DMAr", DmarIommu),
     TwoWay(CCIX_PER_SECTION, "CCIX PER Log Error", CcixPer),
     TwoWay(CXL_PROTOCOL_SECTION, "CXL Protocol Error", CxlProtocol),
     TwoWay(CXL_MEDIA_SECTION, "CXL General Media Component Error", CxlComponent),
     TwoWay(CXL_DRAM_SECTION, "CXL DRAM Component Error", CxlComponent),
     TwoWay(CXL_MEMORY_SECTION, "CXL Memory Module Component Error", CxlComponent),
     TwoWay(CXL_PSWITCH_SECTION, "CXL Physical Switch Component Error", CxlComponent),
     TwoWay(CXL_VSWITCH_SECTION, "CXL Virtual Switch Component Error", CxlComponent),
     TwoWay(CXL_MLD_SECTION, "CXL MLD Port Component Error", CxlComponent),
     TwoWay(NVIDIA_SECTION, "NVIDIA", Nvidia)]
  }

  // ---- looking a section type up ------------------------------------------------------------------

  /** The first row for this GUID with a converter to the intermediate representation, or the table's length. */
  function ReaderRow(table: seq<Definition>, guid: Guid): (i: nat)
    ensures i <= |table|
    ensures i < |table| ==> table[i].guid == guid && table[i].toIr.Some?
    ensures forall j :: 0 <= j < i ==> !(table[j].guid == guid && table[j].toIr.Some?)
  {
    if table == [] || (table[0].guid == guid && table[0].toIr.Some?) then 0 else 1 + ReaderRow(table[1..], guid)
  }

  /** The first row for this GUID with a converter to binary, or the table's length. */
  function WriterRow(table: seq<Definition>, guid: Guid): (i: nat)
    ensures i <= |table|
    ensures i < |table| ==> table[i].guid == guid && table[i].toCper.Some?
    ensures forall j :: 0 <= j < i ==> !(table[j].guid == guid && table[j].toCper.Some?)
  {
    if table == [] || (table[0].guid == guid && table[0].toCper.Some?) then 0 else 1 + WriterRow(table[1..], guid)
  }

  function Reader(table: seq<Definition>, guid: Guid): Option<Converter> {
    var i := ReaderRow(table, guid);
    if i < |table| then table[i].toIr else None
  }

  function Writer(table: seq<Definition>, guid: Guid): Option<Converter> {
    var i := WriterRow(table, guid);
    if i < |table| then table[i].toCper else None
  }

  function ReadableName(table: seq<Definition>, guid: Guid): string {
    if table == [] then "Unknown"
    else if table[0].guid == guid then table[0].readableName
    else ReadableName(table[1..], guid)
  }

  /** Each row has both converters or neither. */
  ghost predicate Paired(table: seq<Definition>) {
    forall i :: 0 <= i < |table| ==> (table[i].toIr.Some? <==> table[i].toCper.Some?)
  }

  /** In a paired table the reader and, after the GUID went through text, the writer pick the same row or both none. */
  lemma ConvertersAgree(table: seq<Definition>, guid: Guid, before: Guid)
    requires Paired(table)
    ensures ReaderRow(table, guid) == WriterRow(table, StringToGuid(GuidToString(guid), before))
  {
    hide StringToGuid, GuidToString;
    GuidRoundTrip(guid, before);
    assert ReaderRow(table, guid) == WriterRow(table, guid);
  }

  /** The converters in a row belong together. */
  ghost predicate Matched(table: seq<Definition>) {
    forall i :: 0 <= i < |table| ==> table[i].toIr == table[i].toCper
  }

  lemma DefinitionsMatched()
    ensures Matched(SectionDefinitions())
  {
  }

  lemma SameConverter(table: seq<Definition>, guid: Guid)
    requires Matched(table)
    ensures Reader(table, guid) == Writer(table, guid)
  {
    hide StringToGuid, GuidToString;
    assert forall i :: 0 <= i < |table| ==> table[i].toIr == table[i].toCper;
    ConvertersAgree(table, guid, guid);
    GuidRoundTrip(guid, guid);
  }

  // ---- converting one section ---------------------------------------------------------------------

  function ConvertToIr(others: Others, c: Converter, s: seq<byte>): Json {
    match c
    case Ia32x64 => SectionIa32x64.SectionToIr(s)
    case PciDev => SectionPciDev.SectionToIr(s)
    case CxlProtocol => SectionCxlProtocol.SectionToIr(s)
    case Nvidia => SectionNvidia.SectionToIr(s)
    case _ => others.toIr(c, s)
  }

  ghost function ConvertFromIr(others: Others, c: Converter, ir: Json): seq<byte> {
    match c
    case Ia32x64 => SectionIa32x64.SectionFromIr(ir)
    case PciDev => SectionPciDev.SectionFromIr(ir)
    case CxlProtocol => SectionCxlProtocol.SectionFromIr(ir)
    case Nvidia => SectionNvidia.SectionFromIr(ir)
    case _ => others.toCper(c, ir)
  }

  /** A section of unknown type is kept as base64 text; nothing is kept when the text would be too long. */
  function UnknownToIr(s: seq<byte>): Json {
    if Encodable(|s|) then Obj(map["data" := Str(Encode(s))]) else Obj(map[])
  }

  ghost function UnknownFromIr(ir: Json): seq<byte> {
    Payload(GetString(Get(ir, "data")))
  }

  function SectionToIr(table: seq<Definition>, others: Others, guid: Guid, s: seq<byte>): Json {
    var c := Reader(table, guid);
    if c.Some? then ConvertToIr(others, c.value, s) else UnknownToIr(s)
  }

  ghost function SectionFromIr(table: seq<Definition>, others: Others, guid: Guid, ir: Json): seq<byte> {
    var c := Writer(table, guid);
    if c.Some? then ConvertFromIr(others, c.value, ir) else UnknownFromIr(ir)
  }

  /** Which sections a converter reads and writes back unchanged. */
  ghost predicate CanonicalFor(others: Others, c: Converter, s: seq<byte>) {
    match c
    case Ia32x64 => SectionIa32x64.CanonicalSection(s)
    case PciDev => SectionPciDev.CanonicalSection(s)
    case CxlProtocol => SectionCxlProtocol.CanonicalSection(s)
    case Nvidia => SectionNvidia.CanonicalSection(s)
    case _ => others.toCper(c, others.toIr(c, s)) == s
  }

  ghost predicate CanonicalSection(table: seq<Definition>, others: Others, guid: Guid, s: seq<byte>) {
    var c := Reader(table, guid);
    if c.Some? then CanonicalFor(others, c.value, s) else s == [] || Encodable(|s|)
  }

  lemma UnknownRoundTrip(s: seq<byte>)
    ensures UnknownFromIr(UnknownToIr(s)) == s <==> s == [] || Encodable(|s|)
  {
    hide Encode, Payload, Encodable;
    PayloadRoundTrip(s);
    NoPayload();
  }

  lemma ConvertRoundTrip(others: Others, c: Converter, s: seq<byte>)
    ensures ConvertFromIr(others, c, ConvertToIr(others, c, s)) == s <==> CanonicalFor(others, c, s)
  {
    hide SectionIa32x64.SectionToIr, SectionIa32x64.SectionFromIr, SectionIa32x64.CanonicalSection,
      SectionPciDev.SectionToIr, SectionPciDev.SectionFromIr, SectionPciDev.CanonicalSection,
      SectionCxlProtocol.SectionToIr, SectionCxlProtocol.SectionFromIr, SectionCxlProtocol.CanonicalSection,
      SectionNvidia.SectionToIr, SectionNvidia.SectionFromIr, SectionNvidia.CanonicalSection;
    SectionIa32x64.RoundTrip(s);
    SectionPciDev.RoundTrip(s);
    SectionCxlProtocol.RoundTrip(s);
    SectionNvidia.RoundTrip(s);
  }

  /** What comes back from reading a section and writing it again. */
  ghost function Rewritten(table: seq<Definition>, others: Others, guid: Guid, s: seq<byte>): seq<byte> {
    SectionFromIr(table, others, guid, SectionToIr(table, others, guid, s))
  }

  /** Whatever its type, a section comes back unchanged exactly when it is canonical for its type's converter. */
  lemma SectionRoundTrip(table: seq<Definition>, others: Others, guid: Guid, s: seq<byte>)
    requires Matched(table)
    ensures Rewritten(table, others, guid, s) == s <==> CanonicalSection(table, others, guid, s)
  {
    hide ConvertToIr, ConvertFromIr, CanonicalFor, UnknownToIr, UnknownFromIr, Encodable, Reader, Writer;
    SameConverter(table, guid);
    var c := Reader(table, guid);
    if c.Some? {
      ConvertRoundTrip(others, c.value, s);
    } else {
      UnknownRoundTrip(s);
    }
  }

  // ---- a second trip --------------------------------------------------------------------------------

  /** What a converter that is not part of this model writes of a section it writes again unchanged; the others always
      do. */
  ghost predicate SettlesFor(others: Others, c: Converter, s: seq<byte>) {
    match c
    case Ia32x64 => true
    case PciDev => true
    case CxlProtocol => true
    case Nvidia => true
    case _ => CanonicalFor(others, c, others.toCper(c, others.toIr(c, s)))
  }

  ghost predicate Settles(table: seq<Definition>, others: Others, guid: Guid, s: seq<byte>) {
    var c := Reader(table, guid);
    c.Some? ==> SettlesFor(others, c.value, s)
  }

  lemma ConvertedCanonical(others: Others, c: Converter, s: seq<byte>)
    requires SettlesFor(others, c, s)
    ensures CanonicalFor(others, c, ConvertFromIr(others, c, ConvertToIr(others, c, s)))
  {
    hide SectionIa32x64.SectionToIr, SectionIa32x64.SectionFromIr, SectionIa32x64.CanonicalSection,
      SectionPciDev.SectionToIr, SectionPciDev.SectionFromIr, SectionPciDev.CanonicalSection,
      SectionCxlProtocol.SectionToIr, SectionCxlProtocol.SectionFromIr, SectionCxlProtocol.CanonicalSection,
      SectionNvidia.SectionToIr, SectionNvidia.SectionFromIr, SectionNvidia.CanonicalSection,
      SectionIa32x64.NormalSection, SectionPciDev.NormalSection, SectionCxlProtocol.NormalSection,
      SectionNvidia.NormalSection;
    match c
    case Ia32x64 =>
      SectionIa32x64.SectionRoundTrip(s);
      Ia32x64Normal.NormalCanonical(s);
    case PciDev =>
      SectionPciDev.SectionRoundTrip(s);
      SectionPciDev.NormalCanonical(s);
    case CxlProtocol =>
      SectionCxlProtocol.SectionRoundTrip(s);
      SectionCxlProtocol.NormalCanonical(s);
    case Nvidia =>
      SectionNvidia.SectionRoundTrip(s);
      SectionNvidia.NormalCanonical(s);
    case _ =>
  }

  lemma UnknownCanonical(s: seq<byte>)
    ensures var r := UnknownFromIr(UnknownToIr(s)); r == [] || Encodable(|r|)
  {
    hide Encode, Payload, Encodable;
    PayloadRoundTrip(s);
    NoPayload();
  }

  /** What is written of a section is canonical for its type, so that a second trip changes nothing. */
  lemma RewrittenCanonical(table: seq<Definition>, others: Others, guid: Guid, s: seq<byte>)
    requires Matched(table) && Settles(table, others, guid, s)
    ensures CanonicalSection(table, others, guid, Rewritten(table, others, guid, s))
  {
    hide ConvertToIr, ConvertFromIr, CanonicalFor, UnknownToIr, UnknownFromIr, Encodable, Reader, Writer, SettlesFor;
    SameConverter(table, guid);
    var c := Reader(table, guid);
    if c.Some? {
      ConvertedCanonical(others, c.value, s);
    } else {
      UnknownCanonical(s);
    }
  }

  // ---- how long a section comes back ------------------------------------------------------------------

  /** The length that a section's own counts and sizes give it. */
  ghost function LengthFor(others: Others, c: Converter, s: seq<byte>): nat {
    match c
    case Ia32x64 => SectionIa32x64.SectionEnd(s)
    case PciDev => SectionPciDev.SectionEnd(s)
    case CxlProtocol => SectionCxlProtocol.SectionEnd(s)
    case Nvidia => SectionNvidia.SectionEnd(s)
    case _ => |others.toCper(c, others.toIr(c, s))|
  }

  /** A section without a converter keeps its length unless it is too long for base64 text. */
  ghost function LengthBack(table: seq<Definition>, others: Others, guid: Guid, s: seq<byte>): nat {
    var c := Reader(table, guid);
    if c.Some? then LengthFor(others, c.value, s) else if Encodable(|s|) then |s| else 0
  }

  lemma ConvertedLength(others: Others, c: Converter, s: seq<byte>)
    ensures |ConvertFromIr(others, c, ConvertToIr(others, c, s))| == LengthFor(others, c, s)
  {
    hide SectionIa32x64.SectionToIr, SectionIa32x64.SectionFromIr, SectionIa32x64.NormalSection,
      SectionIa32x64.SectionEnd, SectionPciDev.SectionToIr, SectionPciDev.SectionFromIr, SectionPciDev.NormalSection,
      SectionPciDev.SectionEnd, SectionCxlProtocol.SectionToIr, SectionCxlProtocol.SectionFromIr,
      SectionCxlProtocol.NormalSection, SectionCxlProtocol.SectionEnd, SectionNvidia.SectionToIr,
      SectionNvidia.SectionFromIr, SectionNvidia.NormalSection, SectionNvidia.SectionEnd;
    match c
    case Ia32x64 =>
      SectionIa32x64.SectionRoundTrip(s);
      SectionIa32x64.ReservedKept(s);
    case PciDev =>
      SectionPciDev.SectionRoundTrip(s);
      SectionPciDev.NormalLength(s);
    case CxlProtocol =>
      SectionCxlProtocol.SectionRoundTrip(s);
      SectionCxlProtocol.NormalLength(s);
    case Nvidia =>
      SectionNvidia.SectionRoundTrip(s);
      SectionNvidia.NormalLength(s);
    case _ =>
  }

  lemma UnknownLength(s: seq<byte>)
    ensures |UnknownFromIr(UnknownToIr(s))| == if Encodable(|s|) then |s| else 0
  {
    hide Encode, Payload, Encodable;
    PayloadRoundTrip(s);
    NoPayload();
  }

  /** What is written of a section is as long as the section's counts and sizes say, however long the section is. */
  lemma RewrittenLength(table: seq<Definition>, others: Others, guid: Guid, s: seq<byte>)
    requires Matched(table)
    ensures |Rewritten(table, others, guid, s)| == LengthBack(table, others, guid, s)
  {
    hide ConvertToIr, ConvertFromIr, UnknownToIr, UnknownFromIr, Encodable, Reader, Writer, LengthFor;
    SameConverter(table, guid);
    var c := Reader(table, guid);
    if c.Some? {
      ConvertedLength(others, c.value, s);
    } else {
      UnknownLength(s);
    }
  }

  // ---- sections that are missing --------------------------------------------------------------------------

  /** Whether an object can be given to a converter: json-c aborts the program where an array is expected and there is
      none. */
  predicate WritableFor(c: Converter, ir: Json) {
    match c
    case Ia32x64 => SectionIa32x64.Writable(ir)
    case PciDev => SectionPciDev.Writable(ir)
    case Nvidia => SectionNvidia.Writable(ir)
    case _ => true
  }

  predicate Writable(table: seq<Definition>, guid: Guid, ir: Json) {
    var c := Writer(table, guid);
    c.Some? ==> WritableFor(c.value, ir)
  }

  /** Whether sections of a type are written from an array that has to be there. */
  predicate NeedsArray(table: seq<Definition>, guid: Guid) {
    Reader(table, guid) == Some(PciDev) || Reader(table, guid) == Some(Nvidia)
  }

  /** What is read of a section can be written. */
  lemma ReadWritable(table: seq<Definition>, others: Others, guid: Guid, s: seq<byte>)
    requires Matched(table)
    ensures Writable(table, guid, SectionToIr(table, others, guid, s))
  {
    hide SectionIa32x64.SectionToIr, SectionIa32x64.Writable, SectionPciDev.SectionToIr, SectionPciDev.Writable,
      SectionCxlProtocol.SectionToIr, SectionNvidia.SectionToIr, SectionNvidia.Writable, Reader, Writer, UnknownToIr;
    SameConverter(table, guid);
    SectionIa32x64.ReadWritable(s);
    SectionPciDev.ReadWritable(s);
    SectionNvidia.ReadWritable(s);
  }

  /** What comes of a section that could not be read can be written unless an array is needed. */
  lemma MissingWritable(table: seq<Definition>, guid: Guid)
    requires Matched(table)
    ensures Writable(table, guid, Null) <==> !NeedsArray(table, guid)
  {
    hide SectionIa32x64.Writable, SectionPciDev.Writable, SectionNvidia.Writable, Reader, Writer,
      SectionIa32x64.SectionFromIr, SectionPciDev.SectionFromIr, SectionNvidia.SectionFromIr;
    SameConverter(table, guid);
    SectionIa32x64.MissingSection();
    SectionPciDev.MissingSection();
    SectionNvidia.MissingSection();
  }

  /** A section that could not be read is written as a fixed part of zeros, or not at all. */
  ghost function MissingLength(table: seq<Definition>, others: Others, guid: Guid): nat {
    var c := Reader(table, guid);
    if c.None? then 0
    else
      match c.value
      case Ia32x64 => SectionIa32x64.RECORD_SIZE
      case PciDev => SectionPciDev.FIXED_SIZE
      case CxlProtocol => SectionCxlProtocol.FIXED_SIZE
      case Nvidia => SectionNvidia.FIXED_SIZE
      case other => |others.toCper(other, Null)|
  }

  lemma MissingRewritten(table: seq<Definition>, others: Others, guid: Guid)
    requires Matched(table)
    ensures |SectionFromIr(table, others, guid, Null)| == MissingLength(table, others, guid)
  {
    hide SectionIa32x64.SectionFromIr, SectionPciDev.SectionFromIr, SectionCxlProtocol.SectionFromIr,
      SectionNvidia.SectionFromIr, SectionIa32x64.Writable, SectionPciDev.Writable, SectionNvidia.Writable, Reader,
      Writer, Payload;
    SameConverter(table, guid);
    SectionIa32x64.MissingSection();
    SectionPciDev.MissingSection();
    SectionCxlProtocol.MissingSection();
    SectionNvidia.MissingSection();
    NoPayload();
  }

  // ---- the loops over the table ---------------------------------------------------------------------

  method FindReader(table: seq<Definition>, guid: Guid) returns (c: Option<Converter>)
    ensures c == Reader(table, guid)
  {
    for i := 0 to |table|
      invariant i <= ReaderRow(table, guid)
    {
      var equal := GuidEqual(table[i].guid, guid);
      if equal && table[i].toIr.Some? {
        return table[i].toIr;
      }
    }
    c := None;
  }

  method FindWriter(table: seq<Definition>, guid: Guid) returns (c: Option<Converter>)
    ensures c == Writer(table, guid)
  {
    for i := 0 to |table|
      invariant i <= WriterRow(table, guid)
    {
      var equal := GuidEqual(table[i].guid, guid);
      if equal && table[i].toCper.Some? {
        return table[i].toCper;
      }
    }
    c := None;
  }

  method Convert(others: Others, c: Converter, section: seq<byte>) returns (ir: Json)
    ensures ir == ConvertToIr(others, c, section)
  {
    hide SectionIa32x64.SectionToIr, SectionPciDev.SectionToIr, SectionCxlProtocol.SectionToIr,
      SectionNvidia.SectionToIr,
      SectionIa32x64.SectionEnd, SectionPciDev.SectionEnd, SectionCxlProtocol.SectionEnd, SectionNvidia.SectionEnd;
    var end;
    match c
    case Ia32x64 =>
      ir, end := SectionIa32x64.ReadSection(section);
    case PciDev =>
      ir, end := SectionPciDev.ReadSection(section);
    case CxlProtocol =>
      ir, end := SectionCxlProtocol.ReadSection(section);
    case Nvidia =>
      ir, end := SectionNvidia.ReadSection(section);
    case _ =>
      ir := others.toIr(c, section);
  }

  method ConvertSection(table: seq<Definition>, others: Others, guid: Guid, section: seq<byte>) returns (ir: Json)
    ensures ir == SectionToIr(table, others, guid, section)
  {
    hide ConvertToIr, Reader, Encode, Encodable;
    var c := FindReader(table, guid);
    if c.Some? {
      ir := Convert(others, c.value, section);
    } else {
      ir := Obj(map[]);
      var encoded := Base64Encode(section);
      if encoded.Some? {
        ir := Obj(map["data" := Str(encoded.value)]);
      }
    }
  }

  method WriteConverted(others: Others, c: Converter, ir: Json, out: File)
    requires WritableFor(c, ir)
    modifies out
    ensures out.Holds(old(out.data), old(out.pos), ConvertFromIr(others, c, ir))
  {
    hide SectionIa32x64.SectionFromIr, SectionPciDev.SectionFromIr, SectionCxlProtocol.SectionFromIr,
      SectionNvidia.SectionFromIr, SectionIa32x64.Writable, SectionPciDev.Writable, SectionNvidia.Writable, Patch;
    match c
    case Ia32x64 =>
      SectionIa32x64.WriteSection(ir, out);
    case PciDev =>
      SectionPciDev.WriteSection(ir, out);
    case CxlProtocol =>
      SectionCxlProtocol.WriteSection(ir, out);
    case Nvidia =>
      SectionNvidia.WriteSection(ir, out);
    case _ =>
      out.Write(others.toCper(c, ir));
  }

  method IrSectionToCper(table: seq<Definition>, others: Others, guid: Guid, ir: Json, out: File)
    requires Writable(table, guid, ir)
    modifies out
    ensures out.Holds(old(out.data), old(out.pos), SectionFromIr(table, others, guid, ir))
  {
    hide ConvertFromIr, Writer, Payload, Patch, WritableFor;
    var c := FindWriter(table, guid);
    if c.Some? {
      WriteConverted(others, c.value, ir, out);
    } else {
      WritePayload(GetString(Get(ir, "data")), out);
    }
  }
}
