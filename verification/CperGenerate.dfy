/** The generator of whole records: it computes the offsets and lengths that the reader trusts. */
module CperGenerate {
  import opened Bytes
  import opened CommonUtils
  import opened CperRecord
  import opened CperUtils
  import opened GenUtils
  import opened Guids
  import opened HeaderRoundTrip
  import opened Options
  import opened Streams
  import GenSectionArm
  import GenSectionCxlProtocol
  import GenSectionIa32x64
  import GenSectionPciDev
  import SectionCxlProtocol
  import SectionIa32x64
  import SectionPciDev
  import Sections

  /** A section generator: the type it stands for, the name it is asked for by, and whose sections it makes. */
  datatype Generator = Generator(guid: Guid, shortName: string, kind: Sections.Converter)

  function GeneratorDefinitions(): seq<Generator> {
    [Generator(PROCESSOR_GENERIC_SECTION, "generic", Sections.Generic),
     Generator(IA32X64_SECTION, "ia32x64", Sections.Ia32x64),
     Generator(ARM_SECTION, "arm", Sections.Arm),
     Generator(MEMORY_SECTION, "memory", Sections.Memory),
     Generator(MEMORY2_SECTION, "memory2", Sections.Memory2),
     Generator(PCIE_SECTION, "pcie", Sections.Pcie),
     Generator(FIRMWARE_SECTION, "firmware", Sections.Firmware),
     Generator(PCI_BUS_SECTION, "pcibus", Sections.PciBus),
     Generator(PCI_DEV_SECTION, "pcidev", Sections.PciDev),
     Generator(DMAR_GENERIC_SECTION, "dmargeneric", Sections.DmarGeneric),
     Generator(DMAR_VTD_SECTION, "dmarvtd", Sections.DmarVtd),
     Generator(DMAR_IOMMU_SECTION, "dmariommu", Sections.DmarIommu),
     Generator(CCIX_PER_SECTION, "ccixper", Sections.CcixPer),
     Generator(CXL_PROTOCOL_SECTION, "cxlprotocol", Sections.CxlProtocol),
     Generator(CXL_MEDIA_SECTION, "cxlcomponent-media", Sections.CxlComponent),
     Generator(CXL_DRAM_SECTION, "cxlcomponent-dram", Sections.CxlComponent),
     Generator(CXL_MEMORY_SECTION, "cxlcomponent-memory", Sections.CxlComponent),
     Generator(CXL_PSWITCH_SECTION, "cxlcomponent-pswitch", Sections.CxlComponent),
     Generator(CXL_VSWITCH_SECTION, "cxlcomponent-vswitch", Sections.CxlComponent),
     Generator(CXL_MLD_SECTION, "cxlcomponent-mld", Sections.CxlComponent),
     Generator(NVIDIA_SECTION, "nvidia", Sections.Nvidia)]
  }

  /** The first generator of this name. */
  function Named(table: seq<Generator>, name: string): Option<Generator> {
    if table == [] then None else if table[0].shortName == name then Some(table[0]) else Named(table[1..], name)
  }

  method FindGenerator(table: seq<Generator>, name: string) returns (g: Option<Generator>)
    ensures g == Named(table, name)
  {
    assert table[0..] == table;
    for i := 0 to |table|
      invariant Named(table, name) == Named(table[i..], name)
    {
      if table[i].shortName == name {
        return Some(table[i]);
      }
      assert table[i..][1..] == table[i + 1..];
    }
    g := None;
  }

  // ---- sections -------------------------------------------------------------------------------------

  /** No section of the three generators below is longer than this. */
  const MAX_SECTION: nat := 0x1000

  /** What is known of a generated section: nothing for the generators that are not part of this model. */
  ghost predicate GeneratedBy(kind: Sections.Converter, s: seq<byte>) {
    match kind
    case Ia32x64 => SectionIa32x64.CanonicalSection(s) && 0 < |s| <= MAX_SECTION
    case PciDev => SectionPciDev.CanonicalSection(s) && 0 < |s| <= MAX_SECTION
    case CxlProtocol => SectionCxlProtocol.CanonicalSection(s) && 0 < |s| <= MAX_SECTION
    case _ => true
  }

  /** The name of a generator whose sections are known to be canonical. */
  predicate Modelled(table: seq<Generator>, name: string) {
    var g := Named(table, name);
    name != "unknown" && g.Some? && g.value.kind in [Sections.Ia32x64, Sections.PciDev, Sections.CxlProtocol]
  }

  ghost predicate GeneratedFor(table: seq<Generator>, name: string, s: seq<byte>) {
    var g := Named(table, name);
    if name == "unknown" then |s| < 0x100
    else if g.None? then s == []
    else GeneratedBy(g.value.kind, s)
  }

  method GenerateSection(table: seq<Generator>, name: string) returns (section: array<byte>)
    ensures fresh(section) && GeneratedFor(table, name, section[..])
  {
    hide SectionIa32x64.CanonicalSection, SectionPciDev.CanonicalSection, SectionCxlProtocol.CanonicalSection,
      GenSectionIa32x64.InStep, GenSectionArm.LaidOut, Named, At, U64;
    var size := Rand();
    if name == "unknown" {
      section := GenerateRandomBytes(size % 0x100);
      return;
    }
    var g := FindGenerator(table, name);
    if g.None? {
      section := GenerateRandomBytes(0);
      return;
    }
    match g.value.kind
    case Ia32x64 =>
      ghost var errors, contexts;
      section, errors, contexts := GenSectionIa32x64.GenerateSectionIa32x64();
    case Arm =>
      ghost var errors, contexts, vendorLen;
      section, errors, contexts, vendorLen := GenSectionArm.GenerateSectionArm();
    case PciDev =>
      section := GenSectionPciDev.GenerateSectionPciDev();
    case CxlProtocol =>
      section := GenSectionCxlProtocol.GenerateSectionCxlProtocol();
    case _ =>
      section := GenerateRandomBytes(size);
  }

  // ---- descriptors -----------------------------------------------------------------------------------

  const WRAP: nat := 0x1_0000_0000

  /** The total length of the first `n` sections. */
  function LengthBefore(lengths: seq<nat>, n: nat): nat
    requires n <= |lengths|
  {
    if n == 0 then 0 else LengthBefore(lengths, n - 1) + lengths[n - 1]
  }

  /** Where the sections of a record with `n` of them start. */
  function SectionsStart(n: nat): nat {
    HEADER_SIZE + DESCRIPTOR_SIZE * n
  }

  /** The running sum is kept in 32 bits. */
  method SectionOffset(lengths: seq<nat>, index: nat, numSections: nat) returns (offset: u32)
    requires index <= |lengths|
    ensures offset == (SectionsStart(numSections) + LengthBefore(lengths, index)) % 0x1_0000_0000
  {
    offset := SectionsStart(numSections) % WRAP;
    for i := 0 to index
      invariant offset == (SectionsStart(numSections) + LengthBefore(lengths, i)) % WRAP
    {
      ModAdd(SectionsStart(numSections) + LengthBefore(lengths, i), lengths[i]);
      offset := (offset + lengths[i]) % WRAP;
    }
  }

  lemma ModAdd(x: nat, y: nat)
    ensures (x % WRAP + y) % WRAP == (x + y) % WRAP
  {
  }

  /** Replaces early NULs, and nothing else, and terminates the text. */
  method FixFruText(random: seq<byte>) returns (text: seq<byte>)
    requires |random| == 20
    ensures |text| == 20 && CleanText(text) && NoEarlyNul(text)
    ensures forall j :: 0 <= j < 19 && random[j] != 0 ==> text[j] == random[j]
  {
    text := random;
    for i := 0 to 20
      invariant |text| == 20
      invariant forall j :: 0 <= j < i && j < 19 ==> text[j] != 0
      invariant forall j :: 0 <= j < 20 && (i <= j || (j < 19 && random[j] != 0)) ==> text[j] == random[j]
      invariant i == 20 ==> text[19] == 0
    {
      if text[i] == 0 {
        var r := Rand();
        text := text[i := r % 127 + 1];
      }
      if i == 19 {
        text := text[i := 0];
      }
    }
  }

  ghost predicate NoEarlyNul(text: seq<byte>) {
    |text| == 20 && text[19] == 0 && forall j :: 0 <= j < 19 ==> text[j] != 0
  }

  /** Both validation bits set, reserved bits cleared, one of the four severities, and a text of nineteen characters. */
  ghost predicate Marked(d: Descriptor) {
    && d.secValidMask == 3 && d.reserved == 0 && d.sectionFlags < 0x100 && d.severity < 4 && NoEarlyNul(d.fruString)
  }

  /** What a generated descriptor says about section `i` of `n`. */
  ghost predicate DescriptorFor(table: seq<Generator>, name: string, lengths: seq<nat>, i: nat, n: nat, d: Descriptor)
    requires i < |lengths|
  {
    && CanonicalDescriptor(d) && Marked(d)
    && d.sectionLength == lengths[i] % 0x1_0000_0000
    && d.sectionOffset == (SectionsStart(n) + LengthBefore(lengths, i)) % 0x1_0000_0000
    && TypedAs(table, name, d)
  }

  /** A section asked for by name has that type; one of unknown type may have any. */
  ghost predicate TypedAs(table: seq<Generator>, name: string, d: Descriptor) {
    name != "unknown" ==> Named(table, name).Some? && d.sectionType == Named(table, name).value.guid
  }

  lemma MarkedPresent(d: Descriptor)
    requires Marked(d)
    ensures CanonicalDescriptor(d)
  {
    assert CleanText(d.fruString);
  }

  /** Random bytes with the reserved bits cleared, both validation bits set and the place of the section filled in. */
  method GenerateSectionDescriptor(table: seq<Generator>, name: string, lengths: seq<nat>, index: nat, numSections: nat)
    returns (descriptor: Option<Descriptor>)
    requires index < |lengths|
    ensures descriptor.Some? <==> name == "unknown" || Named(table, name).Some?
    ensures descriptor.Some? ==> DescriptorFor(table, name, lengths, index, numSections, descriptor.value)
  {
    hide DescriptorOf, Named, CanonicalDescriptor, CleanText, Low, LengthBefore, NoEarlyNul;
    var random := GenerateRandomBytes(DESCRIPTOR_SIZE);
    var d: DescriptorFields := DescriptorOf(random[..]);
    d := d.(reserved := 0);
    LowAtMost(d.sectionFlags, 8);
    Pow2Values();
    d := d.(sectionFlags := Low(d.sectionFlags, 8));
    d := d.(secValidMask := 3);
    var r := Rand();
    d := d.(severity := r % 4);
    d := d.(sectionLength := lengths[index] % WRAP);
    var offset := SectionOffset(lengths, index, numSections);
    d := d.(sectionOffset := offset);
    var text := FixFruText(d.fruString);
    d := d.(fruString := text);
    MarkedPresent(d);
    if name == "unknown" {
      return Some(d);
    }
    var g := FindGenerator(table, name);
    if g.None? {
      return None;
    }
    d := d.(sectionType := g.value.guid);
    MarkedPresent(d);
    descriptor := Some(d);
  }

  // ---- records -------------------------------------------------------------------------------------------

  datatype Record = Record(header: Header, descriptors: seq<Descriptor>, sections: seq<seq<byte>>)

  function Lengths(sections: seq<seq<byte>>): (ls: seq<nat>)
    ensures |ls| == |sections|
  {
    seq(|sections|, i requires 0 <= i < |sections| => |sections[i]|)
  }

  function DescriptorBlocks(ds: seq<Descriptor>): (bs: seq<seq<byte>>)
    ensures |bs| == |ds|
    ensures forall i :: 0 <= i < |bs| ==> |bs[i]| == DESCRIPTOR_SIZE
  {
    seq(|ds|, i requires 0 <= i < |ds| => DescriptorBytes(ds[i]))
  }

  function RecordBytes(r: Record): seq<byte> {
    HeaderBytes(r.header) + Join(DescriptorBlocks(r.descriptors)) + Join(r.sections)
  }

  /** The size of the record in bytes. */
  function RecordSize(r: Record): nat {
    SectionsStart(|r.sections|) + LengthBefore(Lengths(r.sections), |r.sections|)
  }

  /** A date and a time with every field in its range, the month and the day and the hours counted from one. */
  ghost predicate PlausibleTime(t: Timestamp) {
    && ValidTimestamp(t) && 1 <= BcdToInt(t.month) <= 12 && 1 <= BcdToInt(t.day) <= 31 && 1 <= BcdToInt(t.hours) <= 24
    && t.minutes == 0 && BcdToInt(t.seconds) < 60 && t.flag == 0
  }

  /** The header of a simulated record; what is not set is zero. */
  ghost predicate SimulatedHeader(h: Header, count: nat) {
    && CanonicalHeader(h) && h.sectionCount == count && h.validationBits == 3 && h.flags == 4 && h.errorSeverity < 4
    && PlausibleTime(h.timeStamp) && h.recordID < 0x8000_0000 && h.revision == 0 && h.persistenceInfo == 0
    && h.platformID == h.partitionID == h.creatorID == h.notificationType == ZERO_GUID
  }

  ghost predicate GeneratedHeader(h: Header, count: nat, size: nat) {
    SimulatedHeader(h, count) && h.recordLength == size % 0x1_0000_0000
  }

  /** Section `i` is not empty, and its descriptor speaks of it. */
  ghost predicate GeneratedAt(table: seq<Generator>, names: seq<string>, r: Record, i: nat)
    requires i < |names| == |r.sections| == |r.descriptors|
  {
    && r.sections[i] != [] && GeneratedFor(table, names[i], r.sections[i])
    && DescriptorFor(table, names[i], Lengths(r.sections), i, |names|, r.descriptors[i])
  }

  /** The records the generator can make of a list of section names. */
  ghost predicate Generated(table: seq<Generator>, names: seq<string>, r: Record) {
    && |r.descriptors| == |r.sections| == |names|
    && GeneratedHeader(r.header, |names|, RecordSize(r))
    && (forall i :: 0 <= i < |names| ==> GeneratedAt(table, names, r, i))
  }

  /** One random field of the timestamp: a number below `n`, counted from `low`. */
  method RandomBcd(n: nat, low: nat) returns (b: byte)
    requires 0 < n <= 100 && low <= 1 && n + low <= 100
    ensures ValidBcd(b) && low <= BcdToInt(b) < n + low
  {
    hide BcdToInt, Bcd, ValidBcd;
    var r := Rand();
    var v := r % n + low;
    b := IntToBcd(v);
    TwoDigits(v);
    TwoDigits(0);
  }

  lemma TwoDigits(v: nat)
    requires v < 100
    ensures ValidBcd(Bcd(v)) && ValidBcd(0) && BcdToInt(Bcd(v)) == v && Bcd(0) == 0
  {
    DivModUnique(Bcd(v), 16, v / 10, v % 10);
  }

  method GenerateTimestamp() returns (t: Timestamp)
    ensures PlausibleTime(t)
  {
    hide BcdToInt, ValidBcd, PlausibleTime;
    var century := RandomBcd(100, 0);
    var year := RandomBcd(100, 0);
    var month := RandomBcd(12, 1);
    var day := RandomBcd(31, 1);
    var hours := RandomBcd(24, 1);
    var seconds := RandomBcd(60, 0);
    t := Timestamp(seconds, 0, hours, 0, day, month, year, century);
    TwoDigits(0);
    TimeMade(t);
  }

  lemma TimeMade(t: Timestamp)
    requires ValidBcd(t.century) && ValidBcd(t.year) && ValidBcd(t.month) && ValidBcd(t.day) && ValidBcd(t.hours)
    requires ValidBcd(t.seconds) && ValidBcd(0) && t.minutes == t.flag == 0
    requires 1 <= BcdToInt(t.month) < 13 && 1 <= BcdToInt(t.day) < 32 && 1 <= BcdToInt(t.hours) < 25
    requires BcdToInt(t.seconds) < 60
    ensures PlausibleTime(t)
  {
  }

  lemma MarkedHeader(h: Header)
    requires h.signatureStart == SIGNATURE_START && h.signatureEnd == SIGNATURE_END && h.validationBits == 3
    requires PlausibleTime(h.timeStamp)
    requires h.partitionID == ZERO_GUID && h.reserved == Zeros(12)
    ensures CanonicalHeader(h)
  {
    hide ValidTimestamp, BcdToInt;
    assert High(3, 0) == 3 && High(3, 1) == 1 && High(3, 2) == 0;
  }

  /** Everything but the record's length, which is known only once the descriptors are made. */
  method GenerateHeader(numSections: u16) returns (header: Header)
    ensures SimulatedHeader(header, numSections)
  {
    hide PlausibleTime, CanonicalHeader;
    var h: HeaderFields := ZERO_HEADER;
    h := h.(signatureStart := SIGNATURE_START);
    h := h.(sectionCount := numSections);
    h := h.(signatureEnd := SIGNATURE_END);
    h := h.(flags := 4);
    var r := Rand();
    h := h.(recordID := r);
    r := Rand();
    h := h.(errorSeverity := r % 4);
    var t := GenerateTimestamp();
    h := h.(timeStamp := t);
    h := h.(validationBits := 0x3);
    assert h.reserved == Zeros(12);
    MarkedHeader(h);
    header := h;
  }

  lemma LengthSet(h: Header, count: nat, length: u32)
    requires SimulatedHeader(h, count)
    ensures SimulatedHeader(h.(recordLength := length), count)
  {
    hide PlausibleTime, ValidTimestamp;
  }

  /** Stops at the first section that comes out empty, which an undefined name makes it do. */
  method GenerateSections(table: seq<Generator>, names: seq<string>) returns (ok: bool, sections: seq<seq<byte>>)
    ensures ok ==> |sections| == |names|
    ensures !ok ==> exists i :: 0 <= i < |names| && GeneratedFor(table, names[i], [])
    ensures ok ==> forall i :: 0 <= i < |names| ==> sections[i] != [] && GeneratedFor(table, names[i], sections[i])
  {
    hide GeneratedFor;
    sections := [];
    for i := 0 to |names|
      invariant |sections| == i
      invariant forall j :: 0 <= j < i ==> sections[j] != [] && GeneratedFor(table, names[j], sections[j])
    {
      var section := GenerateSection(table, names[i]);
      if section.Length == 0 {
        assert section[..] == [] && GeneratedFor(table, names[i], []);
        return false, sections;
      }
      sections := sections + [section[..]];
    }
    ok := true;
  }

  method GenerateDescriptors(table: seq<Generator>, names: seq<string>, sections: seq<seq<byte>>)
    returns (descriptors: seq<Descriptor>)
    requires |sections| == |names|
    requires forall i :: 0 <= i < |names| ==> sections[i] != [] && GeneratedFor(table, names[i], sections[i])
    ensures |descriptors| == |names|
    ensures forall i :: 0 <= i < |names| ==>
      DescriptorFor(table, names[i], Lengths(sections), i, |names|, descriptors[i])
  {
    hide DescriptorFor, Named;
    descriptors := [];
    for i := 0 to |names|
      invariant |descriptors| == i
      invariant forall j :: 0 <= j < i ==> DescriptorFor(table, names[j], Lengths(sections), j, |names|, descriptors[j])
    {
      assert sections[i] != [] && GeneratedFor(table, names[i], sections[i]);
      var descriptor := GenerateSectionDescriptor(table, names[i], Lengths(sections), i, |names|);
      descriptors := descriptors + [descriptor.value];
    }
  }

  method TotalLength(sections: seq<seq<byte>>) returns (total: nat)
    ensures total == SectionsStart(|sections|) + LengthBefore(Lengths(sections), |sections|)
  {
    total := HEADER_SIZE;
    for i := 0 to |sections|
      invariant total == HEADER_SIZE + LengthBefore(Lengths(sections), i)
    {
      total := total + |sections[i]|;
    }
    total := total + |sections| * DESCRIPTOR_SIZE;
  }

  /** Writes blocks one after another. */
  method WriteBlocks(blocks: seq<seq<byte>>, out: File)
    modifies out
    ensures out.Holds(old(out.data), old(out.pos), Join(blocks))
  {
    hide Patch;
    out.HoldsNothing();
    for i := 0 to |blocks|
      invariant out.Holds(old(out.data), old(out.pos), Join(blocks[..i]))
    {
      ghost var d, p := out.data, out.pos;
      out.Write(blocks[i]);
      JoinAppend(blocks[..i], blocks[i]);
      assert blocks[..i + 1] == blocks[..i] + [blocks[i]];
      out.HoldsMore(old(out.data), old(out.pos), Join(blocks[..i]), d, p, blocks[i]);
    }
    assert blocks[..|blocks|] == blocks;
  }

  /** Writes a record with the named sections, or nothing when one of them comes out empty. */
  method GenerateCperRecord(table: seq<Generator>, names: seq<string>, out: File) returns (ghost record: Option<Record>)
    requires |names| < 0x1_0000
    modifies out
    ensures record.None? ==> out.data == old(out.data) && out.pos == old(out.pos)
    ensures record.None? ==> exists i :: 0 <= i < |names| && GeneratedFor(table, names[i], [])
    ensures record.Some? ==> Generated(table, names, record.value)
    ensures record.Some? ==> out.Holds(old(out.data), old(out.pos), RecordBytes(record.value))
  {
    hide GeneratedFor, DescriptorFor, SimulatedHeader, HeaderBytes, DescriptorBlocks, Join, Patch, LengthBefore;
    var ok, sections := GenerateSections(table, names);
    if !ok {
      return None;
    }
    var header := GenerateHeader(|names|);
    var descriptors := GenerateDescriptors(table, names, sections);
    var total := TotalLength(sections);
    LengthSet(header, |names|, total % WRAP);
    header := header.(recordLength := total % WRAP);
    out.Write(HeaderBytes(header));
    ghost var d, p := out.data, out.pos;
    WriteBlocks(DescriptorBlocks(descriptors), out);
    ghost var written := HeaderBytes(header);
    out.HoldsMore(old(out.data), old(out.pos), written, d, p, Join(DescriptorBlocks(descriptors)));
    written := written + Join(DescriptorBlocks(descriptors));
    d, p := out.data, out.pos;
    WriteBlocks(sections, out);
    out.HoldsMore(old(out.data), old(out.pos), written, d, p, Join(sections));
    record := Some(Record(header, descriptors, sections));
  }

  // ---- single sections -------------------------------------------------------------------------------------

  /** Writes a descriptor and its section; the offset is corrected for the missing record header. The name has to be
      defined, since there is no descriptor to write otherwise. */
  method GenerateSingleSectionRecord(table: seq<Generator>, name: string, out: File)
    returns (ghost descriptor: Descriptor, ghost section: seq<byte>)
    requires name == "unknown" || Named(table, name).Some?
    modifies out
    ensures GeneratedFor(table, name, section) && CanonicalDescriptor(descriptor) && Marked(descriptor)
    ensures TypedAs(table, name, descriptor)
    ensures descriptor.sectionOffset == DESCRIPTOR_SIZE && descriptor.sectionLength == |section| % 0x1_0000_0000
    ensures out.Holds(old(out.data), old(out.pos), DescriptorBytes(descriptor) + section)
  {
    hide GeneratedFor, CanonicalDescriptor, Marked, DescriptorBytes, Patch, LengthBefore, Named;
    var bytes := GenerateSection(table, name);
    var generated := GenerateSectionDescriptor(table, name, [bytes.Length], 0, 1);
    var d := generated.value;
    OffsetSet(d, DESCRIPTOR_SIZE);
    d := d.(sectionOffset := DESCRIPTOR_SIZE);
    descriptor, section := d, bytes[..];
    var contents := bytes[..];
    out.Write(DescriptorBytes(d));
    ghost var before, p := out.data, out.pos;
    out.Write(contents);
    out.HoldsMore(old(out.data), old(out.pos), DescriptorBytes(d), before, p, contents);
  }

  lemma OffsetSet(d: Descriptor, offset: u32)
    requires CanonicalDescriptor(d) && Marked(d)
    ensures CanonicalDescriptor(d.(sectionOffset := offset)) && Marked(d.(sectionOffset := offset))
  {
  }
}
