/** The reader: a record stream to the intermediate representation. */
module CperParse {
  import opened Bytes
  import opened CperRecord
  import opened CperUtils
  import opened Guids
  import opened Json
  import opened Names
  import opened Options
  import opened Streams
  import Sections

  // ---- the header -----------------------------------------------------------------------------------

  function NotificationName(g: Guid): string {
    if g == CMC_NOTIFICATION then "CMC"
    else if g == CPE_NOTIFICATION then "CPE"
    else if g == MCE_NOTIFICATION then "MCE"
    else if g == PCIE_NOTIFICATION then "PCIe"
    else if g == INIT_NOTIFICATION then "INIT"
    else if g == NMI_NOTIFICATION then "NMI"
    else if g == BOOT_NOTIFICATION then "Boot"
    else if g == DMAR_NOTIFICATION then "DMAr"
    else if g == SEA_NOTIFICATION then "SEA"
    else if g == SEI_NOTIFICATION then "SEI"
    else if g == PEI_NOTIFICATION then "PEI"
    else if g == CXL_NOTIFICATION then "CXL Component"
    else "Unknown"
  }

  function HeaderKeys(): seq<string> {
    ["revision", "sectionCount", "severity", "validationBits", "recordLength", "timestamp", "timestampIsPrecise",
     "platformID", "partitionID", "creatorID", "notificationType", "recordID", "flags", "persistenceInfo"]
  }

  function When(present: bool, j: Json): Option<Json> {
    if present then Some(j) else None
  }

  /** Whether the header says its platform ID, timestamp and partition ID are there. */
  predicate HasPlatform(h: Header) { Bit(h.validationBits, 0) }

  predicate HasTimestamp(h: Header) { Bit(h.validationBits, 1) }

  predicate HasPartition(h: Header) { Bit(h.validationBits, 2) }

  function HeaderValues(h: Header): (vs: seq<Option<Json>>)
    ensures |vs| == |HeaderKeys()|
  {
    [Some(RevisionToIr(h.revision)),
     Some(Int(h.sectionCount)),
     Some(SeverityToIr(h.errorSeverity)),
     Some(BitfieldToIr(h.validationBits, HeaderValidNames())),
     Some(Int(h.recordLength)),
     When(HasTimestamp(h), Str(TimestampToString(h.timeStamp))),
     When(HasTimestamp(h), Flag(h.timeStamp.flag)),
     When(HasPlatform(h), Str(GuidToString(h.platformID))),
     When(HasPartition(h), Str(GuidToString(h.partitionID))),
     Some(Str(GuidToString(h.creatorID))),
     Some(NotificationToIr(h.notificationType)),
     Some(Int(h.recordID)),
     Some(Pair(h.flags, HeaderFlags)),
     Some(Int(h.persistenceInfo))]
  }

  function NotificationToIr(g: Guid): Json {
    Obj(map["guid" := Str(GuidToString(g)), "type" := Str(NotificationName(g))])
  }

  function HeaderToIr(h: Header): Json {
    Obj(Present(HeaderKeys(), HeaderValues(h)))
  }

  // ---- section descriptors ----------------------------------------------------------------------------

  function DescriptorKeys(): seq<string> {
    ["sectionOffset", "sectionLength", "revision", "validationBits", "flags", "sectionType", "fruID", "fruText",
      "severity"]
  }

  predicate HasFruId(d: Descriptor) { Bit(d.secValidMask, 0) }

  predicate HasFruText(d: Descriptor) { Bit(d.secValidMask, 1) }

  function SectionTypeToIr(table: seq<Sections.Definition>, g: Guid): Json {
    Obj(map["data" := Str(GuidToString(g)), "type" := Str(Sections.ReadableName(table, g))])
  }

  function DescriptorValues(table: seq<Sections.Definition>, d: Descriptor): (vs: seq<Option<Json>>)
    ensures |vs| == |DescriptorKeys()|
  {
    [Some(Int(d.sectionOffset)),
     Some(Int(d.sectionLength)),
     Some(RevisionToIr(d.revision)),
     Some(BitfieldToIr(d.secValidMask, DescriptorValidNames())),
     Some(BitfieldToIr(d.sectionFlags, DescriptorFlagNames())),
     Some(SectionTypeToIr(table, d.sectionType)),
     When(HasFruId(d), Str(GuidToString(d.fruId))),
     When(HasFruText(d), Str(CString(d.fruString))),
     Some(SeverityToIr(d.severity))]
  }

  function DescriptorToIr(table: seq<Sections.Definition>, d: Descriptor): Json {
    Obj(Present(DescriptorKeys(), DescriptorValues(table, d)))
  }

  // ---- sections, where a descriptor says they are -------------------------------------------------------

  function HeaderAt(data: seq<byte>, base: nat): Header {
    HeaderOf(At(data, base, HEADER_SIZE))
  }

  function DescriptorAt(data: seq<byte>, pos: nat): Descriptor {
    DescriptorOf(At(data, pos, DESCRIPTOR_SIZE))
  }

  predicate SectionInRange(data: seq<byte>, base: nat, d: Descriptor) {
    CanRead(data, base + d.sectionOffset, d.sectionLength)
  }

  function SectionAt(data: seq<byte>, base: nat, d: Descriptor): seq<byte> {
    At(data, base + d.sectionOffset, d.sectionLength)
  }

  /** A section that cannot be read becomes null. */
  function SectionIr(table: seq<Sections.Definition>, others: Sections.Others, data: seq<byte>, base: nat,
                     d: Descriptor): Json {
    if SectionInRange(data, base, d) then Sections.SectionToIr(table, others, d.sectionType, SectionAt(data, base, d))
    else Null
  }

  /** Reading a section leaves the stream where it was, but failing to leaves it where the read ended. */
  function AfterSection(data: seq<byte>, base: nat, pos: nat, d: Descriptor): nat {
    if SectionInRange(data, base, d) then pos else AfterRead(data, base + d.sectionOffset, d.sectionLength)
  }

  // ---- the record -----------------------------------------------------------------------------------------

  /** How far the reader got: whether it could read on, where the stream stands, and what it has collected. */
  datatype Walk = Walk(ok: bool, pos: nat, descriptors: seq<Json>, sections: seq<Json>)

  /** One turn of the loop: the next descriptor, then the section it describes. */
  function Step(table: seq<Sections.Definition>, others: Sections.Others, data: seq<byte>, base: nat, w: Walk): Walk {
    if !w.ok then w
    else if !CanRead(data, w.pos, DESCRIPTOR_SIZE) then
      w.(ok := false, pos := AfterRead(data, w.pos, DESCRIPTOR_SIZE))
    else
      var d := DescriptorAt(data, w.pos);
      Walk(true, AfterSection(data, base, w.pos + DESCRIPTOR_SIZE, d),
           w.descriptors + [DescriptorToIr(table, d)], w.sections + [SectionIr(table, others, data, base, d)])
  }

  function WalkTo(table: seq<Sections.Definition>, others: Sections.Others, data: seq<byte>, base: nat, n: nat): Walk {
    if n == 0 then Walk(true, base + HEADER_SIZE, [], [])
    else Step(table, others, data, base, WalkTo(table, others, data, base, n - 1))
  }

  /** Whatever the stream holds, the two arrays grow together, by one in every turn that reads a descriptor. */
  lemma {:induction false} EqualLengths(table: seq<Sections.Definition>, others: Sections.Others, data: seq<byte>,
                                        base: nat, n: nat)
    ensures var w := WalkTo(table, others, data, base, n);
      |w.descriptors| == |w.sections| <= n && (w.ok ==> |w.descriptors| == n)
  {
    hide DescriptorAt, AfterSection, AfterRead, CanRead, DescriptorToIr, SectionIr;
    if n > 0 {
      EqualLengths(table, others, data, base, n - 1);
    }
  }

  function RecordIr(header: Json, descriptors: seq<Json>, sections: seq<Json>): Json {
    Obj(map["header" := header, "sectionDescriptors" := Arr(descriptors), "sections" := Arr(sections)])
  }

  /** Whether a header can be read and starts with the signature. */
  predicate Accepted(data: seq<byte>, base: nat) {
    CanRead(data, base, HEADER_SIZE) && HeaderAt(data, base).signatureStart == SIGNATURE_START
  }

  function SectionCount(data: seq<byte>, base: nat): nat {
    HeaderAt(data, base).sectionCount
  }

  function RecordToIr(table: seq<Sections.Definition>, others: Sections.Others, data: seq<byte>, base: nat): Json {
    if !Accepted(data, base) then Null
    else
      var w := WalkTo(table, others, data, base, SectionCount(data, base));
      if w.ok then RecordIr(HeaderToIr(HeaderAt(data, base)), w.descriptors, w.sections) else Null
  }

  lemma {:induction false} FailedForGood(table: seq<Sections.Definition>, others: Sections.Others, data: seq<byte>,
                                         base: nat, i: nat, n: nat)
    requires i <= n && !WalkTo(table, others, data, base, i).ok
    ensures !WalkTo(table, others, data, base, n).ok
    decreases n
  {
    hide DescriptorAt, AfterSection, AfterRead, CanRead, DescriptorToIr, SectionIr;
    if i < n {
      FailedForGood(table, others, data, base, i, n - 1);
    }
  }

  method CperSectionToIr(table: seq<Sections.Definition>, others: Sections.Others, handle: File, base: nat,
                         descriptor: Descriptor) returns (ir: Json)
    modifies handle
    ensures handle.data == old(handle.data)
    ensures handle.pos == AfterSection(handle.data, base, old(handle.pos), descriptor)
    ensures ir == SectionIr(table, others, handle.data, base, descriptor)
  {
    hide Sections.SectionToIr;
    var position := handle.Tell();
    handle.Seek(base + descriptor.sectionOffset);
    var ok, section := handle.Read(descriptor.sectionLength);
    if !ok {
      return Null;
    }
    handle.Seek(position);
    ir := Sections.ConvertSection(table, others, descriptor.sectionType, section);
  }

  method CperToIr(table: seq<Sections.Definition>, others: Sections.Others, file: File) returns (ir: Json)
    modifies file
    ensures file.data == old(file.data)
    ensures ir == RecordToIr(table, others, file.data, old(file.pos))
  {
    hide HeaderToIr, DescriptorToIr, SectionIr, HeaderOf, DescriptorOf, AfterSection;
    var base := file.Tell();
    var ok, item := file.Read(HEADER_SIZE);
    if !ok {
      return Null;
    }
    var header := HeaderOf(item);
    if header.signatureStart != SIGNATURE_START {
      return Null;
    }
    var descriptors: seq<Json>, sections: seq<Json> := [], [];
    for i := 0 to header.sectionCount
      invariant file.data == old(file.data)
      invariant WalkTo(table, others, file.data, base, i) == Walk(true, file.pos, descriptors, sections)
    {
      ok, item := file.Read(DESCRIPTOR_SIZE);
      if !ok {
        assert !WalkTo(table, others, file.data, base, i + 1).ok;
        FailedForGood(table, others, file.data, base, i + 1, header.sectionCount);
        return Null;
      }
      var descriptor := DescriptorOf(item);
      descriptors := descriptors + [DescriptorToIr(table, descriptor)];
      var section := CperSectionToIr(table, others, file, base, descriptor);
      sections := sections + [section];
    }
    ir := RecordIr(HeaderToIr(header), descriptors, sections);
  }

  // ---- a single section ---------------------------------------------------------------------------------

  function SingleIr(descriptor: Json, section: Json): Json {
    Obj(map["sectionDescriptor" := descriptor, "section" := section])
  }

  function SingleToIr(table: seq<Sections.Definition>, others: Sections.Others, data: seq<byte>, base: nat): Json {
    if !CanRead(data, base, DESCRIPTOR_SIZE) then Null
    else
      var d := DescriptorAt(data, base);
      SingleIr(DescriptorToIr(table, d), SectionIr(table, others, data, base, d))
  }

  method CperSingleSectionToIr(table: seq<Sections.Definition>, others: Sections.Others, file: File) returns (ir: Json)
    modifies file
    ensures file.data == old(file.data)
    ensures ir == SingleToIr(table, others, file.data, old(file.pos))
  {
    hide DescriptorToIr, SectionIr, DescriptorOf;
    var base := file.Tell();
    var ok, item := file.Read(DESCRIPTOR_SIZE);
    if !ok {
      return Null;
    }
    var descriptor := DescriptorOf(item);
    var section := CperSectionToIr(table, others, file, base, descriptor);
    ir := SingleIr(DescriptorToIr(table, descriptor), section);
  }
}
