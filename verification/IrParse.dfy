/** The writer: the intermediate representation to a record stream. */
module IrParse {
  import opened Bytes
  import opened CperRecord
  import opened CperUtils
  import opened Guids
  import opened Json
  import opened Names
  import opened Streams
  import Sections

  // ---- the header -------------------------------------------------------------------------------------

  function TimestampFromIr(ir: Json): Timestamp {
    var t := StringToTimestamp(GetString(Get(ir, "timestamp")), ZERO_TIMESTAMP);
    t.(flag := FlagBit(Get(ir, "timestampIsPrecise")))
  }

  function GuidFromIr(ir: Json): Guid {
    StringToGuid(GetString(ir), ZERO_GUID)
  }

  /** The C casts of a JSON number. */
  function CastU32(j: Json): u32 {
    GetUint64(j) % 0x1_0000_0000
  }

  function CastU16(j: Json): u16 {
    GetInt(j) % 0x1_0000
  }

  /** A number too large for its field loses what does not fit. */
  lemma Truncated(high: nat, low32: u32, low16: u16)
    requires high < 0x4000
    ensures CastU32(Int(0x1_0000_0000 * high + low32)) == low32
    ensures CastU16(Int(0x1_0000 * high + low16)) == low16
  {
    DivModUnique(0x1_0000_0000 * high + low32, 0x1_0000_0000, high, low32);
    DivModUnique(0x1_0000 * high + low16, 0x1_0000, high, low16);
  }

  /** Fields whose member is missing keep the zeros of the fresh struct. */
  function HeaderFromIr(ir: Json): Header {
    Header(
      SIGNATURE_START,
      IrToRevision(Get(ir, "revision")),
      SIGNATURE_END,
      CastU16(Get(ir, "sectionCount")),
      CastU32(Get(Get(ir, "severity"), "code")),
      HeaderValidFromIr(ir),
      CastU32(Get(ir, "recordLength")),
      if Get(ir, "timestamp").Null? then ZERO_TIMESTAMP else TimestampFromIr(ir),
      if Get(ir, "platformID").Null? then ZERO_GUID else GuidFromIr(Get(ir, "platformID")),
      if Get(ir, "partitionID").Null? then ZERO_GUID else GuidFromIr(Get(ir, "partitionID")),
      GuidFromIr(Get(ir, "creatorID")),
      GuidFromIr(Get(Get(ir, "notificationType"), "guid")),
      GetUint64(Get(ir, "recordID")),
      CastU32(Get(Get(ir, "flags"), "value")),
      GetUint64(Get(ir, "persistenceInfo")),
      Zeros(12))
  }

  function HeaderValidFromIr(ir: Json): (v: nat)
    ensures v < 8
  {
    assert Pow2(3) == 8;
    IrToBitfield(Get(ir, "validationBits"), HeaderValidNames())
  }

  method IrHeaderToCper(ir: Json) returns (header: Header)
    ensures header == HeaderFromIr(ir)
  {
    hide StringToGuid, StringToTimestamp, IrToBitfield, Get, CastU16, CastU32, GetString, FlagBit, IrToRevision,
      HeaderValidNames, Distinct, GetUint64;
    var h: HeaderFields := ZERO_HEADER;
    h := h.(signatureStart := SIGNATURE_START);
    h := h.(revision := IrToRevision(Get(ir, "revision")));
    h := h.(signatureEnd := SIGNATURE_END);
    h := h.(sectionCount := CastU16(Get(ir, "sectionCount")));
    h := h.(errorSeverity := CastU32(Get(Get(ir, "severity"), "code")));
    HeaderNamesDistinct();
    var valid := ParseBitfield(Get(ir, "validationBits"), HeaderValidNames());
    assert valid == HeaderValidFromIr(ir);
    h := h.(validationBits := valid);
    h := h.(recordLength := CastU32(Get(ir, "recordLength")));
    var timestamp := Get(ir, "timestamp");
    if !timestamp.Null? {
      h := h.(timeStamp := StringToTimestamp(GetString(timestamp), h.timeStamp));
      h := h.(timeStamp := h.timeStamp.(flag := FlagBit(Get(ir, "timestampIsPrecise"))));
    }
    var platform, partition := Get(ir, "platformID"), Get(ir, "partitionID");
    if !platform.Null? {
      h := h.(platformID := StringToGuid(GetString(platform), h.platformID));
    }
    if !partition.Null? {
      h := h.(partitionID := StringToGuid(GetString(partition), h.partitionID));
    }
    h := h.(creatorID := StringToGuid(GetString(Get(ir, "creatorID")), h.creatorID));
    var notification := Get(Get(ir, "notificationType"), "guid");
    h := h.(notificationType := StringToGuid(GetString(notification), h.notificationType));
    h := h.(recordID := GetUint64(Get(ir, "recordID")));
    h := h.(persistenceInfo := GetUint64(Get(ir, "persistenceInfo")));
    h := h.(flags := CastU32(Get(Get(ir, "flags"), "value")));
    assert h.reserved == Zeros(12);
    header := h;
  }

  // ---- section descriptors ------------------------------------------------------------------------------

  function DescriptorFromIr(ir: Json): Descriptor {
    Descriptor(
      CastU32(Get(ir, "sectionOffset")),
      CastU32(Get(ir, "sectionLength")),
      IrToRevision(Get(ir, "revision")),
      DescriptorValidFromIr(ir),
      0,
      DescriptorFlagsFromIr(ir),
      GuidFromIr(Get(Get(ir, "sectionType"), "data")),
      if Get(ir, "fruID").Null? then ZERO_GUID else GuidFromIr(Get(ir, "fruID")),
      CastU32(Get(Get(ir, "severity"), "code")),
      if Get(ir, "fruText").Null? then Zeros(20) else TextBuffer(GetString(Get(ir, "fruText")), 20))
  }

  function DescriptorValidFromIr(ir: Json): (v: nat)
    ensures v < 4
  {
    assert Pow2(2) == 4;
    IrToBitfield(Get(ir, "validationBits"), DescriptorValidNames())
  }

  function DescriptorFlagsFromIr(ir: Json): (v: nat)
    ensures v < 0x100
  {
    Pow2Values();
    DescriptorNamesDistinct();
    IrToBitfield(Get(ir, "flags"), DescriptorFlagNames())
  }

  method IrSectionDescriptorToCper(ir: Json) returns (descriptor: Descriptor)
    ensures descriptor == DescriptorFromIr(ir)
  {
    hide StringToGuid, IrToBitfield, Get, CastU32, IrToRevision, GetString, TextBuffer, DescriptorFlagNames,
      DescriptorValidNames, Distinct;
    var d: DescriptorFields := ZERO_DESCRIPTOR;
    d := d.(sectionOffset := CastU32(Get(ir, "sectionOffset")));
    d := d.(sectionLength := CastU32(Get(ir, "sectionLength")));
    d := d.(revision := IrToRevision(Get(ir, "revision")));
    DescriptorNamesDistinct();
    var valid := ParseBitfield(Get(ir, "validationBits"), DescriptorValidNames());
    assert valid == DescriptorValidFromIr(ir);
    d := d.(secValidMask := valid);
    var flags := ParseBitfield(Get(ir, "flags"), DescriptorFlagNames());
    assert flags == DescriptorFlagsFromIr(ir);
    d := d.(sectionFlags := flags);
    var sectionType := Get(Get(ir, "sectionType"), "data");
    d := d.(sectionType := StringToGuid(GetString(sectionType), d.sectionType));
    var fruId := Get(ir, "fruID");
    if !fruId.Null? {
      d := d.(fruId := StringToGuid(GetString(fruId), d.fruId));
    }
    d := d.(severity := CastU32(Get(Get(ir, "severity"), "code")));
    assert d.fruString == Zeros(20);
    var fruText := Get(ir, "fruText");
    if !fruText.Null? {
      d := d.(fruString := TextBuffer(GetString(fruText), 20));
    }
    descriptor := d;
  }

  // ---- the record -------------------------------------------------------------------------------------------

  function DescriptorsFromIr(ir: Json, n: nat): seq<byte> {
    if n == 0 then [] else DescriptorsFromIr(ir, n - 1) + DescriptorBytes(DescriptorFromIr(ArrayIdx(ir, n - 1)))
  }

  /** The first `n` sections, each converted as its descriptor's type says; their offsets play no part. */
  ghost function SectionsFromIr(table: seq<Sections.Definition>, others: Sections.Others, descriptors: Json,
                                sections: Json, n: nat): seq<byte> {
    if n == 0 then []
    else
      SectionsFromIr(table, others, descriptors, sections, n - 1) +
      Sections.SectionFromIr(table, others, DescriptorFromIr(ArrayIdx(descriptors, n - 1)).sectionType,
        ArrayIdx(sections, n - 1))
  }

  /** Header, descriptors, sections; without the sections when there are not as many as descriptors. */
  ghost function RecordFromIr(table: seq<Sections.Definition>, others: Sections.Others, ir: Json): seq<byte> {
    var descriptors, sections := Get(ir, "sectionDescriptors"), Get(ir, "sections");
    var n := ArrayLength(descriptors);
    HeaderBytes(HeaderFromIr(Get(ir, "header"))) + DescriptorsFromIr(descriptors, n) +
    (if ArrayLength(sections) == n then SectionsFromIr(table, others, descriptors, sections, n) else [])
  }

  /** An object the writer gets through: both arrays are there, and where it comes to writing the sections each can be
      written. */
  predicate WritableRecord(table: seq<Sections.Definition>, ir: Json) {
    var descriptors, sections := Get(ir, "sectionDescriptors"), Get(ir, "sections");
    descriptors.Arr? && sections.Arr? && (|sections.a| == |descriptors.a| ==> AllWritable(table, descriptors, sections))
  }

  predicate AllWritable(table: seq<Sections.Definition>, descriptors: Json, sections: Json) {
    forall i: nat :: i < ArrayLength(descriptors) ==> WritableAt(table, descriptors, sections, i)
  }

  predicate WritableAt(table: seq<Sections.Definition>, descriptors: Json, sections: Json, i: nat) {
    Sections.Writable(table, DescriptorFromIr(ArrayIdx(descriptors, i)).sectionType, ArrayIdx(sections, i))
  }

  method WriteDescriptors(ir: Json, count: nat, out: File) returns (descriptors: seq<Descriptor>)
    requires count > 0 ==> ir.Arr?
    modifies out
    ensures out.Holds(old(out.data), old(out.pos), DescriptorsFromIr(ir, count))
    ensures |descriptors| == count && forall i :: 0 <= i < count ==> descriptors[i] == DescriptorFromIr(ArrayIdx(ir, i))
  {
    hide DescriptorFromIr, DescriptorBytes, Patch;
    descriptors := [];
    out.HoldsNothing();
    for i := 0 to count
      invariant |descriptors| == i && forall j :: 0 <= j < i ==> descriptors[j] == DescriptorFromIr(ArrayIdx(ir, j))
      invariant out.Holds(old(out.data), old(out.pos), DescriptorsFromIr(ir, i))
    {
      var descriptorIr := AskElement(ir, i);
      var descriptor := IrSectionDescriptorToCper(descriptorIr);
      descriptors := descriptors + [descriptor];
      ghost var d, p := out.data, out.pos;
      out.Write(DescriptorBytes(descriptor));
      out.HoldsMore(old(out.data), old(out.pos), DescriptorsFromIr(ir, i), d, p, DescriptorBytes(descriptor));
    }
  }

  method WriteSections(table: seq<Sections.Definition>, others: Sections.Others, ghost descriptorsIr: Json,
                       descriptors: seq<Descriptor>, sections: Json, out: File)
    requires |descriptors| == ArrayLength(descriptorsIr) && AllWritable(table, descriptorsIr, sections)
    requires |descriptors| > 0 ==> sections.Arr?
    requires forall i :: 0 <= i < |descriptors| ==> descriptors[i] == DescriptorFromIr(ArrayIdx(descriptorsIr, i))
    modifies out
    ensures out.Holds(old(out.data), old(out.pos),
                      SectionsFromIr(table, others, descriptorsIr, sections, |descriptors|))
  {
    hide DescriptorFromIr, Sections.SectionFromIr, Sections.Writable, Patch;
    out.HoldsNothing();
    for i := 0 to |descriptors|
      invariant out.Holds(old(out.data), old(out.pos), SectionsFromIr(table, others, descriptorsIr, sections, i))
    {
      ghost var d, p := out.data, out.pos;
      assert WritableAt(table, descriptorsIr, sections, i);
      var section := AskElement(sections, i);
      Sections.IrSectionToCper(table, others, descriptors[i].sectionType, section, out);
      out.HoldsMore(old(out.data), old(out.pos), SectionsFromIr(table, others, descriptorsIr, sections, i), d, p,
        Sections.SectionFromIr(table, others, descriptors[i].sectionType, ArrayIdx(sections, i)));
    }
  }

  method IrToCper(table: seq<Sections.Definition>, others: Sections.Others, ir: Json, out: File)
    requires WritableRecord(table, ir)
    modifies out
    ensures out.Holds(old(out.data), old(out.pos), RecordFromIr(table, others, ir))
  {
    hide HeaderFromIr, HeaderBytes, DescriptorsFromIr, SectionsFromIr, DescriptorFromIr, Patch, Get, AllWritable;
    var header := IrHeaderToCper(Get(ir, "header"));
    out.Write(HeaderBytes(header));
    ghost var written := HeaderBytes(header);
    var descriptorsIr, sections := Get(ir, "sectionDescriptors"), Get(ir, "sections");
    var amtDescriptors := AskLength(descriptorsIr);
    ghost var d, p := out.data, out.pos;
    var descriptors := WriteDescriptors(descriptorsIr, amtDescriptors, out);
    out.HoldsMore(old(out.data), old(out.pos), written, d, p, DescriptorsFromIr(descriptorsIr, amtDescriptors));
    written := written + DescriptorsFromIr(descriptorsIr, amtDescriptors);
    var amtSections := AskLength(sections);
    if amtSections == amtDescriptors {
      d, p := out.data, out.pos;
      WriteSections(table, others, descriptorsIr, descriptors, sections, out);
      out.HoldsMore(old(out.data), old(out.pos), written, d, p,
        SectionsFromIr(table, others, descriptorsIr, sections, amtDescriptors));
    } else {
      assert written + [] == written;
    }
  }

  // ---- a single section -------------------------------------------------------------------------------------

  ghost function SingleFromIr(table: seq<Sections.Definition>, others: Sections.Others, ir: Json): seq<byte> {
    var d := DescriptorFromIr(Get(ir, "sectionDescriptor"));
    DescriptorBytes(d) + Sections.SectionFromIr(table, others, d.sectionType, Get(ir, "section"))
  }

  predicate WritableSingle(table: seq<Sections.Definition>, ir: Json) {
    Sections.Writable(table, DescriptorFromIr(Get(ir, "sectionDescriptor")).sectionType, Get(ir, "section"))
  }

  method IrSingleSectionToCper(table: seq<Sections.Definition>, others: Sections.Others, ir: Json, out: File)
    requires WritableSingle(table, ir)
    modifies out
    ensures out.Holds(old(out.data), old(out.pos), SingleFromIr(table, others, ir))
  {
    hide DescriptorFromIr, DescriptorBytes, Sections.SectionFromIr, Sections.Writable, Patch, Get;
    var descriptor := IrSectionDescriptorToCper(Get(ir, "sectionDescriptor"));
    out.Write(DescriptorBytes(descriptor));
    ghost var d, p := out.data, out.pos;
    Sections.IrSectionToCper(table, others, descriptor.sectionType, Get(ir, "section"), out);
    out.HoldsMore(old(out.data), old(out.pos), DescriptorBytes(descriptor), d, p,
      Sections.SectionFromIr(table, others, descriptor.sectionType, Get(ir, "section")));
  }
}
