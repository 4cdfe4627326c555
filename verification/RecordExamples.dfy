/** Three records that do not survive, byte for byte. */
module RecordExamples {
  import opened Bytes
  import opened CperGenerate
  import opened CperParse
  import opened CperRecord
  import opened GeneratorRoundTrip
  import opened GuidReadings
  import opened Guids
  import opened HeaderRoundTrip
  import opened IrParse
  import opened Options
  import opened RecordLayout
  import opened RecordRoundTrip
  import GenSectionIa32x64
  import SectionIa32x64
  import Sections

  // ---- records of two sections ----------------------------------------------------------------------------

  function Describing(sectionType: Guid, offset: u32, length: u32): Descriptor {
    ZERO_DESCRIPTOR.(sectionType := sectionType, sectionOffset := offset, sectionLength := length)
  }

  function TwoSections(d0: Descriptor, d1: Descriptor, s0: seq<byte>, s1: seq<byte>): Record {
    Record(ZERO_HEADER.(signatureStart := SIGNATURE_START, sectionCount := 2), [d0, d1], [s0, s1])
  }

  /** Where two sections start. */
  const START: u32 := HEADER_SIZE + 2 * DESCRIPTOR_SIZE

  /** The reader finds these descriptors at the front of some bytes. */
  ghost predicate Describe(data: seq<byte>, d0: Descriptor, d1: Descriptor) {
    SectionCount(data, FRONT) == 2 && Desc(data, FRONT, 0) == d0 && Desc(data, FRONT, 1) == d1
  }

  /** Bytes that end with these two sections behind a header and two descriptors. */
  ghost predicate Stored(data: seq<byte>, s0: seq<byte>, s1: seq<byte>) {
    && |data| == START + |s0| + |s1| && At(data, START, |s0|) == s0 && At(data, START + |s0|, |s1|) == s1
  }

  lemma TwoSectionsFound(d0: Descriptor, d1: Descriptor, s0: seq<byte>, s1: seq<byte>, data: seq<byte>)
    requires data == RecordBytes(TwoSections(d0, d1, s0, s1))
    ensures Accepted(data, FRONT) && Describe(data, d0, d1) && Stored(data, s0, s1)
  {
    hide RecordBytes, HeaderBytes, DescriptorBytes, HeaderOf, DescriptorOf, At;
    var r := TwoSections(d0, d1, s0, s1);
    RecordPieces(r);
    RecordPiece(r, 0);
    RecordPiece(r, 1);
    HeaderOfBytes(r.header);
    DescriptorOfBytes(d0);
    DescriptorOfBytes(d1);
    TwoLengths(s0, s1);
  }

  lemma TwoLengths(s0: seq<byte>, s1: seq<byte>)
    ensures var ls := Lengths([s0, s1]);
      LengthBefore(ls, 0) == 0 && LengthBefore(ls, 1) == |s0| && LengthBefore(ls, 2) == |s0| + |s1|
  {
  }

  /** A descriptor of one byte of no particular type. */
  function OneByte(offset: u32): Descriptor {
    Describing(ZERO_GUID, offset, 1)
  }

  const NEXT: u32 := START + 1

  const FIRST: seq<byte> := [1]
  const SECOND: seq<byte> := [2]

  // ---- a record that is given up --------------------------------------------------------------------------

  /** One section of one byte that would lie far behind the record, and one that is there. */
  function LostRecord(): seq<byte> {
    RecordBytes(TwoSections(OneByte(1000), OneByte(START), [], SECOND))
  }

  /** A good header and two descriptors of one byte each, of which only the second can be read. */
  ghost predicate OnlySecond(data: seq<byte>) {
    && Accepted(data, FRONT) && Describe(data, OneByte(1000), OneByte(START))
    && !SectionInRange(data, FRONT, OneByte(1000)) && SectionInRange(data, FRONT, OneByte(START))
  }

  /** Because of its first section the whole record is given up. */
  lemma FirstSectionMissing(table: Table, others: Sections.Others)
    ensures OnlySecond(LostRecord()) && RecordToIr(table, others, LostRecord(), FRONT).Null?
  {
    hide RecordBytes, Accepted, SectionCount, DescriptorAt, RecordToIr, LostRecord, At;
    LostShows();
    LostOutOfStep(LostRecord());
    ReadExactly(table, others, LostRecord(), FRONT);
  }

  lemma LostShows()
    ensures OnlySecond(LostRecord())
  {
    hide RecordBytes, Accepted, SectionCount, DescriptorAt, At;
    TwoSectionsFound(OneByte(1000), OneByte(START), [], SECOND, LostRecord());
  }

  lemma LostOutOfStep(data: seq<byte>)
    requires OnlySecond(data)
    ensures !InStep(data, FRONT, SectionCount(data, FRONT))
    ensures !Resumes(data, FRONT, FirstLost(data, FRONT, 1), SectionCount(data, FRONT))
  {
    hide SectionCount, DescriptorAt, Accepted;
    assert !Passed(data, FRONT, 0);
  }

  // ---- a record whose sections change places ------------------------------------------------------------------

  lemma NoReader()
    ensures Sections.Reader(Sections.SectionDefinitions(), ZERO_GUID) == None
  {
    hide Sections.SectionDefinitions;
    var defs := Sections.SectionDefinitions();
    FirstWordsOfSections();
    FirstWordsSome();
    assert forall i :: 0 <= i < 22 ==> defs[i].guid.data1 == FirstWords()[i] != 0;
  }

  lemma FirstWordsSome()
    ensures |FirstWords()| == 22 && forall i :: 0 <= i < 22 ==> FirstWords()[i] != 0
  {
  }

  /** A section that no converter claims comes back as it was. */
  lemma UnclaimedKept(others: Sections.Others, s: seq<byte>)
    requires |s| == 1
    ensures Sections.Rewritten(Sections.SectionDefinitions(), others, ZERO_GUID, s) == s
  {
    hide Sections.SectionDefinitions, Sections.Reader, Sections.Rewritten;
    NoReader();
    Sections.DefinitionsMatched();
    Sections.SectionRoundTrip(Sections.SectionDefinitions(), others, ZERO_GUID, s);
  }

  /** A record in which the reader finds these two sections. */
  ghost predicate Shows(data: seq<byte>, s0: seq<byte>, s1: seq<byte>) {
    && Accepted(data, FRONT) && SectionCount(data, FRONT) == 2 && Readable(data, FRONT, 2)
    && Section(data, FRONT, 0) == s0 && Section(data, FRONT, 1) == s1
  }

  /** What the program writes of the record it reads at the front of a stream. */
  ghost function Again(others: Sections.Others, data: seq<byte>): seq<byte> {
    Back(Sections.SectionDefinitions(), others, data, FRONT)
  }

  lemma AgainRewritten(others: Sections.Others, data: seq<byte>, s0: seq<byte>, s1: seq<byte>)
    requires Shows(data, s0, s1)
    ensures Again(others, data) == RewrittenRecord(Sections.SectionDefinitions(), others, data, FRONT)
  {
    hide Sections.SectionDefinitions, Accepted, SectionCount, Readable, Section, RecordFromIr, RecordToIr,
      RewrittenRecord, WritableRecord, Sections.Matched;
    Sections.DefinitionsMatched();
    ReadableInStep(data, FRONT, 2);
    ReadableWritable(Sections.SectionDefinitions(), others, data, FRONT);
    RecordTrip(Sections.SectionDefinitions(), others, data, FRONT);
  }

  /** Two sections stored the other way round than they are described. */
  function CrossedRecord(): seq<byte> {
    RecordBytes(TwoSections(OneByte(NEXT), OneByte(START), FIRST, SECOND))
  }

  ghost predicate Crossed(data: seq<byte>) {
    Shows(data, SECOND, FIRST) && Describe(data, OneByte(NEXT), OneByte(START))
  }

  lemma CrossedShows()
    ensures Crossed(CrossedRecord())
  {
    hide RecordBytes, Accepted, SectionCount, DescriptorAt, At;
    TwoSectionsFound(OneByte(NEXT), OneByte(START), FIRST, SECOND, CrossedRecord());
  }

  /** The writer stores the sections in the order of their descriptors. */
  lemma CrossedWritten(others: Sections.Others, data: seq<byte>)
    requires Crossed(data)
    ensures Stored(Again(others, data), SECOND, FIRST)
  {
    hide Sections.SectionDefinitions, Sections.Rewritten, RewrittenSection, RewrittenRecord, SectionCount, DescriptorAt,
      SectionAt, SectionInRange, At, Accepted, RecordFromIr, RecordToIr;
    var defs, w := Sections.SectionDefinitions(), Again(others, data);
    AgainRewritten(others, data, SECOND, FIRST);
    RewrittenReadable(defs, others, data, FRONT, 0);
    RewrittenReadable(defs, others, data, FRONT, 1);
    UnclaimedKept(others, SECOND);
    UnclaimedKept(others, FIRST);
    WrittenAt(defs, others, data, FRONT, w, 0);
    WrittenAt(defs, others, data, FRONT, w, 1);
    WrittenLength(defs, others, data, FRONT);
  }

  lemma CrossedDescribed(others: Sections.Others, data: seq<byte>)
    requires Crossed(data)
    ensures Describe(Again(others, data), NormalDescriptor(OneByte(NEXT)), NormalDescriptor(OneByte(START)))
    ensures Accepted(Again(others, data), FRONT)
  {
    hide Sections.SectionDefinitions, RewrittenRecord, Accepted, SectionCount, DescriptorAt, HeaderAt, NormalDescriptor,
      Readable, SectionAt, RecordFromIr, RecordToIr;
    var defs, w := Sections.SectionDefinitions(), Again(others, data);
    AgainRewritten(others, data, SECOND, FIRST);
    WrittenHeader(defs, others, data, FRONT, w);
    RewrittenParts(defs, others, data, FRONT, w, 0);
    RewrittenParts(defs, others, data, FRONT, w, 1);
  }

  /** Read and written once, the record describes each section where the other one is. */
  lemma SectionsSwapped(others: Sections.Others)
    ensures Shows(CrossedRecord(), SECOND, FIRST) && Shows(Again(others, CrossedRecord()), FIRST, SECOND)
  {
    hide Again, CrossedRecord, Accepted, SectionCount, DescriptorAt, At, NormalDescriptor;
    CrossedShows();
    CrossedWritten(others, CrossedRecord());
    CrossedDescribed(others, CrossedRecord());
    PlaceKept(OneByte(START));
    PlaceKept(OneByte(NEXT));
  }

  // ---- a record whose second section moves --------------------------------------------------------------------

  lemma {:induction false} ZeroBits(ws: seq<nat>, i: nat)
    requires i < |ws|
    ensures SplitBits(0, ws)[i] == 0
    decreases |ws|
  {
    LowAndHigh(0, ws[0]);
    LowAtMost(0, ws[0]);
    LowOfLow(0, ws[0]);
    if i > 0 {
      ZeroBits(ws[1..], i - 1);
    }
  }

  /** A section of zeros has no error structures and no contexts: it ends behind its record. */
  lemma ZerosEnd(n: nat)
    requires n >= SectionIa32x64.RECORD_SIZE
    ensures SectionIa32x64.SectionEnd(Zeros(n)) == SectionIa32x64.RECORD_SIZE
  {
    hide SectionIa32x64.RecordParts, SplitBits, FromLE, SectionIa32x64.ContextSize, Zeros;
    GenSectionIa32x64.RecordSlices(Zeros(n));
    assert At(Zeros(n), 0, 8) == Zeros(8);
    ZerosAreZero(8);
    ZeroBits(SectionIa32x64.VALID_BITS, 2);
    ZeroBits(SectionIa32x64.VALID_BITS, 3);
  }

  lemma Ia32x64Reader()
    ensures Sections.Reader(Sections.SectionDefinitions(), IA32X64_SECTION) == Some(Sections.Ia32x64)
  {
    hide Sections.Reader;
    assert Sections.SectionDefinitions()[1] == Sections.TwoWay(IA32X64_SECTION, "IA32/X64", Sections.Ia32x64);
    RowFound(1);
  }

  lemma PciDevReader()
    ensures Sections.Reader(Sections.SectionDefinitions(), PCI_DEV_SECTION) == Some(Sections.PciDev)
  {
    hide Sections.Reader;
    assert Sections.SectionDefinitions()[9] ==
      Sections.TwoWay(PCI_DEV_SECTION, "PCI Component/Device", Sections.PciDev);
    RowFound(9);
  }

  /** An IA32/x64 section with one byte too many comes back without it. */
  lemma Shortened(others: Sections.Others)
    ensures |Sections.Rewritten(Sections.SectionDefinitions(), others, IA32X64_SECTION, Zeros(65))| == 64
  {
    hide Sections.SectionDefinitions, Sections.Reader, Sections.Writer, SectionIa32x64.SectionToIr,
      SectionIa32x64.SectionFromIr, SectionIa32x64.NormalSection, SectionIa32x64.SectionEnd, Zeros;
    Ia32x64Reader();
    Sections.DefinitionsMatched();
    Sections.SameConverter(Sections.SectionDefinitions(), IA32X64_SECTION);
    SectionIa32x64.SectionRoundTrip(Zeros(65));
    SectionIa32x64.ReservedKept(Zeros(65));
    ZerosEnd(65);
  }

  const LONG: u32 := 65
  const BEHIND: u32 := START + LONG

  /** The index of the second section. */
  const LAST: nat := 1

  /** A section of zeros, one byte longer than its counts say, and a section of one byte behind it. */
  function LongRecord(): seq<byte> {
    RecordBytes(TwoSections(Describing(IA32X64_SECTION, START, LONG), OneByte(BEHIND), Zeros(LONG), FIRST))
  }

  ghost predicate Long(data: seq<byte>) {
    && Shows(data, Zeros(LONG), FIRST) && BackToBack(data, FRONT)
    && Describe(data, Describing(IA32X64_SECTION, START, LONG), OneByte(BEHIND))
  }

  lemma LongShows()
    ensures Long(LongRecord())
  {
    hide RecordBytes, Accepted, SectionCount, DescriptorAt, At, Zeros, SectionsLength;
    var d0, d1 := Describing(IA32X64_SECTION, START, LONG), OneByte(BEHIND);
    TwoSectionsFound(d0, d1, Zeros(LONG), FIRST, LongRecord());
    FirstLengths(LongRecord());
  }

  lemma FirstLengths(data: seq<byte>)
    ensures SectionsLength(data, FRONT, 0) == 0
    ensures SectionsLength(data, FRONT, 1) == Desc(data, FRONT, 0).sectionLength
  {
    hide DescriptorAt;
  }

  /** One byte less is written than the descriptors say. */
  lemma LongWritten(others: Sections.Others, data: seq<byte>)
    requires Long(data)
    ensures |Again(others, data)| == START + LONG
  {
    hide Sections.SectionDefinitions, Sections.Rewritten, RewrittenSection, RewrittenRecord, SectionCount, DescriptorAt,
      SectionAt, SectionInRange, Accepted, BackToBack, Zeros, RecordFromIr, RecordToIr;
    var defs := Sections.SectionDefinitions();
    AgainRewritten(others, data, Zeros(LONG), FIRST);
    RewrittenReadable(defs, others, data, FRONT, 0);
    RewrittenReadable(defs, others, data, FRONT, 1);
    Shortened(others);
    UnclaimedKept(others, FIRST);
    WrittenLength(defs, others, data, FRONT);
  }

  /** A record stored back to back whose second section can no longer be read after one trip: it has moved, and its
      descriptor has not. */
  lemma SecondSectionMissing(others: Sections.Others)
    ensures Shows(LongRecord(), Zeros(LONG), FIRST) && BackToBack(LongRecord(), FRONT)
    ensures var w := Again(others, LongRecord()); !SectionInRange(w, FRONT, Desc(w, FRONT, LAST))
  {
    hide Again, LongRecord, RewrittenRecord, Sections.SectionDefinitions, DescriptorAt, HeaderAt, NormalDescriptor,
      Shows, BackToBack, SectionCount, Zeros;
    var data := LongRecord();
    LongShows();
    LongWritten(others, data);
    LongDescribed(others, data);
    PlaceKept(OneByte(BEHIND));
  }

  lemma LongDescribed(others: Sections.Others, data: seq<byte>)
    requires Long(data)
    ensures var w := Again(others, data); Desc(w, FRONT, LAST) == NormalDescriptor(OneByte(BEHIND))
  {
    hide RewrittenRecord, Sections.SectionDefinitions, DescriptorAt, HeaderAt, NormalDescriptor, Shows, BackToBack,
      RecordFromIr, RecordToIr;
    AgainRewritten(others, data, Zeros(LONG), FIRST);
    RewrittenParts(Sections.SectionDefinitions(), others, data, FRONT, Again(others, data), 1);
  }

  // ---- a record that cannot be written ------------------------------------------------------------------------

  /** A section that is there, and a PCI device section that would lie behind the record. */
  function AbortingRecord(): seq<byte> {
    RecordBytes(TwoSections(OneByte(START), Describing(PCI_DEV_SECTION, 1000, 1), FIRST, []))
  }

  ghost predicate LastMissing(data: seq<byte>) {
    && Accepted(data, FRONT) && InStep(data, FRONT, SectionCount(data, FRONT))
    && Describe(data, OneByte(START), Describing(PCI_DEV_SECTION, 1000, 1))
    && !SectionInRange(data, FRONT, Describing(PCI_DEV_SECTION, 1000, 1))
  }

  lemma AbortingShows()
    ensures LastMissing(AbortingRecord())
  {
    hide RecordBytes, Accepted, SectionCount, DescriptorAt, At;
    var data := AbortingRecord();
    TwoSectionsFound(OneByte(START), Describing(PCI_DEV_SECTION, 1000, 1), FIRST, [], data);
    assert Passed(data, FRONT, 0);
  }

  /** The reader makes an object of it, on which the writer aborts. */
  lemma WriterAborts(others: Sections.Others)
    ensures var ir := RecordToIr(Sections.SectionDefinitions(), others, AbortingRecord(), FRONT);
      !ir.Null? && !WritableRecord(Sections.SectionDefinitions(), ir)
  {
    hide Sections.SectionDefinitions, AbortingRecord, Accepted, SectionCount, DescriptorAt, RecordToIr, InStep,
      HeaderAt, HeaderToIr, DescriptorIrs, SectionIrs, WritableRecord, Sections.Reader, SectionInRange;
    var data := AbortingRecord();
    AbortingShows();
    PciDevReader();
    Sections.DefinitionsMatched();
    ReadExactly(Sections.SectionDefinitions(), others, data, FRONT);
    WriterGoesThrough(Sections.SectionDefinitions(), others, data, FRONT);
    assert !SectionInRange(data, FRONT, Desc(data, FRONT, LAST));
  }
}
