/** Generated records: their layout, what the reader finds in them, and the trip through the representation. */
module GeneratorRoundTrip {
  import opened Bytes
  import opened CperGenerate
  import opened CperParse
  import opened CperRecord
  import opened GenUtils
  import opened HeaderRoundTrip
  import opened IrParse
  import opened Json
  import opened Options
  import opened RecordRoundTrip
  import opened Streams
  import SectionCxlProtocol
  import SectionIa32x64
  import SectionPciDev
  import Sections

  // ---- the sections tile the record ----------------------------------------------------------------------

  /** The generated offset of section `i` when the record is small enough for it not to wrap around. */
  function Offset(lengths: seq<nat>, i: nat): nat
    requires i <= |lengths|
  {
    SectionsStart(|lengths|) + LengthBefore(lengths, i)
  }

  ghost predicate InSection(lengths: seq<nat>, i: nat, x: nat)
    requires i < |lengths|
  {
    Offset(lengths, i) <= x < Offset(lengths, i) + lengths[i]
  }

  ghost predicate InSomeSection(lengths: seq<nat>, x: nat) {
    exists i :: 0 <= i < |lengths| && InSection(lengths, i, x)
  }

  lemma {:induction false} OffsetsGrow(lengths: seq<nat>, i: nat, j: nat)
    requires i < j <= |lengths|
    ensures Offset(lengths, i) + lengths[i] <= Offset(lengths, j)
    decreases j
  {
    if i < j - 1 {
      OffsetsGrow(lengths, i, j - 1);
    }
  }

  /** A byte behind the start of the sections and before the n-th lies in one of the first n. */
  lemma {:induction false} Covered(lengths: seq<nat>, n: nat, x: nat) returns (i: nat)
    requires n <= |lengths| && SectionsStart(|lengths|) <= x < Offset(lengths, n)
    ensures i < n && InSection(lengths, i, x)
    decreases n
  {
    if Offset(lengths, n - 1) <= x {
      i := n - 1;
    } else {
      i := Covered(lengths, n - 1, x);
    }
  }

  /** Offsets of non-empty sections strictly increase, no byte is in two sections, and the sections cover exactly
      what lies between the descriptors and the end of the record. */
  lemma OffsetsTile(lengths: seq<nat>)
    requires forall i :: 0 <= i < |lengths| ==> lengths[i] > 0
    ensures forall i, j :: 0 <= i < j < |lengths| ==> Offset(lengths, i) < Offset(lengths, j)
    ensures forall i, j, x: nat :: 0 <= i < j < |lengths| ==> !(InSection(lengths, i, x) && InSection(lengths, j, x))
    ensures forall x: nat :: InSomeSection(lengths, x) <==> SectionsStart(|lengths|) <= x < Offset(lengths, |lengths|)
  {
    forall i, j | 0 <= i < j < |lengths|
      ensures Offset(lengths, i) + lengths[i] <= Offset(lengths, j)
    {
      OffsetsGrow(lengths, i, j);
    }
    forall x: nat
      ensures InSomeSection(lengths, x) <==> SectionsStart(|lengths|) <= x < Offset(lengths, |lengths|)
    {
      if SectionsStart(|lengths|) <= x < Offset(lengths, |lengths|) {
        var i := Covered(lengths, |lengths|, x);
      } else {
        forall i | 0 <= i < |lengths|
          ensures !InSection(lengths, i, x)
        {
          OffsetsGrow(lengths, i, |lengths|);
        }
      }
    }
  }

  /** The offsets and lengths in a generated record of less than 2^32 bytes are the ones that tile it, and its header
      gives its size. */
  lemma GeneratedOffsets(table: seq<Generator>, names: seq<string>, r: Record)
    requires Generated(table, names, r) && RecordSize(r) < WRAP
    ensures r.header.recordLength == RecordSize(r) == Offset(Lengths(r.sections), |names|)
    ensures forall i :: 0 <= i < |names| ==>
      && r.descriptors[i].sectionOffset == Offset(Lengths(r.sections), i)
      && r.descriptors[i].sectionLength == |r.sections[i]|
  {
    hide GeneratedFor, CanonicalDescriptor, CanonicalHeader, TypedAs, LengthBefore;
    var ls := Lengths(r.sections);
    forall i | 0 <= i < |names|
      ensures r.descriptors[i].sectionOffset == Offset(ls, i) && r.descriptors[i].sectionLength == |r.sections[i]|
    {
      assert GeneratedAt(table, names, r, i);
      OffsetsGrow(ls, i, |names|);
    }
  }

  // ---- what the reader finds --------------------------------------------------------------------------------

  lemma {:induction false} JoinedAt(blocks: seq<seq<byte>>, i: nat)
    requires i < |blocks|
    ensures |Join(blocks)| == Total(blocks, |blocks|)
    ensures At(Join(blocks), Total(blocks, i), |blocks[i]|) == blocks[i]
    decreases |blocks|
  {
    hide At;
    var n := |blocks| - 1;
    assert blocks == blocks[..n] + [blocks[n]];
    JoinAppend(blocks[..n], blocks[n]);
    var front := Join(blocks[..n]);
    TotalPrefix(blocks, n, n);
    TotalPrefix(blocks, n, i);
    if n > 0 {
      JoinedAt(blocks[..n], if i < n then i else 0);
    }
    if i < n {
      TotalMonotone(blocks, i + 1, n);
      AtLeft(front, blocks[n], Total(blocks, i), |blocks[i]|);
    } else {
      AtRight(front, blocks[n], [], |blocks[n]|);
      assert front + blocks[n] + [] == front + blocks[n];
    }
  }

  lemma {:induction false} TotalPrefix(blocks: seq<seq<byte>>, n: nat, i: nat)
    requires i <= n <= |blocks|
    ensures Total(blocks[..n], i) == Total(blocks, i)
    decreases i
  {
    if i > 0 {
      TotalPrefix(blocks, n, i - 1);
    }
  }

  lemma AtRight(a: seq<byte>, b: seq<byte>, c: seq<byte>, n: nat)
    requires n == |b|
    ensures At(a + b + c, |a|, n) == b
  {
  }

  lemma {:induction false} TotalIsLength(sections: seq<seq<byte>>, i: nat)
    requires i <= |sections|
    ensures Total(sections, i) == LengthBefore(Lengths(sections), i)
    decreases i
  {
    if i > 0 {
      TotalIsLength(sections, i - 1);
    }
  }

  /** Where the pieces of a record are in its bytes. */
  lemma RecordPieces(r: Record)
    requires |r.descriptors| == |r.sections|
    ensures |RecordBytes(r)| == RecordSize(r)
    ensures At(RecordBytes(r), 0, HEADER_SIZE) == HeaderBytes(r.header)
  {
    hide HeaderBytes, DescriptorBlocks, Join, At, LengthBefore;
    var a, b, c := HeaderBytes(r.header), Join(DescriptorBlocks(r.descriptors)), Join(r.sections);
    DescriptorsJoined(r.descriptors);
    SectionsJoined(r.sections);
    assert [] + a + (b + c) == a + b + c;
    AtRight([], a, b + c, HEADER_SIZE);
  }

  lemma DescriptorsJoined(ds: seq<Descriptor>)
    ensures |Join(DescriptorBlocks(ds))| == DESCRIPTOR_SIZE * |ds|
  {
    hide DescriptorBytes;
    if ds != [] {
      JoinedAt(DescriptorBlocks(ds), 0);
      TotalEqual(DescriptorBlocks(ds), DESCRIPTOR_SIZE, |ds|);
    }
  }

  lemma SectionsJoined(sections: seq<seq<byte>>)
    ensures |Join(sections)| == LengthBefore(Lengths(sections), |sections|)
  {
    if sections != [] {
      JoinedAt(sections, 0);
      TotalIsLength(sections, |sections|);
    }
  }

  lemma RecordPiece(r: Record, i: nat)
    requires |r.descriptors| == |r.sections| && i < |r.sections|
    ensures At(RecordBytes(r), DescriptorPos(0, i), DESCRIPTOR_SIZE) == DescriptorBytes(r.descriptors[i])
    ensures At(RecordBytes(r), Offset(Lengths(r.sections), i), |r.sections[i]|) == r.sections[i]
  {
    hide HeaderBytes, DescriptorBytes, Join, At, LengthBefore;
    var blocks := DescriptorBlocks(r.descriptors);
    var a, b, c := HeaderBytes(r.header), Join(blocks), Join(r.sections);
    DescriptorsJoined(r.descriptors);
    SectionsJoined(r.sections);
    JoinedAt(blocks, i);
    TotalEqual(blocks, DESCRIPTOR_SIZE, i);
    AtMiddle(a, b, c, DESCRIPTOR_SIZE * i, DESCRIPTOR_SIZE);
    JoinedAt(r.sections, i);
    TotalIsLength(r.sections, i);
    TotalIsLength(r.sections, |r.sections|);
    TotalMonotone(r.sections, i + 1, |r.sections|);
    assert a + b + c + [] == a + b + c;
    AtMiddle(a + b, c, [], Total(r.sections, i), |r.sections[i]|);
  }

  /** A stream that holds a record at some position. */
  ghost predicate HoldsRecord(data: seq<byte>, base: nat, r: Record) {
    base + RecordSize(r) <= |data| && At(data, base, RecordSize(r)) == RecordBytes(r)
  }

  /** Where the reader looks for descriptor and section `i`, it finds those of the record. */
  ghost predicate FoundAt(data: seq<byte>, base: nat, r: Record, i: nat)
    requires i < |r.descriptors| && i < |r.sections|
  {
    && Desc(data, base, i) == r.descriptors[i]
    && SectionInRange(data, base, r.descriptors[i])
    && SectionAt(data, base, r.descriptors[i]) == r.sections[i]
  }

  ghost predicate Found(data: seq<byte>, base: nat, r: Record) {
    && CanRead(data, base, HEADER_SIZE) && HeaderAt(data, base) == r.header
    && |r.descriptors| == |r.sections| && forall i :: 0 <= i < |r.sections| ==> FoundAt(data, base, r, i)
  }

  lemma GeneratedRead(table: seq<Generator>, names: seq<string>, r: Record, data: seq<byte>, base: nat, i: nat)
    requires i < |r.descriptors| && i < |r.sections|
    requires Generated(table, names, r) && RecordSize(r) < WRAP && HoldsRecord(data, base, r)
    ensures FoundAt(data, base, r, i)
  {
    hide RecordBytes, HeaderBytes, DescriptorBytes, HeaderOf, DescriptorOf, At, GeneratedFor, DescriptorFor,
      GeneratedHeader, LengthBefore;
    var n, size := |names|, RecordSize(r);
    var d, s, ls := r.descriptors[i], r.sections[i], Lengths(r.sections);
    RecordPieces(r);
    GeneratedOffsets(table, names, r);
    OffsetsGrow(ls, i, n);
    RecordPiece(r, i);
    AtAt(data, base, size, DescriptorPos(0, i), DESCRIPTOR_SIZE);
    DescriptorOfBytes(d);
    AtAt(data, base, size, Offset(ls, i), |s|);
    assert GeneratedAt(table, names, r, i);
  }

  /** The reader finds the generated header, and each generated descriptor and section where it looks for them. */
  lemma AllFound(table: seq<Generator>, names: seq<string>, r: Record, data: seq<byte>, base: nat)
    requires Generated(table, names, r) && RecordSize(r) < WRAP && HoldsRecord(data, base, r)
    ensures Found(data, base, r)
  {
    hide RecordBytes, HeaderBytes, HeaderOf, At, GeneratedFor, DescriptorFor, GeneratedHeader, LengthBefore, FoundAt;
    RecordPieces(r);
    AtAt(data, base, RecordSize(r), 0, HEADER_SIZE);
    HeaderOfBytes(r.header);
    forall i | 0 <= i < |r.sections|
      ensures FoundAt(data, base, r, i)
    {
      GeneratedRead(table, names, r, data, base, i);
    }
  }

  /** No read fails, and the sections are stored back to back. */
  lemma AllReadable(table: seq<Generator>, names: seq<string>, r: Record, data: seq<byte>, base: nat)
    requires Generated(table, names, r) && RecordSize(r) < WRAP && HoldsRecord(data, base, r)
    ensures Found(data, base, r) && Accepted(data, base) && SectionCount(data, base) == |names|
    ensures Readable(data, base, |names|) && BackToBack(data, base) && RecordLength(data, base) == RecordSize(r)
  {
    hide HeaderAt, DescriptorAt, SectionAt, GeneratedFor, DescriptorFor, RecordBytes, At, LengthBefore, SectionsLength,
      CanonicalDescriptor, SectionInRange;
    AllFound(table, names, r, data, base);
    GeneratedOffsets(table, names, r);
    forall i | 0 <= i < |names|
      ensures LengthIs(data, base, Lengths(r.sections), i)
    {
      assert FoundAt(data, base, r, i);
    }
    forall i | 0 <= i < |names|
      ensures SectionInRange(data, base, Desc(data, base, i))
      ensures InPlace(data, base, |names|, i)
    {
      assert FoundAt(data, base, r, i);
      SectionsLengthIs(data, base, Lengths(r.sections), i);
    }
    SectionsLengthIs(data, base, Lengths(r.sections), |names|);
  }

  ghost predicate LengthIs(data: seq<byte>, base: nat, lengths: seq<nat>, i: nat)
    requires i < |lengths|
  {
    Desc(data, base, i).sectionLength == lengths[i]
  }

  lemma {:induction false} SectionsLengthIs(data: seq<byte>, base: nat, lengths: seq<nat>, n: nat)
    requires n <= |lengths| && forall i :: 0 <= i < n ==> LengthIs(data, base, lengths, i)
    ensures SectionsLength(data, base, n) == LengthBefore(lengths, n)
    decreases n
  {
    hide DescriptorAt;
    if n > 0 {
      SectionsLengthIs(data, base, lengths, n - 1);
      assert LengthIs(data, base, lengths, n - 1);
    }
  }

  /** A record between any other bytes of a stream. */
  function Around(before: seq<byte>, b: seq<byte>, after: seq<byte>): seq<byte> {
    before + b + after
  }

  /** What a write leaves behind is the bytes written between what was there. */
  lemma WrittenAround(d: seq<byte>, p: nat, b: seq<byte>)
    requires b != []
    ensures Patch(d, p, b) == Around(Head(d, p), b, Tail(d, p + |b|)) && |Head(d, p)| == p
  {
  }

  lemma RecordInside(before: seq<byte>, r: Record, after: seq<byte>)
    requires |r.descriptors| == |r.sections|
    ensures HoldsRecord(Around(before, RecordBytes(r), after), |before|, r)
  {
    hide RecordBytes, At, LengthBefore;
    RecordPieces(r);
    AtRight(before, RecordBytes(r), after, RecordSize(r));
  }

  function DescriptorObjects(defs: Table, ds: seq<Descriptor>): seq<Json> {
    seq(|ds|, (i: nat) requires i < |ds| => DescriptorToIr(defs, ds[i]))
  }

  function SectionObjects(defs: Table, others: Sections.Others, ds: seq<Descriptor>, ss: seq<seq<byte>>): seq<Json>
    requires |ds| == |ss|
  {
    seq(|ss|, (i: nat) requires i < |ss| => Sections.SectionToIr(defs, others, ds[i].sectionType, ss[i]))
  }

  /** What a record's header, descriptors and sections are in the intermediate representation, one by one. */
  function RecordObject(defs: Table, others: Sections.Others, r: Record): Json
    requires |r.descriptors| == |r.sections|
  {
    RecordIr(HeaderToIr(r.header), DescriptorObjects(defs, r.descriptors),
             SectionObjects(defs, others, r.descriptors, r.sections))
  }

  /** The stream holds all of a record where the reader looks for it. */
  ghost predicate Reached(data: seq<byte>, base: nat, r: Record) {
    && Found(data, base, r) && Accepted(data, base) && SectionCount(data, base) == |r.sections|
    && Readable(data, base, |r.sections|) && BackToBack(data, base) && RecordLength(data, base) == RecordSize(r)
  }

  lemma ReachedRead(defs: Table, others: Sections.Others, data: seq<byte>, base: nat, r: Record)
    requires Reached(data, base, r)
    ensures RecordToIr(defs, others, data, base) == RecordObject(defs, others, r)
  {
    hide HeaderAt, DescriptorAt, SectionAt, SectionInRange, Accepted, Readable, BackToBack, HeaderToIr, DescriptorToIr,
      Sections.SectionToIr, RecordIr, RecordToIr, SectionCount, RecordLength, LengthBefore;
    var n := |r.sections|;
    ReadableInStep(data, base, n);
    ReadExactly(defs, others, data, base);
    forall i | 0 <= i < n
      ensures DescriptorToIr(defs, Desc(data, base, i)) == DescriptorToIr(defs, r.descriptors[i])
      ensures SectionIr(defs, others, data, base, Desc(data, base, i)) ==
        Sections.SectionToIr(defs, others, r.descriptors[i].sectionType, r.sections[i])
    {
      assert FoundAt(data, base, r, i);
    }
    assert DescriptorIrs(defs, data, base, n) == DescriptorObjects(defs, r.descriptors);
    assert SectionIrs(defs, others, data, base, n) == SectionObjects(defs, others, r.descriptors, r.sections);
  }

  /** From any starting position, reading a record that `GenerateCperRecord` wrote finds every section: no read fails,
      the sections are stored back to back, and the result is the object of exactly the generated header, descriptors
      and sections. */
  lemma EndToEnd(table: seq<Generator>, names: seq<string>, r: Record, defs: Table, others: Sections.Others,
                 before: seq<byte>, after: seq<byte>, base: nat)
    requires Generated(table, names, r) && RecordSize(r) < WRAP && base == |before|
    ensures var data := Around(before, RecordBytes(r), after);
      Reached(data, base, r) && RecordToIr(defs, others, data, base) == RecordObject(defs, others, r)
  {
    hide GeneratedAt, GeneratedHeader, RecordBytes, HoldsRecord, Found, Accepted, Readable, BackToBack, LengthBefore,
      Around, SectionCount, RecordToIr, RecordObject;
    var data := Around(before, RecordBytes(r), after);
    RecordInside(before, r, after);
    AllReadable(table, names, r, data, base);
    ReachedRead(defs, others, data, base, r);
  }

  /** The same of the stream itself: whatever `d` was and wherever the record was written to, reading there gives its
      object. */
  lemma WrittenThenRead(table: seq<Generator>, names: seq<string>, r: Record, defs: Table, others: Sections.Others,
                        d: seq<byte>, p: nat)
    requires Generated(table, names, r) && RecordSize(r) < WRAP
    ensures RecordToIr(defs, others, Patch(d, p, RecordBytes(r)), p) == RecordObject(defs, others, r)
  {
    hide GeneratedAt, GeneratedHeader, RecordBytes, Patch, Reached, LengthBefore, Around, RecordToIr, RecordObject,
      Head, Tail;
    RecordPieces(r);
    WrittenAround(d, p, RecordBytes(r));
    EndToEnd(table, names, r, defs, others, Head(d, p), Tail(d, p + |RecordBytes(r)|), p);
  }

  // ---- the trip through the representation ------------------------------------------------------------------

  ghost predicate SectionsCanonical(defs: Table, others: Sections.Others, r: Record)
    requires |r.descriptors| == |r.sections|
  {
    forall i :: 0 <= i < |r.sections| ==>
      Sections.CanonicalSection(defs, others, r.descriptors[i].sectionType, r.sections[i])
  }

  /** A generated record whose sections are canonical is read and written again byte for byte, wherever it starts. */
  lemma GeneratedRoundTrip(table: seq<Generator>, names: seq<string>, r: Record, defs: Table, others: Sections.Others,
                           data: seq<byte>, base: nat)
    requires Generated(table, names, r) && RecordSize(r) < WRAP && HoldsRecord(data, base, r)
    requires Sections.Matched(defs) && SectionsCanonical(defs, others, r)
    ensures WritableRecord(defs, RecordToIr(defs, others, data, base))
    ensures RecordFromIr(defs, others, RecordToIr(defs, others, data, base)) == RecordBytes(r)
  {
    hide Sections.Matched, Sections.CanonicalSection, Accepted, Readable, BackToBack, RecordFromIr, RecordToIr,
      SameLengths, HeaderAt, DescriptorAt, SectionAt, RecordBytes, At, CanonicalHeader, CanonicalDescriptor,
      GeneratedFor, LengthBefore, SectionInRange, WritableRecord;
    AllReadable(table, names, r, data, base);
    ReadableWritable(defs, others, data, base);
    WholeRecord(defs, others, data, base);
    forall i | 0 <= i < |names|
      ensures CanonicalDescriptor(Desc(data, base, i))
      ensures Sections.CanonicalSection(defs, others, Desc(data, base, i).sectionType, Section(data, base, i))
    {
      assert FoundAt(data, base, r, i);
      assert GeneratedAt(table, names, r, i);
    }
  }

  // ---- the tables of the program ------------------------------------------------------------------------------

  /** The first words of the section types' GUIDs, which tell them apart. */
  function FirstWords(): seq<u32> {
    [0x9876CCAD, 0xDC3EA0B0, 0xE429FAF1, 0xE19E3D16, 0xA5BC1114, 0x61EC04FC, 0xD995E954, 0x81212A96,
     0xC5753963, 0xEB5E4685, 0x5B51FEF7, 0x71761D37, 0x036F84E1, 0x91335EF6, 0x80B9EFB4, 0xFBCD0A77,
     0x601DCBB3, 0xFE927475, 0x77CF9271, 0x40D26425, 0x8DC44363, 0x6D5244F2]
  }

  lemma FirstWordsDiffer()
    ensures |FirstWords()| == 22 && forall i, j :: 0 <= i < j < 22 ==> FirstWords()[i] != FirstWords()[j]
  {
  }

  lemma FirstWordsOfSections()
    ensures var defs := Sections.SectionDefinitions();
      |defs| == 22 && forall i :: 0 <= i < 22 ==> defs[i].guid.data1 == FirstWords()[i]
  {
  }

  lemma SectionGuidsDiffer()
    ensures var defs := Sections.SectionDefinitions();
      |defs| == 22 && forall i, j :: 0 <= i < j < |defs| ==> defs[i].guid != defs[j].guid
  {
    hide Sections.SectionDefinitions, FirstWords;
    FirstWordsDiffer();
    FirstWordsOfSections();
  }

  /** The row of the i-th generator's section. */
  function RowOf(i: nat): nat {
    if i < 2 then i else i + 1
  }

  /** The i-th generator makes sections of the type of its row. */
  ghost predicate RowMatches(i: nat) {
    var gens, defs := GeneratorDefinitions(), Sections.SectionDefinitions();
    i < |gens| && RowOf(i) < |defs| && gens[i].guid == defs[RowOf(i)].guid && defs[RowOf(i)].toIr == Some(gens[i].kind)
  }

  lemma FirstRows()
    ensures forall i: nat :: i < 7 ==> RowMatches(i)
  {
  }

  lemma MiddleRows()
    ensures forall i: nat :: 7 <= i < 14 ==> RowMatches(i)
  {
  }

  lemma LastRows()
    ensures forall i: nat :: 14 <= i < 21 ==> RowMatches(i)
  {
  }

  lemma RowCounts()
    ensures |GeneratorDefinitions()| == 21 && |Sections.SectionDefinitions()| == 22
  {
  }

  /** The generators stand for the sections in the same order, without the one that cannot be converted. */
  lemma GeneratorRows()
    ensures |GeneratorDefinitions()| == 21 && |Sections.SectionDefinitions()| == 22
    ensures forall i: nat :: i < 21 ==> RowMatches(i)
  {
    hide RowMatches, GeneratorDefinitions, Sections.SectionDefinitions;
    RowCounts();
    FirstRows();
    MiddleRows();
    LastRows();
  }

  lemma {:induction false} NamedRow(table: seq<Generator>, name: string) returns (i: nat)
    requires Named(table, name).Some?
    ensures i < |table| && Named(table, name) == Some(table[i])
  {
    if table[0].shortName == name {
      i := 0;
    } else {
      var j := NamedRow(table[1..], name);
      i := j + 1;
    }
  }

  /** Whatever section is asked for by name, the reader picks the converter of the same name for it. */
  lemma ReaderKnows(name: string)
    requires Named(GeneratorDefinitions(), name).Some?
    ensures var g := Named(GeneratorDefinitions(), name).value;
      Sections.Reader(Sections.SectionDefinitions(), g.guid) == Some(g.kind)
  {
    hide GeneratorDefinitions, Sections.SectionDefinitions, Named;
    var defs := Sections.SectionDefinitions();
    var i := NamedRow(GeneratorDefinitions(), name);
    GeneratorRows();
    assert RowMatches(i);
    SectionGuidsDiffer();
    var found := Sections.ReaderRow(defs, defs[RowOf(i)].guid);
    assert found <= RowOf(i) && defs[found].guid == defs[RowOf(i)].guid;
  }

  /** A section made by a generator that is part of this model, or random bytes that no converter claims. */
  ghost predicate Known(name: string, d: Descriptor) {
    if name == "unknown" then Sections.Reader(Sections.SectionDefinitions(), d.sectionType).None?
    else Modelled(GeneratorDefinitions(), name)
  }

  lemma KnownCanonical(name: string, d: Descriptor, s: seq<byte>, others: Sections.Others)
    requires GeneratedFor(GeneratorDefinitions(), name, s) && TypedAs(GeneratorDefinitions(), name, d) && Known(name, d)
    ensures Sections.CanonicalSection(Sections.SectionDefinitions(), others, d.sectionType, s)
  {
    hide GeneratorDefinitions, Sections.SectionDefinitions, Named, Sections.Reader, SectionIa32x64.CanonicalSection,
      SectionPciDev.CanonicalSection, SectionCxlProtocol.CanonicalSection;
    if name != "unknown" {
      ReaderKnows(name);
    }
  }

  /** The record read at `bytes` in a stream can be written, and writing it gives these bytes. */
  ghost predicate Survives(defs: Table, others: Sections.Others, before: seq<byte>, bytes: seq<byte>,
                           after: seq<byte>) {
    var ir := RecordToIr(defs, others, Around(before, bytes, after), |before|);
    WritableRecord(defs, ir) && RecordFromIr(defs, others, ir) == bytes
  }

  ghost predicate SingleSurvives(defs: Table, others: Sections.Others, before: seq<byte>, bytes: seq<byte>,
                                 after: seq<byte>) {
    var ir := SingleToIr(defs, others, Around(before, bytes, after), |before|);
    WritableSingle(defs, ir) && SingleFromIr(defs, others, ir) == bytes
  }

  ghost predicate AllKnown(names: seq<string>, r: Record) {
    |names| == |r.descriptors| && forall i :: 0 <= i < |names| ==> Known(names[i], r.descriptors[i])
  }

  /** A generated record of known sections is read and written again byte for byte, wherever it is in a stream. */
  lemma KnownRoundTrip(names: seq<string>, r: Record, others: Sections.Others, before: seq<byte>, after: seq<byte>)
    requires Generated(GeneratorDefinitions(), names, r) && RecordSize(r) < WRAP && AllKnown(names, r)
    ensures Survives(Sections.SectionDefinitions(), others, before, RecordBytes(r), after)
  {
    hide GeneratorDefinitions, Sections.SectionDefinitions, Known, GeneratedFor, TypedAs, Sections.CanonicalSection,
      HoldsRecord, RecordFromIr, RecordToIr, RecordBytes, LengthBefore, CanonicalDescriptor, GeneratedHeader, Around,
      WritableRecord;
    var defs := Sections.SectionDefinitions();
    forall i | 0 <= i < |names|
      ensures Sections.CanonicalSection(defs, others, r.descriptors[i].sectionType, r.sections[i])
    {
      assert GeneratedAt(GeneratorDefinitions(), names, r, i);
      KnownCanonical(names[i], r.descriptors[i], r.sections[i], others);
    }
    Sections.DefinitionsMatched();
    RecordInside(before, r, after);
    GeneratedRoundTrip(GeneratorDefinitions(), names, r, defs, others,
      Around(before, RecordBytes(r), after), |before|);
  }

  /** A generated single section is read and written again byte for byte, wherever it is in a stream. */
  lemma SingleRoundTrip(name: string, d: Descriptor, s: seq<byte>, others: Sections.Others, before: seq<byte>,
                        after: seq<byte>)
    requires GeneratedFor(GeneratorDefinitions(), name, s) && TypedAs(GeneratorDefinitions(), name, d) && Known(name, d)
    requires CanonicalDescriptor(d) && d.sectionOffset == DESCRIPTOR_SIZE && d.sectionLength == |s| > 0
    ensures SingleSurvives(Sections.SectionDefinitions(), others, before, DescriptorBytes(d) + s, after)
  {
    hide GeneratorDefinitions, Sections.SectionDefinitions, Known, GeneratedFor, TypedAs, Sections.CanonicalSection,
      SingleFromIr, SingleToIr, DescriptorBytes, DescriptorOf, CanonicalDescriptor, At, WritableSingle;
    var data, base := Around(before, DescriptorBytes(d) + s, after), |before|;
    KnownCanonical(name, d, s, others);
    Sections.DefinitionsMatched();
    AtRight(before, DescriptorBytes(d) + s, after, DESCRIPTOR_SIZE + |s|);
    AtSplit(data, base, DESCRIPTOR_SIZE, |s|);
    AppendKept(At(data, base, DESCRIPTOR_SIZE), At(data, base + DESCRIPTOR_SIZE, |s|), DescriptorBytes(d), s);
    DescriptorOfBytes(d);
    SingleSection(Sections.SectionDefinitions(), others, data, base);
    SingleWritable(Sections.SectionDefinitions(), others, data, base);
  }

  // ---- the repository's binary test ---------------------------------------------------------------------------

  ghost predicate AllModelled(names: seq<string>) {
    forall i :: 0 <= i < |names| ==> Modelled(GeneratorDefinitions(), names[i])
  }

  lemma {:induction false} LengthBounded(lengths: seq<nat>, size: nat, n: nat)
    requires n <= |lengths| && forall i :: 0 <= i < |lengths| ==> lengths[i] <= size
    ensures LengthBefore(lengths, n) <= size * n
    decreases n
  {
    if n > 0 {
      LengthBounded(lengths, size, n - 1);
    }
  }

  /** Records of these sections are known and small. */
  lemma ModelledKnown(names: seq<string>, r: Record)
    requires |names| < 0x1_0000 && Generated(GeneratorDefinitions(), names, r) && AllModelled(names)
    ensures AllKnown(names, r) && RecordSize(r) < WRAP
  {
    hide GeneratorDefinitions, Named, SectionIa32x64.CanonicalSection, SectionPciDev.CanonicalSection,
      SectionCxlProtocol.CanonicalSection, DescriptorFor, GeneratedHeader;
    forall i | 0 <= i < |names|
      ensures |r.sections[i]| <= MAX_SECTION && Known(names[i], r.descriptors[i])
    {
      assert GeneratedAt(GeneratorDefinitions(), names, r, i);
    }
    LengthBounded(Lengths(r.sections), MAX_SECTION, |names|);
  }

  /** Such a section is never empty. */
  lemma ModelledSome(name: string)
    requires Modelled(GeneratorDefinitions(), name)
    ensures !GeneratedFor(GeneratorDefinitions(), name, [])
  {
    hide GeneratorDefinitions, Named, SectionIa32x64.CanonicalSection, SectionPciDev.CanonicalSection,
      SectionCxlProtocol.CanonicalSection;
  }

  /** Generates a record, reads it back, writes it again and compares: for every list of IA32/x64, PCI device and CXL
      protocol sections and all random numbers, the bytes are the same. */
  method BinaryTest(names: seq<string>, others: Sections.Others) returns (same: bool)
    requires |names| < 0x1_0000 && AllModelled(names)
    ensures same
  {
    hide GeneratorDefinitions, Sections.SectionDefinitions, Modelled, RecordFromIr, RecordToIr, RecordBytes,
      GeneratedFor, GeneratedAt, GeneratedHeader, LengthBefore, AllKnown, WritableRecord;
    var file := new File([]);
    ghost var record := GenerateCperRecord(GeneratorDefinitions(), names, file);
    forall i | 0 <= i < |names|
      ensures !GeneratedFor(GeneratorDefinitions(), names[i], [])
    {
      ModelledSome(names[i]);
    }
    ghost var r := record.value;
    PatchNothing(RecordBytes(r));
    assert file.data == Around([], RecordBytes(r), []);
    file.Seek(0);
    var ir := CperToIr(Sections.SectionDefinitions(), others, file);
    ModelledKnown(names, r);
    KnownRoundTrip(names, r, others, [], []);
    var out := new File([]);
    IrToCper(Sections.SectionDefinitions(), others, ir, out);
    PatchNothing(RecordFromIr(Sections.SectionDefinitions(), others, ir));
    same := out.data == file.data;
  }

  /** Likewise for a single section without a record header. */
  method SingleBinaryTest(name: string, others: Sections.Others) returns (same: bool)
    requires Modelled(GeneratorDefinitions(), name)
    ensures same
  {
    hide GeneratorDefinitions, Sections.SectionDefinitions, Named, SingleFromIr, SingleToIr, DescriptorBytes,
      SectionIa32x64.CanonicalSection, SectionPciDev.CanonicalSection, SectionCxlProtocol.CanonicalSection,
      CanonicalDescriptor, TypedAs, WritableSingle;
    var file := new File([]);
    ghost var d, s := GenerateSingleSectionRecord(GeneratorDefinitions(), name, file);
    PatchNothing(DescriptorBytes(d) + s);
    assert file.data == Around([], DescriptorBytes(d) + s, []);
    file.Seek(0);
    var ir := CperSingleSectionToIr(Sections.SectionDefinitions(), others, file);
    SingleRoundTrip(name, d, s, others, [], []);
    var out := new File([]);
    IrSingleSectionToCper(Sections.SectionDefinitions(), others, ir, out);
    PatchNothing(SingleFromIr(Sections.SectionDefinitions(), others, ir));
    same := out.data == file.data;
  }

  lemma PatchNothing(b: seq<byte>)
    ensures Patch([], 0, b) == b
  {
  }
}
