/** Which bytes of a stream the reader takes for a record's descriptors and sections, and which converter gets them. */
module RecordReadings {
  import opened Base64
  import opened Bytes
  import opened CperParse
  import opened CperRecord
  import opened GuidReadings
  import opened Guids
  import opened HeaderReadings
  import opened Json
  import opened Readings
  import opened RecordRoundTrip
  import opened Streams
  import SectionCxlProtocol
  import SectionIa32x64
  import SectionNvidia
  import SectionPciDev
  import Sections

  /** The section of the descriptor at `p`: as many bytes as the word at offset 4 says, from where the word at offset 0
      says, counted from the start of the record. */
  function SectionBytesAt(data: seq<byte>, base: nat, p: nat): seq<byte> {
    At(data, base + N32(data, p), N32(data, p + 4))
  }

  predicate SectionThere(data: seq<byte>, base: nat, p: nat) {
    N32(data, p + 4) > 0 && base + N32(data, p) + N32(data, p + 4) <= |data|
  }

  /** The section's type are the sixteen bytes at offset 16. */
  function TypeAt(data: seq<byte>, p: nat): Guid {
    GuidOf(At(data, p + 16, 16))
  }

  function ConvertedAt(table: Table, others: Sections.Others, data: seq<byte>, base: nat, p: nat): Json {
    if SectionThere(data, base, p) then
      Sections.SectionToIr(table, others, TypeAt(data, p), SectionBytesAt(data, base, p))
    else Null
  }

  lemma SectionShownAt(table: Table, others: Sections.Others, data: seq<byte>, base: nat, p: nat)
    ensures SectionIr(table, others, data, base, DescriptorAt(data, p)) == ConvertedAt(table, others, data, base, p)
  {
    hide DescriptorAt, N32, At, GuidOf, Sections.SectionToIr;
    DescriptorNumbers(data, p);
  }

  /** The descriptors of a record lie behind its header, 72 bytes each. */
  function DescriptorPlace(base: nat, i: nat): nat {
    base + 128 + 72 * i
  }

  /** The i-th section can be read, or is empty and said to start right behind its descriptor. */
  ghost predicate Steady(data: seq<byte>, base: nat, i: nat) {
    var p := DescriptorPlace(base, i);
    && p + 72 <= |data|
    && (SectionThere(data, base, p) || (N32(data, p + 4) == 0 && base + N32(data, p) == p + 72))
  }

  lemma SteadyPassed(data: seq<byte>, base: nat, i: nat)
    ensures Passed(data, base, i) <==> Steady(data, base, i)
  {
    hide DescriptorAt, N32;
    DescriptorNumbers(data, DescriptorPlace(base, i));
  }

  ghost predicate AllSteady(data: seq<byte>, base: nat, n: nat) {
    forall i: nat :: i < n ==> Steady(data, base, i)
  }

  /** All `n` descriptors are there, and every section but the last keeps the walk steady. */
  ghost predicate StaysInStep(data: seq<byte>, base: nat, n: nat) {
    n == 0 || (AllSteady(data, base, n - 1) && DescriptorPlace(base, n) <= |data|)
  }

  /** As many descriptors and sections as the two bytes at offset 10 say, each from its own bytes, whenever the walk
      stays in step. */
  lemma RecordShown(table: Table, others: Sections.Others, data: seq<byte>, base: nat)
    requires StartsCper(data, base)
    requires StaysInStep(data, base, N16(data, base + 10))
    ensures var ir, n := RecordToIr(table, others, data, base), N16(data, base + 10);
      && Get(ir, "header") == HeaderToIr(HeaderAt(data, base))
      && Get(ir, "sectionDescriptors").Arr? && |Get(ir, "sectionDescriptors").a| == n
      && Get(ir, "sections").Arr? && |Get(ir, "sections").a| == n
    ensures forall i: nat :: i < N16(data, base + 10) ==> ElementsShown(table, others, data, base, i)
  {
    hide HeaderAt, DescriptorAt, HeaderToIr, DescriptorToIr, SectionIr, ConvertedAt, At, N32, N16, StartsCper, Passed,
      Steady, RecordToIr, Accepted;
    var n := N16(data, base + 10);
    AcceptedExactly(data, base);
    HeaderNumbers(data, base);
    forall i: nat | i < n
      ensures Passed(data, base, i) <==> Steady(data, base, i)
    {
      SteadyPassed(data, base, i);
    }
    ReadExactly(table, others, data, base);
    RecordMembers(HeaderToIr(HeaderAt(data, base)), DescriptorIrs(table, data, base, n),
                  SectionIrs(table, others, data, base, n));
    forall i: nat | i < n
      ensures ElementsShown(table, others, data, base, i)
    {
      SectionShownAt(table, others, data, base, DescriptorPlace(base, i));
    }
  }

  /** The i-th elements of the two arrays. */
  ghost predicate ElementsShown(table: Table, others: Sections.Others, data: seq<byte>, base: nat, i: nat) {
    var ir, p := RecordToIr(table, others, data, base), DescriptorPlace(base, i);
    && ArrayIdx(Get(ir, "sectionDescriptors"), i) == DescriptorToIr(table, DescriptorAt(data, p))
    && ArrayIdx(Get(ir, "sections"), i) == ConvertedAt(table, others, data, base, p)
  }

  // ---- which converter a section gets ---------------------------------------------------------------------

  /** The object a section of row `row` of the program's table gets; types beyond the table have no converter. */
  function RowIr(others: Sections.Others, row: nat, s: seq<byte>): Json {
    match row
    case 0 => others.toIr(Sections.Generic, s)
    case 1 => SectionIa32x64.SectionToIr(s)
    case 3 => others.toIr(Sections.Arm, s)
    case 4 => others.toIr(Sections.Memory, s)
    case 5 => others.toIr(Sections.Memory2, s)
    case 6 => others.toIr(Sections.Pcie, s)
    case 7 => others.toIr(Sections.Firmware, s)
    case 8 => others.toIr(Sections.PciBus, s)
    case 9 => SectionPciDev.SectionToIr(s)
    case 10 => others.toIr(Sections.DmarGeneric, s)
    case 11 => others.toIr(Sections.DmarVtd, s)
    case 12 => others.toIr(Sections.DmarIommu, s)
    case 13 => others.toIr(Sections.CcixPer, s)
    case 14 => SectionCxlProtocol.SectionToIr(s)
    case 15 | 16 | 17 | 18 | 19 | 20 => others.toIr(Sections.CxlComponent, s)
    case 21 => SectionNvidia.SectionToIr(s)
    case _ => TextOf(s)
  }

  /** Base64 text, unless it would be longer than a C `int` can count. */
  function TextOf(s: seq<byte>): Json {
    if (|s| + 2) / 3 * 4 <= 0x7FFF_FFFF then Obj(map["data" := Str(Encode(s))]) else Obj(map[])
  }

  lemma Converted(others: Sections.Others, row: nat, s: seq<byte>)
    ensures var c := SectionConverter(row);
      RowIr(others, row, s) == if c.Some? then Sections.ConvertToIr(others, c.value, s) else TextOf(s)
  {
    hide TextOf, SectionIa32x64.SectionToIr, SectionPciDev.SectionToIr, SectionCxlProtocol.SectionToIr,
      SectionNvidia.SectionToIr;
  }

  lemma TextOfUnknown(s: seq<byte>)
    ensures Sections.UnknownToIr(s) == TextOf(s)
  {
    hide Encode;
  }

  /** A section goes to the converter that the sixteen bytes of its type choose, and becomes base64 text when there is
      none. */
  lemma SectionDispatched(others: Sections.Others, m: seq<byte>, s: seq<byte>)
    requires |m| == 16
    ensures var ir := Sections.SectionToIr(Sections.SectionDefinitions(), others, GuidOf(m), s);
      && (forall row: nat :: row < 22 && m == SectionBytes(row) ==> ir == RowIr(others, row, s))
      && ((forall row: nat :: row < 22 ==> m != SectionBytes(row)) ==> ir == TextOf(s))
  {
    hide GuidOf, SectionBytes, SectionText, SectionConverter, Sections.SectionDefinitions, Sections.ReadableName,
      Sections.Reader, Sections.ConvertToIr, Sections.UnknownToIr, RowIr, TextOf;
    SectionShown(m);
    TextOfUnknown(s);
    forall row: nat | row < 22 && m == SectionBytes(row)
      ensures Sections.SectionToIr(Sections.SectionDefinitions(), others, GuidOf(m), s) == RowIr(others, row, s)
    {
      Converted(others, row, s);
    }
  }
}
