/** What the reader shows of a record's header and of a section's descriptor, byte by byte. */
module HeaderReadings {
  import opened Bytes
  import opened CperParse
  import opened CperRecord
  import opened CperUtils
  import opened GuidReadings
  import opened Guids
  import opened HeaderRoundTrip
  import opened Json
  import opened NameReadings
  import opened Names
  import opened Readings
  import opened TextReadings
  import Sections

  // ---- headers ------------------------------------------------------------------------------------------

  lemma HeaderNumbers(data: seq<byte>, base: nat)
    ensures var h := HeaderAt(data, base);
      && h.signatureStart == N32(data, base) && h.revision == N16(data, base + 4)
      && h.signatureEnd == N32(data, base + 6) && h.sectionCount == N16(data, base + 10)
      && h.errorSeverity == N32(data, base + 12) && h.validationBits == N32(data, base + 16)
      && h.recordLength == N32(data, base + 20) && h.timeStamp == TimeStampAt(data, base + 24)
      && h.recordID == N64(data, base + 96) && h.flags == N32(data, base + 104)
      && h.persistenceInfo == N64(data, base + 108)
  {
    hide At, FromLE, N16, N32, N64, GuidOf, TimestampOf;
    HeaderSliced(At(data, base, HEADER_SIZE));
    HeaderSlices(data, base);
    Read32(data, base);
    Read16(data, base + 4);
    Read32(data, base + 6);
    Read16(data, base + 10);
    Read32(data, base + 12);
    Read32(data, base + 16);
    Read32(data, base + 20);
    Read64(data, base + 96);
    Read32(data, base + 104);
    Read64(data, base + 108);
    TimeStampBytes(data, base + 24);
  }

  lemma TimeStampBytes(data: seq<byte>, p: nat)
    ensures TimestampOf(At(data, p, 8)) == TimeStampAt(data, p)
  {
  }

  lemma HeaderSlices(data: seq<byte>, base: nat)
    ensures HeaderCut(At(data, base, HEADER_SIZE)) ==
      [At(data, base, 4), At(data, base + 4, 2), At(data, base + 6, 4), At(data, base + 10, 2), At(data, base + 12, 4),
       At(data, base + 16, 4), At(data, base + 20, 4), At(data, base + 24, 8), At(data, base + 32, 16),
       At(data, base + 48, 16), At(data, base + 64, 16), At(data, base + 80, 16), At(data, base + 96, 8),
       At(data, base + 104, 4), At(data, base + 108, 8), At(data, base + 116, 12)]
  {
    hide At;
    AtAt(data, base, HEADER_SIZE, 0, 4);
    AtAt(data, base, HEADER_SIZE, 4, 2);
    AtAt(data, base, HEADER_SIZE, 6, 4);
    AtAt(data, base, HEADER_SIZE, 10, 2);
    AtAt(data, base, HEADER_SIZE, 12, 4);
    AtAt(data, base, HEADER_SIZE, 16, 4);
    AtAt(data, base, HEADER_SIZE, 20, 4);
    AtAt(data, base, HEADER_SIZE, 24, 8);
    AtAt(data, base, HEADER_SIZE, 32, 16);
    AtAt(data, base, HEADER_SIZE, 48, 16);
    AtAt(data, base, HEADER_SIZE, 64, 16);
    AtAt(data, base, HEADER_SIZE, 80, 16);
    AtAt(data, base, HEADER_SIZE, 96, 8);
    AtAt(data, base, HEADER_SIZE, 104, 4);
    AtAt(data, base, HEADER_SIZE, 108, 8);
    AtAt(data, base, HEADER_SIZE, 116, 12);
  }

  lemma HeaderGuids(data: seq<byte>, base: nat)
    ensures var h := HeaderAt(data, base);
      && h.platformID == GuidOf(At(data, base + 32, 16)) && h.partitionID == GuidOf(At(data, base + 48, 16))
      && h.creatorID == GuidOf(At(data, base + 64, 16)) && h.notificationType == GuidOf(At(data, base + 80, 16))
  {
    hide At, FromLE, GuidOf, TimestampOf;
    HeaderSliced(At(data, base, HEADER_SIZE));
    HeaderSlices(data, base);
  }

  /** The letters CPER and a whole header. */
  predicate StartsCper(data: seq<byte>, base: nat) {
    && base + 128 <= |data| && data[base] == 'C' as int && data[base + 1] == 'P' as int
    && data[base + 2] == 'E' as int && data[base + 3] == 'R' as int
  }

  /** A record is accepted when its header is there and starts with the letters CPER. */
  lemma AcceptedExactly(data: seq<byte>, base: nat)
    ensures Accepted(data, base) <==> StartsCper(data, base)
  {
    hide HeaderAt;
    HeaderNumbers(data, base);
  }

  /** The numbers. */
  lemma HeaderShown(data: seq<byte>, base: nat)
    ensures var ir := HeaderToIr(HeaderAt(data, base));
      && Get(Get(ir, "revision"), "major") == Int(N8(data, base + 5))
      && Get(Get(ir, "revision"), "minor") == Int(N8(data, base + 4))
      && Get(ir, "sectionCount") == Int(N16(data, base + 10))
      && Get(ir, "recordLength") == Int(N32(data, base + 20))
      && Get(ir, "recordID") == Int(N64(data, base + 96))
      && Get(ir, "persistenceInfo") == Int(N64(data, base + 108))
  {
    hide HeaderAt, HeaderToIr, N32, N64, BitfieldToIr, TimestampToString, GuidToString, NotificationToIr, Flag,
      HasTimestamp, HasPlatform, HasPartition, SeverityToIr, Pair;
    HeaderNumbers(data, base);
    HeaderMembers(HeaderAt(data, base));
  }

  /** The lowest bits of the word at offset 16 are those of the byte there. */
  lemma HeaderGates(data: seq<byte>, base: nat)
    ensures var h, valid := HeaderAt(data, base), N8(data, base + 16);
      && (HasPlatform(h) <==> valid % 2 == 1) && (HasTimestamp(h) <==> valid / 2 % 2 == 1)
      && (HasPartition(h) <==> valid / 4 % 2 == 1)
  {
    hide HeaderAt, N8;
    HeaderNumbers(data, base);
    LowGates(N8(data, base + 16), N32(data, base + 16));
  }

  lemma LowGates(b: byte, v: nat)
    requires v % 0x100 == b
    ensures (Bit(v, 0) <==> b % 2 == 1) && (Bit(v, 1) <==> b / 2 % 2 == 1) && (Bit(v, 2) <==> b / 4 % 2 == 1)
  {
    var q := v / 0x100;
    HalfBelow(0x80 * q, b);
    HalfBelow(0x40 * q, b / 2);
    HalfBelow(0x20 * q, b / 4);
    assert High(v, 0) == v && High(v, 1) == v / 2 && High(v, 2) == v / 2 / 2;
  }

  /** Adding an even number changes neither the lowest bit nor the bits above it among themselves. */
  lemma HalfBelow(h: nat, b: nat)
    ensures (2 * h + b) % 2 == b % 2 && (2 * h + b) / 2 == h + b / 2
  {
    DivModUnique(2 * h + b, 2, h + b / 2, b % 2);
  }

  /** What the validation bits at offset 16 say is there, and nothing else, is shown. */
  lemma HeaderParts(data: seq<byte>, base: nat)
    ensures var ir, valid := HeaderToIr(HeaderAt(data, base)), N8(data, base + 16);
      && Get(ir, "timestamp") == (if valid / 2 % 2 == 0 then Null else Str(TimeText(data, base + 24)))
      && Get(ir, "timestampIsPrecise") == (if valid / 2 % 2 == 0 then Null else Bool(N8(data, base + 27) != 0))
      && Get(ir, "platformID") == (if valid % 2 == 0 then Null else Str(GuidText(data, base + 32)))
      && Get(ir, "partitionID") == (if valid / 4 % 2 == 0 then Null else Str(GuidText(data, base + 48)))
      && Get(ir, "creatorID") == Str(GuidText(data, base + 64))
      && Get(Get(ir, "notificationType"), "guid") == Str(GuidText(data, base + 80))
  {
    hide HeaderAt, HeaderToIr, N8, N16, N32, N64, BitfieldToIr, TimestampToString, GuidToString, SeverityToIr, GuidOf,
      At, GuidText, TimeText, Pair, NotificationName, RevisionToIr, HasTimestamp, HasPlatform, HasPartition;
    HeaderGates(data, base);
    HeaderNumbers(data, base);
    HeaderGuids(data, base);
    HeaderMembers(HeaderAt(data, base));
    TimeShown(data, base + 24);
    GuidShown(data, base + 32);
    GuidShown(data, base + 48);
    GuidShown(data, base + 64);
    GuidShown(data, base + 80);
  }

  /** The validation bits under their names, and the names of severity and flags. */
  lemma HeaderNames(data: seq<byte>, base: nat)
    ensures var ir := HeaderToIr(HeaderAt(data, base));
      && Marks(Get(ir, "validationBits"), "platformIDValid", N32(data, base + 16), 1)
      && Marks(Get(ir, "validationBits"), "timestampValid", N32(data, base + 16), 2)
      && Marks(Get(ir, "validationBits"), "partitionIDValid", N32(data, base + 16), 4)
      && Get(Get(ir, "severity"), "code") == Int(N32(data, base + 12))
      && Get(Get(ir, "severity"), "name") == Str(SeverityText(N32(data, base + 12)))
      && Named(Get(ir, "flags"), N32(data, base + 104), HeaderFlagText(N32(data, base + 104)))
  {
    hide HeaderAt, HeaderToIr, N32, N64, BitfieldToIr, TimestampToString, GuidToString, NotificationToIr,
      RevisionToIr, HasTimestamp, HasPlatform, HasPartition, Flag, SeverityToIr, Pair, SeverityText, HeaderFlagText,
      Marks, Named;
    var h := HeaderAt(data, base);
    HeaderNumbers(data, base);
    HeaderMembers(h);
    HeaderBits(h.validationBits);
    SeverityNamed(h.errorSeverity);
    HeaderFlagsNamed(h.flags);
  }

  /** The notification type is named after the sixteen bytes at offset 80. */
  lemma HeaderNotification(data: seq<byte>, base: nat)
    ensures var m, ir := At(data, base + 80, 16), HeaderToIr(HeaderAt(data, base));
      var name := Get(Get(ir, "notificationType"), "type");
      && (forall i: nat :: i < 12 && m == NotificationBytes(i) ==> name == Str(NotificationText(i)))
      && ((forall i: nat :: i < 12 ==> m != NotificationBytes(i)) ==> name == Str("Unknown"))
  {
    hide HeaderAt, HeaderToIr, BitfieldToIr, TimestampToString, GuidToString, SeverityToIr, GuidOf, At, Pair,
      NotificationName, NotificationText, NotificationBytes, RevisionToIr, HasTimestamp, HasPlatform, HasPartition,
      Flag;
    HeaderGuids(data, base);
    HeaderMembers(HeaderAt(data, base));
    NotificationShown(At(data, base + 80, 16));
  }

  /** Memory that holds nothing but zeros. */
  predicate Blank(w: seq<byte>, p: nat, n: nat) {
    At(w, p, n) == Zeros(n)
  }

  /** What is written starts with the letters CPER, has its end of signature set and nothing unnamed or reserved, and what
      its validation bits say is missing is blank. */
  lemma WrittenHeader(h: Header)
    ensures var w := HeaderBytes(NormalHeader(h));
      && StartsCper(w, FRONT) && N32(w, 6) == 0xFFFF_FFFF && N32(w, 16) < 8 && Blank(w, 116, 12)
      && (N8(w, 16) / 2 % 2 == 0 ==> Blank(w, 24, 8)) && (N8(w, 16) % 2 == 0 ==> Blank(w, 32, 16))
      && (N8(w, 16) / 4 % 2 == 0 ==> Blank(w, 48, 16))
  {
    hide HeaderBytes, HeaderOf, N8, N32, StartsCper, NormalHeader, CanonicalHeader, Blank, HasTimestamp, HasPlatform,
      HasPartition, TimeStampAt, GuidOf;
    var n := NormalHeader(h);
    var w := HeaderBytes(n);
    HeaderOfBytes(n);
    AtWhole(w);
    HeaderNumbers(w, FRONT);
    HeaderGuids(w, FRONT);
    HeaderGates(w, FRONT);
    AcceptedExactly(w, FRONT);
    NormalHeaderCanonical(h);
    SignedHeader(n);
    HeaderTail(w);
    BlankTime(w, 24);
    BlankGuid(w, 32);
    BlankGuid(w, 48);
  }

  lemma BlankTime(w: seq<byte>, p: nat)
    ensures TimeStampAt(w, p) == ZERO_TIMESTAMP ==> Blank(w, p, 8)
  {
  }

  lemma BlankGuid(w: seq<byte>, p: nat)
    ensures GuidOf(At(w, p, 16)) == ZERO_GUID <==> Blank(w, p, 16)
  {
    hide GuidOf;
    ZeroLoads();
    GuidSame(At(w, p, 16), Zeros(16));
  }

  lemma ZeroLoads()
    ensures GuidOf(Zeros(16)) == ZERO_GUID
  {
    hide GuidOf, N16, N32, Zeros;
    ZeroNumbers(Zeros(16));
    assert Zeros(16)[8..] == ZERO_GUID.data4;
    GuidLoads(Zeros(16), ZERO_GUID);
  }

  lemma ZeroNumbers(z: seq<byte>)
    requires |z| == 16 && forall i :: 0 <= i < 16 ==> z[i] == 0
    ensures N32(z, FRONT) == 0 && N16(z, 4) == 0 && N16(z, 6) == 0
  {
  }

  lemma SignedHeader(h: Header)
    requires CanonicalHeader(h)
    ensures h.signatureStart == SIGNATURE_START && h.signatureEnd == 0xFFFF_FFFF && h.validationBits < 8
    ensures h.reserved == Zeros(12) && (!HasTimestamp(h) ==> h.timeStamp == ZERO_TIMESTAMP)
    ensures (!HasPlatform(h) ==> h.platformID == ZERO_GUID) && (!HasPartition(h) ==> h.partitionID == ZERO_GUID)
  {
    hide HasTimestamp, HasPlatform, HasPartition, ValidTimestamp;
  }

  lemma HeaderTail(w: seq<byte>)
    requires |w| == HEADER_SIZE
    ensures HeaderOf(w).reserved == Zeros(12) <==> Blank(w, 116, 12)
  {
    hide GuidOf, FromLE, At;
  }

  const FRONT: nat := 0

  // ---- section descriptors ------------------------------------------------------------------------------

  lemma DescriptorSlicesAt(data: seq<byte>, p: nat)
    ensures DescriptorCut(At(data, p, DESCRIPTOR_SIZE)) ==
      [At(data, p, 4), At(data, p + 4, 4), At(data, p + 8, 2), At(data, p + 10, 1), At(data, p + 11, 1),
       At(data, p + 12, 4), At(data, p + 16, 16), At(data, p + 32, 16), At(data, p + 48, 4), At(data, p + 52, 20)]
  {
    hide At;
    AtAt(data, p, DESCRIPTOR_SIZE, 0, 4);
    AtAt(data, p, DESCRIPTOR_SIZE, 4, 4);
    AtAt(data, p, DESCRIPTOR_SIZE, 8, 2);
    AtAt(data, p, DESCRIPTOR_SIZE, 10, 1);
    AtAt(data, p, DESCRIPTOR_SIZE, 11, 1);
    AtAt(data, p, DESCRIPTOR_SIZE, 12, 4);
    AtAt(data, p, DESCRIPTOR_SIZE, 16, 16);
    AtAt(data, p, DESCRIPTOR_SIZE, 32, 16);
    AtAt(data, p, DESCRIPTOR_SIZE, 48, 4);
    AtAt(data, p, DESCRIPTOR_SIZE, 52, 20);
  }

  lemma DescriptorNumbers(data: seq<byte>, p: nat)
    ensures var d := DescriptorAt(data, p);
      && d.sectionOffset == N32(data, p) && d.sectionLength == N32(data, p + 4) && d.revision == N16(data, p + 8)
      && d.secValidMask == N8(data, p + 10) && d.sectionFlags == N32(data, p + 12)
      && d.sectionType == GuidOf(At(data, p + 16, 16)) && d.fruId == GuidOf(At(data, p + 32, 16))
      && d.severity == N32(data, p + 48) && d.fruString == At(data, p + 52, 20)
  {
    hide At, FromLE, N8, N16, N32, GuidOf;
    DescriptorSlicesAt(data, p);
    Read32(data, p);
    Read32(data, p + 4);
    Read16(data, p + 8);
    Read8(data, p + 10);
    Read32(data, p + 12);
    Read32(data, p + 48);
  }

  /** The numbers, and the section type's GUID. */
  lemma DescriptorShown(table: seq<Sections.Definition>, data: seq<byte>, p: nat)
    ensures var ir := DescriptorToIr(table, DescriptorAt(data, p));
      && Get(ir, "sectionOffset") == Int(N32(data, p))
      && Get(ir, "sectionLength") == Int(N32(data, p + 4))
      && Get(Get(ir, "revision"), "major") == Int(N8(data, p + 9))
      && Get(Get(ir, "revision"), "minor") == Int(N8(data, p + 8))
      && Get(Get(ir, "sectionType"), "data") == Str(GuidText(data, p + 16))
      && Get(Get(ir, "sectionType"), "type") == Str(Sections.ReadableName(table, GuidOf(At(data, p + 16, 16))))
  {
    hide DescriptorAt, DescriptorToIr, N32, BitfieldToIr, GuidToString, GuidOf, At, GuidText, SeverityToIr, HasFruId,
      HasFruText, Sections.ReadableName, CString;
    DescriptorNumbers(data, p);
    DescriptorMembers(table, DescriptorAt(data, p));
    GuidShown(data, p + 16);
  }

  /** What the validation byte at offset 10 says is there, and nothing else, is shown. */
  lemma DescriptorParts(table: seq<Sections.Definition>, data: seq<byte>, p: nat)
    ensures var ir, valid := DescriptorToIr(table, DescriptorAt(data, p)), N8(data, p + 10);
      && Get(ir, "fruID") == (if valid % 2 == 0 then Null else Str(GuidText(data, p + 32)))
      && Get(ir, "fruText") == (if valid / 2 % 2 == 0 then Null else Str(Chars(data, p + 52, 20)))
  {
    hide DescriptorAt, DescriptorToIr, N8, N16, N32, BitfieldToIr, GuidToString, GuidOf, At, GuidText, SeverityToIr,
      RevisionToIr, SectionTypeToIr, CString, Chars;
    DescriptorNumbers(data, p);
    DescriptorMembers(table, DescriptorAt(data, p));
    LowGates(N8(data, p + 10), N8(data, p + 10));
    GuidShown(data, p + 32);
    CharsShown(data, p + 52, 20);
  }

  /** The validation bits and flags under their names, and the severity. */
  lemma DescriptorNames(table: seq<Sections.Definition>, data: seq<byte>, p: nat)
    ensures var ir := DescriptorToIr(table, DescriptorAt(data, p));
      && Marks(Get(ir, "validationBits"), "fruIDValid", N8(data, p + 10), 1)
      && Marks(Get(ir, "validationBits"), "fruStringValid", N8(data, p + 10), 2)
      && FlagMarks(Get(ir, "flags"), N32(data, p + 12))
      && Get(Get(ir, "severity"), "code") == Int(N32(data, p + 48))
      && Get(Get(ir, "severity"), "name") == Str(SeverityText(N32(data, p + 48)))
  {
    hide DescriptorAt, DescriptorToIr, N8, N16, N32, BitfieldToIr, GuidToString, GuidOf, At, SeverityToIr,
      RevisionToIr, SectionTypeToIr, CString, HasFruId, HasFruText, SeverityText, Marks, FlagMarks;
    var d := DescriptorAt(data, p);
    DescriptorNumbers(data, p);
    DescriptorMembers(table, d);
    DescriptorBits(d.secValidMask);
    DescriptorFlagBits(d.sectionFlags);
    SeverityNamed(d.severity);
  }

  /** In the program's own table the section type is named after the sixteen bytes at offset 16. */
  lemma DescriptorType(data: seq<byte>, p: nat)
    ensures var m := At(data, p + 16, 16);
      var name := Get(Get(DescriptorToIr(Sections.SectionDefinitions(), DescriptorAt(data, p)), "sectionType"), "type");
      && (forall i: nat :: i < 22 && m == SectionBytes(i) ==> name == Str(SectionText(i)))
      && ((forall i: nat :: i < 22 ==> m != SectionBytes(i)) ==> name == Str("Unknown"))
  {
    hide DescriptorAt, DescriptorToIr, At, SectionBytes, SectionText, GuidOf, Sections.ReadableName,
      Sections.SectionDefinitions, Sections.Reader;
    DescriptorShown(Sections.SectionDefinitions(), data, p);
    SectionShown(At(data, p + 16, 16));
  }

  /** What is written has nothing unnamed or reserved, and what its validation byte says is missing is blank. */
  lemma WrittenDescriptor(d: Descriptor)
    ensures var w := DescriptorBytes(NormalDescriptor(d));
      && N8(w, 10) < 4 && N8(w, 11) == 0 && N32(w, 12) < 0x100
      && (N8(w, 10) % 2 == 0 ==> Blank(w, 32, 16)) && (N8(w, 10) / 2 % 2 == 0 ==> Blank(w, 52, 20))
  {
    hide DescriptorBytes, DescriptorOf, N8, N32, NormalDescriptor, Blank, GuidOf, CleanText, HasFruId, HasFruText;
    var n := NormalDescriptor(d);
    var w := DescriptorBytes(n);
    DescriptorOfBytes(n);
    AtWhole(w);
    DescriptorNumbers(w, FRONT);
    ReservedByte(w);
    NormalDescriptorCanonical(d);
    DescriptorGates(n);
    BlankGuid(w, 32);
    BlankText(w, 52);
  }

  lemma DescriptorGates(d: Descriptor)
    ensures (HasFruId(d) <==> d.secValidMask % 2 == 1) && (HasFruText(d) <==> d.secValidMask / 2 % 2 == 1)
  {
    LowGates(d.secValidMask, d.secValidMask);
  }

  lemma ReservedByte(w: seq<byte>)
    requires |w| == DESCRIPTOR_SIZE
    ensures DescriptorOf(w).reserved == N8(w, 11)
  {
    hide GuidOf, FromLE;
  }

  lemma BlankText(w: seq<byte>, p: nat)
    ensures At(w, p, 20) == Zeros(20) <==> Blank(w, p, 20)
  {
    hide At;
  }
}
