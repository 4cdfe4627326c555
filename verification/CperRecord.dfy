/** Record headers and section descriptors: UEFI Specification 2.9, sections N.2.1 and N.2.2. */
module CperRecord {
  import opened Bytes
  import opened CperUtils
  import opened Guids

  const HEADER_SIZE: nat := 128
  const DESCRIPTOR_SIZE: nat := 72

  /** The letters CPER. */
  const SIGNATURE_START: u32 := 0x52455043
  const SIGNATURE_END: u32 := 0xFFFF_FFFF

  // ---- the record header ------------------------------------------------------------------------

  datatype HeaderFields = Header(
    signatureStart: u32, revision: u16, signatureEnd: u32, sectionCount: u16, errorSeverity: u32, validationBits: u32,
    recordLength: u32, timeStamp: Timestamp, platformID: Guid, partitionID: Guid, creatorID: Guid,
    notificationType: Guid, recordID: u64, flags: u32, persistenceInfo: u64, reserved: seq<byte>)

  type Header = h: HeaderFields | |h.reserved| == 12 witness ZERO_HEADER

  const ZERO_TIMESTAMP: Timestamp := Timestamp(0, 0, 0, 0, 0, 0, 0, 0)

  const ZERO_HEADER: HeaderFields := Header(0, 0, 0, 0, 0, 0, 0, ZERO_TIMESTAMP, ZERO_GUID, ZERO_GUID, ZERO_GUID,
                                            ZERO_GUID, 0, 0, 0, [0, 0, 0, 0, 0, 0, 0, 0, 0, 0, 0, 0])

  const HEADER_WIDTHS: seq<nat> := [4, 2, 4, 2, 4, 4, 4, 8, 16, 16, 16, 16, 8, 4, 8, 12]

  lemma HeaderWidths()
    ensures Sum(HEADER_WIDTHS) == HEADER_SIZE
  {
    hide Sum;
    var a: seq<nat>, b: seq<nat> := [4, 2, 4, 2], [4, 4, 4, 8];
    var c: seq<nat>, d: seq<nat> := [16, 16, 16, 16], [8, 4, 8, 12];
    SumFour(4, 2, 4, 2);
    SumFour(4, 4, 4, 8);
    SumFour(16, 16, 16, 16);
    SumFour(8, 4, 8, 12);
    SumAppend(a, b);
    SumAppend(a + b, c);
    SumAppend(a + b + c, d);
    assert HEADER_WIDTHS == a + b + c + d;
  }

  function TimestampBytes(t: Timestamp): (s: seq<byte>)
    ensures |s| == 8
  {
    [t.seconds, t.minutes, t.hours, t.flag, t.day, t.month, t.year, t.century]
  }

  function TimestampOf(s: seq<byte>): Timestamp
    requires |s| == 8
  {
    Timestamp(s[0], s[1], s[2], s[3], s[4], s[5], s[6], s[7])
  }

  function HeaderParts(h: Header): (p: seq<seq<byte>>)
    ensures HasWidths(p, HEADER_WIDTHS)
  {
    [LE(h.signatureStart, 4), LE(h.revision, 2), LE(h.signatureEnd, 4), LE(h.sectionCount, 2), LE(h.errorSeverity, 4),
     LE(h.validationBits, 4), LE(h.recordLength, 4), TimestampBytes(h.timeStamp), GuidBytes(h.platformID),
     GuidBytes(h.partitionID), GuidBytes(h.creatorID), GuidBytes(h.notificationType), LE(h.recordID, 8),
     LE(h.flags, 4), LE(h.persistenceInfo, 8), h.reserved]
  }

  ghost predicate HeaderSlices(p: seq<seq<byte>>) {
    && |p| == 16 && |p[0]| == 4 && |p[1]| == 2 && |p[2]| == 4 && |p[3]| == 2 && |p[4]| == 4 && |p[5]| == 4
    && |p[6]| == 4 && |p[7]| == 8 && |p[8]| == 16 && |p[9]| == 16 && |p[10]| == 16 && |p[11]| == 16
    && |p[12]| == 8 && |p[13]| == 4 && |p[14]| == 8 && |p[15]| == 12
  }

  function HeaderFrom(p: seq<seq<byte>>): Header
    requires HeaderSlices(p)
  {
    Header(U32(p[0]), U16(p[1]), U32(p[2]), U16(p[3]), U32(p[4]), U32(p[5]), U32(p[6]), TimestampOf(p[7]),
           GuidOf(p[8]), GuidOf(p[9]), GuidOf(p[10]), GuidOf(p[11]), U64(p[12]), U32(p[13]), U64(p[14]), p[15])
  }

  function HeaderBytes(h: Header): (s: seq<byte>)
    ensures |s| == HEADER_SIZE
  {
    HeaderWidths();
    JoinLength(HeaderParts(h), HEADER_WIDTHS);
    Join(HeaderParts(h))
  }

  /** The fields at their offsets. */
  function HeaderCut(s: seq<byte>): seq<seq<byte>> {
    [At(s, 0, 4), At(s, 4, 2), At(s, 6, 4), At(s, 10, 2), At(s, 12, 4), At(s, 16, 4), At(s, 20, 4), At(s, 24, 8),
     At(s, 32, 16), At(s, 48, 16), At(s, 64, 16), At(s, 80, 16), At(s, 96, 8), At(s, 104, 4), At(s, 108, 8),
     At(s, 116, 12)]
  }

  lemma HeaderSliced(s: seq<byte>)
    ensures HeaderSlices(HeaderCut(s))
  {
    hide At;
  }

  lemma HeaderCutChop(s: seq<byte>)
    requires |s| == HEADER_SIZE
    ensures Sum(HEADER_WIDTHS) == HEADER_SIZE && HeaderCut(s) == Chop(s, HEADER_WIDTHS)
  {
    hide Sum, Chop, At;
    HeaderWidths();
    HeaderOffsets();
    forall i | 0 <= i < 16
      ensures Chop(s, HEADER_WIDTHS)[i] == At(s, Sum(HEADER_WIDTHS[..i]), HEADER_WIDTHS[i])
    {
      ChopSlice(s, HEADER_WIDTHS, i);
    }
    HeaderCutMatches(s, Chop(s, HEADER_WIDTHS));
  }

  lemma HeaderCutMatches(s: seq<byte>, p: seq<seq<byte>>)
    requires |p| == 16
    requires forall i :: 0 <= i < 16 ==> p[i] == At(s, Sum(HEADER_WIDTHS[..i]), HEADER_WIDTHS[i])
    ensures HeaderCut(s) == p
  {
    hide Sum, At;
    HeaderOffsets();
  }

  lemma HeaderOffsets()
    ensures var ws := HEADER_WIDTHS;
      && Sum(ws[..0]) == 0 && Sum(ws[..1]) == 4 && Sum(ws[..2]) == 6 && Sum(ws[..3]) == 10 && Sum(ws[..4]) == 12
      && Sum(ws[..5]) == 16 && Sum(ws[..6]) == 20 && Sum(ws[..7]) == 24 && Sum(ws[..8]) == 32 && Sum(ws[..9]) == 48
      && Sum(ws[..10]) == 64 && Sum(ws[..11]) == 80 && Sum(ws[..12]) == 96 && Sum(ws[..13]) == 104
      && Sum(ws[..14]) == 108 && Sum(ws[..15]) == 116
  {
    hide Sum;
    SumNone(HEADER_WIDTHS);
    forall i | 0 <= i < 15
      ensures Sum(HEADER_WIDTHS[..i + 1]) == Sum(HEADER_WIDTHS[..i]) + HEADER_WIDTHS[i]
    {
      SumPrefix(HEADER_WIDTHS, i);
    }
    var ws := HEADER_WIDTHS;
    assert Sum(ws[..0 + 1]) == 4 && Sum(ws[..1 + 1]) == 6 && Sum(ws[..2 + 1]) == 10 && Sum(ws[..3 + 1]) == 12;
    assert Sum(ws[..4 + 1]) == 16 && Sum(ws[..5 + 1]) == 20 && Sum(ws[..6 + 1]) == 24 && Sum(ws[..7 + 1]) == 32;
    assert Sum(ws[..8 + 1]) == 48 && Sum(ws[..9 + 1]) == 64 && Sum(ws[..10 + 1]) == 80 && Sum(ws[..11 + 1]) == 96;
    assert Sum(ws[..12 + 1]) == 104 && Sum(ws[..13 + 1]) == 108 && Sum(ws[..14 + 1]) == 116;
  }

  function HeaderOf(s: seq<byte>): Header
    requires |s| == HEADER_SIZE
  {
    HeaderSliced(s);
    HeaderFrom(HeaderCut(s))
  }

  lemma HeaderPartsOf(p: seq<seq<byte>>)
    requires HeaderSlices(p)
    ensures HeaderParts(HeaderFrom(p)) == p
  {
    hide GuidBytes, GuidOf, LE, FromLE;
    StoreLoad(p[0]);
    StoreLoad(p[1]);
    StoreLoad(p[2]);
    StoreLoad(p[3]);
    StoreLoad(p[4]);
    StoreLoad(p[5]);
    StoreLoad(p[6]);
    GuidBytesOf(p[8]);
    GuidBytesOf(p[9]);
    GuidBytesOf(p[10]);
    GuidBytesOf(p[11]);
    StoreLoad(p[12]);
    StoreLoad(p[13]);
    StoreLoad(p[14]);
    assert TimestampBytes(TimestampOf(p[7])) == p[7];
    assert HeaderParts(HeaderFrom(p)) == [p[0], p[1], p[2], p[3], p[4], p[5], p[6], p[7], p[8], p[9], p[10], p[11],
                                          p[12], p[13], p[14], p[15]] == p;
  }

  /** A header in memory and its fields determine each other. */
  lemma HeaderBytesOf(s: seq<byte>)
    requires |s| == HEADER_SIZE
    ensures HeaderBytes(HeaderOf(s)) == s
  {
    hide HeaderParts, HeaderFrom, HeaderCut, Join, Chop, Sum;
    HeaderSliced(s);
    HeaderCutChop(s);
    HeaderPartsOf(HeaderCut(s));
    JoinChop(s, HEADER_WIDTHS);
  }

  lemma Loads4(v: u32)
    ensures U32(LE(v, 4)) == v
  {
    assert Range(4) == 0x1_0000_0000;
    LoadStoreFits(v, 4);
  }

  lemma Loads2(v: u16)
    ensures U16(LE(v, 2)) == v
  {
    assert Range(2) == 0x1_0000;
    LoadStoreFits(v, 2);
  }

  lemma Loads8(v: u64)
    ensures U64(LE(v, 8)) == v
  {
    assert Range(8) == 0x1_0000_0000_0000_0000;
    LoadStoreFits(v, 8);
  }

  lemma HeaderOfBytes(h: Header)
    ensures HeaderOf(HeaderBytes(h)) == h
  {
    hide GuidBytes, GuidOf, LE, FromLE, Join, Chop, Sum, U16, U32, U64, HeaderCut;
    HeaderCutChop(HeaderBytes(h));
    ChopJoin(HeaderParts(h), HEADER_WIDTHS);
    Loads4(h.signatureStart);
    Loads2(h.revision);
    Loads4(h.signatureEnd);
    Loads2(h.sectionCount);
    Loads4(h.errorSeverity);
    Loads4(h.validationBits);
    Loads4(h.recordLength);
    GuidOfBytes(h.platformID);
    GuidOfBytes(h.partitionID);
    GuidOfBytes(h.creatorID);
    GuidOfBytes(h.notificationType);
    Loads8(h.recordID);
    Loads4(h.flags);
    Loads8(h.persistenceInfo);
  }

  // ---- section descriptors ------------------------------------------------------------------------

  datatype DescriptorFields = Descriptor(
    sectionOffset: u32, sectionLength: u32, revision: u16, secValidMask: byte, reserved: byte, sectionFlags: u32,
    sectionType: Guid, fruId: Guid, severity: u32, fruString: seq<byte>)

  type Descriptor = d: DescriptorFields | |d.fruString| == 20 witness ZERO_DESCRIPTOR

  const ZERO_DESCRIPTOR: DescriptorFields :=
    Descriptor(0, 0, 0, 0, 0, 0, ZERO_GUID, ZERO_GUID, 0, [0, 0, 0, 0, 0, 0, 0, 0, 0, 0, 0, 0, 0, 0, 0, 0, 0, 0, 0, 0])

  const DESCRIPTOR_WIDTHS: seq<nat> := [4, 4, 2, 1, 1, 4, 16, 16, 4, 20]

  lemma DescriptorWidths()
    ensures Sum(DESCRIPTOR_WIDTHS) == DESCRIPTOR_SIZE
  {
    var a: seq<nat>, b: seq<nat> := [4, 4, 2, 1, 1], [4, 16, 16, 4, 20];
    assert DESCRIPTOR_WIDTHS == a + b;
    SumAppend(a, b);
  }

  function DescriptorParts(d: Descriptor): (p: seq<seq<byte>>)
    ensures HasWidths(p, DESCRIPTOR_WIDTHS)
  {
    [LE(d.sectionOffset, 4), LE(d.sectionLength, 4), LE(d.revision, 2), [d.secValidMask], [d.reserved],
     LE(d.sectionFlags, 4), GuidBytes(d.sectionType), GuidBytes(d.fruId), LE(d.severity, 4), d.fruString]
  }

  ghost predicate DescriptorSlices(p: seq<seq<byte>>) {
    && |p| == 10 && |p[0]| == 4 && |p[1]| == 4 && |p[2]| == 2 && |p[3]| == 1 && |p[4]| == 1 && |p[5]| == 4
    && |p[6]| == 16 && |p[7]| == 16 && |p[8]| == 4 && |p[9]| == 20
  }

  function DescriptorFrom(p: seq<seq<byte>>): Descriptor
    requires DescriptorSlices(p)
  {
    Descriptor(U32(p[0]), U32(p[1]), U16(p[2]), p[3][0], p[4][0], U32(p[5]), GuidOf(p[6]), GuidOf(p[7]), U32(p[8]),
               p[9])
  }

  function DescriptorBytes(d: Descriptor): (s: seq<byte>)
    ensures |s| == DESCRIPTOR_SIZE
  {
    DescriptorWidths();
    JoinLength(DescriptorParts(d), DESCRIPTOR_WIDTHS);
    Join(DescriptorParts(d))
  }

  /** The fields at their offsets. */
  function DescriptorCut(s: seq<byte>): (p: seq<seq<byte>>)
    ensures DescriptorSlices(p)
  {
    [At(s, 0, 4), At(s, 4, 4), At(s, 8, 2), At(s, 10, 1), At(s, 11, 1), At(s, 12, 4), At(s, 16, 16), At(s, 32, 16),
     At(s, 48, 4), At(s, 52, 20)]
  }

  lemma DescriptorCutChop(s: seq<byte>)
    requires |s| == DESCRIPTOR_SIZE
    ensures Sum(DESCRIPTOR_WIDTHS) == DESCRIPTOR_SIZE && DescriptorCut(s) == Chop(s, DESCRIPTOR_WIDTHS)
  {
    hide Sum, Chop, At;
    DescriptorWidths();
    DescriptorOffsets();
    forall i | 0 <= i < 10
      ensures Chop(s, DESCRIPTOR_WIDTHS)[i] == At(s, Sum(DESCRIPTOR_WIDTHS[..i]), DESCRIPTOR_WIDTHS[i])
    {
      ChopSlice(s, DESCRIPTOR_WIDTHS, i);
    }
    DescriptorCutMatches(s, Chop(s, DESCRIPTOR_WIDTHS));
  }

  lemma DescriptorCutMatches(s: seq<byte>, p: seq<seq<byte>>)
    requires |p| == 10
    requires forall i :: 0 <= i < 10 ==> p[i] == At(s, Sum(DESCRIPTOR_WIDTHS[..i]), DESCRIPTOR_WIDTHS[i])
    ensures DescriptorCut(s) == p
  {
    hide Sum, At;
    DescriptorOffsets();
  }

  lemma DescriptorOffsets()
    ensures var ws := DESCRIPTOR_WIDTHS;
      && Sum(ws[..0]) == 0 && Sum(ws[..1]) == 4 && Sum(ws[..2]) == 8 && Sum(ws[..3]) == 10 && Sum(ws[..4]) == 11
      && Sum(ws[..5]) == 12 && Sum(ws[..6]) == 16 && Sum(ws[..7]) == 32 && Sum(ws[..8]) == 48 && Sum(ws[..9]) == 52
  {
    hide Sum;
    SumNone(DESCRIPTOR_WIDTHS);
    SumPrefix(DESCRIPTOR_WIDTHS, 0);
    SumPrefix(DESCRIPTOR_WIDTHS, 1);
    SumPrefix(DESCRIPTOR_WIDTHS, 2);
    SumPrefix(DESCRIPTOR_WIDTHS, 3);
    SumPrefix(DESCRIPTOR_WIDTHS, 4);
    SumPrefix(DESCRIPTOR_WIDTHS, 5);
    SumPrefix(DESCRIPTOR_WIDTHS, 6);
    SumPrefix(DESCRIPTOR_WIDTHS, 7);
    SumPrefix(DESCRIPTOR_WIDTHS, 8);
  }

  function DescriptorOf(s: seq<byte>): Descriptor
    requires |s| == DESCRIPTOR_SIZE
  {
    DescriptorFrom(DescriptorCut(s))
  }

  lemma DescriptorPartsOf(p: seq<seq<byte>>)
    requires DescriptorSlices(p)
    ensures DescriptorParts(DescriptorFrom(p)) == p
  {
    hide GuidBytes, GuidOf, LE, FromLE;
    StoreLoad(p[0]);
    StoreLoad(p[1]);
    StoreLoad(p[2]);
    StoreLoad(p[5]);
    GuidBytesOf(p[6]);
    GuidBytesOf(p[7]);
    StoreLoad(p[8]);
    assert [p[3][0]] == p[3] && [p[4][0]] == p[4];
  }

  /** A descriptor in memory and its fields determine each other. */
  lemma DescriptorBytesOf(s: seq<byte>)
    requires |s| == DESCRIPTOR_SIZE
    ensures DescriptorBytes(DescriptorOf(s)) == s
  {
    hide DescriptorParts, DescriptorFrom, DescriptorCut, Join, Chop, Sum;
    DescriptorCutChop(s);
    DescriptorPartsOf(DescriptorCut(s));
    JoinChop(s, DESCRIPTOR_WIDTHS);
  }

  lemma DescriptorOfBytes(d: Descriptor)
    ensures DescriptorOf(DescriptorBytes(d)) == d
  {
    hide GuidBytes, GuidOf, LE, FromLE, Join, Chop, Sum, U16, U32, DescriptorCut;
    DescriptorCutChop(DescriptorBytes(d));
    ChopJoin(DescriptorParts(d), DESCRIPTOR_WIDTHS);
    Loads4(d.sectionOffset);
    Loads4(d.sectionLength);
    Loads2(d.revision);
    Loads4(d.sectionFlags);
    GuidOfBytes(d.sectionType);
    GuidOfBytes(d.fruId);
    Loads4(d.severity);
  }
}
