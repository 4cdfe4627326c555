/** Headers and descriptors through the intermediate representation: what comes back and what is kept. */
module HeaderRoundTrip {
  import opened Bytes
  import opened CommonUtils
  import opened CperParse
  import opened CperRecord
  import opened CperUtils
  import opened Guids
  import opened IrParse
  import opened Json
  import opened Names
  import Sections

  // ---- headers --------------------------------------------------------------------------------------

  /** The signature is restored, unnamed validation bits and reserved bytes are cleared, and what the validation
      bits say is missing is zero. */
  function NormalHeader(h: Header): Header {
    h.(signatureStart := SIGNATURE_START,
       signatureEnd := SIGNATURE_END,
       validationBits := LowBits(h.validationBits, 3),
       timeStamp := if HasTimestamp(h) then NormalTimestamp(h.timeStamp, FlagBit(Flag(h.timeStamp.flag)))
                    else ZERO_TIMESTAMP,
       platformID := if HasPlatform(h) then h.platformID else ZERO_GUID,
       partitionID := if HasPartition(h) then h.partitionID else ZERO_GUID,
       reserved := Zeros(12))
  }

  function LowBits(v: nat, k: nat): (r: nat)
    ensures r <= v
  {
    LowAtMost(v, k);
    Low(v, k)
  }

  ghost predicate CanonicalHeader(h: Header) {
    && h.signatureStart == SIGNATURE_START && h.signatureEnd == SIGNATURE_END && h.validationBits < 8
    && (if HasTimestamp(h) then ValidTimestamp(h.timeStamp) && h.timeStamp.flag <= 1 else h.timeStamp == ZERO_TIMESTAMP)
    && (!HasPlatform(h) ==> h.platformID == ZERO_GUID)
    && (!HasPartition(h) ==> h.partitionID == ZERO_GUID)
    && h.reserved == Zeros(12)
  }

  lemma HeaderKeysDistinct()
    ensures Distinct(HeaderKeys())
  {
  }

  /** What the reader puts under each key. */
  lemma HeaderMembers(h: Header)
    ensures var ir := HeaderToIr(h);
      && Get(ir, "revision") == RevisionToIr(h.revision)
      && Get(ir, "sectionCount") == Int(h.sectionCount)
      && Get(ir, "severity") == SeverityToIr(h.errorSeverity)
      && Get(ir, "validationBits") == BitfieldToIr(h.validationBits, HeaderValidNames())
      && Get(ir, "recordLength") == Int(h.recordLength)
      && Get(ir, "timestamp") == (if HasTimestamp(h) then Str(TimestampToString(h.timeStamp)) else Null)
      && Get(ir, "timestampIsPrecise") == (if HasTimestamp(h) then Flag(h.timeStamp.flag) else Null)
      && Get(ir, "platformID") == (if HasPlatform(h) then Str(GuidToString(h.platformID)) else Null)
      && Get(ir, "partitionID") == (if HasPartition(h) then Str(GuidToString(h.partitionID)) else Null)
      && Get(ir, "creatorID") == Str(GuidToString(h.creatorID))
      && Get(ir, "notificationType") == NotificationToIr(h.notificationType)
      && Get(ir, "recordID") == Int(h.recordID)
      && Get(ir, "flags") == Pair(h.flags, HeaderFlags)
      && Get(ir, "persistenceInfo") == Int(h.persistenceInfo)
  {
    hide Present, Get, RevisionToIr, SeverityToIr, BitfieldToIr, TimestampToString, GuidToString, NotificationToIr,
      Pair,
      Distinct, HasTimestamp, HasPlatform, HasPartition, Flag, HeaderValidNames;
    HeaderKeysDistinct();
    var k, v, ir := HeaderKeys(), HeaderValues(h), HeaderToIr(h);
    PresentHas(k, v);
    assert Get(ir, k[0]) == OrNull(v[0]) && Get(ir, k[1]) == OrNull(v[1]) && Get(ir, k[2]) == OrNull(v[2]);
    assert Get(ir, k[3]) == OrNull(v[3]) && Get(ir, k[4]) == OrNull(v[4]) && Get(ir, k[5]) == OrNull(v[5]);
    assert Get(ir, k[6]) == OrNull(v[6]) && Get(ir, k[7]) == OrNull(v[7]) && Get(ir, k[8]) == OrNull(v[8]);
    assert Get(ir, k[9]) == OrNull(v[9]) && Get(ir, k[10]) == OrNull(v[10]) && Get(ir, k[11]) == OrNull(v[11]);
    assert Get(ir, k[12]) == OrNull(v[12]) && Get(ir, k[13]) == OrNull(v[13]);
  }

  lemma SeverityRoundTrip(severity: u32)
    ensures CastU32(Get(SeverityToIr(severity), "code")) == severity
  {
    hide SeverityToString;
  }

  lemma NotificationRoundTrip(g: Guid)
    ensures GuidFromIr(Get(NotificationToIr(g), "guid")) == g
  {
    hide NotificationName, GuidToString, StringToGuid;
    GuidRoundTrip(g, ZERO_GUID);
  }

  lemma GuidTextRoundTrip(g: Guid)
    ensures GuidFromIr(Str(GuidToString(g))) == g
  {
    hide GuidToString, StringToGuid;
    GuidRoundTrip(g, ZERO_GUID);
  }

  lemma HeaderPairRoundTrip(flags: u32)
    ensures CastU32(Get(Pair(flags, HeaderFlags), "value")) == flags
  {
    hide ReadableName;
  }

  lemma ValidRoundTrip(v: u32)
    ensures IrToBitfield(BitfieldToIr(v, HeaderValidNames()), HeaderValidNames()) == Low(v, 3)
  {
    hide IrToBitfield, BitfieldToIr, Distinct, HeaderValidNames;
    HeaderNamesDistinct();
    BitfieldRoundTrip(v, HeaderValidNames());
  }

  /** Reading any header and writing it again gives its normal form. */
  lemma HeaderTrip(h: Header)
    ensures HeaderFromIr(HeaderToIr(h)) == NormalHeader(h)
  {
    hide HeaderToIr, Get, RevisionToIr, IrToRevision, SeverityToIr, BitfieldToIr, IrToBitfield, TimestampToString,
      StringToTimestamp, GuidToString, GuidFromIr, NotificationToIr, Pair, CastU32, HasTimestamp, HasPlatform,
      HasPartition, HeaderValidNames, NormalTimestamp, Low, Flag, FlagBit;
    var ir := HeaderToIr(h);
    HeaderMembers(h);
    RevisionRoundTrip(h.revision);
    SeverityRoundTrip(h.errorSeverity);
    ValidRoundTrip(h.validationBits);
    TimestampTrip(ir, h);
    GuidTextRoundTrip(h.platformID);
    GuidTextRoundTrip(h.partitionID);
    GuidTextRoundTrip(h.creatorID);
    NotificationRoundTrip(h.notificationType);
    HeaderPairRoundTrip(h.flags);
    CastFits(h.recordLength);
  }

  lemma CastFits(v: u32)
    ensures CastU32(Int(v)) == v
  {
  }

  lemma TimestampTrip(ir: Json, h: Header)
    requires HasTimestamp(h) ==>
      && Get(ir, "timestamp") == Str(TimestampToString(h.timeStamp))
      && Get(ir, "timestampIsPrecise") == Flag(h.timeStamp.flag)
    ensures HasTimestamp(h) ==> TimestampFromIr(ir) == NormalTimestamp(h.timeStamp, FlagBit(Flag(h.timeStamp.flag)))
  {
    hide Get, TimestampToString, StringToTimestamp, HasTimestamp;
    TimestampRoundTrip(h.timeStamp, ZERO_TIMESTAMP);
  }

  /** The low bits keep the bits among them. */
  lemma {:induction false} BitOfLow(v: nat, k: nat, i: nat)
    requires i < k
    ensures Bit(Low(v, k), i) == Bit(v, i)
    decreases k
  {
    var l := Low(v, k);
    assert l / 2 == Low(v / 2, k - 1) && l % 2 == v % 2;
    if i > 0 {
      BitOfLow(v / 2, k - 1, i - 1);
    }
  }

  lemma LowBitsKept(v: nat, k: nat)
    ensures LowBits(v, k) == v <==> v < Pow2(k)
  {
    if v < Pow2(k) {
      LowOfLow(v, k);
    }
  }

  /** The headers that come back unchanged are exactly the canonical ones. */
  lemma HeaderKept(h: Header)
    ensures NormalHeader(h) == h <==> CanonicalHeader(h)
  {
    hide LowBits, HasTimestamp, HasPlatform, HasPartition, ValidTimestamp, NormalTimestamp;
    LowBitsKept(h.validationBits, 3);
    assert Pow2(3) == 8;
    TimestampKept(h.timeStamp);
    TimestampFlagKept(h.timeStamp);
  }

  lemma TimestampFlagKept(t: Timestamp)
    ensures FlagBit(Flag(t.flag)) == t.flag <==> t.flag <= 1
    ensures NormalTimestamp(t, FlagBit(Flag(t.flag))) == t <==> NormalTimestamp(t, t.flag) == t && t.flag <= 1
  {
    hide Decimal;
  }

  lemma DecimalTwice(b: byte)
    ensures ValidBcd(Decimal(b)) && Decimal(Decimal(b)) == Decimal(b)
  {
    var v := BcdToInt(b);
    DivModUnique(Bcd(v), 16, v / 10 % 10, v % 10);
    BcdRoundTrip(Bcd(v));
  }

  /** A normal form is canonical, so that normalising once is enough. */
  lemma NormalHeaderCanonical(h: Header)
    ensures CanonicalHeader(NormalHeader(h)) && NormalHeader(NormalHeader(h)) == NormalHeader(h)
  {
    hide LowBits, Decimal, ValidBcd, FlagBit, Bit;
    var n := NormalHeader(h);
    LowBitsBelow(h.validationBits);
    BitOfLow(h.validationBits, 3, 0);
    BitOfLow(h.validationBits, 3, 1);
    BitOfLow(h.validationBits, 3, 2);
    LowBitsIsLow(h.validationBits, 3);
    DecimalTwice(h.timeStamp.seconds);
    DecimalTwice(h.timeStamp.minutes);
    DecimalTwice(h.timeStamp.hours);
    DecimalTwice(h.timeStamp.day);
    DecimalTwice(h.timeStamp.month);
    DecimalTwice(h.timeStamp.year);
    DecimalTwice(h.timeStamp.century);
    HeaderKept(n);
  }

  lemma LowBitsIsLow(v: nat, k: nat)
    ensures LowBits(v, k) == Low(v, k)
  {
  }

  lemma LowBitsBelow(v: nat)
    ensures LowBits(v, 3) < 8 && LowBits(v, 2) < 4 && LowBits(v, 8) < 0x100
  {
    Pow2Values();
    assert Pow2(3) == 8 && Pow2(2) == 4;
  }

  // ---- section descriptors ------------------------------------------------------------------------------

  /** Unnamed validation bits and flags and the reserved byte are cleared, what the validation bits say is missing
      is zero, and the text is cut and padded after its first NUL. */
  function NormalDescriptor(d: Descriptor): Descriptor {
    d.(secValidMask := LowBits(d.secValidMask, 2),
       reserved := 0,
       sectionFlags := LowBits(d.sectionFlags, 8),
       fruId := if HasFruId(d) then d.fruId else ZERO_GUID,
       fruString := if HasFruText(d) then TextBuffer(CString(d.fruString), 20) else Zeros(20))
  }

  ghost predicate CanonicalDescriptor(d: Descriptor) {
    && d.secValidMask < 4 && d.reserved == 0 && d.sectionFlags < 0x100
    && (!HasFruId(d) ==> d.fruId == ZERO_GUID)
    && (if HasFruText(d) then CleanText(d.fruString) else d.fruString == Zeros(20))
  }

  lemma DescriptorKeysDistinct()
    ensures Distinct(DescriptorKeys())
  {
  }

  lemma DescriptorMembers(table: seq<Sections.Definition>, d: Descriptor)
    ensures var ir := DescriptorToIr(table, d);
      && Get(ir, "sectionOffset") == Int(d.sectionOffset)
      && Get(ir, "sectionLength") == Int(d.sectionLength)
      && Get(ir, "revision") == RevisionToIr(d.revision)
      && Get(ir, "validationBits") == BitfieldToIr(d.secValidMask, DescriptorValidNames())
      && Get(ir, "flags") == BitfieldToIr(d.sectionFlags, DescriptorFlagNames())
      && Get(ir, "sectionType") == SectionTypeToIr(table, d.sectionType)
      && Get(ir, "fruID") == (if HasFruId(d) then Str(GuidToString(d.fruId)) else Null)
      && Get(ir, "fruText") == (if HasFruText(d) then Str(CString(d.fruString)) else Null)
      && Get(ir, "severity") == SeverityToIr(d.severity)
  {
    hide Present, Get, RevisionToIr, SeverityToIr, BitfieldToIr, SectionTypeToIr, GuidToString, CString, Distinct,
      HasFruId, HasFruText, DescriptorValidNames, DescriptorFlagNames;
    DescriptorKeysDistinct();
    var k, v, ir := DescriptorKeys(), DescriptorValues(table, d), DescriptorToIr(table, d);
    PresentHas(k, v);
    assert Get(ir, k[0]) == OrNull(v[0]) && Get(ir, k[1]) == OrNull(v[1]) && Get(ir, k[2]) == OrNull(v[2]);
    assert Get(ir, k[3]) == OrNull(v[3]) && Get(ir, k[4]) == OrNull(v[4]) && Get(ir, k[5]) == OrNull(v[5]);
    assert Get(ir, k[6]) == OrNull(v[6]) && Get(ir, k[7]) == OrNull(v[7]) && Get(ir, k[8]) == OrNull(v[8]);
  }

  lemma DescriptorBitsRoundTrip(valid: nat, flags: nat)
    ensures IrToBitfield(BitfieldToIr(valid, DescriptorValidNames()), DescriptorValidNames()) == LowBits(valid, 2)
    ensures IrToBitfield(BitfieldToIr(flags, DescriptorFlagNames()), DescriptorFlagNames()) == LowBits(flags, 8)
  {
    hide IrToBitfield, BitfieldToIr, Distinct, DescriptorValidNames, DescriptorFlagNames;
    DescriptorNamesDistinct();
    BitfieldRoundTrip(valid, DescriptorValidNames());
    BitfieldRoundTrip(flags, DescriptorFlagNames());
  }

  lemma SectionTypeRoundTrip(table: seq<Sections.Definition>, g: Guid)
    ensures GuidFromIr(Get(SectionTypeToIr(table, g), "data")) == g
  {
    hide GuidToString, StringToGuid, Sections.ReadableName;
    GuidRoundTrip(g, ZERO_GUID);
  }

  /** Reading any descriptor and writing it again gives its normal form. */
  lemma DescriptorTrip(table: seq<Sections.Definition>, d: Descriptor)
    ensures DescriptorFromIr(DescriptorToIr(table, d)) == NormalDescriptor(d)
  {
    hide DescriptorToIr, Get, RevisionToIr, IrToRevision, SeverityToIr, BitfieldToIr, IrToBitfield, GuidToString,
      GuidFromIr, SectionTypeToIr, CastU32, HasFruId, HasFruText, DescriptorValidNames, DescriptorFlagNames, LowBits,
      CString, TextBuffer;
    DescriptorMembers(table, d);
    CastFits(d.sectionOffset);
    CastFits(d.sectionLength);
    RevisionRoundTrip(d.revision);
    DescriptorBitsRoundTrip(d.secValidMask, d.sectionFlags);
    SectionTypeRoundTrip(table, d.sectionType);
    GuidTextRoundTrip(d.fruId);
    SeverityRoundTrip(d.severity);
  }

  /** The descriptors that come back unchanged are exactly the canonical ones. */
  lemma DescriptorKept(d: Descriptor)
    ensures NormalDescriptor(d) == d <==> CanonicalDescriptor(d)
  {
    hide LowBits, HasFruId, HasFruText, CString, TextBuffer, CleanText;
    LowBitsKept(d.secValidMask, 2);
    LowBitsKept(d.sectionFlags, 8);
    Pow2Values();
    assert Pow2(2) == 4;
    TextKept(d.fruString, 20);
    assert d.fruString[..20] == d.fruString;
  }

  lemma NormalDescriptorCanonical(d: Descriptor)
    ensures CanonicalDescriptor(NormalDescriptor(d)) && NormalDescriptor(NormalDescriptor(d)) == NormalDescriptor(d)
  {
    hide LowBits, Bit, CString, TextBuffer, CleanText;
    var n := NormalDescriptor(d);
    LowBitsBelow(d.secValidMask);
    LowBitsBelow(d.sectionFlags);
    BitOfLow(d.secValidMask, 2, 0);
    BitOfLow(d.secValidMask, 2, 1);
    LowBitsIsLow(d.secValidMask, 2);
    CStringChars(d.fruString);
    TextBufferClean(CString(d.fruString), 20);
    DescriptorKept(n);
  }
}
