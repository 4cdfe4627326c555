/** Where the sections of a rewritten record are, where its descriptors say, and what reading it again gives. */
module RecordLayout {
  import opened Bytes
  import opened CperParse
  import opened CperRecord
  import opened HeaderRoundTrip
  import opened IrParse
  import opened Json
  import opened RecordRoundTrip
  import Sections

  // ---- where the writer puts the sections -----------------------------------------------------------------

  ghost function WrittenPos(table: Table, others: Sections.Others, data: seq<byte>, base: nat, i: nat): nat {
    DescriptorPos(0, SectionCount(data, base)) + |RewrittenSections(table, others, data, base, i)|
  }

  lemma {:induction false} SectionAmong(table: Table, others: Sections.Others, data: seq<byte>, base: nat, n: nat,
                                        i: nat)
    requires i < n
    ensures var before := RewrittenSections(table, others, data, base, i);
      var s := RewrittenSection(table, others, data, base, i);
      && |before| + |s| <= |RewrittenSections(table, others, data, base, n)|
      && At(RewrittenSections(table, others, data, base, n), |before|, |s|) == s
    decreases n
  {
    hide RewrittenSection, At;
    var front := RewrittenSections(table, others, data, base, n - 1);
    var last := RewrittenSection(table, others, data, base, n - 1);
    if i == n - 1 {
      AtEnd(front, last);
    } else {
      SectionAmong(table, others, data, base, n - 1, i);
      AtLeft(front, last, |RewrittenSections(table, others, data, base, i)|,
             |RewrittenSection(table, others, data, base, i)|);
    }
  }

  /** What the writer makes of section `i` is found in what it writes at that section's place. */
  lemma WrittenAt(table: Table, others: Sections.Others, data: seq<byte>, base: nat, w: seq<byte>, i: nat)
    requires w == RewrittenRecord(table, others, data, base) && i < SectionCount(data, base)
    ensures var pos, s := WrittenPos(table, others, data, base, i), RewrittenSection(table, others, data, base, i);
      pos + |s| <= |w| && At(w, pos, |s|) == s
  {
    hide RewrittenSections, RewrittenSection, HeaderBytes, NormalHeader, HeaderAt, NormalDescriptors, At, SectionCount;
    var n := SectionCount(data, base);
    var front := HeaderBytes(NormalHeader(HeaderAt(data, base))) + NormalDescriptors(data, base, n);
    var sections := RewrittenSections(table, others, data, base, n);
    SectionAmong(table, others, data, base, n, i);
    assert w == front + sections + [];
    AtMiddle(front, sections, [], |RewrittenSections(table, others, data, base, i)|,
             |RewrittenSection(table, others, data, base, i)|);
  }

  lemma WrittenLength(table: Table, others: Sections.Others, data: seq<byte>, base: nat)
    ensures |RewrittenRecord(table, others, data, base)| ==
      WrittenPos(table, others, data, base, SectionCount(data, base))
  {
    hide RewrittenSections, HeaderBytes, NormalHeader, HeaderAt, NormalDescriptors, SectionCount;
  }

  // ---- what the descriptors say -----------------------------------------------------------------------------

  /** A descriptor that tells where the writer puts section `i`, and how long it makes it. */
  ghost predicate Describes(table: Table, others: Sections.Others, data: seq<byte>, base: nat, i: nat, d: Descriptor) {
    && d.sectionOffset == WrittenPos(table, others, data, base, i)
    && d.sectionLength == |RewrittenSection(table, others, data, base, i)|
  }

  /** The descriptors of a record in `w` at `b` tell where the writer puts the sections it read from `data`. */
  ghost predicate AllDescribed(table: Table, others: Sections.Others, data: seq<byte>, base: nat, w: seq<byte>,
                               b: nat) {
    forall i: nat :: i < SectionCount(data, base) ==> Describes(table, others, data, base, i, Desc(w, b, i))
  }

  lemma DescribedAlike(table: Table, others: Sections.Others, data: seq<byte>, base: nat, w: seq<byte>, i: nat)
    requires w == RewrittenRecord(table, others, data, base) && i < SectionCount(data, base)
    ensures Describes(table, others, data, base, i, Desc(w, FRONT, i)) <==>
      Describes(table, others, data, base, i, Desc(data, base, i))
  {
    hide DescriptorAt, NormalDescriptor, RewrittenSection, WrittenPos, RewrittenRecord, SectionCount;
    RewrittenParts(table, others, data, base, w, i);
    PlaceKept(Desc(data, base, i));
  }

  lemma {:induction false} LengthsWritten(table: Table, others: Sections.Others, data: seq<byte>, base: nat, n: nat)
    requires SameLengths(table, others, data, base, n)
    ensures |RewrittenSections(table, others, data, base, n)| == SectionsLength(data, base, n)
    decreases n
  {
    hide RewrittenSection, DescriptorAt;
    if n > 0 {
      LengthsWritten(table, others, data, base, n - 1);
    }
  }

  lemma PlacesAlike(table: Table, others: Sections.Others, data: seq<byte>, base: nat, i: nat)
    requires SameLengths(table, others, data, base, SectionCount(data, base)) && i < SectionCount(data, base)
    ensures Describes(table, others, data, base, i, Desc(data, base, i)) <==>
      InPlace(data, base, SectionCount(data, base), i)
  {
    hide DescriptorAt, RewrittenSection, RewrittenSections, SectionCount, SectionsLength;
    LengthsWritten(table, others, data, base, i);
  }

  // ---- what the lengths come to -------------------------------------------------------------------------------

  /** How long section `i` comes back: as long as its own counts and sizes say, when it can be read. */
  ghost function LengthBack(table: Table, others: Sections.Others, data: seq<byte>, base: nat, i: nat): nat {
    var d := Desc(data, base, i);
    if SectionInRange(data, base, d) then
      Sections.LengthBack(table, others, d.sectionType, SectionAt(data, base, d))
    else
      Sections.MissingLength(table, others, d.sectionType)
  }

  lemma RewrittenLength(table: Table, others: Sections.Others, data: seq<byte>, base: nat, i: nat)
    requires Sections.Matched(table)
    ensures |RewrittenSection(table, others, data, base, i)| == LengthBack(table, others, data, base, i)
  {
    hide DescriptorAt, SectionAt, SectionInRange, Sections.Matched, Sections.SectionToIr, Sections.SectionFromIr,
      Sections.LengthBack, Sections.MissingLength;
    var d := Desc(data, base, i);
    if SectionInRange(data, base, d) {
      Sections.RewrittenLength(table, others, d.sectionType, SectionAt(data, base, d));
    } else {
      Sections.MissingRewritten(table, others, d.sectionType);
    }
  }

  /** Every descriptor gives the length at which its section will come back. */
  ghost predicate LengthsRight(table: Table, others: Sections.Others, data: seq<byte>, base: nat) {
    forall i: nat :: i < SectionCount(data, base) ==>
      Desc(data, base, i).sectionLength == LengthBack(table, others, data, base, i)
  }

  lemma LengthsAlike(table: Table, others: Sections.Others, data: seq<byte>, base: nat)
    requires Sections.Matched(table)
    ensures SameLengths(table, others, data, base, SectionCount(data, base)) <==>
      LengthsRight(table, others, data, base)
  {
    hide DescriptorAt, RewrittenSection, LengthBack, Sections.Matched, SectionCount;
    forall i: nat | i < SectionCount(data, base)
      ensures |RewrittenSection(table, others, data, base, i)| == LengthBack(table, others, data, base, i)
    {
      RewrittenLength(table, others, data, base, i);
    }
  }

  lemma RewrittenLayout(table: Table, others: Sections.Others, data: seq<byte>, base: nat, w: seq<byte>)
    requires Sections.Matched(table) && w == RewrittenRecord(table, others, data, base)
    ensures AllDescribed(table, others, data, base, w, FRONT) <==>
      BackToBack(data, base) && LengthsRight(table, others, data, base)
  {
    hide DescriptorAt, RewrittenSection, WrittenPos, RewrittenRecord, SectionCount, Describes, SectionsLength,
      LengthsRight, Sections.Matched;
    var n := SectionCount(data, base);
    LengthsAlike(table, others, data, base);
    forall i: nat | i < n
      ensures Describes(table, others, data, base, i, Desc(w, FRONT, i)) <==>
        Describes(table, others, data, base, i, Desc(data, base, i))
    {
      DescribedAlike(table, others, data, base, w, i);
    }
    if SameLengths(table, others, data, base, n) {
      forall i: nat | i < n
        ensures Describes(table, others, data, base, i, Desc(data, base, i)) <==> InPlace(data, base, n, i)
      {
        PlacesAlike(table, others, data, base, i);
      }
    } else {
      NotDescribed(table, others, data, base);
    }
  }

  lemma NotDescribed(table: Table, others: Sections.Others, data: seq<byte>, base: nat)
    requires !SameLengths(table, others, data, base, SectionCount(data, base))
    ensures !AllDescribed(table, others, data, base, data, base)
  {
    hide DescriptorAt, RewrittenSection, WrittenPos, SectionCount;
    var i: nat :| i < SectionCount(data, base) &&
      |RewrittenSection(table, others, data, base, i)| != Desc(data, base, i).sectionLength;
    assert !Describes(table, others, data, base, i, Desc(data, base, i));
  }

  /** A record that is read in step and that the writer gets through. */
  ghost predicate ComesBack(table: Table, others: Sections.Others, data: seq<byte>, base: nat) {
    && Accepted(data, base) && InStep(data, base, SectionCount(data, base))
    && WritableRecord(table, RecordToIr(table, others, data, base))
  }

  /** What the writer makes of the record read at `base`. */
  ghost function Back(table: Table, others: Sections.Others, data: seq<byte>, base: nat): seq<byte> {
    RecordFromIr(table, others, RecordToIr(table, others, data, base))
  }

  /** The writer stores the sections one behind the other but keeps the offsets and lengths that were read. What it
      writes tells where its sections are exactly when the record it was read from is stored back to back and gives each
      section the length that the section's own counts and sizes come to. */
  lemma LayoutExact(table: Table, others: Sections.Others, data: seq<byte>, base: nat)
    requires Sections.Matched(table) && ComesBack(table, others, data, base)
    ensures AllDescribed(table, others, data, base, Back(table, others, data, base), FRONT) <==>
      BackToBack(data, base) && LengthsRight(table, others, data, base)
  {
    hide RewrittenRecord, AllDescribed, BackToBack, LengthsRight, Sections.Matched, Accepted, InStep, WritableRecord,
      RecordToIr, RecordFromIr, SectionCount;
    RecordTrip(table, others, data, base);
    RewrittenLayout(table, others, data, base, Back(table, others, data, base));
  }

  // ---- reading what was written -------------------------------------------------------------------------------

  ghost predicate NoneEmpty(data: seq<byte>, base: nat) {
    forall i: nat :: i < SectionCount(data, base) ==> Desc(data, base, i).sectionLength > 0
  }

  /** The reader finds section `i` of what was written where its descriptor says. */
  ghost predicate FoundAgain(table: Table, others: Sections.Others, data: seq<byte>, base: nat, w: seq<byte>, i: nat) {
    && Desc(w, FRONT, i) == NormalDescriptor(Desc(data, base, i))
    && SectionInRange(w, FRONT, Desc(w, FRONT, i))
    && Section(w, FRONT, i) == RewrittenSection(table, others, data, base, i)
  }

  lemma SectionFoundAgain(table: Table, others: Sections.Others, data: seq<byte>, base: nat, w: seq<byte>, i: nat)
    requires w == RewrittenRecord(table, others, data, base) && i < SectionCount(data, base)
    requires Describes(table, others, data, base, i, Desc(w, FRONT, i))
    requires Desc(data, base, i).sectionLength > 0
    ensures FoundAgain(table, others, data, base, w, i)
  {
    hide DescriptorAt, NormalDescriptor, RewrittenSection, WrittenPos, RewrittenRecord, SectionCount, At;
    RewrittenParts(table, others, data, base, w, i);
    PlaceKept(Desc(data, base, i));
    WrittenAt(table, others, data, base, w, i);
  }

  /** What was written is a record as long as its descriptors say, whose sections can all be read and are stored back to
      back. */
  ghost predicate Sound(w: seq<byte>, n: nat) {
    && Accepted(w, FRONT) && SectionCount(w, FRONT) == n && Readable(w, FRONT, n)
    && BackToBack(w, FRONT) && RecordLength(w, FRONT) == |w|
  }

  lemma WrittenHeader(table: Table, others: Sections.Others, data: seq<byte>, base: nat, w: seq<byte>)
    requires w == RewrittenRecord(table, others, data, base)
    ensures Accepted(w, FRONT) && HeaderAt(w, FRONT) == NormalHeader(HeaderAt(data, base))
    ensures SectionCount(w, FRONT) == SectionCount(data, base)
  {
    hide HeaderAt, RewrittenSections, HeaderBytes, NormalDescriptors;
    RewrittenParts(table, others, data, base, w, SectionCount(data, base));
  }

  /** The lengths the descriptors of `w` give are those of the sections written. */
  lemma {:induction false} LengthsFound(table: Table, others: Sections.Others, data: seq<byte>, base: nat,
                                        w: seq<byte>, n: nat)
    requires AllDescribed(table, others, data, base, w, FRONT) && n <= SectionCount(data, base)
    ensures SectionsLength(w, FRONT, n) == |RewrittenSections(table, others, data, base, n)|
    decreases n
  {
    hide RewrittenSection, DescriptorAt, SectionCount;
    if n > 0 {
      LengthsFound(table, others, data, base, w, n - 1);
      assert Describes(table, others, data, base, n - 1, Desc(w, FRONT, n - 1));
    }
  }

  lemma AllFoundAgain(table: Table, others: Sections.Others, data: seq<byte>, base: nat, w: seq<byte>)
    requires w == RewrittenRecord(table, others, data, base)
    requires AllDescribed(table, others, data, base, w, FRONT) && NoneEmpty(data, base)
    ensures forall i: nat :: i < SectionCount(data, base) ==> FoundAgain(table, others, data, base, w, i)
    ensures Sound(w, SectionCount(data, base))
  {
    hide DescriptorAt, NormalDescriptor, NormalHeader, HeaderAt, RewrittenSection, RewrittenSections, RewrittenRecord,
      SectionCount, SectionsLength, SectionInRange, Accepted;
    var n := SectionCount(data, base);
    WrittenHeader(table, others, data, base, w);
    forall i | 0 <= i < n
      ensures FoundAgain(table, others, data, base, w, i)
      ensures SectionInRange(w, FRONT, Desc(w, FRONT, i)) && InPlace(w, FRONT, n, i)
    {
      assert Describes(table, others, data, base, i, Desc(w, FRONT, i));
      SectionFoundAgain(table, others, data, base, w, i);
      LengthsFound(table, others, data, base, w, i);
    }
    WrittenLength(table, others, data, base);
    LengthsFound(table, others, data, base, w, n);
  }

  function NormalDescriptorIrs(table: Table, data: seq<byte>, base: nat, n: nat): seq<Json> {
    seq(n, (i: nat) requires i < n => DescriptorToIr(table, NormalDescriptor(Desc(data, base, i))))
  }

  ghost function RewrittenIrs(table: Table, others: Sections.Others, data: seq<byte>, base: nat, n: nat): seq<Json> {
    seq(n, (i: nat) requires i < n =>
      Sections.SectionToIr(table, others, Desc(data, base, i).sectionType,
                           RewrittenSection(table, others, data, base, i)))
  }

  /** When this holds and no section is empty (an empty one is never read), reading again what was written gives the
      normal header, the normal descriptors and the sections that were written. */
  lemma ReadAgain(table: Table, others: Sections.Others, data: seq<byte>, base: nat)
    requires Sections.Matched(table) && ComesBack(table, others, data, base)
    requires BackToBack(data, base) && LengthsRight(table, others, data, base) && NoneEmpty(data, base)
    ensures var n := SectionCount(data, base);
      RecordToIr(table, others, Back(table, others, data, base), FRONT) ==
        RecordIr(HeaderToIr(NormalHeader(HeaderAt(data, base))), NormalDescriptorIrs(table, data, base, n),
                 RewrittenIrs(table, others, data, base, n))
  {
    hide RewrittenRecord, BackToBack, LengthsRight, NoneEmpty, Sections.Matched, Accepted, InStep, WritableRecord,
      RecordToIr, RecordFromIr, SectionCount, HeaderAt, HeaderToIr, NormalHeader, RecordIr, AllDescribed,
      NormalDescriptorIrs, RewrittenIrs;
    RecordTrip(table, others, data, base);
    RewrittenLayout(table, others, data, base, Back(table, others, data, base));
    RewrittenRead(table, others, data, base, Back(table, others, data, base));
  }

  lemma RewrittenRead(table: Table, others: Sections.Others, data: seq<byte>, base: nat, w: seq<byte>)
    requires w == RewrittenRecord(table, others, data, base)
    requires AllDescribed(table, others, data, base, w, FRONT) && NoneEmpty(data, base)
    ensures var n := SectionCount(data, base);
      RecordToIr(table, others, w, FRONT) ==
        RecordIr(HeaderToIr(NormalHeader(HeaderAt(data, base))), NormalDescriptorIrs(table, data, base, n),
                 RewrittenIrs(table, others, data, base, n))
  {
    hide DescriptorAt, NormalDescriptor, NormalHeader, HeaderAt, RewrittenSection, RewrittenRecord, SectionCount,
      Accepted, RecordToIr, SectionInRange, SectionAt, DescriptorToIr, HeaderToIr, Sections.SectionToIr, RecordIr,
      AllDescribed, NoneEmpty;
    var n := SectionCount(data, base);
    AllFoundAgain(table, others, data, base, w);
    WrittenHeader(table, others, data, base, w);
    ReadableInStep(w, FRONT, n);
    ReadExactly(table, others, w, FRONT);
    forall i | 0 <= i < n
      ensures Desc(w, FRONT, i) == NormalDescriptor(Desc(data, base, i))
      ensures SectionIr(table, others, w, FRONT, Desc(w, FRONT, i)) ==
        Sections.SectionToIr(table, others, Desc(data, base, i).sectionType,
                             RewrittenSection(table, others, data, base, i))
    {
      assert FoundAgain(table, others, data, base, w, i);
      NormalType(Desc(data, base, i));
    }
    assert DescriptorIrs(table, w, FRONT, n) == NormalDescriptorIrs(table, data, base, n);
    assert SectionIrs(table, others, w, FRONT, n) == RewrittenIrs(table, others, data, base, n);
  }

  // ---- a second trip ------------------------------------------------------------------------------------------

  ghost predicate AllSettle(table: Table, others: Sections.Others, data: seq<byte>, base: nat) {
    forall i: nat :: i < SectionCount(data, base) ==>
      Sections.Settles(table, others, Desc(data, base, i).sectionType, Section(data, base, i))
  }

  lemma PartsCanonical(table: Table, others: Sections.Others, data: seq<byte>, base: nat, w: seq<byte>, i: nat)
    requires FoundAgain(table, others, data, base, w, i)
    requires Sections.Matched(table) && SectionInRange(data, base, Desc(data, base, i))
    requires Sections.Settles(table, others, Desc(data, base, i).sectionType, Section(data, base, i))
    ensures CanonicalDescriptor(Desc(w, FRONT, i))
    ensures Sections.CanonicalSection(table, others, Desc(w, FRONT, i).sectionType, Section(w, FRONT, i))
  {
    hide DescriptorAt, NormalDescriptor, CanonicalDescriptor, RewrittenSection, SectionAt, SectionInRange,
      Sections.Matched, Sections.Settles, Sections.CanonicalSection, Sections.Rewritten;
    var d := Desc(data, base, i);
    NormalDescriptorCanonical(d);
    NormalType(d);
    RewrittenReadable(table, others, data, base, i);
    Sections.RewrittenCanonical(table, others, d.sectionType, Section(data, base, i));
  }

  lemma ReadableNotEmpty(data: seq<byte>, base: nat)
    requires Readable(data, base, SectionCount(data, base))
    ensures NoneEmpty(data, base)
  {
    hide DescriptorAt, SectionCount;
    forall i: nat | i < SectionCount(data, base)
      ensures Desc(data, base, i).sectionLength > 0
    {
      assert SectionInRange(data, base, Desc(data, base, i));
    }
  }

  /** A second trip changes nothing: what is written of a readable record under the same condition is read and written
      again byte for byte. */
  lemma SecondTrip(table: Table, others: Sections.Others, data: seq<byte>, base: nat)
    requires Sections.Matched(table) && AllSettle(table, others, data, base)
    requires Accepted(data, base) && Readable(data, base, SectionCount(data, base))
    requires BackToBack(data, base) && LengthsRight(table, others, data, base)
    ensures var w := Back(table, others, data, base);
      Back(table, others, w, FRONT) == w
  {
    hide Sections.Matched, AllSettle, Accepted, Readable, BackToBack, LengthsRight, RecordToIr, RecordFromIr,
      SectionCount, RewrittenRecord, AllDescribed, NoneEmpty, WritableRecord, InStep;
    ReadableInStep(data, base, SectionCount(data, base));
    ReadableWritable(table, others, data, base);
    ReadableNotEmpty(data, base);
    RecordTrip(table, others, data, base);
    RewrittenLayout(table, others, data, base, Back(table, others, data, base));
    RewrittenTwice(table, others, data, base, Back(table, others, data, base));
  }

  lemma RewrittenTwice(table: Table, others: Sections.Others, data: seq<byte>, base: nat, w: seq<byte>)
    requires Sections.Matched(table) && AllSettle(table, others, data, base)
    requires w == RewrittenRecord(table, others, data, base) && Readable(data, base, SectionCount(data, base))
    requires AllDescribed(table, others, data, base, w, FRONT) && NoneEmpty(data, base)
    ensures Back(table, others, w, FRONT) == w
  {
    hide DescriptorAt, NormalHeader, HeaderAt, RewrittenRecord, SectionCount, Accepted, RecordToIr, RecordFromIr,
      SectionInRange, SectionAt, AllDescribed, NoneEmpty, FoundAgain, CanonicalHeader, CanonicalDescriptor, Readable,
      Sections.Matched, Sections.Settles, Sections.CanonicalSection, BackToBack, RecordLength, SameLengths, At;
    var n := SectionCount(data, base);
    AllFoundAgain(table, others, data, base, w);
    WrittenHeader(table, others, data, base, w);
    NormalHeaderCanonical(HeaderAt(data, base));
    forall i | 0 <= i < n
      ensures CanonicalDescriptor(Desc(w, FRONT, i))
      ensures Sections.CanonicalSection(table, others, Desc(w, FRONT, i).sectionType, Section(w, FRONT, i))
    {
      ReadableAt(data, base, n, i);
      PartsCanonical(table, others, data, base, w, i);
    }
    WholeRecord(table, others, w, FRONT);
    AtWhole(w);
  }

  lemma ReadableAt(data: seq<byte>, base: nat, n: nat, i: nat)
    requires Readable(data, base, n) && i < n
    ensures SectionInRange(data, base, Desc(data, base, i))
  {
    hide SectionInRange, DescriptorAt;
  }
}
