/** Whole records: what writing gives back of what was read. */
module RecordRoundTrip {
  import opened Bytes
  import opened CperParse
  import opened CperRecord
  import opened HeaderRoundTrip
  import opened IrParse
  import opened Json
  import opened Streams
  import Sections

  type Table = seq<Sections.Definition>

  // ---- the layout of a record in a stream --------------------------------------------------------------

  /** A record at the front of a stream. */
  const FRONT: nat := 0

  /** Where the i-th descriptor is expected. */
  function DescriptorPos(base: nat, i: nat): nat {
    base + HEADER_SIZE + DESCRIPTOR_SIZE * i
  }

  function Desc(data: seq<byte>, base: nat, i: nat): Descriptor {
    DescriptorAt(data, DescriptorPos(base, i))
  }

  function Section(data: seq<byte>, base: nat, i: nat): seq<byte> {
    SectionAt(data, base, Desc(data, base, i))
  }

  /** The first `n` descriptors and the sections they describe are there to be read. */
  ghost predicate Readable(data: seq<byte>, base: nat, n: nat) {
    DescriptorPos(base, n) <= |data| && forall i: nat :: i < n ==> SectionInRange(data, base, Desc(data, base, i))
  }

  // ---- the walk ------------------------------------------------------------------------------------------

  function DescriptorIrs(table: Table, data: seq<byte>, base: nat, n: nat): (irs: seq<Json>)
    ensures |irs| == n
  {
    seq(n, (i: nat) requires i < n => DescriptorToIr(table, Desc(data, base, i)))
  }

  /** Sections that cannot be read are null. */
  function SectionIrs(table: Table, others: Sections.Others, data: seq<byte>, base: nat, n: nat): (irs: seq<Json>)
    ensures |irs| == n
  {
    seq(n, (i: nat) requires i < n => SectionIr(table, others, data, base, Desc(data, base, i)))
  }

  /** After descriptor `i` and its section the stream stands behind the descriptor again: the section can be read, or it
      is empty and said to start just there. */
  ghost predicate Passed(data: seq<byte>, base: nat, i: nat) {
    var d := Desc(data, base, i);
    && DescriptorPos(base, i + 1) <= |data|
    && (SectionInRange(data, base, d) ||
        (d.sectionLength == 0 && base + d.sectionOffset == DescriptorPos(base, i + 1)))
  }

  ghost predicate AllPassed(data: seq<byte>, base: nat, n: nat) {
    forall i: nat :: i < n ==> Passed(data, base, i)
  }

  /** Before descriptor `n` the stream stands right behind the first `n` descriptors, wherever their sections are. */
  lemma {:induction false} WalkInStep(table: Table, others: Sections.Others, data: seq<byte>, base: nat, n: nat)
    requires AllPassed(data, base, n)
    ensures WalkTo(table, others, data, base, n) ==
      Walk(true, DescriptorPos(base, n), DescriptorIrs(table, data, base, n), SectionIrs(table, others, data, base, n))
  {
    hide DescriptorAt, DescriptorToIr, SectionIr, SectionInRange;
    if n > 0 {
      WalkInStep(table, others, data, base, n - 1);
      assert Passed(data, base, n - 1);
      assert DescriptorIrs(table, data, base, n) ==
        DescriptorIrs(table, data, base, n - 1) + [DescriptorToIr(table, Desc(data, base, n - 1))];
      assert SectionIrs(table, others, data, base, n) == SectionIrs(table, others, data, base, n - 1) +
        [SectionIr(table, others, data, base, Desc(data, base, n - 1))];
    }
  }

  /** The first `n` descriptors are there, and the walk is in step up to the last of them. What comes of the last
      section does not matter. */
  ghost predicate InStep(data: seq<byte>, base: nat, n: nat) {
    n == 0 || (AllPassed(data, base, n - 1) && DescriptorPos(base, n) <= |data|)
  }

  lemma WalkCollects(table: Table, others: Sections.Others, data: seq<byte>, base: nat, n: nat)
    requires InStep(data, base, n)
    ensures var w := WalkTo(table, others, data, base, n);
      && w.ok && w.descriptors == DescriptorIrs(table, data, base, n)
      && w.sections == SectionIrs(table, others, data, base, n)
  {
    hide DescriptorAt, DescriptorToIr, SectionIr, AfterSection, AllPassed;
    if n > 0 {
      WalkInStep(table, others, data, base, n - 1);
      assert DescriptorIrs(table, data, base, n) ==
        DescriptorIrs(table, data, base, n - 1) + [DescriptorToIr(table, Desc(data, base, n - 1))];
      assert SectionIrs(table, others, data, base, n) == SectionIrs(table, others, data, base, n - 1) +
        [SectionIr(table, others, data, base, Desc(data, base, n - 1))];
    }
  }

  lemma ReadableInStep(data: seq<byte>, base: nat, n: nat)
    requires Readable(data, base, n)
    ensures InStep(data, base, n)
  {
    hide DescriptorAt, SectionInRange;
  }

  // ---- which records are read at all --------------------------------------------------------------------------

  /** The first of `n` sections after which the walk is out of step, or `n`. */
  ghost function FirstLost(data: seq<byte>, base: nat, n: nat): (i: nat)
    ensures i <= n && AllPassed(data, base, i) && (i < n ==> !Passed(data, base, i))
  {
    if AllPassed(data, base, n) then n else FirstLost(data, base, n - 1)
  }

  /** Where the stream is left by a section that cannot be read: at its end or behind it, so that no further descriptor
      is read, unless the section is empty, when it is left where the section is said to start. */
  lemma Derailed(table: Table, others: Sections.Others, data: seq<byte>, base: nat, i: nat)
    requires AllPassed(data, base, i) && DescriptorPos(base, i + 1) <= |data|
    requires !SectionInRange(data, base, Desc(data, base, i))
    ensures var w, d := WalkTo(table, others, data, base, i + 1), Desc(data, base, i);
      w.ok && if d.sectionLength == 0 then w.pos == base + d.sectionOffset
              else w.pos >= |data| && !WalkTo(table, others, data, base, i + 2).ok
  {
    hide DescriptorAt, DescriptorToIr, SectionIr, AllPassed;
    WalkInStep(table, others, data, base, i);
  }

  /** Before descriptor `i` the stream stands where that descriptor is. */
  ghost predicate Standing(table: Table, others: Sections.Others, data: seq<byte>, base: nat, i: nat) {
    var w := WalkTo(table, others, data, base, i);
    w.ok && w.pos == DescriptorPos(base, i)
  }

  /** Every descriptor is read where it is exactly when each section but the last can be read, or is empty and said to
      start where the next descriptor does. */
  lemma InStepExactly(table: Table, others: Sections.Others, data: seq<byte>, base: nat, n: nat)
    requires DescriptorPos(base, n) <= |data|
    ensures (forall i: nat :: i < n ==> Standing(table, others, data, base, i)) <==> InStep(data, base, n)
  {
    hide DescriptorAt, SectionInRange, WalkTo, AllPassed, Passed, DescriptorIrs, SectionIrs;
    if n > 0 {
      var i := FirstLost(data, base, n - 1);
      if i < n - 1 {
        LostForGood(data, base, i, n - 1);
        NotStanding(table, others, data, base, i, n);
      } else {
        forall j | 0 <= j < n
          ensures Standing(table, others, data, base, j)
        {
          PassedBefore(data, base, j, n - 1);
          WalkInStep(table, others, data, base, j);
        }
      }
    }
  }

  lemma NotStanding(table: Table, others: Sections.Others, data: seq<byte>, base: nat, i: nat, n: nat)
    requires AllPassed(data, base, i) && !Passed(data, base, i) && i + 1 < n && DescriptorPos(base, n) <= |data|
    ensures !Standing(table, others, data, base, i + 1)
  {
    hide DescriptorAt, WalkTo, AllPassed, SectionInRange;
    Derailed(table, others, data, base, i);
  }

  lemma PassedBefore(data: seq<byte>, base: nat, i: nat, n: nat)
    requires AllPassed(data, base, n) && i <= n
    ensures AllPassed(data, base, i)
  {
    hide Passed;
  }

  lemma LostForGood(data: seq<byte>, base: nat, i: nat, n: nat)
    requires !Passed(data, base, i) && i < n
    ensures !AllPassed(data, base, n)
  {
    hide Passed;
  }

  /** Whether `n` more descriptors can be read with the stream standing at `pos`. */
  predicate CanWalk(data: seq<byte>, base: nat, pos: nat, n: nat)
    decreases n
  {
    n == 0 ||
    (CanRead(data, pos, DESCRIPTOR_SIZE) &&
     CanWalk(data, base, AfterSection(data, base, pos + DESCRIPTOR_SIZE, DescriptorAt(data, pos)), n - 1))
  }

  lemma {:induction false} WalkOk(table: Table, others: Sections.Others, data: seq<byte>, base: nat, i: nat, n: nat)
    requires i <= n
    ensures WalkTo(table, others, data, base, n).ok <==>
      WalkTo(table, others, data, base, i).ok && CanWalk(data, base, WalkTo(table, others, data, base, i).pos, n - i)
    decreases n - i
  {
    hide DescriptorAt, DescriptorToIr, SectionIr, AfterSection, AfterRead, CanRead;
    if i < n {
      WalkOk(table, others, data, base, i + 1, n);
    }
  }

  /** Section `i` is empty, and from where it is said to start the rest of `n` descriptors can be read. */
  ghost predicate Resumes(data: seq<byte>, base: nat, i: nat, n: nat) {
    var d := Desc(data, base, i);
    i < n && DescriptorPos(base, i + 1) <= |data| && d.sectionLength == 0 &&
    CanWalk(data, base, base + d.sectionOffset, n - i - 1)
  }

  /** The descriptors met by a walk over `n` of them that starts at `pos`. */
  function DescriptorsMet(data: seq<byte>, base: nat, pos: nat, n: nat): (ds: seq<Descriptor>)
    ensures |ds| == n
    decreases n
  {
    if n == 0 then []
    else
      var d := DescriptorAt(data, pos);
      [d] + DescriptorsMet(data, base, AfterSection(data, base, pos + DESCRIPTOR_SIZE, d), n - 1)
  }

  function MetIrs(table: Table, ds: seq<Descriptor>): seq<Json> {
    seq(|ds|, (i: nat) requires i < |ds| => DescriptorToIr(table, ds[i]))
  }

  function MetSectionIrs(table: Table, others: Sections.Others, data: seq<byte>, base: nat,
                         ds: seq<Descriptor>): seq<Json> {
    seq(|ds|, (i: nat) requires i < |ds| => SectionIr(table, others, data, base, ds[i]))
  }

  lemma MetFirst(table: Table, others: Sections.Others, data: seq<byte>, base: nat, d: Descriptor,
                 ds: seq<Descriptor>)
    ensures MetIrs(table, [d] + ds) == [DescriptorToIr(table, d)] + MetIrs(table, ds)
    ensures MetSectionIrs(table, others, data, base, [d] + ds) ==
      [SectionIr(table, others, data, base, d)] + MetSectionIrs(table, others, data, base, ds)
  {
    hide DescriptorToIr, SectionIr;
  }

  /** What the walk collects from descriptor `i` on are the descriptors it meets, and their sections. */
  lemma {:induction false} WalkMeets(table: Table, others: Sections.Others, data: seq<byte>, base: nat, i: nat, n: nat)
    requires i <= n && WalkTo(table, others, data, base, n).ok
    ensures var v, w := WalkTo(table, others, data, base, i), WalkTo(table, others, data, base, n);
      var ds := DescriptorsMet(data, base, v.pos, n - i);
      && w.descriptors == v.descriptors + MetIrs(table, ds)
      && w.sections == v.sections + MetSectionIrs(table, others, data, base, ds)
    decreases n - i
  {
    hide DescriptorAt, DescriptorToIr, SectionIr, AfterSection, AfterRead, CanRead, MetIrs, MetSectionIrs;
    var v := WalkTo(table, others, data, base, i);
    if i < n {
      WalkOk(table, others, data, base, i, n);
      WalkMeets(table, others, data, base, i + 1, n);
      var d := DescriptorAt(data, v.pos);
      var next := AfterSection(data, base, v.pos + DESCRIPTOR_SIZE, d);
      MetFirst(table, others, data, base, d, DescriptorsMet(data, base, next, n - i - 1));
    } else {
      NothingMet(table, others, data, base);
    }
  }

  lemma NothingMet(table: Table, others: Sections.Others, data: seq<byte>, base: nat)
    ensures MetIrs(table, []) == [] && MetSectionIrs(table, others, data, base, []) == []
  {
  }

  /** The object of a record whose walk leaves its descriptors at the empty section `i` and goes on from where that is
      said to start. */
  function ResumedIr(table: Table, others: Sections.Others, data: seq<byte>, base: nat, i: nat, n: nat): Json
    requires i < n
  {
    var ds := DescriptorsMet(data, base, base + Desc(data, base, i).sectionOffset, n - i - 1);
    RecordIr(HeaderToIr(HeaderAt(data, base)),
             DescriptorIrs(table, data, base, i + 1) + MetIrs(table, ds),
             SectionIrs(table, others, data, base, i + 1) + MetSectionIrs(table, others, data, base, ds))
  }

  lemma ResumedRead(table: Table, others: Sections.Others, data: seq<byte>, base: nat, i: nat, n: nat)
    requires n == SectionCount(data, base) && Accepted(data, base) && WalkTo(table, others, data, base, n).ok
    requires AllPassed(data, base, i) && !Passed(data, base, i) && Resumes(data, base, i, n)
    ensures RecordToIr(table, others, data, base) == ResumedIr(table, others, data, base, i, n)
  {
    hide Accepted, HeaderAt, DescriptorAt, HeaderToIr, DescriptorIrs, SectionIrs, MetIrs, MetSectionIrs, AllPassed,
      WalkTo, CanWalk, DescriptorsMet, SectionCount, RecordToIr;
    RecordOfWalk(table, others, data, base);
    Derailed(table, others, data, base, i);
    WalkCollects(table, others, data, base, i + 1);
    WalkMeets(table, others, data, base, i + 1, n);
  }

  /** Exactly which records are read, and as what. One whose walk stays in step becomes the object of its header, its
      descriptors and its sections. Any other is given up, unless the first section to bring the walk out of step is
      empty and what is at its offset can be walked over instead; then that is what is read. */
  lemma ReadExactly(table: Table, others: Sections.Others, data: seq<byte>, base: nat)
    requires Accepted(data, base)
    ensures var n, ir := SectionCount(data, base), RecordToIr(table, others, data, base);
      if InStep(data, base, n) then
        ir == RecordIr(HeaderToIr(HeaderAt(data, base)), DescriptorIrs(table, data, base, n),
                       SectionIrs(table, others, data, base, n))
      else
        var i := FirstLost(data, base, n - 1);
        ir == if Resumes(data, base, i, n) then ResumedIr(table, others, data, base, i, n) else Null
  {
    hide Accepted, HeaderAt, DescriptorAt, SectionInRange, HeaderToIr, DescriptorIrs, SectionIrs, SectionCount,
      AfterSection, SectionIr, AllPassed, WalkTo, CanWalk, ResumedIr;
    var n := SectionCount(data, base);
    RecordOfWalk(table, others, data, base);
    if InStep(data, base, n) {
      WalkCollects(table, others, data, base, n);
    } else {
      OutOfStep(table, others, data, base, n);
      var i := FirstLost(data, base, n - 1);
      if Resumes(data, base, i, n) {
        ResumedRead(table, others, data, base, i, n);
      }
    }
  }

  lemma RecordOfWalk(table: Table, others: Sections.Others, data: seq<byte>, base: nat)
    requires Accepted(data, base)
    ensures var w := WalkTo(table, others, data, base, SectionCount(data, base));
      RecordToIr(table, others, data, base) ==
        if w.ok then RecordIr(HeaderToIr(HeaderAt(data, base)), w.descriptors, w.sections) else Null
  {
    hide WalkTo, HeaderAt, HeaderToIr, SectionCount;
  }

  lemma Truncated(table: Table, others: Sections.Others, data: seq<byte>, base: nat, i: nat)
    requires AllPassed(data, base, i) && DescriptorPos(base, i + 1) > |data|
    ensures !WalkTo(table, others, data, base, i + 1).ok
  {
    hide DescriptorAt, DescriptorToIr, SectionIr, AfterSection, AllPassed, DescriptorIrs, SectionIrs;
    WalkInStep(table, others, data, base, i);
  }

  lemma OutOfStep(table: Table, others: Sections.Others, data: seq<byte>, base: nat, n: nat)
    requires !InStep(data, base, n)
    ensures WalkTo(table, others, data, base, n).ok <==> Resumes(data, base, FirstLost(data, base, n - 1), n)
  {
    hide DescriptorAt, SectionInRange, WalkTo, CanWalk, AllPassed;
    var i := FirstLost(data, base, n - 1);
    if DescriptorPos(base, i + 1) <= |data| {
      assert i < n - 1;
      Derailed(table, others, data, base, i);
      WalkOk(table, others, data, base, i + 1, n);
      WalkOk(table, others, data, base, i + 2, n);
    } else {
      Truncated(table, others, data, base, i);
      WalkOk(table, others, data, base, i + 1, n);
    }
  }

  // ---- what comes back ------------------------------------------------------------------------------------

  function NormalDescriptors(data: seq<byte>, base: nat, n: nat): (s: seq<byte>)
    ensures |s| == DESCRIPTOR_SIZE * n
  {
    if n == 0 then []
    else NormalDescriptors(data, base, n - 1) + DescriptorBytes(NormalDescriptor(Desc(data, base, n - 1)))
  }

  ghost function RewrittenSection(table: Table, others: Sections.Others, data: seq<byte>, base: nat,
                                  i: nat): seq<byte> {
    var d := Desc(data, base, i);
    Sections.SectionFromIr(table, others, d.sectionType, SectionIr(table, others, data, base, d))
  }

  ghost function RewrittenSections(table: Table, others: Sections.Others, data: seq<byte>, base: nat,
                                   n: nat): seq<byte>
    decreases n
  {
    if n == 0 then []
    else RewrittenSections(table, others, data, base, n - 1) + RewrittenSection(table, others, data, base, n - 1)
  }

  /** The normal header and descriptors, then each section rewritten, in the order of the descriptors. */
  ghost function RewrittenRecord(table: Table, others: Sections.Others, data: seq<byte>, base: nat): seq<byte> {
    var n := SectionCount(data, base);
    HeaderBytes(NormalHeader(HeaderAt(data, base))) + NormalDescriptors(data, base, n) +
    RewrittenSections(table, others, data, base, n)
  }

  lemma {:induction false} DescriptorsTrip(table: Table, data: seq<byte>, base: nat, count: nat, n: nat)
    requires n <= count
    ensures DescriptorsFromIr(Arr(DescriptorIrs(table, data, base, count)), n) == NormalDescriptors(data, base, n)
  {
    hide DescriptorToIr, DescriptorFromIr, NormalDescriptor, DescriptorBytes, DescriptorAt;
    if n > 0 {
      DescriptorsTrip(table, data, base, count, n - 1);
      DescriptorTrip(table, Desc(data, base, n - 1));
    }
  }

  lemma {:induction false} SectionsTrip(table: Table, others: Sections.Others, data: seq<byte>, base: nat,
                                        count: nat, n: nat)
    requires n <= count
    ensures SectionsFromIr(table, others, Arr(DescriptorIrs(table, data, base, count)),
                           Arr(SectionIrs(table, others, data, base, count)), n)
      == RewrittenSections(table, others, data, base, n)
  {
    hide DescriptorToIr, DescriptorFromIr, DescriptorAt, SectionIr, Sections.SectionFromIr;
    if n > 0 {
      SectionsTrip(table, others, data, base, count, n - 1);
      DescriptorTrip(table, Desc(data, base, n - 1));
    }
  }

  lemma RecordMembers(header: Json, descriptors: seq<Json>, sections: seq<Json>)
    ensures var ir := RecordIr(header, descriptors, sections);
      && Get(ir, "header") == header && Get(ir, "sectionDescriptors") == Arr(descriptors)
      && Get(ir, "sections") == Arr(sections)
  {
  }

  // ---- which records the writer gets through ----------------------------------------------------------------

  lemma NormalType(d: Descriptor)
    ensures NormalDescriptor(d).sectionType == d.sectionType
  {
  }

  /** Every section that cannot be read is of a type that is written without an array. */
  ghost predicate NoneNeeded(table: Table, data: seq<byte>, base: nat, n: nat) {
    forall i: nat :: i < n ==>
      SectionInRange(data, base, Desc(data, base, i)) || !Sections.NeedsArray(table, Desc(data, base, i).sectionType)
  }

  lemma SectionWritable(table: Table, others: Sections.Others, data: seq<byte>, base: nat, n: nat, i: nat)
    requires Sections.Matched(table) && i < n
    ensures var descriptors, sections := DescriptorIrs(table, data, base, n), SectionIrs(table, others, data, base, n);
      WritableAt(table, Arr(descriptors), Arr(sections), i) <==>
        SectionInRange(data, base, Desc(data, base, i)) || !Sections.NeedsArray(table, Desc(data, base, i).sectionType)
  {
    hide DescriptorAt, DescriptorToIr, DescriptorFromIr, NormalDescriptor, SectionInRange, SectionAt, Sections.Matched,
      Sections.SectionToIr, Sections.Writable, Sections.NeedsArray;
    var d := Desc(data, base, i);
    DescriptorTrip(table, d);
    NormalType(d);
    Sections.ReadWritable(table, others, d.sectionType, Section(data, base, i));
    Sections.MissingWritable(table, d.sectionType);
  }

  /** The writer gets through the object of a record read in step exactly when no section that could not be read is of a
      type that is written from an array. */
  lemma WriterGoesThrough(table: Table, others: Sections.Others, data: seq<byte>, base: nat)
    requires Sections.Matched(table) && Accepted(data, base) && InStep(data, base, SectionCount(data, base))
    ensures WritableRecord(table, RecordToIr(table, others, data, base)) <==>
      NoneNeeded(table, data, base, SectionCount(data, base))
  {
    hide DescriptorAt, HeaderAt, HeaderToIr, DescriptorIrs, SectionIrs, RecordIr, RecordToIr, SectionCount, InStep,
      Accepted, SectionInRange, Sections.Matched, Sections.NeedsArray, WritableAt, Get;
    var n := SectionCount(data, base);
    var descriptors, sections := DescriptorIrs(table, data, base, n), SectionIrs(table, others, data, base, n);
    ReadExactly(table, others, data, base);
    RecordMembers(HeaderToIr(HeaderAt(data, base)), descriptors, sections);
    forall i: nat | i < n
      ensures WritableAt(table, Arr(descriptors), Arr(sections), i) <==>
        SectionInRange(data, base, Desc(data, base, i)) || !Sections.NeedsArray(table, Desc(data, base, i).sectionType)
    {
      SectionWritable(table, others, data, base, n, i);
    }
  }

  lemma ReadableWritable(table: Table, others: Sections.Others, data: seq<byte>, base: nat)
    requires Sections.Matched(table) && Accepted(data, base) && Readable(data, base, SectionCount(data, base))
    ensures WritableRecord(table, RecordToIr(table, others, data, base))
  {
    hide DescriptorAt, SectionCount, RecordToIr, WritableRecord, Accepted, SectionInRange, Sections.Matched,
      Sections.NeedsArray;
    ReadableInStep(data, base, SectionCount(data, base));
    WriterGoesThrough(table, others, data, base);
  }

  /** Wherever the sections are, writing what was read gives the rewritten record, unless the writer aborts. */
  lemma RecordTrip(table: Table, others: Sections.Others, data: seq<byte>, base: nat)
    requires Accepted(data, base) && InStep(data, base, SectionCount(data, base))
    requires WritableRecord(table, RecordToIr(table, others, data, base))
    ensures RecordFromIr(table, others, RecordToIr(table, others, data, base)) ==
      RewrittenRecord(table, others, data, base)
  {
    hide HeaderToIr, HeaderFromIr, NormalHeader, HeaderAt, HeaderBytes, WalkTo, DescriptorIrs, SectionIrs,
      DescriptorsFromIr, SectionsFromIr, NormalDescriptors, RewrittenSections, RecordIr, Get, InStep, Accepted,
      RecordToIr, WritableRecord;
    var n := SectionCount(data, base);
    ReadExactly(table, others, data, base);
    RecordMembers(HeaderToIr(HeaderAt(data, base)), DescriptorIrs(table, data, base, n),
                  SectionIrs(table, others, data, base, n));
    HeaderTrip(HeaderAt(data, base));
    DescriptorsTrip(table, data, base, n, n);
    SectionsTrip(table, others, data, base, n, n);
  }

  // ---- records stored back to back ---------------------------------------------------------------------------

  /** The total length of the first `n` sections. */
  function SectionsLength(data: seq<byte>, base: nat, n: nat): nat {
    if n == 0 then 0 else SectionsLength(data, base, n - 1) + Desc(data, base, n - 1).sectionLength
  }

  /** Section `i` of `n` starts behind the descriptors and the sections before it. */
  ghost predicate InPlace(data: seq<byte>, base: nat, n: nat, i: nat) {
    base + Desc(data, base, i).sectionOffset == DescriptorPos(base, n) + SectionsLength(data, base, i)
  }

  /** Every section starts where the one before it ends, the first right behind the descriptors. */
  ghost predicate BackToBack(data: seq<byte>, base: nat) {
    forall i: nat :: i < SectionCount(data, base) ==> InPlace(data, base, SectionCount(data, base), i)
  }

  function RecordLength(data: seq<byte>, base: nat): nat {
    var n := SectionCount(data, base);
    HEADER_SIZE + DESCRIPTOR_SIZE * n + SectionsLength(data, base, n)
  }

  ghost predicate CanonicalSections(table: Table, others: Sections.Others, data: seq<byte>, base: nat, n: nat) {
    forall i: nat :: i < n ==>
      Sections.CanonicalSection(table, others, Desc(data, base, i).sectionType, Section(data, base, i))
  }

  ghost predicate CanonicalDescriptors(data: seq<byte>, base: nat, n: nat) {
    forall i: nat :: i < n ==> CanonicalDescriptor(Desc(data, base, i))
  }

  ghost predicate CanonicalRecord(table: Table, others: Sections.Others, data: seq<byte>, base: nat) {
    var n := SectionCount(data, base);
    && CanonicalHeader(HeaderAt(data, base))
    && CanonicalDescriptors(data, base, n)
    && CanonicalSections(table, others, data, base, n)
  }

  /** Where the i-th of the normal descriptors is among them. */
  lemma {:induction false} NormalDescriptorAt(data: seq<byte>, base: nat, n: nat, i: nat)
    requires i < n
    ensures At(NormalDescriptors(data, base, n), DESCRIPTOR_SIZE * i, DESCRIPTOR_SIZE) ==
      DescriptorBytes(NormalDescriptor(Desc(data, base, i)))
    decreases n
  {
    hide DescriptorBytes, NormalDescriptor, DescriptorAt, At;
    var front := NormalDescriptors(data, base, n - 1);
    var last := DescriptorBytes(NormalDescriptor(Desc(data, base, n - 1)));
    if i == n - 1 {
      AtEnd(front, last);
    } else {
      NormalDescriptorAt(data, base, n - 1, i);
      AtLeft(front, last, DESCRIPTOR_SIZE * i, DESCRIPTOR_SIZE);
    }
  }

  /** The header and the descriptors of a rewritten record are the normal ones. */
  lemma RewrittenParts(table: Table, others: Sections.Others, data: seq<byte>, base: nat, w: seq<byte>, i: nat)
    requires w == RewrittenRecord(table, others, data, base)
    ensures HeaderAt(w, FRONT) == NormalHeader(HeaderAt(data, base))
    ensures i < SectionCount(data, base) ==> Desc(w, FRONT, i) == NormalDescriptor(Desc(data, base, i))
  {
    hide HeaderBytes, HeaderOf, DescriptorBytes, DescriptorOf, NormalHeader, NormalDescriptor, NormalDescriptors,
      RewrittenSections, At, SectionCount;
    var n, h := SectionCount(data, base), NormalHeader(HeaderAt(data, base));
    var a, b, c := HeaderBytes(h), NormalDescriptors(data, base, n), RewrittenSections(table, others, data, base, n);
    HeaderOfBytes(h);
    AtEnd([], a);
    assert [] + a == a && a + (b + c) == a + b + c;
    AtLeft(a, b + c, 0, HEADER_SIZE);
    if i < n {
      NormalDescriptorAt(data, base, n, i);
      AtMiddle(a, b, c, DESCRIPTOR_SIZE * i, DESCRIPTOR_SIZE);
      DescriptorOfBytes(NormalDescriptor(Desc(data, base, i)));
    }
  }

  lemma PlaceKept(d: Descriptor)
    ensures NormalDescriptor(d).sectionOffset == d.sectionOffset && NormalDescriptor(d).sectionLength == d.sectionLength
  {
  }

  /** Every section comes back as long as its descriptor says it is. */
  ghost predicate SameLengths(table: Table, others: Sections.Others, data: seq<byte>, base: nat, n: nat) {
    forall i: nat :: i < n ==> |RewrittenSection(table, others, data, base, i)| == Desc(data, base, i).sectionLength
  }

  lemma RewrittenReadable(table: Table, others: Sections.Others, data: seq<byte>, base: nat, i: nat)
    requires SectionInRange(data, base, Desc(data, base, i))
    ensures RewrittenSection(table, others, data, base, i) ==
      Sections.Rewritten(table, others, Desc(data, base, i).sectionType, Section(data, base, i))
  {
    hide DescriptorAt, SectionInRange, SectionAt, Sections.SectionToIr, Sections.SectionFromIr;
  }

  lemma HeaderTripKept(data: seq<byte>, base: nat)
    ensures HeaderBytes(NormalHeader(HeaderAt(data, base))) == At(data, base, HEADER_SIZE) <==>
      CanonicalHeader(HeaderAt(data, base))
  {
    hide HeaderBytes, HeaderOf, NormalHeader, CanonicalHeader;
    var h := HeaderAt(data, base);
    HeaderBytesOf(At(data, base, HEADER_SIZE));
    HeaderKept(h);
    if HeaderBytes(NormalHeader(h)) == HeaderBytes(h) {
      HeaderOfBytes(h);
      HeaderOfBytes(NormalHeader(h));
    }
  }

  lemma DescriptorTripKept(data: seq<byte>, pos: nat)
    ensures DescriptorBytes(NormalDescriptor(DescriptorAt(data, pos))) == At(data, pos, DESCRIPTOR_SIZE) <==>
      CanonicalDescriptor(DescriptorAt(data, pos))
  {
    hide DescriptorBytes, DescriptorOf, NormalDescriptor, CanonicalDescriptor;
    var d := DescriptorAt(data, pos);
    DescriptorBytesOf(At(data, pos, DESCRIPTOR_SIZE));
    DescriptorKept(d);
    if DescriptorBytes(NormalDescriptor(d)) == DescriptorBytes(d) {
      DescriptorOfBytes(d);
      DescriptorOfBytes(NormalDescriptor(d));
    }
  }

  lemma {:induction false} DescriptorsKept(data: seq<byte>, base: nat, n: nat)
    ensures NormalDescriptors(data, base, n) == At(data, base + HEADER_SIZE, DESCRIPTOR_SIZE * n) <==>
      CanonicalDescriptors(data, base, n)
  {
    hide DescriptorBytes, NormalDescriptor, CanonicalDescriptor, DescriptorAt, At;
    if n > 0 {
      var pos := DescriptorPos(base, n - 1);
      DescriptorsKept(data, base, n - 1);
      DescriptorTripKept(data, pos);
      AtSplit(data, base + HEADER_SIZE, DESCRIPTOR_SIZE * (n - 1), DESCRIPTOR_SIZE);
      AppendKept(NormalDescriptors(data, base, n - 1), DescriptorBytes(NormalDescriptor(DescriptorAt(data, pos))),
        At(data, base + HEADER_SIZE, DESCRIPTOR_SIZE * (n - 1)), At(data, pos, DESCRIPTOR_SIZE));
    }
  }

  lemma SectionPlace(data: seq<byte>, base: nat, i: nat)
    requires BackToBack(data, base) && i < SectionCount(data, base)
    ensures Section(data, base, i) ==
      At(data, DescriptorPos(base, SectionCount(data, base)) + SectionsLength(data, base, i),
         Desc(data, base, i).sectionLength)
  {
    hide At, DescriptorAt, SectionCount, SectionsLength;
    assert InPlace(data, base, SectionCount(data, base), i);
  }

  lemma {:induction false} SectionsKept(table: Table, others: Sections.Others, data: seq<byte>, base: nat, n: nat)
    requires Sections.Matched(table) && BackToBack(data, base) && n <= SectionCount(data, base)
    requires Readable(data, base, SectionCount(data, base)) && SameLengths(table, others, data, base, n)
    ensures var start := DescriptorPos(base, SectionCount(data, base));
      |RewrittenSections(table, others, data, base, n)| == SectionsLength(data, base, n)
      && (RewrittenSections(table, others, data, base, n) == At(data, start, SectionsLength(data, base, n)) <==>
          CanonicalSections(table, others, data, base, n))
  {
    hide Sections.Matched, Sections.Rewritten, Sections.CanonicalSection, DescriptorAt, SectionCount, Section,
      SectionInRange, RewrittenSection, BackToBack, At;
    if n > 0 {
      var start := DescriptorPos(base, SectionCount(data, base));
      var d := Desc(data, base, n - 1);
      var before := SectionsLength(data, base, n - 1);
      SectionsKept(table, others, data, base, n - 1);
      Sections.SectionRoundTrip(table, others, d.sectionType, Section(data, base, n - 1));
      assert SectionInRange(data, base, d);
      RewrittenReadable(table, others, data, base, n - 1);
      AtSplit(data, start, before, d.sectionLength);
      SectionPlace(data, base, n - 1);
      AppendKept(RewrittenSections(table, others, data, base, n - 1),
                 RewrittenSection(table, others, data, base, n - 1),
                 At(data, start, before), Section(data, base, n - 1));
    }
  }

  lemma CanonicalLengths(table: Table, others: Sections.Others, data: seq<byte>, base: nat, n: nat)
    requires Sections.Matched(table) && Readable(data, base, n) && CanonicalSections(table, others, data, base, n)
    ensures SameLengths(table, others, data, base, n)
  {
    hide Sections.Matched, Sections.Rewritten, Sections.CanonicalSection, DescriptorAt, SectionInRange,
      RewrittenSection;
    forall i | 0 <= i < n
      ensures |RewrittenSection(table, others, data, base, i)| == Desc(data, base, i).sectionLength
    {
      Sections.SectionRoundTrip(table, others, Desc(data, base, i).sectionType, Section(data, base, i));
      assert SectionInRange(data, base, Desc(data, base, i));
      RewrittenReadable(table, others, data, base, i);
    }
  }

  /** A record stored back to back is read and written again byte for byte exactly when its header, its descriptors and
      its sections are canonical. (Sections of wrong lengths could make up for each other, hence the lengths.) */
  lemma WholeRecord(table: Table, others: Sections.Others, data: seq<byte>, base: nat)
    requires Sections.Matched(table)
    requires Accepted(data, base) && Readable(data, base, SectionCount(data, base)) && BackToBack(data, base)
    ensures
      && RecordFromIr(table, others, RecordToIr(table, others, data, base)) == At(data, base, RecordLength(data, base))
      && SameLengths(table, others, data, base, SectionCount(data, base))
      <==> CanonicalRecord(table, others, data, base)
  {
    hide Sections.Matched, Accepted, Readable, BackToBack, RecordFromIr, RecordToIr, SameLengths, HeaderAt, HeaderBytes,
      NormalHeader, NormalDescriptors, RewrittenSections, CanonicalHeader, CanonicalDescriptors, CanonicalSections,
      SectionsLength, At, SectionCount;
    var n := SectionCount(data, base);
    var start, total := DescriptorPos(base, n), SectionsLength(data, base, n);
    ReadableInStep(data, base, n);
    ReadableWritable(table, others, data, base);
    RecordTrip(table, others, data, base);
    HeaderTripKept(data, base);
    DescriptorsKept(data, base, n);
    AtSplit(data, base, HEADER_SIZE, DESCRIPTOR_SIZE * n);
    AtSplit(data, base, HEADER_SIZE + DESCRIPTOR_SIZE * n, total);
    if CanonicalSections(table, others, data, base, n) {
      CanonicalLengths(table, others, data, base, n);
    }
    if SameLengths(table, others, data, base, n) {
      SectionsKept(table, others, data, base, n);
      ThreePartsKept(HeaderBytes(NormalHeader(HeaderAt(data, base))), NormalDescriptors(data, base, n),
        RewrittenSections(table, others, data, base, n),
        At(data, base, HEADER_SIZE), At(data, base + HEADER_SIZE, DESCRIPTOR_SIZE * n), At(data, start, total));
    }
  }

  // ---- a single section -----------------------------------------------------------------------------------------

  /** A descriptor with its section right behind it comes back byte for byte exactly when both are canonical. */
  lemma SingleSection(table: Table, others: Sections.Others, data: seq<byte>, base: nat)
    requires Sections.Matched(table) && CanRead(data, base, DESCRIPTOR_SIZE)
    requires var d := DescriptorAt(data, base); SectionInRange(data, base, d) && d.sectionOffset == DESCRIPTOR_SIZE
    ensures var d := DescriptorAt(data, base);
      SingleFromIr(table, others, SingleToIr(table, others, data, base)) ==
        At(data, base, DESCRIPTOR_SIZE + d.sectionLength)
      <==> CanonicalDescriptor(d) && Sections.CanonicalSection(table, others, d.sectionType, SectionAt(data, base, d))
  {
    hide Sections.Matched, Sections.SectionToIr, Sections.SectionFromIr, Sections.CanonicalSection, DescriptorAt,
      CanonicalDescriptor, NormalDescriptor, DescriptorToIr, DescriptorFromIr, DescriptorBytes, SingleIr, Get, At;
    var d := DescriptorAt(data, base);
    var s := SectionAt(data, base, d);
    SingleMembers(DescriptorToIr(table, d), Sections.SectionToIr(table, others, d.sectionType, s));
    DescriptorTrip(table, d);
    DescriptorTripKept(data, base);
    Sections.SectionRoundTrip(table, others, d.sectionType, s);
    AtSplit(data, base, DESCRIPTOR_SIZE, d.sectionLength);
    AppendKept(DescriptorBytes(NormalDescriptor(d)), Sections.Rewritten(table, others, d.sectionType, s),
      At(data, base, DESCRIPTOR_SIZE), s);
    NormalType(d);
  }

  /** What is read of a single section can be written. */
  lemma SingleWritable(table: Table, others: Sections.Others, data: seq<byte>, base: nat)
    requires Sections.Matched(table) && CanRead(data, base, DESCRIPTOR_SIZE)
    requires SectionInRange(data, base, DescriptorAt(data, base))
    ensures WritableSingle(table, SingleToIr(table, others, data, base))
  {
    hide Sections.Matched, Sections.SectionToIr, Sections.Writable, DescriptorAt, NormalDescriptor, DescriptorToIr,
      DescriptorFromIr, SingleIr, Get;
    var d := DescriptorAt(data, base);
    var s := SectionAt(data, base, d);
    SingleMembers(DescriptorToIr(table, d), Sections.SectionToIr(table, others, d.sectionType, s));
    DescriptorTrip(table, d);
    NormalType(d);
    Sections.ReadWritable(table, others, d.sectionType, s);
  }

  lemma SingleMembers(descriptor: Json, section: Json)
    ensures Get(SingleIr(descriptor, section), "sectionDescriptor") == descriptor
    ensures Get(SingleIr(descriptor, section), "section") == section
  {
  }
}
