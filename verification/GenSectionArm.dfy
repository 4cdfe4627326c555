/** Random ARM sections, where the reader lands in them, and why it does not land on what the generator placed. */
module GenSectionArm {
  import opened Buffers
  import opened Bytes
  import opened CperRecord
  import opened GenUtils
  import opened Options
  import opened Readings
  import Arm = SectionArm

  // ---- structures ---------------------------------------------------------------------------------------

  method GenerateErrorInfo() returns (e: array<byte>)
    ensures fresh(e) && e.Length == Arm.ERROR_INFO_SIZE && e[0] == 0 && e[1] == 32 && e[4] < 4
  {
    e := GenerateRandomBytes(Arm.ERROR_INFO_SIZE);
    e[0] := 0;
    e[1] := 32;
    var r := Rand();
    var errorType := r % 4;
    e[4] := errorType;
    e[2], e[3] := e[2] % 0x20, 0;
    if errorType == 0 || errorType == 1 {
      MaskUpper(e, 0xFFF_FFFF);
    } else if errorType == 2 {
      MaskUpper(e, 0xFFF_FFFF_FFFF);
    }
  }

  /** Clears the reserved bits of the error information. */
  method MaskUpper(e: array<byte>, mask: u64)
    requires e.Length == Arm.ERROR_INFO_SIZE
    modifies e
    ensures forall k :: 0 <= k < 8 ==> e[k] == old(e[k])
  {
    hide Patch, LE, And;
    ghost var before := e[..];
    MaskU64(e, 8, mask);
    PatchFront(before, 8, LE(And(U64(At(before, 8, 8)), mask), 8), 8);
    assert e[..8] == before[..8];
    assert forall k :: 0 <= k < 8 ==> e[..8][k] == before[..8][k];
  }

  function RegisterSize(regType: nat): u32 {
    match regType
    case 0 => 64
    case 1 => 96
    case 2 => 64
    case 3 => 8
    case 4 => 256
    case 5 => 136
    case 6 => 120
    case 7 => 80
    case _ => 10
  }

  const MAX_CONTEXT: nat := 264

  /** A context structure on its own: of a known type and as long as its header says. */
  ghost predicate GoodContext(c: seq<byte>) {
    && |c| == Arm.CONTEXT_HEADER_SIZE + Arm.ArraySize(c, 0)
    && Arm.ContextType(c, 0) <= Arm.LAST_KNOWN_TYPE
  }

  /** The sizes of the register arrays with a layout of their own: sixteen, twenty-four, sixteen and two words of 32
      bits; thirty-two, seventeen, fifteen and ten of 64 bits; a word of 16 bits with one of 64. */
  ghost predicate KnownArray(regType: nat, size: nat) {
    || (regType == 0 && size == 16 * 4) || (regType == 1 && size == 24 * 4) || (regType == 2 && size == 16 * 4)
    || (regType == 3 && size == 2 * 4) || (regType == 4 && size == 32 * 8) || (regType == 5 && size == 17 * 8)
    || (regType == 6 && size == 15 * 8) || (regType == 7 && size == 10 * 8) || (regType == 8 && size == 2 + 8)
  }

  method GenerateContextInfo() returns (c: array<byte>)
    ensures fresh(c) && GoodContext(c[..]) && c.Length <= MAX_CONTEXT
    ensures KnownArray(Arm.ContextType(c[..], 0), c.Length - 8)
  {
    hide At, Stored, LE, U16, U32;
    var r := Rand();
    var regType := r % 9;
    var regSize := RegisterSize(regType);
    c := GenerateRandomBytes(Arm.CONTEXT_HEADER_SIZE + regSize);
    ghost var random := c[..];
    NothingStored(random);
    ghost var stores := Put(c, 2, LE(regType, 2), random, []);
    stores := Put(c, 4, LE(regSize, 4), random, stores);
    assert stores == [Store(2, LE(regType, 2)), Store(4, LE(regSize, 4))];
    StoredAt(random, stores, 0);
    StoredAt(random, stores, 1);
    Loads2(regType);
    Loads4(regSize);
  }

  // ---- the layout -----------------------------------------------------------------------------------------

  /** Error structures, contexts and vendor information behind one another, and the section's length in its header. */
  ghost predicate LaidOut(s: seq<byte>, errors: seq<seq<byte>>, contexts: seq<seq<byte>>, vendorLen: nat) {
    && (forall i :: 0 <= i < |errors| ==> |errors[i]| == Arm.ERROR_INFO_SIZE)
    && (forall i :: 0 <= i < |contexts| ==> GoodContext(contexts[i]))
    && Placed(s, Arm.HEADER_SIZE, errors, |errors|)
    && Placed(s, Arm.HEADER_SIZE + Arm.ERROR_INFO_SIZE * |errors|, contexts, |contexts|)
    && |s| == Arm.HEADER_SIZE + Arm.ERROR_INFO_SIZE * |errors| + Total(contexts, |contexts|) + vendorLen
    && Arm.SectionLength(s) == |s|
  }

  /** The reader visits what was placed where it was placed, and what it leaves over is exactly the vendor
      information. */
  ghost predicate InStep(s: seq<byte>, errors: seq<seq<byte>>, contexts: seq<seq<byte>>, vendorLen: nat) {
    && (forall i :: 0 <= i < |errors| ==> Arm.ErrorAt(s, i) == errors[i])
    && (forall i :: 0 <= i < |contexts| ==> Visited(s, |errors|, contexts, i))
    && Arm.WalkEnd(s) + vendorLen == Arm.SectionLength(s)
    && vendorLen <= |s|
    && Arm.VendorInfo(s) == if vendorLen == 0 then None else Some(At(s, |s| - vendorLen, vendorLen))
  }

  /** The cursor reaches the i-th context behind the ones before it: at 40 + 32 * E plus their sizes. */
  ghost predicate Visited(s: seq<byte>, errorCount: nat, contexts: seq<seq<byte>>, i: nat)
    requires i < |contexts|
  {
    && Arm.Cursor(s, i) == Arm.HEADER_SIZE + Arm.ERROR_INFO_SIZE * errorCount + Total(contexts, i)
    && At(s, Arm.Cursor(s, i), |contexts[i]|) == contexts[i]
  }

  lemma ContextCopied(s: seq<byte>, cur: nat, c: seq<byte>)
    requires GoodContext(c) && At(s, cur, |c|) == c
    ensures Arm.ContextSize(s, cur) == |c|
  {
    hide At, U16, U32;
    AtAt(s, cur, |c|, 2, 2);
    AtAt(s, cur, |c|, 4, 4);
  }

  lemma {:induction false} CursorLands(s: seq<byte>, errors: seq<seq<byte>>, contexts: seq<seq<byte>>,
                                       vendorLen: nat, n: nat)
    requires LaidOut(s, errors, contexts, vendorLen) && Arm.ErrInfoNum(s) == |errors| && n <= |contexts|
    ensures Arm.Cursor(s, n) == Arm.HEADER_SIZE + Arm.ERROR_INFO_SIZE * |errors| + Total(contexts, n)
    ensures n < |contexts| ==> Visited(s, |errors|, contexts, n)
    decreases n
  {
    hide At, Arm.ContextSize, Arm.ErrInfoNum, Arm.SectionLength, GoodContext;
    var start := Arm.HEADER_SIZE + Arm.ERROR_INFO_SIZE * |errors|;
    if n > 0 {
      CursorLands(s, errors, contexts, vendorLen, n - 1);
      ContextCopied(s, Arm.Cursor(s, n - 1), contexts[n - 1]);
    }
    assert n < |contexts| ==> PlacedAt(s, start, contexts, n);
  }

  /** Every context moves the cursor forwards, by its header at least. */
  lemma {:induction false} CursorGrows(s: seq<byte>, i: nat, j: nat)
    requires i < j
    ensures Arm.Cursor(s, i) < Arm.Cursor(s, j)
    decreases j
  {
    hide Arm.GivenUp, Arm.ArraySize;
    if i < j - 1 {
      CursorGrows(s, i, j - 1);
    }
  }

  /** Where the cursor is at the first context gives away the number of errors it stepped over, and where it ends the
      number of contexts. */
  lemma CountsForced(s: seq<byte>, errors: seq<seq<byte>>, contexts: seq<seq<byte>>, vendorLen: nat)
    requires LaidOut(s, errors, contexts, vendorLen) && |contexts| >= 1 && InStep(s, errors, contexts, vendorLen)
    ensures N16(s, 4) == |errors| && N16(s, 6) == |contexts|
  {
    CountsAt(s);
    hide At, N16, Arm.ErrInfoNum, Arm.ContextInfoNum, Arm.SectionLength, GoodContext, Arm.ContextSize, Arm.VendorInfo;
    assert Visited(s, |errors|, contexts, 0);
    CursorLands(s, errors, contexts, vendorLen, |contexts|);
    var n := Arm.ContextInfoNum(s);
    if n < |contexts| {
      CursorGrows(s, n, |contexts|);
    } else if n > |contexts| {
      CursorGrows(s, |contexts|, n);
    }
  }

  /** The counts of error structures and of contexts are the words at offsets 4 and 6. */
  lemma CountsAt(s: seq<byte>)
    ensures Arm.ErrInfoNum(s) == N16(s, 4) && Arm.ContextInfoNum(s) == N16(s, 6)
  {
    hide At, FromLE, N16;
    Read16(s, 4);
    Read16(s, 6);
  }

  /** On a section laid out like this the reader keeps in step exactly when the words at offsets 4 and 6 of its header
      are the numbers of structures placed. */
  lemma WalkConserves(s: seq<byte>, errors: seq<seq<byte>>, contexts: seq<seq<byte>>, vendorLen: nat)
    requires LaidOut(s, errors, contexts, vendorLen) && |contexts| >= 1
    ensures InStep(s, errors, contexts, vendorLen) <==> N16(s, 4) == |errors| && N16(s, 6) == |contexts|
  {
    CountsAt(s);
    hide At, N16, Arm.ErrInfoNum, Arm.ContextInfoNum, Arm.SectionLength, GoodContext, Arm.Cursor, Visited;
    if InStep(s, errors, contexts, vendorLen) {
      CountsForced(s, errors, contexts, vendorLen);
    }
    if N16(s, 4) == |errors| && N16(s, 6) == |contexts| {
      forall i | 0 <= i < |errors|
        ensures Arm.ErrorAt(s, i) == errors[i]
      {
        TotalEqual(errors, Arm.ERROR_INFO_SIZE, i);
        assert PlacedAt(s, Arm.HEADER_SIZE, errors, i);
      }
      forall i | 0 <= i < |contexts|
        ensures Visited(s, |errors|, contexts, i)
      {
        CursorLands(s, errors, contexts, vendorLen, i);
      }
      CursorLands(s, errors, contexts, vendorLen, |contexts|);
    }
  }

  // ---- what the generator really makes ------------------------------------------------------------------------

  /** The 64-bit mask meant for the 32 validation bits wipes out the two counts behind them, so that the reader finds
      no structures and takes everything behind the header for vendor information. */
  lemma CountsLost(s: seq<byte>, errors: seq<seq<byte>>, contexts: seq<seq<byte>>, vendorLen: nat)
    requires LaidOut(s, errors, contexts, vendorLen) && |errors| >= 1 && |contexts| >= 1 && U64(At(s, 0, 8)) <= 7
    ensures N16(s, 4) == 0 && N16(s, 6) == 0 && !InStep(s, errors, contexts, vendorLen)
    ensures Arm.WalkEnd(s) == Arm.HEADER_SIZE && Arm.VendorInfo(s) == Some(s[Arm.HEADER_SIZE..])
  {
    hide At, GoodContext, LE, FromLE, Arm.SectionLength, InStep, N16;
    CountsAt(s);
    var w := At(s, 0, 8);
    StoreLoad(w);
    SmallWord(U64(w));
    AtAt(s, 0, 8, 4, 2);
    AtAt(s, 0, 8, 6, 2);
    NoCount();
    WalkConserves(s, errors, contexts, vendorLen);
    AtRest(s);
  }

  lemma SmallWord(v: nat)
    requires v <= 7
    ensures At(LE(v, 8), 4, 2) == Zeros(2) && At(LE(v, 8), 6, 2) == Zeros(2)
  {
    LEZero(7);
    assert LE(v, 8) == [v] + Zeros(7);
  }

  lemma NoCount()
    ensures U16(Zeros(2)) == 0
  {
    assert Zeros(2)[1..] == Zeros(1) && Zeros(1)[1..] == [];
  }

  lemma AtRest(s: seq<byte>)
    requires |s| > Arm.HEADER_SIZE
    ensures At(s, Arm.HEADER_SIZE, |s| - Arm.HEADER_SIZE) == s[Arm.HEADER_SIZE..]
  {
  }

  method GenerateStructures(errorCount: nat, contextCount: nat)
    returns (errors: seq<seq<byte>>, contexts: seq<seq<byte>>)
    ensures |errors| == errorCount && |contexts| == contextCount
    ensures forall i :: 0 <= i < errorCount ==> |errors[i]| == Arm.ERROR_INFO_SIZE
    ensures forall i :: 0 <= i < contextCount ==> GoodContext(contexts[i]) && |contexts[i]| <= MAX_CONTEXT
  {
    hide GoodContext;
    errors, contexts := [], [];
    for i := 0 to errorCount
      invariant |errors| == i && forall j :: 0 <= j < i ==> |errors[j]| == Arm.ERROR_INFO_SIZE
    {
      var e := GenerateErrorInfo();
      errors := errors + [e[..]];
    }
    for i := 0 to contextCount
      invariant |contexts| == i && forall j :: 0 <= j < i ==> GoodContext(contexts[j]) && |contexts[j]| <= MAX_CONTEXT
    {
      var c := GenerateContextInfo();
      contexts := contexts + [c[..]];
    }
  }

  /** The header's fields, in the order they are stored: the counts first, the mask over them later. */
  method StampHeader(section: array<byte>, errorNum: u16, contextNum: u16, total: u32)
    requires section.Length >= Arm.HEADER_SIZE
    modifies section
    ensures U64(At(section[..], 0, 8)) <= 7 && At(section[..], 8, 4) == LE(total, 4)
  {
    hide At, Stored, LE, U64, Patch, Zeros;
    MemCpy(section, 4, LE(errorNum, 2));
    MemCpy(section, 6, LE(contextNum, 2));
    ghost var d := section[..];
    NothingStored(d);
    ghost var stores := Put(section, 8, LE(total, 4), d, []);
    var affinity := Rand();
    stores := Put(section, 12, [affinity % 4], d, stores);
    ghost var v;
    v, stores := PutMasked(section, 0, 0x7, d, stores);
    var running := [section[32] % 2, 0, 0, 0];
    stores := Put(section, 32, running, d, stores);
    stores := PutZeros(section, 13, 3, d, stores);
    ghost var all := [Store(8, LE(total, 4)), Store(12, [affinity % 4]), Store(0, LE(v, 8)), Store(32, running),
      Store(13, Zeros(3))];
    assert stores == all;
    assert Separate(all, |d|);
    StoredAt(d, all, 0);
    StoredAt(d, all, 2);
    Loads8(v);
  }

  /** A random section with one to four error structures, one to three contexts and up to fifteen more bytes. */
  method GenerateSectionArm()
    returns (section: array<byte>, ghost errors: seq<seq<byte>>, ghost contexts: seq<seq<byte>>, ghost vendorLen: nat)
    ensures fresh(section) && 1 <= |errors| <= 4 && 1 <= |contexts| <= 3 && vendorLen < 16
    ensures LaidOut(section[..], errors, contexts, vendorLen) && U64(At(section[..], 0, 8)) <= 7
  {
    hide GoodContext, At, Patch, LE, FromLE, U64, PlacedAt, U32;
    var r := Rand();
    var errorNum := r % 4 + 1;
    r := Rand();
    var contextNum := r % 3 + 1;
    var es, cs := GenerateStructures(errorNum, contextNum);
    r := Rand();
    var vendor := r % 16;
    errors, contexts, vendorLen := es, cs, vendor;
    var total := AddLengths(Arm.HEADER_SIZE + Arm.ERROR_INFO_SIZE * errorNum, cs);
    total := total + vendor;
    section := GenerateRandomBytes(total);
    TotalBounded(cs, MAX_CONTEXT, contextNum);
    StampHeader(section, errorNum, contextNum, total);
    ghost var stamped := section[..];
    TotalEqual(es, Arm.ERROR_INFO_SIZE, errorNum);
    var cur := CopyBlocks(section, Arm.HEADER_SIZE, es);
    ghost var half := section[..];
    cur := CopyBlocks(section, cur, cs);
    ghost var s := section[..];
    var start := Arm.HEADER_SIZE + Arm.ERROR_INFO_SIZE * errorNum;
    PlacedKept(half, s, Arm.HEADER_SIZE, es, start);
    assert s[..Arm.HEADER_SIZE] == half[..start][..Arm.HEADER_SIZE] == stamped[..Arm.HEADER_SIZE];
    AtFront(stamped, s, Arm.HEADER_SIZE, 0, 8);
    AtFront(stamped, s, Arm.HEADER_SIZE, 8, 4);
    Loads4(total);
  }
}
