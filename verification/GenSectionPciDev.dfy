/** Random PCI/PCI-X device sections. */
module GenSectionPciDev {
  import opened Buffers
  import opened Bytes
  import opened CperRecord
  import opened GenericStatus
  import opened GenUtils
  import opened RegisterPairs
  import opened SectionPciDev

  lemma FixedSlices(s: seq<byte>)
    ensures var p := Front(s, FIXED_WIDTHS);
      && p[0] == At(s, 0, 8) && p[1] == At(s, 8, 8) && p[2] == At(s, 16, 16)
      && p[3] == At(s, 32, 4) && p[4] == At(s, 36, 4)
  {
    hide At, Sum, Front;
    FixedWidths();
    FrontSums();
    FrontSlice(s, FIXED_WIDTHS, 0);
    FrontSlice(s, FIXED_WIDTHS, 1);
    FrontSlice(s, FIXED_WIDTHS, 2);
    FrontSlice(s, FIXED_WIDTHS, 3);
    FrontSlice(s, FIXED_WIDTHS, 4);
  }

  lemma FrontSums()
    ensures var ws := FIXED_WIDTHS;
      && Sum(ws[..0]) == 0 && Sum(ws[..1]) == 8 && Sum(ws[..2]) == 16 && Sum(ws[..3]) == 32 && Sum(ws[..4]) == 36
  {
    hide Sum;
    SumPrefix(FIXED_WIDTHS, 0);
    SumPrefix(FIXED_WIDTHS, 1);
    SumPrefix(FIXED_WIDTHS, 2);
    SumPrefix(FIXED_WIDTHS, 3);
    SumNone(FIXED_WIDTHS);
  }

  /** The fields the generator sets make a canonical section. */
  lemma GeneratedCanonical(s: seq<byte>, valid: u64, memory: u32, io: u32)
    requires valid < 32 && memory + io < 0x8000_0000 && |s| == FIXED_SIZE + PAIR_SIZE * (memory + io)
    requires At(s, 0, 8) == LE(valid, 8) && CanonicalStatus(U64(At(s, 8, 8))) && At(s, 27, 5) == Zeros(5)
    requires At(s, 32, 4) == LE(memory, 4) && At(s, 36, 4) == LE(io, 4)
    ensures CanonicalSection(s)
  {
    hide At, LE, FromLE, U64, U32, Front, CanonicalStatus;
    FixedSlices(s);
    Loads8(valid);
    Loads4(memory);
    Loads4(io);
    AtAt(s, 16, 16, ID_RESERVED, 5);
    IdTail(At(s, 16, 16));
  }

  lemma IdTail(d: seq<byte>)
    requires |d| == 16
    ensures d[ID_RESERVED..16] == At(d, ID_RESERVED, 5)
  {
  }

  /** Up to three pairs of each sort. */
  method GenerateSectionPciDev() returns (bytes: array<byte>)
    ensures fresh(bytes) && CanonicalSection(bytes[..]) && FIXED_SIZE <= bytes.Length <= FIXED_SIZE + 6 * PAIR_SIZE
  {
    hide At, LE, U64, CanonicalSection, CanonicalStatus, Patch, Stored, Zeros;
    var m := Rand();
    var i := Rand();
    var numMemory, numIo := m % 4, i % 4;
    bytes := GenerateRandomBytes(FIXED_SIZE + PAIR_SIZE * (numMemory + numIo));
    ghost var random := bytes[..];
    NothingStored(random);
    ghost var valid, stores := PutMasked(bytes, 0, 0x1F, random, []);
    stores := PutZeros(bytes, 27, 5, random, stores);
    stores := Put(bytes, 32, LE(numMemory, 4), random, stores);
    stores := Put(bytes, 36, LE(numIo, 4), random, stores);
    ghost var status := CreateValidErrorSection(bytes, 8);
    StoredMore(random, stores, Store(8, status));
    stores := stores + [Store(8, status)];
    AllThere(random, stores, LE(valid, 8), LE(numMemory, 4), LE(numIo, 4), status);
    GeneratedCanonical(bytes[..], valid, numMemory, numIo);
  }

  lemma AllThere(d: seq<byte>, stores: seq<Store>, valid: seq<byte>, memory: seq<byte>, io: seq<byte>,
                 status: seq<byte>)
    requires |d| >= FIXED_SIZE && |valid| == 8 && |memory| == |io| == 4 && |status| == 8
    requires stores == [Store(0, valid), Store(27, Zeros(5)), Store(32, memory), Store(36, io), Store(8, status)]
    ensures var s := Stored(d, stores);
      && |s| == |d| && At(s, 0, 8) == valid && At(s, 27, 5) == Zeros(5) && At(s, 32, 4) == memory && At(s, 36, 4) == io
      && At(s, 8, 8) == status
  {
    hide At, Stored;
    assert Separate(stores, |d|);
    StoredSize(d, stores);
    StoredAt(d, stores, 0);
    StoredAt(d, stores, 1);
    StoredAt(d, stores, 2);
    StoredAt(d, stores, 3);
    StoredAt(d, stores, 4);
  }
}
