/** Random CXL protocol error sections. */
module GenSectionCxlProtocol {
  import opened Buffers
  import opened Bytes
  import opened CperRecord
  import opened GenUtils
  import opened SectionCxlProtocol

  lemma FixedSlices(s: seq<byte>)
    ensures var p := Front(s, FIXED_WIDTHS);
      && p[0] == At(s, 0, 8) && p[1] == At(s, 8, 8) && p[2] == At(s, 16, 8) && p[3] == At(s, 24, 16)
      && p[4] == At(s, 40, 8) && p[5] == At(s, 48, 60) && p[6] == At(s, 108, 2) && p[7] == At(s, 110, 2)
      && p[8] == At(s, 112, 4)
  {
    hide At, Sum, Front;
    FixedWidths();
    FrontSums();
    FrontSlice(s, FIXED_WIDTHS, 0);
    FrontSlice(s, FIXED_WIDTHS, 1);
    FrontSlice(s, FIXED_WIDTHS, 2);
    FrontSlice(s, FIXED_WIDTHS, 3);
    FrontSlice(s, FIXED_WIDTHS, 4);
    FrontSlice(s, FIXED_WIDTHS, 5);
    FrontSlice(s, FIXED_WIDTHS, 6);
    FrontSlice(s, FIXED_WIDTHS, 7);
    FrontSlice(s, FIXED_WIDTHS, 8);
  }

  lemma FrontSums()
    ensures var ws := FIXED_WIDTHS;
      && Sum(ws[..0]) == 0 && Sum(ws[..1]) == 8 && Sum(ws[..2]) == 16 && Sum(ws[..3]) == 24 && Sum(ws[..4]) == 40
      && Sum(ws[..5]) == 48 && Sum(ws[..6]) == 108 && Sum(ws[..7]) == 110 && Sum(ws[..8]) == 112
  {
    hide Sum;
    SumNone(FIXED_WIDTHS);
    SumPrefix(FIXED_WIDTHS, 0);
    SumPrefix(FIXED_WIDTHS, 1);
    SumPrefix(FIXED_WIDTHS, 2);
    SumPrefix(FIXED_WIDTHS, 3);
    SumPrefix(FIXED_WIDTHS, 4);
    SumPrefix(FIXED_WIDTHS, 5);
    SumPrefix(FIXED_WIDTHS, 6);
    SumPrefix(FIXED_WIDTHS, 7);
  }

  /** What the generator makes sure of. */
  ghost predicate Shaped(s: seq<byte>, agent: byte, dvsec: u16, log: u16) {
    && agent <= 1 && |s| == FIXED_SIZE + dvsec + log
    && U64(At(s, 0, 8)) < 128 && At(s, 8, 1) == [agent] && At(s, 9, 7) == Zeros(7)
    && At(s, 34, 1)[0] % 8 == 0 && At(s, 36, 4) == Zeros(4) && At(s, 112, 4) == Zeros(4)
    && (agent == 0 ==> At(s, 21, 3) == Zeros(3)) && (agent == 1 ==> At(s, 40, 68) == Zeros(68))
    && At(s, 108, 2) == LE(dvsec, 2) && At(s, 110, 2) == LE(log, 2)
  }

  lemma AgentRead(s: seq<byte>, agent: byte)
    requires At(s, 8, 1) == [agent] && At(s, 9, 7) == Zeros(7)
    ensures U64(At(s, 8, 8)) == agent
  {
    AtSplit(s, 8, 1, 7);
    var w := At(s, 8, 8);
    assert w[1..] == Zeros(7);
    ZerosAreZero(7);
  }

  lemma DeviceClean(s: seq<byte>)
    requires At(s, 34, 1)[0] % 8 == 0 && At(s, 36, 4) == Zeros(4)
    ensures CleanDevice(At(s, 24, 16))
  {
    hide At, Chop, Low, FromLE;
    var d := At(s, 24, 16);
    DeviceSlices(d);
    AtAt(s, 24, 16, 10, 2);
    AtAt(s, 24, 16, 12, 4);
    AtSplit(s, 34, 1, 1);
    FromLEFirst(At(s, 34, 2));
    LowMod(U16(At(s, 34, 2)), 3);
    assert Pow2(3) == 8;
  }

  lemma FromLEFirst(w: seq<byte>)
    requires |w| >= 1
    ensures FromLE(w) % 8 == w[0] % 8
  {
    assert FromLE(w) == w[0] + 8 * (32 * FromLE(w[1..]));
  }

  lemma DeviceSlices(d: seq<byte>)
    requires |d| == 16
    ensures DeviceParts(d)[5] == At(d, 10, 2) && DeviceParts(d)[6] == At(d, 12, 4)
  {
    hide At, Chop, Sum;
    DeviceWidths();
    DeviceSums();
    ChopSlice(d, DEVICE_WIDTHS, 5);
    ChopSlice(d, DEVICE_WIDTHS, 6);
  }

  lemma DeviceSums()
    ensures Sum(DEVICE_WIDTHS[..5]) == 10 && Sum(DEVICE_WIDTHS[..6]) == 12
  {
    SumEqual(DEVICE_WIDTHS[..5], 2);
    SumEqual(DEVICE_WIDTHS[..6], 2);
  }

  lemma GeneratedCanonical(s: seq<byte>, agent: byte, dvsec: u16, log: u16)
    requires Shaped(s, agent, dvsec, log)
    ensures CanonicalSection(s)
  {
    hide At, LE, FromLE, U64, U16, Front, CleanDevice, CleanAddress;
    FixedSlices(s);
    AgentRead(s, agent);
    DeviceClean(s);
    Loads2(dvsec);
    Loads2(log);
    AddressClean(s, agent);
    if agent == 1 {
      SerialClean(s);
    }
  }

  lemma SerialClean(s: seq<byte>)
    requires At(s, 40, 68) == Zeros(68)
    ensures At(s, 40, 8) == Zeros(8) && At(s, 48, 60) == Zeros(60)
  {
    AtSplit(s, 40, 8, 60);
    assert Zeros(68) == Zeros(8) + Zeros(60);
    AppendKept(At(s, 40, 8), At(s, 48, 60), Zeros(8), Zeros(60));
  }

  lemma AddressClean(s: seq<byte>, agent: byte)
    requires agent <= 1 && (agent == 0 ==> At(s, 21, 3) == Zeros(3))
    ensures CleanAddress(agent, At(s, 16, 8))
  {
    var d := At(s, 16, 8);
    AtAt(s, 16, 8, ADDRESS_RESERVED, 3);
    assert d[ADDRESS_RESERVED..8] == At(d, ADDRESS_RESERVED, 3);
  }

  // ---- the stores the generator makes ------------------------------------------------------------------------

  /** The stores for a device, and those for a port. */
  function DeviceStores(valid: seq<byte>, slot: byte, dvsec: seq<byte>, log: seq<byte>): seq<Store> {
    [Store(8, [0]), Store(0, valid), Store(9, Zeros(7)), Store(21, Zeros(3)), Store(34, [slot]), Store(36, Zeros(4)),
     Store(112, Zeros(4)), Store(108, dvsec), Store(110, log)]
  }

  function PortStores(valid: seq<byte>, slot: byte, dvsec: seq<byte>, log: seq<byte>): seq<Store> {
    [Store(8, [1]), Store(0, valid), Store(9, Zeros(7)), Store(34, [slot]), Store(36, Zeros(4)), Store(112, Zeros(4)),
     Store(40, Zeros(68)), Store(108, dvsec), Store(110, log)]
  }

  lemma DeviceSeparate(valid: seq<byte>, slot: byte, dvsec: seq<byte>, log: seq<byte>, size: nat)
    requires |valid| == 8 && |dvsec| == |log| == 2 && size >= FIXED_SIZE
    ensures Separate(DeviceStores(valid, slot, dvsec, log), size)
  {
  }

  lemma DeviceShaped(d: seq<byte>, valid: u64, slot: byte, dvsec: u16, log: u16)
    requires |d| == FIXED_SIZE + dvsec + log && valid < 128 && slot % 8 == 0
    ensures Shaped(Stored(d, DeviceStores(LE(valid, 8), slot, LE(dvsec, 2), LE(log, 2))), 0, dvsec, log)
  {
    hide At, Stored, LE, FromLE, Zeros, Separate;
    var stores := DeviceStores(LE(valid, 8), slot, LE(dvsec, 2), LE(log, 2));
    DeviceSeparate(LE(valid, 8), slot, LE(dvsec, 2), LE(log, 2), |d|);
    StoredSize(d, stores);
    StoredAt(d, stores, 0);
    StoredAt(d, stores, 1);
    StoredAt(d, stores, 2);
    StoredAt(d, stores, 3);
    StoredAt(d, stores, 4);
    StoredAt(d, stores, 5);
    StoredAt(d, stores, 6);
    StoredAt(d, stores, 7);
    StoredAt(d, stores, 8);
    Loads8(valid);
  }

  lemma PortSeparate(valid: seq<byte>, slot: byte, dvsec: seq<byte>, log: seq<byte>, size: nat)
    requires |valid| == 8 && |dvsec| == |log| == 2 && size >= FIXED_SIZE
    ensures Separate(PortStores(valid, slot, dvsec, log), size)
  {
  }

  lemma PortShaped(d: seq<byte>, valid: u64, slot: byte, dvsec: u16, log: u16)
    requires |d| == FIXED_SIZE + dvsec + log && valid < 128 && slot % 8 == 0
    ensures Shaped(Stored(d, PortStores(LE(valid, 8), slot, LE(dvsec, 2), LE(log, 2))), 1, dvsec, log)
  {
    hide At, Stored, LE, FromLE, Zeros, Separate;
    var stores := PortStores(LE(valid, 8), slot, LE(dvsec, 2), LE(log, 2));
    PortSeparate(LE(valid, 8), slot, LE(dvsec, 2), LE(log, 2), |d|);
    StoredSize(d, stores);
    StoredAt(d, stores, 0);
    StoredAt(d, stores, 1);
    StoredAt(d, stores, 2);
    StoredAt(d, stores, 3);
    StoredAt(d, stores, 4);
    StoredAt(d, stores, 5);
    StoredAt(d, stores, 6);
    StoredAt(d, stores, 7);
    StoredAt(d, stores, 8);
    Loads8(valid);
  }

  /** Random bytes with the reserved ones cleared and the lengths of the two random tails filled in. */
  method GenerateSectionCxlProtocol() returns (bytes: array<byte>)
    ensures fresh(bytes) && CanonicalSection(bytes[..]) && FIXED_SIZE <= bytes.Length < FIXED_SIZE + 128
  {
    hide At, CanonicalSection, Shaped, Patch, Stored, Zeros, LE;
    var r := Rand();
    var dvsecLen := r % 64;
    r := Rand();
    var errorLogLen := r % 64;
    bytes := GenerateRandomBytes(FIXED_SIZE + dvsecLen + errorLogLen);
    r := Rand();
    var agentType := r % 2;
    StampAgent(bytes, agentType, dvsecLen, errorLogLen);
    GeneratedCanonical(bytes[..], agentType, dvsecLen, errorLogLen);
  }

  method StampAgent(bytes: array<byte>, agentType: byte, dvsecLen: u16, errorLogLen: u16)
    requires agentType <= 1 && bytes.Length == FIXED_SIZE + dvsecLen + errorLogLen
    modifies bytes
    ensures Shaped(bytes[..], agentType, dvsecLen, errorLogLen)
  {
    hide At, LE, Shaped, Patch, Stored, Zeros;
    ghost var random := bytes[..];
    NothingStored(random);
    ghost var stores := Put(bytes, 8, [agentType], random, []);
    ghost var valid;
    valid, stores := PutMasked(bytes, 0, 0x3F, random, stores);
    stores := PutZeros(bytes, 9, 7, random, stores);
    if agentType == 0 {
      stores := PutZeros(bytes, 21, 3, random, stores);
    }
    ghost var slot;
    slot, stores := ClearReserved(bytes, random, stores);
    if agentType != 0 {
      stores := PutZeros(bytes, 40, 68, random, stores);
    }
    stores := Put(bytes, 108, LE(dvsecLen, 2), random, stores);
    stores := Put(bytes, 110, LE(errorLogLen, 2), random, stores);
    if agentType == 0 {
      assert stores == DeviceStores(LE(valid, 8), slot, LE(dvsecLen, 2), LE(errorLogLen, 2));
      DeviceShaped(random, valid, slot, dvsecLen, errorLogLen);
    } else {
      assert stores == PortStores(LE(valid, 8), slot, LE(dvsecLen, 2), LE(errorLogLen, 2));
      PortShaped(random, valid, slot, dvsecLen, errorLogLen);
    }
  }

  /** The reserved bits below the slot number, the end of the device ID, the end of the header. */
  method ClearReserved(bytes: array<byte>, ghost random: seq<byte>, ghost stores: seq<Store>)
    returns (ghost slot: byte, ghost more: seq<Store>)
    requires bytes.Length >= FIXED_SIZE && bytes[..] == Stored(random, stores)
    modifies bytes
    ensures slot % 8 == 0 && bytes[..] == Stored(random, more)
    ensures more == stores + [Store(34, [slot]), Store(36, Zeros(4)), Store(112, Zeros(4))]
  {
    hide Patch, Stored, Zeros;
    var cleared := bytes[34] / 8 * 8;
    more := Put(bytes, 34, [cleared], random, stores);
    more := PutZeros(bytes, 36, 4, random, more);
    more := PutZeros(bytes, 112, 4, random, more);
    slot := cleared;
  }
}
