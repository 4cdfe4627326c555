/** The check information of an IA32/x64 error: a 64-bit union of packed fields, told apart by the error's GUID. */
module Ia32x64Checks {
  import opened Bytes
  import opened CperUtils
  import opened Guids
  import opened Json
  import opened Names

  datatype CheckKind = CacheOrTlb | Bus | Ms | Unknown

  /** Cache and TLB checks share a layout; an unknown GUID has none. */
  function KindOf(g: Guid): CheckKind {
    if g == CACHE_CHECK || g == TLB_CHECK then CacheOrTlb
    else if g == BUS_CHECK then Bus
    else if g == MS_CHECK then Ms
    else Unknown
  }

  // the last field of each layout is reserved
  const CACHE_BITS: seq<nat> := [16, 2, 4, 3, 1, 1, 1, 1, 1, 34]
  const BUS_BITS: seq<nat> := [16, 2, 4, 3, 1, 1, 1, 1, 1, 2, 1, 2, 29]
  const MS_BITS: seq<nat> := [16, 3, 1, 1, 1, 1, 1, 40]

  // ---- reading --------------------------------------------------------------------------------

  function CacheKeys(): seq<string> {
    ["validationBits", "transactionType", "operation", "level", "processorContextCorrupt", "uncorrected",
     "preciseIP", "restartableIP", "overflow"]
  }

  function CacheValues(f: seq<nat>): (vs: seq<Json>)
    requires |f| == 10
    ensures |vs| == 9
  {
    [BitfieldToIr(f[0], CacheCheckNames()), Pair(f[1], TransactionTypes), Pair(f[2], OperationTypes), Int(f[3]),
     Flag(f[4]), Flag(f[5]), Flag(f[6]), Flag(f[7]), Flag(f[8])]
  }

  function BusKeys(): seq<string> {
    ["validationBits", "transactionType", "operation", "level", "processorContextCorrupt", "uncorrected",
     "preciseIP", "restartableIP", "overflow", "timedOut", "participationType", "addressSpace"]
  }

  function BusValues(f: seq<nat>): (vs: seq<Json>)
    requires |f| == 13
    ensures |vs| == 12
  {
    [BitfieldToIr(f[0], BusCheckNames()), Pair(f[1], TransactionTypes), Pair(f[2], OperationTypes), Int(f[3]),
     Flag(f[4]), Flag(f[5]), Flag(f[6]), Flag(f[7]), Flag(f[8]), Flag(f[10]),
     Pair(f[9], ParticipationTypes), Pair(f[11], AddressSpaceTypes)]
  }

  function MsKeys(): seq<string> {
    ["validationBits", "errorType", "processorContextCorrupt", "uncorrected", "preciseIP", "restartableIP", "overflow"]
  }

  function MsValues(f: seq<nat>): (vs: seq<Json>)
    requires |f| == 8
    ensures |vs| == 7
  {
    [BitfieldToIr(f[0], MsCheckNames()), Pair(f[1], MsErrorTypes),
     Flag(f[2]), Flag(f[3]), Flag(f[4]), Flag(f[5]), Flag(f[6])]
  }

  lemma KeysDistinct()
    ensures |CacheKeys()| == 9 && Distinct(CacheKeys())
    ensures |BusKeys()| == 12 && Distinct(BusKeys())
    ensures |MsKeys()| == 7 && Distinct(MsKeys())
  {
  }

  /** An unknown check has no object. */
  function CheckToIr(kind: CheckKind, v: u64): Json {
    match kind
    case CacheOrTlb => Obj(Members(CacheKeys(), CacheValues(SplitBits(v, CACHE_BITS))))
    case Bus => Obj(Members(BusKeys(), BusValues(SplitBits(v, BUS_BITS))))
    case Ms => Obj(Members(MsKeys(), MsValues(SplitBits(v, MS_BITS))))
    case Unknown => Null
  }

  // ---- writing --------------------------------------------------------------------------------

  function CacheFromIr(ir: Json): (f: seq<nat>)
    ensures |f| == 10
  {
    [IrToBitfield(Get(ir, "validationBits"), CacheCheckNames()),
     PairValue(Get(ir, "transactionType")),
     PairValue(Get(ir, "operation")),
     GetUint64(Get(ir, "level")),
     FlagBit(Get(ir, "processorContextCorrupt")),
     FlagBit(Get(ir, "uncorrected")),
     FlagBit(Get(ir, "preciseIP")),
     FlagBit(Get(ir, "restartableIP")),
     FlagBit(Get(ir, "overflow")),
     0]
  }

  function BusFromIr(ir: Json): (f: seq<nat>)
    ensures |f| == 13
  {
    [IrToBitfield(Get(ir, "validationBits"), BusCheckNames()),
     PairValue(Get(ir, "transactionType")),
     PairValue(Get(ir, "operation")),
     GetUint64(Get(ir, "level")),
     FlagBit(Get(ir, "processorContextCorrupt")),
     FlagBit(Get(ir, "uncorrected")),
     FlagBit(Get(ir, "preciseIP")),
     FlagBit(Get(ir, "restartableIP")),
     FlagBit(Get(ir, "overflow")),
     PairValue(Get(ir, "participationType")),
     FlagBit(Get(ir, "timedOut")),
     PairValue(Get(ir, "addressSpace")),
     0]
  }

  function MsFromIr(ir: Json): (f: seq<nat>)
    ensures |f| == 8
  {
    [IrToBitfield(Get(ir, "validationBits"), MsCheckNames()),
     PairValue(Get(ir, "errorType")),
     FlagBit(Get(ir, "processorContextCorrupt")),
     FlagBit(Get(ir, "uncorrected")),
     FlagBit(Get(ir, "preciseIP")),
     FlagBit(Get(ir, "restartableIP")),
     FlagBit(Get(ir, "overflow")),
     0]
  }

  /** The fields are assigned into zeroed memory, so an unknown check is zero. */
  function CheckFromIr(kind: CheckKind, ir: Json): nat {
    match kind
    case CacheOrTlb => JoinBits(CacheFromIr(ir), CACHE_BITS)
    case Bus => JoinBits(BusFromIr(ir), BUS_BITS)
    case Ms => JoinBits(MsFromIr(ir), MS_BITS)
    case Unknown => 0
  }

  // ---- what the trip keeps ----------------------------------------------------------------------

  /** The layout of a check and how many of its sixteen validation bits have names. */
  function Layout(kind: CheckKind): seq<nat> {
    match kind
    case CacheOrTlb => CACHE_BITS
    case Bus => BUS_BITS
    case Ms => MS_BITS
    case Unknown => [64]
  }

  function NamedBits(kind: CheckKind): nat {
    match kind
    case CacheOrTlb => 8
    case Bus => 11
    case Ms => 6
    case Unknown => 0
  }

  lemma CacheSize() ensures Sum(CACHE_BITS) == 64 {}

  lemma BusSize() ensures Sum(BUS_BITS) == 64 {}

  lemma MsSize() ensures Sum(MS_BITS) == 64 {}

  lemma UnknownSize() ensures Sum([64]) == 64 {}

  lemma LayoutSize(kind: CheckKind)
    ensures |Layout(kind)| > 0 && (kind != Unknown ==> |Layout(kind)| > 1)
    ensures Sum(Layout(kind)) == 64
  {
    hide Sum;
    match kind
    case CacheOrTlb => CacheSize();
    case Bus => BusSize();
    case Ms => MsSize();
    case Unknown => UnknownSize();
  }

  /** The fields with the unnamed validation bits and the reserved field cleared. */
  function ClearedFields(kind: CheckKind, f: seq<nat>): (r: seq<nat>)
    requires |f| == |Layout(kind)|
    ensures |r| == |f|
  {
    LayoutSize(kind);
    f[0 := Low(f[0], NamedBits(kind))][|f| - 1 := 0]
  }

  function NormalCheck(kind: CheckKind, v: u64): (r: u64)
  {
    LayoutSize(kind);
    Pow2Values();
    SplitJoinBits(ClearedFields(kind, SplitBits(v, Layout(kind))), Layout(kind));
    JoinBits(ClearedFields(kind, SplitBits(v, Layout(kind))), Layout(kind))
  }

  /** Only named validation bits are set and the reserved bits are zero; an unknown check is all zero. */
  ghost predicate CanonicalCheck(kind: CheckKind, v: u64) {
    LayoutSize(kind);
    var f := SplitBits(v, Layout(kind));
    f[0] < Pow2(NamedBits(kind)) && f[|f| - 1] == 0
  }

  lemma CacheRoundTrip(f: seq<nat>)
    requires Small(f, CACHE_BITS)
    ensures CacheFromIr(Obj(Members(CacheKeys(), CacheValues(f)))) ==
      [Low(f[0], 8), f[1], f[2], f[3], f[4], f[5], f[6], f[7], f[8], 0]
  {
    hide BitfieldToIr, IrToBitfield, Pair, PairValue, Flag, FlagBit, Low, Distinct, Get, Members,
      BusCheckNames, CacheCheckNames, MsCheckNames;
    var k, v := CacheKeys(), CacheValues(f);
    var ir := Obj(Members(k, v));
    KeysDistinct();
    MembersHas(k, v);
    assert Get(ir, k[0]) == v[0] && Get(ir, k[1]) == v[1] && Get(ir, k[2]) == v[2] && Get(ir, k[3]) == v[3]
      && Get(ir, k[4]) == v[4] && Get(ir, k[5]) == v[5] && Get(ir, k[6]) == v[6] && Get(ir, k[7]) == v[7] &&
      Get(ir, k[8]) == v[8];
    CheckNamesDistinct();
    BitfieldRoundTrip(f[0], CacheCheckNames());
    PairRoundTrip(f[1], TransactionTypes);
    PairRoundTrip(f[2], OperationTypes);
    FlagsRoundTrip(f, 4, 9);
  }

  lemma BusRoundTrip(f: seq<nat>)
    requires Small(f, BUS_BITS)
    ensures BusFromIr(Obj(Members(BusKeys(), BusValues(f)))) ==
      [Low(f[0], 11), f[1], f[2], f[3], f[4], f[5], f[6], f[7], f[8], f[9], f[10], f[11], 0]
  {
    hide BitfieldToIr, IrToBitfield, Pair, PairValue, Flag, FlagBit, Low, Distinct, Get, Members,
      BusCheckNames, CacheCheckNames, MsCheckNames;
    var k, v := BusKeys(), BusValues(f);
    var ir := Obj(Members(k, v));
    KeysDistinct();
    MembersHas(k, v);
    assert Get(ir, k[0]) == v[0] && Get(ir, k[1]) == v[1] && Get(ir, k[2]) == v[2] && Get(ir, k[3]) == v[3]
      && Get(ir, k[4]) == v[4] && Get(ir, k[5]) == v[5] && Get(ir, k[6]) == v[6] && Get(ir, k[7]) == v[7] &&
      Get(ir, k[8]) == v[8] && Get(ir, k[9]) == v[9] && Get(ir, k[10]) == v[10] && Get(ir, k[11]) == v[11];
    CheckNamesDistinct();
    BitfieldRoundTrip(f[0], BusCheckNames());
    PairRoundTrip(f[1], TransactionTypes);
    PairRoundTrip(f[2], OperationTypes);
    PairRoundTrip(f[9], ParticipationTypes);
    PairRoundTrip(f[11], AddressSpaceTypes);
    FlagsRoundTrip(f, 4, 9);
    FlagRoundTrip(f[10]);
  }

  lemma MsRoundTrip(f: seq<nat>)
    requires Small(f, MS_BITS)
    ensures MsFromIr(Obj(Members(MsKeys(), MsValues(f)))) == [Low(f[0], 6), f[1], f[2], f[3], f[4], f[5], f[6], 0]
  {
    hide BitfieldToIr, IrToBitfield, Pair, PairValue, Flag, FlagBit, Low, Distinct, Get, Members,
      BusCheckNames, CacheCheckNames, MsCheckNames;
    var k, v := MsKeys(), MsValues(f);
    var ir := Obj(Members(k, v));
    KeysDistinct();
    MembersHas(k, v);
    assert Get(ir, k[0]) == v[0] && Get(ir, k[1]) == v[1] && Get(ir, k[2]) == v[2] && Get(ir, k[3]) == v[3]
      && Get(ir, k[4]) == v[4] && Get(ir, k[5]) == v[5] && Get(ir, k[6]) == v[6];
    MsNamesDistinct();
    BitfieldRoundTrip(f[0], MsCheckNames());
    PairRoundTrip(f[1], MsErrorTypes);
    FlagsRoundTrip(f, 2, 7);
  }

  /** Whatever the GUID says, a check comes back with its unnamed validation bits and reserved bits cleared. */
  lemma CheckRoundTrip(kind: CheckKind, v: u64)
    ensures CheckFromIr(kind, CheckToIr(kind, v)) == NormalCheck(kind, v)
  {
    hide SplitBits, JoinBits, CacheFromIr, BusFromIr, MsFromIr, CacheValues, BusValues, MsValues, CacheKeys, BusKeys,
      MsKeys, Members, Low, Small;
    KeysDistinct();
    match kind {
      case CacheOrTlb =>
        SmallFields(v, CACHE_BITS);
        CacheRoundTrip(SplitBits(v, CACHE_BITS));
      case Bus =>
        SmallFields(v, BUS_BITS);
        BusRoundTrip(SplitBits(v, BUS_BITS));
      case Ms =>
        SmallFields(v, MS_BITS);
        MsRoundTrip(SplitBits(v, MS_BITS));
      case Unknown =>
        ZeroFields();
    }
    ClearedFieldsListed(kind, SplitBits(v, Layout(kind)));
  }

  lemma ClearedFieldsListed(kind: CheckKind, f: seq<nat>)
    requires |f| == |Layout(kind)|
    ensures ClearedFields(kind, f) == match kind
      case CacheOrTlb => [Low(f[0], 8), f[1], f[2], f[3], f[4], f[5], f[6], f[7], f[8], 0]
      case Bus => [Low(f[0], 11), f[1], f[2], f[3], f[4], f[5], f[6], f[7], f[8], f[9], f[10], f[11], 0]
      case Ms => [Low(f[0], 6), f[1], f[2], f[3], f[4], f[5], f[6], 0]
      case Unknown => [0]
  {
    hide Low;
  }

  lemma ZeroFields()
    ensures JoinBits([0], [64]) == 0
  {
    var f: seq<nat>, w: seq<nat> := [0], [64];
    assert f[1..] == [] && w[1..] == [];
    PlaceSum(0, 64, 0);
    LowOfLow(0, 64);
  }

  /** Those whose cleared bits were already clear are exactly the checks that come back unchanged. */
  lemma CheckKept(kind: CheckKind, v: u64)
    ensures NormalCheck(kind, v) == v <==> CanonicalCheck(kind, v)
  {
    hide SplitBits, JoinBits, Layout, NamedBits, Low, Sum;
    LayoutSize(kind);
    Pow2Values();
    var ws, named := Layout(kind), NamedBits(kind);
    var f := SplitBits(v, ws);
    var g := ClearedFields(kind, f);
    JoinSplitBits(v, ws);
    LowOfLow(v, 64);
    ClearedFit(kind, f);
    FieldsKept(f, g, ws);
    if f[0] < Pow2(named) {
      LowOfLow(f[0], named);
    }
    assert g == f <==> Low(f[0], named) == f[0] && f[|f| - 1] == 0;
  }

  /** Clearing once is enough. */
  lemma NormalCheckCanonical(kind: CheckKind, v: u64)
    ensures CanonicalCheck(kind, NormalCheck(kind, v))
  {
    hide SplitBits, JoinBits, Layout, NamedBits, Low, Sum, Pow2;
    LayoutSize(kind);
    var ws := Layout(kind);
    var g := ClearedFields(kind, SplitBits(v, ws));
    SplitJoinBits(g, ws);
    ClearedFit(kind, SplitBits(v, ws));
    LowOfLow(g[0], ws[0]);
    LowOfLow(g[|g| - 1], ws[|g| - 1]);
  }

  /** Cleared fields still fit their widths. */
  lemma ClearedFit(kind: CheckKind, f: seq<nat>)
    requires |f| == |Layout(kind)| && forall i :: 0 <= i < |f| ==> f[i] < Pow2(Layout(kind)[i])
    ensures forall i :: 0 <= i < |f| ==> ClearedFields(kind, f)[i] < Pow2(Layout(kind)[i])
  {
    hide Layout, Low, Pow2;
    LayoutSize(kind);
    LowAtMost(f[0], NamedBits(kind));
  }
}
