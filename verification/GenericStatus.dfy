/** The generic error status: a 64-bit packed field that several sections carry. */
module GenericStatus {
  import opened Bytes
  import opened CperUtils
  import opened Json
  import opened Names

  // the first and the last field are reserved
  const STATUS_BITS: seq<nat> := [8, 8, 1, 1, 1, 1, 1, 1, 1, 41]

  function StatusKeys(): seq<string> {
    ["errorType", "addressSignal", "controlSignal", "dataSignal", "detectedByResponder", "detectedByRequester",
     "firstError", "overflowDroppedLogs"]
  }

  lemma StatusKeysDistinct()
    ensures |StatusKeys()| == 8 && Distinct(StatusKeys())
  {
  }

  /** The error type's name and description are left out; only its value is ever read back. */
  function StatusValues(f: seq<nat>): (vs: seq<Json>)
    requires |f| == 10
    ensures |vs| == 8
  {
    [TypeToIr(f[1]), Flag(f[2]), Flag(f[3]), Flag(f[4]), Flag(f[5]), Flag(f[6]), Flag(f[7]), Flag(f[8])]
  }

  function TypeToIr(v: nat): Json {
    Obj(map["value" := Int(v)])
  }

  function StatusToIr(v: u64): Json {
    Obj(Members(StatusKeys(), StatusValues(SplitBits(v, STATUS_BITS))))
  }

  function StatusFields(ir: Json): (f: seq<nat>)
    ensures |f| == 10
  {
    [0, PairValue(Get(ir, "errorType")), FlagBit(Get(ir, "addressSignal")), FlagBit(Get(ir, "controlSignal")),
     FlagBit(Get(ir, "dataSignal")), FlagBit(Get(ir, "detectedByResponder")), FlagBit(Get(ir, "detectedByRequester")),
     FlagBit(Get(ir, "firstError")), FlagBit(Get(ir, "overflowDroppedLogs")), 0]
  }

  function StatusFromIr(ir: Json): nat {
    JoinBits(StatusFields(ir), STATUS_BITS)
  }

  lemma StatusSize()
    ensures Sum(STATUS_BITS) == 64
  {
    var a: seq<nat>, b: seq<nat> := [8, 8, 1, 1, 1], [1, 1, 1, 1, 41];
    assert STATUS_BITS == a + b;
    SumAppend(a, b);
  }

  function NormalStatus(v: u64): u64 {
    StatusSize();
    Pow2Values();
    SplitJoinBits(SplitBits(v, STATUS_BITS)[0 := 0][9 := 0], STATUS_BITS);
    JoinBits(SplitBits(v, STATUS_BITS)[0 := 0][9 := 0], STATUS_BITS)
  }

  ghost predicate CanonicalStatus(v: u64) {
    SplitBits(v, STATUS_BITS)[0] == 0 && SplitBits(v, STATUS_BITS)[9] == 0
  }

  lemma FieldsRoundTrip(f: seq<nat>)
    requires Small(f, STATUS_BITS)
    ensures StatusFields(Obj(Members(StatusKeys(), StatusValues(f)))) == f[0 := 0][9 := 0]
  {
    hide Flag, FlagBit, Distinct, Get, Members, PairValue, TypeToIr;
    var k, v := StatusKeys(), StatusValues(f);
    var ir := Obj(Members(k, v));
    StatusKeysDistinct();
    MembersHas(k, v);
    assert Get(ir, k[0]) == v[0] && Get(ir, k[1]) == v[1] && Get(ir, k[2]) == v[2] && Get(ir, k[3]) == v[3]
      && Get(ir, k[4]) == v[4] && Get(ir, k[5]) == v[5] && Get(ir, k[6]) == v[6] && Get(ir, k[7]) == v[7];
    TypeRoundTrip(f[1]);
    FlagsRoundTrip(f, 2, 9);
    assert f[0 := 0][9 := 0] == [0, f[1], f[2], f[3], f[4], f[5], f[6], f[7], f[8], 0];
  }

  lemma TypeRoundTrip(v: u64)
    ensures PairValue(TypeToIr(v)) == v
  {
  }

  /** A status comes back with its reserved bits cleared. */
  lemma StatusRoundTrip(v: u64)
    ensures StatusFromIr(StatusToIr(v)) == NormalStatus(v)
  {
    hide SplitBits, JoinBits, StatusFields, StatusValues, StatusKeys, Members, Small;
    SmallFields(v, STATUS_BITS);
    StatusKeysDistinct();
    FieldsRoundTrip(SplitBits(v, STATUS_BITS));
  }

  /** Normalising once is enough. */
  lemma NormalStatusCanonical(v: u64)
    ensures CanonicalStatus(NormalStatus(v))
  {
    hide SplitBits, JoinBits, Low, Sum, Pow2;
    var f := SplitBits(v, STATUS_BITS)[0 := 0][9 := 0];
    SplitJoinBits(f, STATUS_BITS);
    LowAtMost(0, STATUS_BITS[0]);
    LowAtMost(0, STATUS_BITS[9]);
  }

  lemma StatusKept(v: u64)
    ensures NormalStatus(v) == v <==> CanonicalStatus(v)
  {
    hide SplitBits, JoinBits, Low, Sum, Pow2;
    StatusSize();
    Pow2Values();
    var f := SplitBits(v, STATUS_BITS);
    JoinSplitBits(v, STATUS_BITS);
    LowOfLow(v, 64);
    FieldsKept(f, f[0 := 0][9 := 0], STATUS_BITS);
    assert f[0 := 0][9 := 0] == f <==> f[0] == 0 && f[9] == 0;
  }
}
