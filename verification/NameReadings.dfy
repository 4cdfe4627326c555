/** The names under which the reader shows bits and values, listed one by one. */
module NameReadings {
  import opened Bytes
  import opened CperUtils
  import opened Json
  import opened Names
  import opened Readings

  // ---- bits -----------------------------------------------------------------------------------------------

  /** Under the key is a boolean that tells whether the bit of weight `d` is set. */
  predicate Marks(ir: Json, key: string, v: nat, d: nat)
    requires d > 0
  {
    Get(ir, key) == Bool(v / d % 2 == 1)
  }

  lemma BitShown(v: nat, names: seq<string>, i: nat)
    requires Distinct(names) && i < |names|
    ensures Get(BitfieldToIr(v, names), names[i]) == Bool(v / Pow2(i) % 2 == 1)
  {
    hide Get, Pow2, High;
    MembersGet(names, BitValues(v, |names|), i);
    HighIsDiv(v, i);
  }

  lemma HeaderBits(v: nat)
    ensures var ir := BitfieldToIr(v, HeaderValidNames());
      Marks(ir, "platformIDValid", v, 1) && Marks(ir, "timestampValid", v, 2) && Marks(ir, "partitionIDValid", v, 4)
  {
    hide BitfieldToIr, Get, Pow2, Distinct;
    HeaderNamesDistinct();
    Powers();
    BitShown(v, HeaderValidNames(), 0);
    BitShown(v, HeaderValidNames(), 1);
    BitShown(v, HeaderValidNames(), 2);
  }

  lemma DescriptorBits(v: nat)
    ensures var ir := BitfieldToIr(v, DescriptorValidNames());
      Marks(ir, "fruIDValid", v, 1) && Marks(ir, "fruStringValid", v, 2)
  {
    hide BitfieldToIr, Get, Pow2, Distinct;
    DescriptorNamesDistinct();
    Powers();
    BitShown(v, DescriptorValidNames(), 0);
    BitShown(v, DescriptorValidNames(), 1);
  }

  predicate FlagMarks(ir: Json, v: nat) {
    && Marks(ir, "primary", v, 1) && Marks(ir, "containmentWarning", v, 2) && Marks(ir, "reset", v, 4)
    && Marks(ir, "errorThresholdExceeded", v, 8) && Marks(ir, "resourceNotAccessible", v, 0x10)
    && Marks(ir, "latentError", v, 0x20) && Marks(ir, "propagated", v, 0x40) && Marks(ir, "overflow", v, 0x80)
  }

  lemma DescriptorFlagBits(v: nat)
    ensures FlagMarks(BitfieldToIr(v, DescriptorFlagNames()), v)
  {
    hide BitfieldToIr, Get, Pow2, Distinct;
    DescriptorNamesDistinct();
    Powers();
    BitShown(v, DescriptorFlagNames(), 0);
    BitShown(v, DescriptorFlagNames(), 1);
    BitShown(v, DescriptorFlagNames(), 2);
    BitShown(v, DescriptorFlagNames(), 3);
    BitShown(v, DescriptorFlagNames(), 4);
    BitShown(v, DescriptorFlagNames(), 5);
    BitShown(v, DescriptorFlagNames(), 6);
    BitShown(v, DescriptorFlagNames(), 7);
  }

  predicate ErrorInfoMarks(ir: Json, v: nat) {
    && Marks(ir, "checkInfoValid", v, 1) && Marks(ir, "targetAddressIDValid", v, 2)
    && Marks(ir, "requestorIDValid", v, 4) && Marks(ir, "responderIDValid", v, 8)
    && Marks(ir, "instructionPointerValid", v, 0x10)
  }

  lemma ErrorInfoBits(v: nat)
    ensures ErrorInfoMarks(BitfieldToIr(v, ErrorInfoValidNames()), v)
  {
    hide BitfieldToIr, Get, Pow2, Distinct;
    ErrorInfoNamesDistinct();
    Powers();
    BitShown(v, ErrorInfoValidNames(), 0);
    BitShown(v, ErrorInfoValidNames(), 1);
    BitShown(v, ErrorInfoValidNames(), 2);
    BitShown(v, ErrorInfoValidNames(), 3);
    BitShown(v, ErrorInfoValidNames(), 4);
  }

  /** The eight bits that cache, TLB and bus checks have in common. */
  predicate CheckMarks(ir: Json, v: nat) {
    && Marks(ir, "transactionTypeValid", v, 1) && Marks(ir, "operationValid", v, 2) && Marks(ir, "levelValid", v, 4)
    && Marks(ir, "processorContextCorruptValid", v, 8) && Marks(ir, "uncorrectedValid", v, 0x10)
    && Marks(ir, "preciseIPValid", v, 0x20) && Marks(ir, "restartableIPValid", v, 0x40)
    && Marks(ir, "overflowValid", v, 0x80)
  }

  ghost predicate StartsLikeChecks(names: seq<string>) {
    && |names| >= 8 && names[0] == "transactionTypeValid" && names[1] == "operationValid" && names[2] == "levelValid"
    && names[3] == "processorContextCorruptValid" && names[4] == "uncorrectedValid" && names[5] == "preciseIPValid"
    && names[6] == "restartableIPValid" && names[7] == "overflowValid"
  }

  lemma CheckNamesListed()
    ensures StartsLikeChecks(BusCheckNames()) && StartsLikeChecks(CacheCheckNames())
    ensures BusCheckNames()[8..] == ["participationTypeValid", "timedOutValid", "addressSpaceValid"]
  {
  }

  lemma CommonBits(v: nat, names: seq<string>)
    requires StartsLikeChecks(names) && Distinct(names)
    ensures CheckMarks(BitfieldToIr(v, names), v)
  {
    hide BitfieldToIr, Get, Pow2, Distinct;
    Powers();
    BitShown(v, names, 0);
    BitShown(v, names, 1);
    BitShown(v, names, 2);
    BitShown(v, names, 3);
    BitShown(v, names, 4);
    BitShown(v, names, 5);
    BitShown(v, names, 6);
    BitShown(v, names, 7);
  }

  lemma CacheBits(v: nat)
    ensures CheckMarks(BitfieldToIr(v, CacheCheckNames()), v)
  {
    hide BitfieldToIr, BusCheckNames, CacheCheckNames, CheckMarks, Distinct, StartsLikeChecks;
    CheckNamesDistinct();
    CheckNamesListed();
    CommonBits(v, CacheCheckNames());
  }

  predicate BusMarks(ir: Json, v: nat) {
    && CheckMarks(ir, v) && Marks(ir, "participationTypeValid", v, 0x100) && Marks(ir, "timedOutValid", v, 0x200)
    && Marks(ir, "addressSpaceValid", v, 0x400)
  }

  lemma BusBits(v: nat)
    ensures BusMarks(BitfieldToIr(v, BusCheckNames()), v)
  {
    hide BitfieldToIr, Get, Pow2, Distinct, BusCheckNames, CheckMarks, StartsLikeChecks;
    CheckNamesDistinct();
    CheckNamesListed();
    CommonBits(v, BusCheckNames());
    Powers();
    var rest := BusCheckNames()[8..];
    assert rest[0] == BusCheckNames()[8] && rest[1] == BusCheckNames()[9] && rest[2] == BusCheckNames()[10];
    BitShown(v, BusCheckNames(), 8);
    BitShown(v, BusCheckNames(), 9);
    BitShown(v, BusCheckNames(), 10);
  }

  predicate MsMarks(ir: Json, v: nat) {
    && Marks(ir, "errorTypeValid", v, 1) && Marks(ir, "processorContextCorruptValid", v, 2)
    && Marks(ir, "uncorrectedValid", v, 4) && Marks(ir, "preciseIPValid", v, 8)
    && Marks(ir, "restartableIPValid", v, 0x10) && Marks(ir, "overflowValid", v, 0x20)
  }

  lemma MsBits(v: nat)
    ensures MsMarks(BitfieldToIr(v, MsCheckNames()), v)
  {
    hide BitfieldToIr, Get, Pow2, Distinct;
    MsNamesDistinct();
    Powers();
    BitShown(v, MsCheckNames(), 0);
    BitShown(v, MsCheckNames(), 1);
    BitShown(v, MsCheckNames(), 2);
    BitShown(v, MsCheckNames(), 3);
    BitShown(v, MsCheckNames(), 4);
    BitShown(v, MsCheckNames(), 5);
  }

  predicate CxlMarks(ir: Json, v: nat) {
    && Marks(ir, "cxlAgentTypeValid", v, 1) && Marks(ir, "cxlAgentAddressValid", v, 2)
    && Marks(ir, "deviceIDValid", v, 4) && Marks(ir, "deviceSerialValid", v, 8)
    && Marks(ir, "capabilityStructureValid", v, 0x10) && Marks(ir, "cxlDVSECValid", v, 0x20)
    && Marks(ir, "cxlErrorLogValid", v, 0x40)
  }

  lemma CxlBits(v: nat)
    ensures CxlMarks(BitfieldToIr(v, CxlValidNames()), v)
  {
    hide BitfieldToIr, Get, Pow2, Distinct;
    CxlNamesDistinct();
    Powers();
    BitShown(v, CxlValidNames(), 0);
    BitShown(v, CxlValidNames(), 1);
    BitShown(v, CxlValidNames(), 2);
    BitShown(v, CxlValidNames(), 3);
    BitShown(v, CxlValidNames(), 4);
    BitShown(v, CxlValidNames(), 5);
    BitShown(v, CxlValidNames(), 6);
  }

  predicate PciDevMarks(ir: Json, v: nat) {
    && Marks(ir, "errorStatusValid", v, 1) && Marks(ir, "idInfoValid", v, 2) && Marks(ir, "memoryNumberValid", v, 4)
    && Marks(ir, "ioNumberValid", v, 8) && Marks(ir, "registerDataPairsValid", v, 0x10)
  }

  lemma PciDevBits(v: nat)
    ensures PciDevMarks(BitfieldToIr(v, PciDevValidNames()), v)
  {
    hide BitfieldToIr, Get, Pow2, Distinct;
    PciDevNamesDistinct();
    Powers();
    BitShown(v, PciDevValidNames(), 0);
    BitShown(v, PciDevValidNames(), 1);
    BitShown(v, PciDevValidNames(), 2);
    BitShown(v, PciDevValidNames(), 3);
    BitShown(v, PciDevValidNames(), 4);
  }

  // ---- values ---------------------------------------------------------------------------------------------

  /** A value with its name. */
  predicate Named(pair: Json, v: nat, name: string) {
    Get(pair, "value") == Int(v) && Get(pair, "name") == Str(name)
  }

  function SeverityText(v: nat): string {
    match v
    case 0 => "Recoverable"
    case 1 => "Fatal"
    case 2 => "Corrected"
    case 3 => "Informational"
    case _ => "Unknown"
  }

  lemma SeverityNamed(v: u32)
    ensures Get(SeverityToIr(v), "code") == Int(v) && Get(SeverityToIr(v), "name") == Str(SeverityText(v))
  {
  }

  function HeaderFlagText(v: nat): string {
    match v
    case 1 => "HW_ERROR_FLAGS_RECOVERED"
    case 2 => "HW_ERROR_FLAGS_PREVERR"
    case 4 => "HW_ERROR_FLAGS_SIMULATED"
    case _ => "Unknown"
  }

  function TransactionText(v: nat): string {
    match v
    case 0 => "Instruction"
    case 1 => "Data Access"
    case 2 => "Generic"
    case _ => "Unknown (Reserved)"
  }

  function OperationText(v: nat): string {
    match v
    case 0 => "Generic Error"
    case 1 => "Generic Read"
    case 2 => "Generic Write"
    case 3 => "Data Read"
    case 4 => "Data Write"
    case 5 => "Instruction Fetch"
    case 6 => "Prefetch"
    case 7 => "Eviction"
    case 8 => "Snoop"
    case _ => "Unknown (Reserved)"
  }

  function ParticipationText(v: nat): string {
    match v
    case 0 => "Local processor originated request"
    case 1 => "Local processor responded to request"
    case 2 => "Local processor observed"
    case 3 => "Generic"
    case _ => "Unknown"
  }

  function AddressSpaceText(v: nat): string {
    match v
    case 0 => "Memory Access"
    case 1 => "Reserved"
    case 2 => "I/O"
    case 3 => "Other Transaction"
    case _ => "Unknown"
  }

  function MsErrorText(v: nat): string {
    match v
    case 0 => "No Error"
    case 1 => "Unclassified"
    case 2 => "Microcode ROM Parity Error"
    case 3 => "External Error"
    case _ => "Unknown (Processor Specific)"
  }

  function ContextText(v: nat): string {
    match v
    case 0 => "Unclassified Data"
    case 1 => "MSR Registers"
    case 2 => "32-bit Mode Execution Context"
    case 3 => "64-bit Mode Execution Context"
    case 4 => "FXSave Context"
    case 5 => "32-bit Mode Debug Registers"
    case 6 => "64-bit Mode Debug Registers"
    case 7 => "Memory Mapper Registers"
    case _ => "Unknown (Reserved)"
  }

  function AgentText(v: nat): string {
    match v
    case 0 => "CXL 1.1 Device"
    case 1 => "CXL 1.1 Host Downstream Port"
    case _ => "Unknown (Reserved)"
  }

  /** Among ascending keys the one that matches decides. */
  lemma {:induction false} NameAt(keys: seq<int>, names: seq<string>, other: string, i: nat)
    requires |keys| == |names| && i < |keys| && forall a, b :: 0 <= a < b < |keys| ==> keys[a] < keys[b]
    ensures ReadableName(keys[i], keys, names, other) == names[i]
    decreases |keys|
  {
    var n := |keys| - 1;
    if i < n {
      NameAt(keys[..n], names[..n], other, i);
    }
  }

  lemma {:induction false} NameElse(v: int, keys: seq<int>, names: seq<string>, other: string)
    requires |keys| == |names| && v !in keys
    ensures ReadableName(v, keys, names, other) == other
    decreases |keys|
  {
    if keys != [] {
      NameElse(v, keys[..|keys| - 1], names[..|keys| - 1], other);
    }
  }

  /** Keys that count from zero index the names. */
  lemma NameIndexed(t: Table, v: nat)
    requires forall i :: 0 <= i < |Keys(t)| ==> Keys(t)[i] == i
    ensures Named(Pair(v, t), v, if v < |Keys(t)| then Values(t)[v] else Default(t))
  {
    hide Keys, Values, Default, ReadableName;
    if v < |Keys(t)| {
      NameAt(Keys(t), Values(t), Default(t), v);
    } else {
      NameElse(v, Keys(t), Values(t), Default(t));
    }
  }

  lemma HeaderFlagsNamed(v: nat)
    ensures Named(Pair(v, HeaderFlags), v, HeaderFlagText(v))
  {
    hide ReadableName;
    var keys, names, other := Keys(HeaderFlags), Values(HeaderFlags), Default(HeaderFlags);
    if v == 1 {
      NameAt(keys, names, other, 0);
    } else if v == 2 {
      NameAt(keys, names, other, 1);
    } else if v == 4 {
      NameAt(keys, names, other, 2);
    } else {
      NameElse(v, keys, names, other);
    }
  }

  lemma TransactionNamed(v: nat)
    ensures Named(Pair(v, TransactionTypes), v, TransactionText(v))
  {
    hide ReadableName, Named;
    NameIndexed(TransactionTypes, v);
  }

  lemma OperationNamed(v: nat)
    ensures Named(Pair(v, OperationTypes), v, OperationText(v))
  {
    hide ReadableName, Named;
    NameIndexed(OperationTypes, v);
  }

  lemma ParticipationNamed(v: nat)
    ensures Named(Pair(v, ParticipationTypes), v, ParticipationText(v))
  {
    hide ReadableName, Named;
    NameIndexed(ParticipationTypes, v);
  }

  lemma AddressSpaceNamed(v: nat)
    ensures Named(Pair(v, AddressSpaceTypes), v, AddressSpaceText(v))
  {
    hide ReadableName, Named;
    NameIndexed(AddressSpaceTypes, v);
  }

  lemma MsErrorNamed(v: nat)
    ensures Named(Pair(v, MsErrorTypes), v, MsErrorText(v))
  {
    hide ReadableName, Named;
    NameIndexed(MsErrorTypes, v);
  }

  lemma ContextNamed(v: nat)
    ensures Named(Pair(v, RegisterContextTypes), v, ContextText(v))
  {
    hide ReadableName, Named;
    NameIndexed(RegisterContextTypes, v);
  }

  lemma AgentNamed(v: nat)
    ensures Named(Pair(v, CxlAgentTypes), v, AgentText(v))
  {
    hide ReadableName, Named;
    NameIndexed(CxlAgentTypes, v);
  }
}
