/** The names under which bits and values appear in the intermediate representation. */
module Names {

  // ---- names of bits, lowest bit first -------------------------------------------------------------

  function HeaderValidNames(): seq<string> {
    ["platformIDValid", "timestampValid", "partitionIDValid"]
  }

  function DescriptorValidNames(): seq<string> {
    ["fruIDValid", "fruStringValid"]
  }

  function DescriptorFlagNames(): seq<string> {
    ["primary", "containmentWarning", "reset", "errorThresholdExceeded", "resourceNotAccessible", "latentError",
     "propagated", "overflow"]
  }

  function ErrorInfoValidNames(): seq<string> {
    ["checkInfoValid", "targetAddressIDValid", "requestorIDValid", "responderIDValid", "instructionPointerValid"]
  }

  /** Cache and TLB checks use the first eight of these. */
  function BusCheckNames(): seq<string> {
    ["transactionTypeValid", "operationValid", "levelValid", "processorContextCorruptValid", "uncorrectedValid",
     "preciseIPValid", "restartableIPValid", "overflowValid", "participationTypeValid", "timedOutValid",
     "addressSpaceValid"]
  }

  function CacheCheckNames(): seq<string> {
    BusCheckNames()[..8]
  }

  function MsCheckNames(): seq<string> {
    ["errorTypeValid", "processorContextCorruptValid", "uncorrectedValid", "preciseIPValid", "restartableIPValid",
     "overflowValid"]
  }

  function CxlValidNames(): seq<string> {
    ["cxlAgentTypeValid", "cxlAgentAddressValid", "deviceIDValid", "deviceSerialValid", "capabilityStructureValid",
     "cxlDVSECValid", "cxlErrorLogValid"]
  }

  function PciDevValidNames(): seq<string> {
    ["errorStatusValid", "idInfoValid", "memoryNumberValid", "ioNumberValid", "registerDataPairsValid"]
  }

  ghost predicate Distinct(keys: seq<string>) {
    forall i, j :: 0 <= i < j < |keys| ==> keys[i] != keys[j]
  }

  lemma HeaderNamesDistinct()
    ensures |HeaderValidNames()| == 3 && Distinct(HeaderValidNames())
  {
  }

  lemma DescriptorNamesDistinct()
    ensures |DescriptorValidNames()| == 2 && Distinct(DescriptorValidNames())
    ensures |DescriptorFlagNames()| == 8 && Distinct(DescriptorFlagNames())
  {
  }

  lemma ErrorInfoNamesDistinct()
    ensures |ErrorInfoValidNames()| == 5 && Distinct(ErrorInfoValidNames())
  {
  }

  lemma CheckNamesDistinct()
    ensures |BusCheckNames()| == 11 && Distinct(BusCheckNames())
    ensures |CacheCheckNames()| == 8 && Distinct(CacheCheckNames())
  {
  }

  lemma MsNamesDistinct()
    ensures |MsCheckNames()| == 6 && Distinct(MsCheckNames())
  {
  }

  lemma CxlNamesDistinct()
    ensures |CxlValidNames()| == 7 && Distinct(CxlValidNames())
  {
  }

  lemma PciDevNamesDistinct()
    ensures |PciDevValidNames()| == 5 && Distinct(PciDevValidNames())
  {
  }

  // ---- names of values --------------------------------------------------------------------------------

  datatype Table =
    | HeaderFlags
    | TransactionTypes
    | OperationTypes
    | ParticipationTypes
    | AddressSpaceTypes
    | MsErrorTypes
    | RegisterContextTypes
    | CxlAgentTypes

  function Keys(t: Table): seq<int> {
    match t
    case HeaderFlags => [1, 2, 4]
    case TransactionTypes => [0, 1, 2]
    case OperationTypes => [0, 1, 2, 3, 4, 5, 6, 7, 8]
    case ParticipationTypes => [0, 1, 2, 3]
    case AddressSpaceTypes => [0, 1, 2, 3]
    case MsErrorTypes => [0, 1, 2, 3]
    case RegisterContextTypes => [0, 1, 2, 3, 4, 5, 6, 7]
    case CxlAgentTypes => [0, 1]
  }

  function Values(t: Table): (vs: seq<string>)
    ensures |vs| == |Keys(t)|
  {
    match t
    case HeaderFlags => ["HW_ERROR_FLAGS_RECOVERED", "HW_ERROR_FLAGS_PREVERR", "HW_ERROR_FLAGS_SIMULATED"]
    case TransactionTypes => ["Instruction", "Data Access", "Generic"]
    case OperationTypes => ["Generic Error", "Generic Read", "Generic Write", "Data Read", "Data Write",
                            "Instruction Fetch", "Prefetch", "Eviction", "Snoop"]
    case ParticipationTypes => ["Local processor originated request", "Local processor responded to request",
                                "Local processor observed", "Generic"]
    case AddressSpaceTypes => ["Memory Access", "Reserved", "I/O", "Other Transaction"]
    case MsErrorTypes => ["No Error", "Unclassified", "Microcode ROM Parity Error", "External Error"]
    case RegisterContextTypes => ["Unclassified Data", "MSR Registers", "32-bit Mode Execution Context",
                                  "64-bit Mode Execution Context", "FXSave Context", "32-bit Mode Debug Registers",
                                  "64-bit Mode Debug Registers", "Memory Mapper Registers"]
    case CxlAgentTypes => ["CXL 1.1 Device", "CXL 1.1 Host Downstream Port"]
  }

  /** The name of a value that has none in its table. */
  function Default(t: Table): string {
    match t
    case HeaderFlags => "Unknown"
    case ParticipationTypes => "Unknown"
    case AddressSpaceTypes => "Unknown"
    case MsErrorTypes => "Unknown (Processor Specific)"
    case _ => "Unknown (Reserved)"
  }
}
