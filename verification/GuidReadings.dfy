/** Sixteen bytes in memory and what they stand for: notification types, checks and section types. */
module GuidReadings {
  import opened Bytes
  import opened CperParse
  import opened GeneratorRoundTrip
  import opened Guids
  import opened Ia32x64Checks
  import opened Options
  import opened Readings
  import SectionIa32x64
  import Sections

  /** The four parts of a GUID, byte by byte. */
  lemma GuidLoads(m: seq<byte>, g: Guid)
    requires |m| == 16 && N32(m, 0) == g.data1 && N16(m, 4) == g.data2 && N16(m, 6) == g.data3 && m[8..] == g.data4
    ensures GuidOf(m) == g
  {
    hide FromLE, N32, N16;
    Read32(m, 0);
    Read16(m, 4);
    Read16(m, 6);
  }

  /** Different bytes are different GUIDs. */
  lemma GuidSame(m: seq<byte>, n: seq<byte>)
    requires |m| == |n| == 16
    ensures GuidOf(m) == GuidOf(n) <==> m == n
  {
    hide GuidOf, GuidBytes;
    GuidBytesOf(m);
    GuidBytesOf(n);
  }

  // ---- notification types -----------------------------------------------------------------------------------

  /** The event notification types of section N.2.1.1, as they lie in memory. */
  function NotificationBytes(i: nat): (m: seq<byte>)
    ensures |m| == 16
  {
    match i
    case 0 => [0xB1, 0x8B, 0xCE, 0x2D, 0xD7, 0xBD, 0x0E, 0x45, 0xB9, 0xAD, 0x9C, 0xF4, 0xEB, 0xD4, 0xF8, 0x90]
    case 1 => [0x96, 0x2F, 0x29, 0x4E, 0x43, 0xD8, 0x55, 0x4A, 0xA8, 0xC2, 0xD4, 0x81, 0xF2, 0x7E, 0xBE, 0xEE]
    case 2 => [0xFE, 0x6F, 0xF5, 0xE8, 0x9C, 0x91, 0xC5, 0x4C, 0xBA, 0x88, 0x65, 0xAB, 0xE1, 0x49, 0x13, 0xBB]
    case 3 => [0x1F, 0xC0, 0x93, 0xCF, 0x16, 0x1A, 0xFC, 0x4D, 0xB8, 0xBC, 0x9C, 0x4D, 0xAF, 0x67, 0xC1, 0x04]
    case 4 => [0xE8, 0x63, 0x52, 0xCC, 0x08, 0x93, 0x4A, 0x45, 0x89, 0xD0, 0x34, 0x0B, 0xD3, 0x9B, 0xC9, 0x8E]
    case 5 => [0xFF, 0x89, 0xAD, 0x5B, 0xE6, 0xB7, 0xC9, 0x42, 0x81, 0x4A, 0xCF, 0x24, 0x85, 0xD6, 0xE9, 0x8A]
    case 6 => [0x66, 0xA4, 0x61, 0x3D, 0x40, 0xAB, 0x9A, 0x40, 0xA6, 0x98, 0xF3, 0x62, 0xD4, 0x64, 0xB3, 0x8F]
    case 7 => [0x91, 0xD7, 0x7D, 0x66, 0xB3, 0xC6, 0x27, 0x4C, 0x8A, 0x6B, 0x0F, 0x8E, 0x72, 0x2D, 0xEB, 0x41]
    case 8 => [0x8A, 0x78, 0x78, 0x9A, 0xE8, 0xBB, 0xE4, 0x11, 0x80, 0x9E, 0x67, 0x61, 0x1E, 0x5D, 0x46, 0xB0]
    case 9 => [0x81, 0x4C, 0x28, 0x5C, 0xAE, 0xB0, 0x87, 0x4E, 0xA3, 0x22, 0xB0, 0x4C, 0x85, 0x62, 0x43, 0x23]
    case 10 => [0xAC, 0xD5, 0xA9, 0x09, 0x04, 0x52, 0x14, 0x42, 0x96, 0xE5, 0x94, 0x99, 0x2E, 0x75, 0x2B, 0xCD]
    case 11 => [0xC9, 0x3B, 0x29, 0x69, 0xDF, 0x41, 0xA3, 0x49, 0xB4, 0xBD, 0x4F, 0xB0, 0xDB, 0x30, 0x41, 0xF6]
    case _ => Zeros(16)
  }

  function NotificationText(i: nat): string {
    match i
    case 0 => "CMC"
    case 1 => "CPE"
    case 2 => "MCE"
    case 3 => "PCIe"
    case 4 => "INIT"
    case 5 => "NMI"
    case 6 => "Boot"
    case 7 => "DMAr"
    case 8 => "SEA"
    case 9 => "SEI"
    case 10 => "PEI"
    case 11 => "CXL Component"
    case _ => "Unknown"
  }

  function NotificationGuid(i: nat): Guid {
    match i
    case 0 => CMC_NOTIFICATION
    case 1 => CPE_NOTIFICATION
    case 2 => MCE_NOTIFICATION
    case 3 => PCIE_NOTIFICATION
    case 4 => INIT_NOTIFICATION
    case 5 => NMI_NOTIFICATION
    case 6 => BOOT_NOTIFICATION
    case 7 => DMAR_NOTIFICATION
    case 8 => SEA_NOTIFICATION
    case 9 => SEI_NOTIFICATION
    case 10 => PEI_NOTIFICATION
    case 11 => CXL_NOTIFICATION
    case _ => ZERO_GUID
  }

  lemma FirstNotificationLoads(i: nat)
    requires i < 6
    ensures GuidOf(NotificationBytes(i)) == NotificationGuid(i)
  {
    hide GuidOf;
    GuidLoads(NotificationBytes(i), NotificationGuid(i));
  }

  lemma NotificationLoads(i: nat)
    requires i < 12
    ensures GuidOf(NotificationBytes(i)) == NotificationGuid(i)
  {
    hide GuidOf;
    if i < 6 {
      FirstNotificationLoads(i);
    } else {
      GuidLoads(NotificationBytes(i), NotificationGuid(i));
    }
  }

  lemma NotificationNamed(i: nat)
    requires i < 12
    ensures NotificationName(NotificationGuid(i)) == NotificationText(i)
  {
  }

  lemma NotificationUnnamed(g: Guid)
    requires forall i: nat :: i < 12 ==> g != NotificationGuid(i)
    ensures NotificationName(g) == "Unknown"
  {
    assert g != NotificationGuid(0);
    assert g != NotificationGuid(1);
    assert g != NotificationGuid(2);
    assert g != NotificationGuid(3);
    assert g != NotificationGuid(4);
    assert g != NotificationGuid(5);
    assert g != NotificationGuid(6);
    assert g != NotificationGuid(7);
    assert g != NotificationGuid(8);
    assert g != NotificationGuid(9);
    assert g != NotificationGuid(10);
    assert g != NotificationGuid(11);
  }

  /** A notification type is named after its sixteen bytes. */
  lemma NotificationShown(m: seq<byte>)
    requires |m| == 16
    ensures forall i: nat :: i < 12 && m == NotificationBytes(i) ==> NotificationName(GuidOf(m)) == NotificationText(i)
    ensures (forall i: nat :: i < 12 ==> m != NotificationBytes(i)) ==> NotificationName(GuidOf(m)) == "Unknown"
  {
    hide GuidOf, NotificationBytes, NotificationText, NotificationGuid, NotificationName;
    forall i: nat | i < 12
      ensures NotificationName(NotificationGuid(i)) == NotificationText(i)
      ensures GuidOf(m) == NotificationGuid(i) <==> m == NotificationBytes(i)
    {
      NotificationNamed(i);
      NotificationLoads(i);
      GuidSame(m, NotificationBytes(i));
    }
    if forall i: nat :: i < 12 ==> m != NotificationBytes(i) {
      NotificationUnnamed(GuidOf(m));
    }
  }

  // ---- checks -----------------------------------------------------------------------------------------------

  /** The IA32/x64 error types of section N.2.4.2.1, as they lie in memory. */
  function CheckBytes(i: nat): (m: seq<byte>)
    ensures |m| == 16
  {
    match i
    case 0 => [0xF5, 0x01, 0x57, 0xA5, 0xEF, 0xE3, 0xDE, 0x43, 0xAC, 0x72, 0x24, 0x9B, 0x57, 0x3F, 0xAD, 0x2C]
    case 1 => [0x35, 0xB5, 0x06, 0xFC, 0x1F, 0x5E, 0x62, 0x45, 0x9F, 0x25, 0x0A, 0x3B, 0x9A, 0xDB, 0x63, 0xC3]
    case 2 => [0xB3, 0xF8, 0xF3, 0x1C, 0xB1, 0xC5, 0xA2, 0x49, 0xAA, 0x59, 0x5E, 0xEF, 0x92, 0xFF, 0xA6, 0x3C]
    case 3 => [0x57, 0x7F, 0xAB, 0x48, 0x34, 0xDC, 0x6C, 0x4F, 0xA7, 0xD3, 0xB0, 0xB5, 0xB0, 0xA7, 0x43, 0x14]
    case _ => Zeros(16)
  }

  lemma CheckLoads()
    ensures GuidOf(CheckBytes(0)) == CACHE_CHECK && GuidOf(CheckBytes(1)) == TLB_CHECK
    ensures GuidOf(CheckBytes(2)) == BUS_CHECK && GuidOf(CheckBytes(3)) == MS_CHECK
  {
    hide GuidOf;
    GuidLoads(CheckBytes(0), CACHE_CHECK);
    GuidLoads(CheckBytes(1), TLB_CHECK);
    GuidLoads(CheckBytes(2), BUS_CHECK);
    GuidLoads(CheckBytes(3), MS_CHECK);
  }

  function CheckKindOf(m: seq<byte>): CheckKind {
    if m == CheckBytes(0) || m == CheckBytes(1) then CacheOrTlb
    else if m == CheckBytes(2) then Bus
    else if m == CheckBytes(3) then Ms
    else CheckKind.Unknown
  }

  function CheckText(m: seq<byte>): string {
    if m == CheckBytes(0) then "Cache Check Error"
    else if m == CheckBytes(1) then "TLB Check Error"
    else if m == CheckBytes(2) then "Bus Check Error"
    else if m == CheckBytes(3) then "MS Check Error"
    else "Unknown"
  }

  /** How check information is taken apart, and what it is called, depends on the sixteen bytes before it. */
  lemma CheckShown(m: seq<byte>)
    requires |m| == 16
    ensures KindOf(GuidOf(m)) == CheckKindOf(m) && SectionIa32x64.ErrorTypeName(GuidOf(m)) == CheckText(m)
  {
    hide GuidOf, CheckBytes;
    CheckLoads();
    GuidSame(m, CheckBytes(0));
    GuidSame(m, CheckBytes(1));
    GuidSame(m, CheckBytes(2));
    GuidSame(m, CheckBytes(3));
  }

  // ---- section types ----------------------------------------------------------------------------------------

  /** The section types of section N.2.2 and NVIDIA's, as they lie in memory. */
  function SectionBytes(row: nat): (m: seq<byte>)
    ensures |m| == 16
  {
    match row
    case 0 => [0xAD, 0xCC, 0x76, 0x98, 0xB4, 0x47, 0xDB, 0x4B, 0xB6, 0x5E, 0x16, 0xF1, 0x93, 0xC4, 0xF3, 0xDB]
    case 1 => [0xB0, 0xA0, 0x3E, 0xDC, 0x44, 0xA1, 0x97, 0x47, 0xB9, 0x5B, 0x53, 0xFA, 0x24, 0x2B, 0x6E, 0x1D]
    case 2 => [0xF1, 0xFA, 0x29, 0xE4, 0xB7, 0x3C, 0xD4, 0x11, 0xBC, 0xA7, 0x00, 0x80, 0xC7, 0x3C, 0x88, 0x81]
    case 3 => [0x16, 0x3D, 0x9E, 0xE1, 0x11, 0xBC, 0xE4, 0x11, 0x9C, 0xAA, 0xC2, 0x05, 0x1D, 0x5D, 0x46, 0xB0]
    case 4 => [0x14, 0x11, 0xBC, 0xA5, 0x64, 0x6F, 0xDE, 0x4E, 0xB8, 0x63, 0x3E, 0x83, 0xED, 0x7C, 0x83, 0xB1]
    case 5 => [0xFC, 0x04, 0xEC, 0x61, 0xE6, 0x48, 0x13, 0xD8, 0x25, 0xC9, 0x8D, 0xAA, 0x44, 0x75, 0x0B, 0x12]
    case 6 => [0x54, 0xE9, 0x95, 0xD9, 0xC1, 0xBB, 0x0F, 0x43, 0xAD, 0x91, 0xB4, 0x4D, 0xCB, 0x3C, 0x6F, 0x35]
    case 7 => [0x96, 0x2A, 0x21, 0x81, 0xED, 0x09, 0x96, 0x49, 0x94, 0x71, 0x8D, 0x72, 0x9C, 0x8E, 0x69, 0xED]
    case 8 => [0x63, 0x39, 0x75, 0xC5, 0x84, 0x3B, 0x95, 0x40, 0xBF, 0x78, 0xED, 0xDA, 0xD3, 0xF9, 0xC9, 0xDD]
    case 9 => [0x85, 0x46, 0x5E, 0xEB, 0x66, 0xCA, 0x69, 0x47, 0xB6, 0xA2, 0x26, 0x06, 0x8B, 0x00, 0x13, 0x26]
    case 10 => [0xF7, 0xFE, 0x51, 0x5B, 0x9D, 0xC7, 0x34, 0x44, 0x8F, 0x1B, 0xAA, 0x62, 0xDE, 0x3E, 0x2C, 0x64]
    case 11 => [0x37, 0x1D, 0x76, 0x71, 0xB2, 0x32, 0xCD, 0x45, 0xA7, 0xD0, 0xB0, 0xFE, 0xDD, 0x93, 0xE8, 0xCF]
    case 12 => [0xE1, 0x84, 0x6F, 0x03, 0x37, 0x7F, 0x8C, 0x42, 0xA7, 0x9E, 0x57, 0x5F, 0xDF, 0xAA, 0x84, 0xEC]
    case 13 => [0xF6, 0x5E, 0x33, 0x91, 0xFB, 0xEB, 0x78, 0x44, 0xA6, 0xA6, 0x88, 0xB7, 0x28, 0xCF, 0x75, 0xD7]
    case 14 => [0xB4, 0xEF, 0xB9, 0x80, 0xB5, 0x52, 0xE3, 0x4D, 0xA7, 0x77, 0x68, 0x78, 0x4B, 0x77, 0x10, 0x48]
    case 15 => [0x77, 0x0A, 0xCD, 0xFB, 0x60, 0xC2, 0x7F, 0x41, 0x85, 0xA9, 0x08, 0x8B, 0x16, 0x21, 0xEB, 0xA6]
    case 16 => [0xB3, 0xCB, 0x1D, 0x60, 0x06, 0x9C, 0xAB, 0x4E, 0xB8, 0xAF, 0x4E, 0x9B, 0xFB, 0x5C, 0x96, 0x24]
    case 17 => [0x75, 0x74, 0x92, 0xFE, 0x59, 0xDD, 0x39, 0x43, 0xA5, 0x86, 0x79, 0xBA, 0xB1, 0x13, 0xB7, 0x74]
    case 18 => [0x71, 0x92, 0xCF, 0x77, 0x02, 0x9C, 0x0B, 0x47, 0x9F, 0xE4, 0xBC, 0x7B, 0x75, 0xF2, 0xDA, 0x97]
    case 19 => [0x25, 0x64, 0xD2, 0x40, 0x96, 0x33, 0x4D, 0x4C, 0xA5, 0xDA, 0x3D, 0x47, 0x26, 0x3A, 0xF4, 0x25]
    case 20 => [0x63, 0x43, 0xC4, 0x8D, 0x96, 0x0C, 0x10, 0x47, 0xB7, 0xBF, 0x04, 0xBB, 0x99, 0x53, 0x4C, 0x3F]
    case 21 => [0xF2, 0x44, 0x52, 0x6D, 0x12, 0x27, 0xEC, 0x11, 0xBE, 0xA7, 0xCB, 0x3F, 0xDB, 0x95, 0xC7, 0x86]
    case _ => Zeros(16)
  }

  function SectionText(row: nat): string {
    match row
    case 0 => "Processor Generic"
    case 1 => "IA32/X64"
    case 2 => "IPF"
    case 3 => "ARM"
    case 4 => "Platform Memory"
    case 5 => "Platform Memory 2"
    case 6 => "PCIe"
    case 7 => "Firmware Error Record Reference"
    case 8 => "PCI/PCI-X Bus"
    case 9 => "PCI Component/Device"
    case 10 => "DMAr Generic"
    case 11 => "Intel VT for Directed I/O Specific DMAr"
    case 12 => "IOMMU Specific DMAr"
    case 13 => "CCIX PER Log Error"
    case 14 => "CXL Protocol Error"
    case 15 => "CXL General Media Component Error"
    case 16 => "CXL DRAM Component Error"
    case 17 => "CXL Memory Module Component Error"
    case 18 => "CXL Physical Switch Component Error"
    case 19 => "CXL Virtual Switch Component Error"
    case 20 => "CXL MLD Port Component Error"
    case 21 => "NVIDIA"
    case _ => "Unknown"
  }

  function SectionConverter(row: nat): Option<Sections.Converter> {
    match row
    case 0 => Some(Sections.Generic)
    case 1 => Some(Sections.Ia32x64)
    case 2 => None
    case 3 => Some(Sections.Arm)
    case 4 => Some(Sections.Memory)
    case 5 => Some(Sections.Memory2)
    case 6 => Some(Sections.Pcie)
    case 7 => Some(Sections.Firmware)
    case 8 => Some(Sections.PciBus)
    case 9 => Some(Sections.PciDev)
    case 10 => Some(Sections.DmarGeneric)
    case 11 => Some(Sections.DmarVtd)
    case 12 => Some(Sections.DmarIommu)
    case 13 => Some(Sections.CcixPer)
    case 14 => Some(Sections.CxlProtocol)
    case 15 => Some(Sections.CxlComponent)
    case 16 => Some(Sections.CxlComponent)
    case 17 => Some(Sections.CxlComponent)
    case 18 => Some(Sections.CxlComponent)
    case 19 => Some(Sections.CxlComponent)
    case 20 => Some(Sections.CxlComponent)
    case 21 => Some(Sections.Nvidia)
    case _ => None
  }

  function SectionGuid(row: nat): Guid {
    match row
    case 0 => PROCESSOR_GENERIC_SECTION
    case 1 => IA32X64_SECTION
    case 2 => IPF_SECTION
    case 3 => ARM_SECTION
    case 4 => MEMORY_SECTION
    case 5 => MEMORY2_SECTION
    case 6 => PCIE_SECTION
    case 7 => FIRMWARE_SECTION
    case 8 => PCI_BUS_SECTION
    case 9 => PCI_DEV_SECTION
    case 10 => DMAR_GENERIC_SECTION
    case 11 => DMAR_VTD_SECTION
    case 12 => DMAR_IOMMU_SECTION
    case 13 => CCIX_PER_SECTION
    case 14 => CXL_PROTOCOL_SECTION
    case 15 => CXL_MEDIA_SECTION
    case 16 => CXL_DRAM_SECTION
    case 17 => CXL_MEMORY_SECTION
    case 18 => CXL_PSWITCH_SECTION
    case 19 => CXL_VSWITCH_SECTION
    case 20 => CXL_MLD_SECTION
    case 21 => NVIDIA_SECTION
    case _ => ZERO_GUID
  }

  lemma Loads0(row: nat)
    requires row < 5
    ensures GuidOf(SectionBytes(row)) == SectionGuid(row)
  {
    hide GuidOf;
    GuidLoads(SectionBytes(row), SectionGuid(row));
  }

  lemma Loads5(row: nat)
    requires 5 <= row < 10
    ensures GuidOf(SectionBytes(row)) == SectionGuid(row)
  {
    hide GuidOf;
    GuidLoads(SectionBytes(row), SectionGuid(row));
  }

  lemma Loads10(row: nat)
    requires 10 <= row < 14
    ensures GuidOf(SectionBytes(row)) == SectionGuid(row)
  {
    hide GuidOf;
    GuidLoads(SectionBytes(row), SectionGuid(row));
  }

  lemma Loads14(row: nat)
    requires 14 <= row < 18
    ensures GuidOf(SectionBytes(row)) == SectionGuid(row)
  {
    hide GuidOf;
    GuidLoads(SectionBytes(row), SectionGuid(row));
  }

  lemma Loads18(row: nat)
    requires 18 <= row < 22
    ensures GuidOf(SectionBytes(row)) == SectionGuid(row)
  {
    hide GuidOf;
    GuidLoads(SectionBytes(row), SectionGuid(row));
  }

  ghost predicate RowIs(row: nat) {
    var defs := Sections.SectionDefinitions();
    && row < |defs| && defs[row].guid == SectionGuid(row) && defs[row].readableName == SectionText(row)
    && defs[row].toIr == SectionConverter(row)
  }

  lemma Rows0(row: nat)
    requires row < 8
    ensures RowIs(row)
  {
  }

  lemma Rows8(row: nat)
    requires 8 <= row < 15
    ensures RowIs(row)
  {
  }

  lemma Rows15(row: nat)
    requires 15 <= row < 22
    ensures RowIs(row)
  {
  }

  lemma SectionRow(row: nat)
    requires row < 22
    ensures |Sections.SectionDefinitions()| == 22 && RowIs(row) && GuidOf(SectionBytes(row)) == SectionGuid(row)
  {
    hide GuidOf, SectionBytes, SectionGuid, RowIs, Sections.SectionDefinitions;
    RowCounts();
    if row < 5 {
      Loads0(row);
    } else if row < 10 {
      Loads5(row);
    } else if row < 14 {
      Loads10(row);
    } else if row < 18 {
      Loads14(row);
    } else {
      Loads18(row);
    }
    if row < 8 {
      Rows0(row);
    } else if row < 15 {
      Rows8(row);
    } else {
      Rows15(row);
    }
  }

  lemma {:induction false} NameOfRow(table: seq<Sections.Definition>, row: nat)
    requires row < |table| && forall i :: 0 <= i < row ==> table[i].guid != table[row].guid
    ensures Sections.ReadableName(table, table[row].guid) == table[row].readableName
    decreases row
  {
    if row > 0 {
      assert table[0].guid != table[row].guid && table[1..][row - 1] == table[row];
      NameOfRow(table[1..], row - 1);
    }
  }

  lemma {:induction false} NameOfNone(table: seq<Sections.Definition>, guid: Guid)
    requires forall i :: 0 <= i < |table| ==> table[i].guid != guid
    ensures Sections.ReadableName(table, guid) == "Unknown"
    decreases |table|
  {
    if table != [] {
      NameOfNone(table[1..], guid);
    }
  }

  lemma RowFound(row: nat)
    requires row < |Sections.SectionDefinitions()|
    ensures var defs := Sections.SectionDefinitions();
      && Sections.Reader(defs, defs[row].guid) == defs[row].toIr
      && Sections.ReadableName(defs, defs[row].guid) == defs[row].readableName
  {
    hide Sections.SectionDefinitions, Sections.ReadableName;
    var defs := Sections.SectionDefinitions();
    SectionGuidsDiffer();
    NameOfRow(defs, row);
    var found := Sections.ReaderRow(defs, defs[row].guid);
    if found < |defs| {
      assert defs[found].guid == defs[row].guid;
    } else {
      assert !(defs[row].guid == defs[row].guid && defs[row].toIr.Some?);
    }
  }

  /** Which converter reads a section, and what its type is called, is decided by sixteen bytes of its descriptor. */
  lemma SectionShown(m: seq<byte>)
    requires |m| == 16
    ensures var defs := Sections.SectionDefinitions();
      forall row: nat :: row < 22 && m == SectionBytes(row) ==>
        && Sections.Reader(defs, GuidOf(m)) == SectionConverter(row)
        && Sections.ReadableName(defs, GuidOf(m)) == SectionText(row)
    ensures (forall row: nat :: row < 22 ==> m != SectionBytes(row)) ==>
      && Sections.Reader(Sections.SectionDefinitions(), GuidOf(m)) == None
      && Sections.ReadableName(Sections.SectionDefinitions(), GuidOf(m)) == "Unknown"
  {
    hide GuidOf, SectionBytes, SectionGuid, SectionText, SectionConverter, Sections.SectionDefinitions,
      Sections.ReadableName, Sections.Reader;
    var defs := Sections.SectionDefinitions();
    forall row: nat | row < 22
      ensures RowIs(row) && (GuidOf(m) == defs[row].guid <==> m == SectionBytes(row))
      ensures Sections.Reader(defs, defs[row].guid) == defs[row].toIr
      ensures Sections.ReadableName(defs, defs[row].guid) == defs[row].readableName
    {
      SectionRow(row);
      GuidSame(m, SectionBytes(row));
      RowFound(row);
    }
    SectionRow(0);
    if forall row: nat :: row < 22 ==> m != SectionBytes(row) {
      forall i | 0 <= i < |defs|
        ensures defs[i].guid != GuidOf(m)
      {
        assert RowIs(i);
      }
      NameOfNone(defs, GuidOf(m));
      NoReaderFor(defs, GuidOf(m));
    }
  }

  lemma NoReaderFor(table: seq<Sections.Definition>, guid: Guid)
    requires forall i :: 0 <= i < |table| ==> table[i].guid != guid
    ensures Sections.Reader(table, guid) == None
  {
  }
}
