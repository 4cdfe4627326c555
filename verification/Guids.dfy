/** EFI GUIDs: sixteen packed bytes, and the ones that records and sections are recognised by. */
module Guids {
  import opened Bytes

  datatype GuidFields = Guid(data1: u32, data2: u16, data3: u16, data4: seq<byte>)

  type Guid = g: GuidFields | |g.data4| == 8 witness Guid(0, 0, 0, [0, 0, 0, 0, 0, 0, 0, 0])

  const ZERO_GUID: Guid := Guid(0, 0, 0, [0, 0, 0, 0, 0, 0, 0, 0])

  const GUID_WIDTHS: seq<nat> := [4, 2, 2, 8]

  function GuidOf(s: seq<byte>): Guid
    requires |s| == 16
  {
    Guid(U32(At(s, 0, 4)), U16(At(s, 4, 2)), U16(At(s, 6, 2)), At(s, 8, 8))
  }

  lemma GuidSlices(s: seq<byte>)
    requires |s| == 16
    ensures Sum(GUID_WIDTHS) == 16 && Chop(s, GUID_WIDTHS) == [At(s, 0, 4), At(s, 4, 2), At(s, 6, 2), At(s, 8, 8)]
  {
    hide Chop, At;
    SumFour(4, 2, 2, 8);
    SumNone(GUID_WIDTHS);
    SumPrefix(GUID_WIDTHS, 0);
    SumPrefix(GUID_WIDTHS, 1);
    SumPrefix(GUID_WIDTHS, 2);
    ChopSlice(s, GUID_WIDTHS, 0);
    ChopSlice(s, GUID_WIDTHS, 1);
    ChopSlice(s, GUID_WIDTHS, 2);
    ChopSlice(s, GUID_WIDTHS, 3);
  }

  function GuidBytes(g: Guid): (s: seq<byte>)
    ensures |s| == 16
  {
    var ps := [LE(g.data1, 4), LE(g.data2, 2), LE(g.data3, 2), g.data4];
    JoinLength(ps, GUID_WIDTHS);
    Join(ps)
  }

  /** A GUID in memory and its fields determine each other. */
  lemma GuidBytesOf(s: seq<byte>)
    requires |s| == 16
    ensures GuidBytes(GuidOf(s)) == s
  {
    hide Chop, Join, LE, FromLE, At, Sum;
    GuidSlices(s);
    StoreLoad(At(s, 0, 4));
    StoreLoad(At(s, 4, 2));
    StoreLoad(At(s, 6, 2));
    JoinChop(s, GUID_WIDTHS);
  }

  lemma GuidOfBytes(g: Guid)
    ensures GuidOf(GuidBytes(g)) == g
  {
    hide Chop, Join, LE, FromLE, At, Sum;
    var ps := [LE(g.data1, 4), LE(g.data2, 2), LE(g.data3, 2), g.data4];
    ChopJoin(ps, GUID_WIDTHS);
    GuidSlices(GuidBytes(g));
    assert Range(4) == 0x1_0000_0000 && Range(2) == 0x1_0000;
    LoadStoreFits(g.data1, 4);
    LoadStoreFits(g.data2, 2);
    LoadStoreFits(g.data3, 2);
  }

  /** Compares the three integers, then the last eight bytes one by one. */
  method GuidEqual(a: Guid, b: Guid) returns (equal: bool)
    ensures equal <==> a == b
  {
    if a.data1 != b.data1 || a.data2 != b.data2 || a.data3 != b.data3 {
      return false;
    }
    for i := 0 to 8
      invariant a.data4[..i] == b.data4[..i]
    {
      if a.data4[i] != b.data4[i] {
        return false;
      }
    }
    assert a.data4 == a.data4[..8] && b.data4 == b.data4[..8];
    equal := true;
  }

  // IA32/x64 check information types
  const CACHE_CHECK: Guid := Guid(0xA55701F5, 0xE3EF, 0x43de, [0xAC, 0x72, 0x24, 0x9B, 0x57, 0x3F, 0xAD, 0x2C])
  const TLB_CHECK: Guid := Guid(0xFC06B535, 0x5E1F, 0x4562, [0x9F, 0x25, 0x0A, 0x3B, 0x9A, 0xDB, 0x63, 0xC3])
  const BUS_CHECK: Guid := Guid(0x1CF3F8B3, 0xC5B1, 0x49a2, [0xAA, 0x59, 0x5E, 0xEF, 0x92, 0xFF, 0xA6, 0x3C])
  const MS_CHECK: Guid := Guid(0x48AB7F57, 0xDC34, 0x4f6c, [0xA7, 0xD3, 0xB0, 0xB5, 0xB0, 0xA7, 0x43, 0x14])

  // event notification types
  const CMC_NOTIFICATION: Guid := Guid(0x2DCE8BB1, 0xBDD7, 0x450E, [0xB9, 0xAD, 0x9C, 0xF4, 0xEB, 0xD4, 0xF8, 0x90])
  const CPE_NOTIFICATION: Guid := Guid(0x4E292F96, 0xD843, 0x4A55, [0xA8, 0xC2, 0xD4, 0x81, 0xF2, 0x7E, 0xBE, 0xEE])
  const MCE_NOTIFICATION: Guid := Guid(0xE8F56FFE, 0x919C, 0x4CC5, [0xBA, 0x88, 0x65, 0xAB, 0xE1, 0x49, 0x13, 0xBB])
  const PCIE_NOTIFICATION: Guid := Guid(0xCF93C01F, 0x1A16, 0x4DFC, [0xB8, 0xBC, 0x9C, 0x4D, 0xAF, 0x67, 0xC1, 0x04])
  const INIT_NOTIFICATION: Guid := Guid(0xCC5263E8, 0x9308, 0x454A, [0x89, 0xD0, 0x34, 0x0B, 0xD3, 0x9B, 0xC9, 0x8E])
  const NMI_NOTIFICATION: Guid := Guid(0x5BAD89FF, 0xB7E6, 0x42C9, [0x81, 0x4A, 0xCF, 0x24, 0x85, 0xD6, 0xE9, 0x8A])
  const BOOT_NOTIFICATION: Guid := Guid(0x3D61A466, 0xAB40, 0x409A, [0xA6, 0x98, 0xF3, 0x62, 0xD4, 0x64, 0xB3, 0x8F])
  const DMAR_NOTIFICATION: Guid := Guid(0x667DD791, 0xC6B3, 0x4C27, [0x8A, 0x6B, 0x0F, 0x8E, 0x72, 0x2D, 0xEB, 0x41])
  const SEA_NOTIFICATION: Guid := Guid(0x9A78788A, 0xBBE8, 0x11E4, [0x80, 0x9E, 0x67, 0x61, 0x1E, 0x5D, 0x46, 0xB0])
  const SEI_NOTIFICATION: Guid := Guid(0x5C284C81, 0xB0AE, 0x4E87, [0xA3, 0x22, 0xB0, 0x4C, 0x85, 0x62, 0x43, 0x23])
  const PEI_NOTIFICATION: Guid := Guid(0x09A9D5AC, 0x5204, 0x4214, [0x96, 0xE5, 0x94, 0x99, 0x2E, 0x75, 0x2B, 0xCD])
  const CXL_NOTIFICATION: Guid := Guid(0x69293BC9, 0x41DF, 0x49A3, [0xB4, 0xBD, 0x4F, 0xB0, 0xDB, 0x30, 0x41, 0xF6])

  // section types
  const PROCESSOR_GENERIC_SECTION: Guid :=
    Guid(0x9876CCAD, 0x47B4, 0x4BDB, [0xB6, 0x5E, 0x16, 0xF1, 0x93, 0xC4, 0xF3, 0xDB])
  const IA32X64_SECTION: Guid := Guid(0xDC3EA0B0, 0xA144, 0x4797, [0xB9, 0x5B, 0x53, 0xFA, 0x24, 0x2B, 0x6E, 0x1D])
  const IPF_SECTION: Guid := Guid(0xE429FAF1, 0x3CB7, 0x11D4, [0xBC, 0xA7, 0x00, 0x80, 0xC7, 0x3C, 0x88, 0x81])
  const ARM_SECTION: Guid := Guid(0xE19E3D16, 0xBC11, 0x11E4, [0x9C, 0xAA, 0xC2, 0x05, 0x1D, 0x5D, 0x46, 0xB0])
  const MEMORY_SECTION: Guid := Guid(0xA5BC1114, 0x6F64, 0x4EDE, [0xB8, 0x63, 0x3E, 0x83, 0xED, 0x7C, 0x83, 0xB1])
  const MEMORY2_SECTION: Guid := Guid(0x61EC04FC, 0x48E6, 0xD813, [0x25, 0xC9, 0x8D, 0xAA, 0x44, 0x75, 0x0B, 0x12])
  const PCIE_SECTION: Guid := Guid(0xD995E954, 0xBBC1, 0x430F, [0xAD, 0x91, 0xB4, 0x4D, 0xCB, 0x3C, 0x6F, 0x35])
  const FIRMWARE_SECTION: Guid := Guid(0x81212A96, 0x09ED, 0x4996, [0x94, 0x71, 0x8D, 0x72, 0x9C, 0x8E, 0x69, 0xED])
  const PCI_BUS_SECTION: Guid := Guid(0xC5753963, 0x3B84, 0x4095, [0xBF, 0x78, 0xED, 0xDA, 0xD3, 0xF9, 0xC9, 0xDD])
  const PCI_DEV_SECTION: Guid := Guid(0xEB5E4685, 0xCA66, 0x4769, [0xB6, 0xA2, 0x26, 0x06, 0x8B, 0x00, 0x13, 0x26])
  const DMAR_GENERIC_SECTION: Guid := Guid(0x5B51FEF7, 0xC79D, 0x4434, [0x8F, 0x1B, 0xAA, 0x62, 0xDE, 0x3E, 0x2C, 0x64])
  const DMAR_VTD_SECTION: Guid := Guid(0x71761D37, 0x32B2, 0x45CD, [0xA7, 0xD0, 0xB0, 0xFE, 0xDD, 0x93, 0xE8, 0xCF])
  const DMAR_IOMMU_SECTION: Guid := Guid(0x036F84E1, 0x7F37, 0x428C, [0xA7, 0x9E, 0x57, 0x5F, 0xDF, 0xAA, 0x84, 0xEC])
  const CCIX_PER_SECTION: Guid := Guid(0x91335EF6, 0xEBFB, 0x4478, [0xA6, 0xA6, 0x88, 0xB7, 0x28, 0xCF, 0x75, 0xD7])
  const CXL_PROTOCOL_SECTION: Guid := Guid(0x80B9EFB4, 0x52B5, 0x4DE3, [0xA7, 0x77, 0x68, 0x78, 0x4B, 0x77, 0x10, 0x48])
  const CXL_MEDIA_SECTION: Guid := Guid(0xFBCD0A77, 0xC260, 0x417F, [0x85, 0xA9, 0x08, 0x8B, 0x16, 0x21, 0xEB, 0xA6])
  const CXL_DRAM_SECTION: Guid := Guid(0x601DCBB3, 0x9C06, 0x4EAB, [0xB8, 0xAF, 0x4E, 0x9B, 0xFB, 0x5C, 0x96, 0x24])
  const CXL_MEMORY_SECTION: Guid := Guid(0xFE927475, 0xDD59, 0x4339, [0xA5, 0x86, 0x79, 0xBA, 0xB1, 0x13, 0xB7, 0x74])
  const CXL_PSWITCH_SECTION: Guid := Guid(0x77CF9271, 0x9C02, 0x470B, [0x9F, 0xE4, 0xBC, 0x7B, 0x75, 0xF2, 0xDA, 0x97])
  const CXL_VSWITCH_SECTION: Guid := Guid(0x40D26425, 0x3396, 0x4C4D, [0xA5, 0xDA, 0x3D, 0x47, 0x26, 0x3A, 0xF4, 0x25])
  const CXL_MLD_SECTION: Guid := Guid(0x8DC44363, 0x0C96, 0x4710, [0xB7, 0xBF, 0x04, 0xBB, 0x99, 0x53, 0x4C, 0x3F])
  const NVIDIA_SECTION: Guid := Guid(0x6D5244F2, 0x2712, 0x11EC, [0xBE, 0xA7, 0xCB, 0x3F, 0xDB, 0x95, 0xC7, 0x86])
}
