/** What the reader shows of an NVIDIA error section, from its bytes. */
module NvidiaReadings {
  import opened Bytes
  import opened CperUtils
  import opened Json
  import opened PackedReadings
  import opened Readings
  import opened RegisterPairs
  import opened SectionNvidia
  import opened TextReadings

  const FRONT: nat := 0

  lemma NvidiaOffsets()
    ensures var ws := FIXED_WIDTHS;
      && Sum(ws) == 32 && Sum(ws[..1]) == 16 && Sum(ws[..2]) == 18 && Sum(ws[..3]) == 20 && Sum(ws[..4]) == 21
      && Sum(ws[..5]) == 22 && Sum(ws[..6]) == 23 && Sum(ws[..7]) == 24
  {
    hide Sum;
    FixedWidths();
    SumNone(FIXED_WIDTHS);
    SumPrefix(FIXED_WIDTHS, 0);
    SumPrefix(FIXED_WIDTHS, 1);
    SumPrefix(FIXED_WIDTHS, 2);
    SumPrefix(FIXED_WIDTHS, 3);
    SumPrefix(FIXED_WIDTHS, 4);
    SumPrefix(FIXED_WIDTHS, 5);
    SumPrefix(FIXED_WIDTHS, 6);
  }

  lemma NvidiaNumbers(s: seq<byte>)
    ensures var p := Front(s, FIXED_WIDTHS);
      && U16(p[1]) == N16(s, 16) && U16(p[2]) == N16(s, 18) && U8(p[3]) == N8(s, 20) && U8(p[4]) == N8(s, 21)
      && U8(p[5]) == N8(s, 22) && U64(p[7]) == N64(s, 24)
  {
    hide At, Sum, Chop, FromLE, N8, N16, N64;
    NvidiaOffsets();
    PieceAt(s, FRONT, FIXED_WIDTHS, 1);
    PieceAt(s, FRONT, FIXED_WIDTHS, 2);
    PieceAt(s, FRONT, FIXED_WIDTHS, 3);
    PieceAt(s, FRONT, FIXED_WIDTHS, 4);
    PieceAt(s, FRONT, FIXED_WIDTHS, 5);
    PieceAt(s, FRONT, FIXED_WIDTHS, 7);
    Read16(s, 16);
    Read16(s, 18);
    Read8(s, 20);
    Read8(s, 21);
    Read8(s, 22);
    Read64(s, 24);
  }

  /** How many characters a signature that is not terminated can run on for. */
  function Length(s: seq<byte>): nat {
    if |s| < 32 then 32 else |s|
  }

  lemma SignatureShown(s: seq<byte>)
    ensures CString(Memory(s)) == Chars(s, FRONT, Length(s))
  {
    hide CString, Chars;
    CharsShown(s, FRONT, Length(s));
    assert At(s, FRONT, Length(s)) == Memory(s);
  }

  /** The fields at the front of the section. */
  lemma NvidiaShown(s: seq<byte>)
    ensures var ir := SectionToIr(s);
      && Get(ir, "signature") == Str(Chars(s, FRONT, Length(s)))
      && Get(ir, "errorType") == Int(N16(s, 16)) && Get(ir, "errorInstance") == Int(N16(s, 18))
      && Get(ir, "severity") == Int(N8(s, 20)) && Get(ir, "socket") == Int(N8(s, 21))
      && Get(ir, "numberRegs") == Int(N8(s, 22)) && Get(ir, "instanceBase") == Int(N64(s, 24))
  {
    hide Front, U8, U16, U64, N8, N16, N64, RecordToIr, Get, PairsToIr, CString, Chars, Memory, NumberRegs;
    NvidiaNumbers(s);
    SignatureShown(s);
    RecordMembers(Front(s, FIXED_WIDTHS), CString(Memory(s)),
                  PairsToIr(s, FIXED_SIZE, NumberRegs(s), "address", "value"));
  }

  /** As many registers as byte 22 says lie behind one another from byte 32 on. */
  lemma NvidiaRegistersShown(s: seq<byte>)
    ensures var registers := Get(SectionToIr(s), "registers");
      && registers.Arr? && |registers.a| == N8(s, 22)
      && (forall i: nat :: i < N8(s, 22) ==>
            Get(registers.a[i], "address") == Int(N64(s, 32 + 16 * i)) &&
            Get(registers.a[i], "value") == Int(N64(s, 40 + 16 * i)))
    ensures SectionEnd(s) == 32 + 16 * N8(s, 22)
  {
    hide Front, U8, U16, U64, N8, N64, RecordToIr, Get, PairsToIr, CString, Memory;
    NvidiaNumbers(s);
    KeysDiffer();
    var n := N8(s, 22);
    RecordMembers(Front(s, FIXED_WIDTHS), CString(Memory(s)), PairsToIr(s, FIXED_SIZE, n, "address", "value"));
    forall i: nat | i < n
      ensures var register := PairsToIr(s, 32, n, "address", "value")[i];
        Get(register, "address") == Int(N64(s, 32 + 16 * i)) && Get(register, "value") == Int(N64(s, 40 + 16 * i))
    {
      PairListed(s, 32, n, "address", "value", i);
    }
  }
}
