/** GUIDs and timestamps as text, character by character from the bytes in memory. */
module TextReadings {
  import opened Bytes
  import opened CommonUtils
  import opened CperUtils
  import opened Guids
  import opened Readings
  import opened Text

  // ---- digits -------------------------------------------------------------------------------------------

  const HEX_DIGITS := "0123456789abcdef"

  lemma HexDigits(d: nat)
    requires d < 16
    ensures |HEX_DIGITS| == 16 && HEX_DIGITS[d] == Digit(d)
  {
  }

  /** Two hexadecimal digits. */
  function Hex(b: byte): (s: string)
    ensures |s| == 2
  {
    HexDigits(b / 16);
    [HEX_DIGITS[b / 16], HEX_DIGITS[b % 16]]
  }

  /** At least two decimal digits of a number below two hundred. */
  function Dec(v: nat): (s: string)
    requires v < 200
  {
    HexDigits(0);
    (if v < 100 then "" else "1") + [HEX_DIGITS[v / 10 % 10], HEX_DIGITS[v % 10]]
  }

  lemma PrintedByte(b: byte)
    ensures PrintNumber(b, 16, 2) == Hex(b)
  {
    HexDigits(b / 16);
    HexDigits(b % 16);
    assert PrintNumber(b, 16, 2) == PrintNumber(b / 16, 16, 1) + [Digit(b % 16)];
    assert PrintNumber(b / 16, 16, 1) == [Digit(b / 16)];
  }

  /** A number and one more byte behind it. */
  lemma PrintedMore(h: nat, b: byte, w: nat)
    requires w > 0
    ensures PrintNumber(0x100 * h + b, 16, w + 2) == PrintNumber(h, 16, w) + Hex(b)
  {
    HexDigits(b / 16);
    HexDigits(b % 16);
    var v := 0x100 * h + b;
    assert v / 16 == 16 * h + b / 16 && v % 16 == b % 16;
    assert v / 16 / 16 == h && v / 16 % 16 == b / 16;
    assert PrintNumber(v, 16, w + 2) == PrintNumber(v / 16, 16, w + 1) + [Digit(v % 16)];
    assert PrintNumber(v / 16, 16, w + 1) == PrintNumber(h, 16, w) + [Digit(v / 16 % 16)];
  }

  lemma PrintedDecimal(v: nat)
    requires v < 200
    ensures PrintNumber(v, 10, 2) == Dec(v)
  {
    HexDigits(v / 10 % 10);
    HexDigits(v % 10);
    assert PrintNumber(v, 10, 2) == PrintNumber(v / 10, 10, 1) + [Digit(v % 10)];
    if v < 100 {
      assert PrintNumber(v / 10, 10, 1) == [Digit(v / 10)];
    } else {
      HexDigits(1);
      assert PrintNumber(v / 10, 10, 1) == PrintNumber(v / 100, 10, 0) + [Digit(v / 10 % 10)];
      assert v / 100 == 1 && PrintNumber(1, 10, 0) == [Digit(1)];
    }
  }

  // ---- pieces of text -------------------------------------------------------------------------------------

  function Concat(pieces: seq<string>): string {
    if pieces == [] then "" else pieces[0] + Concat(pieces[1..])
  }

  function Piece(f: seq<Item>, vs: seq<nat>, i: nat): string
    requires ValidFormat(f, |vs|) && i < |f|
  {
    if f[i].Literal? then [f[i].c] else PrintNumber(vs[f[i].arg], f[i].base, f[i].width)
  }

  /** What is printed is the text of the items, one after another. */
  lemma {:induction false} PrintPieces(f: seq<Item>, vs: seq<nat>, pieces: seq<string>)
    requires ValidFormat(f, |vs|) && |pieces| == |f| && forall i :: 0 <= i < |f| ==> pieces[i] == Piece(f, vs, i)
    ensures Print(f, vs) == Concat(pieces)
    decreases |f|
  {
    hide PrintNumber;
    if f != [] {
      forall i | 0 <= i < |f[1..]|
        ensures pieces[1..][i] == Piece(f[1..], vs, i)
      {
        assert pieces[i + 1] == Piece(f, vs, i + 1);
      }
      PrintPieces(f[1..], vs, pieces[1..]);
      assert pieces[0] == Piece(f, vs, 0);
    }
  }

  // ---- GUIDs ----------------------------------------------------------------------------------------------

  /** Two and four bytes as one number, the most significant byte first. */
  function HexWord(s: seq<byte>, p: nat): string {
    Hex(N8(s, p + 1)) + Hex(N8(s, p))
  }

  function HexLong(s: seq<byte>, p: nat): string {
    Hex(N8(s, p + 3)) + Hex(N8(s, p + 2)) + Hex(N8(s, p + 1)) + Hex(N8(s, p))
  }

  /** A number of four bytes and two of two bytes, then eight bytes in a row. */
  function GuidPieces(s: seq<byte>, p: nat): seq<string> {
    [HexLong(s, p), "-", HexWord(s, p + 4), "-", HexWord(s, p + 6), "-",
     Hex(N8(s, p + 8)), Hex(N8(s, p + 9)), Hex(N8(s, p + 10)), Hex(N8(s, p + 11)),
     Hex(N8(s, p + 12)), Hex(N8(s, p + 13)), Hex(N8(s, p + 14)), Hex(N8(s, p + 15))]
  }

  function GuidText(s: seq<byte>, p: nat): string {
    Concat(GuidPieces(s, p))
  }

  lemma PrintedWord(s: seq<byte>, p: nat)
    ensures PrintNumber(N16(s, p), 16, 4) == HexWord(s, p)
  {
    hide PrintNumber, Hex;
    PrintedByte(N8(s, p + 1));
    PrintedMore(N8(s, p + 1), N8(s, p), 2);
  }

  lemma PrintedLong(s: seq<byte>, p: nat)
    ensures PrintNumber(N32(s, p), 16, 8) == HexLong(s, p)
  {
    hide PrintNumber, Hex;
    var a: nat, b, c, d := N8(s, p + 3), N8(s, p + 2), N8(s, p + 1), N8(s, p);
    PrintedByte(a);
    PrintedMore(a, b, 2);
    PrintedMore(0x100 * a + b, c, 4);
    PrintedMore(0x100 * (0x100 * a + b) + c, d, 6);
  }

  lemma GuidFields(s: seq<byte>, p: nat)
    ensures var g := GuidOf(At(s, p, 16));
      && g.data1 == N32(s, p) && g.data2 == N16(s, p + 4) && g.data3 == N16(s, p + 6)
      && forall k :: 0 <= k < 8 ==> g.data4[k] == N8(s, p + 8 + k)
  {
    hide FromLE, N32, N16;
    AtAt(s, p, 16, 0, 4);
    AtAt(s, p, 16, 4, 2);
    AtAt(s, p, 16, 6, 2);
    AtAt(s, p, 16, 8, 8);
    Read32(s, p);
    Read16(s, p + 4);
    Read16(s, p + 6);
  }

  /** The text of the GUID at `p`. */
  lemma GuidShown(s: seq<byte>, p: nat)
    ensures GuidToString(GuidOf(At(s, p, 16))) == GuidText(s, p)
  {
    hide PrintNumber, Print, Concat, HexWord, HexLong, Hex, At, GuidOf, N32, N16;
    var vs, pieces := GuidNumbers(GuidOf(At(s, p, 16))), GuidPieces(s, p);
    GuidFields(s, p);
    PrintedLong(s, p);
    PrintedWord(s, p + 4);
    PrintedWord(s, p + 6);
    forall i | 0 <= i < 14
      ensures pieces[i] == Piece(GUID_FORMAT, vs, i)
    {
      if i >= 6 {
        assert vs[i - 3] == N8(s, p + (i + 2));
        PrintedByte(N8(s, p + (i + 2)));
      }
    }
    PrintPieces(GUID_FORMAT, vs, pieces);
  }

  // ---- timestamps -----------------------------------------------------------------------------------------

  /** The value of a packed decimal byte. */
  function Tens(b: byte): (v: nat)
    ensures v < 200
  {
    b / 16 * 10 + b % 16
  }

  function TimeStampAt(s: seq<byte>, p: nat): Timestamp {
    Timestamp(N8(s, p), N8(s, p + 1), N8(s, p + 2), N8(s, p + 3), N8(s, p + 4), N8(s, p + 5), N8(s, p + 6),
              N8(s, p + 7))
  }

  /** Century and year in two digits each, month, day, hours, minutes and seconds; no fractions. */
  function TimePieces(s: seq<byte>, p: nat): seq<string> {
    [Dec(Tens(N8(s, p + 7)) % 100), Dec(Tens(N8(s, p + 6)) % 100), "-", Dec(Tens(N8(s, p + 5))), "-",
     Dec(Tens(N8(s, p + 4))), "T", Dec(Tens(N8(s, p + 2))), ":", Dec(Tens(N8(s, p + 1))), ":",
     Dec(Tens(N8(s, p))), ".", "0", "0", "0"]
  }

  function TimeText(s: seq<byte>, p: nat): string {
    Concat(TimePieces(s, p))
  }

  lemma TimeShown(s: seq<byte>, p: nat)
    ensures TimestampToString(TimeStampAt(s, p)) == TimeText(s, p)
  {
    hide PrintNumber, Print, Concat, Dec, N8, Tens, BcdToInt;
    var vs, pieces := TimestampNumbers(TimeStampAt(s, p)), TimePieces(s, p);
    TimeNumbers(s, p);
    forall i | 0 <= i < 16
      ensures pieces[i] == Piece(PRINT_TIMESTAMP, vs, i)
    {
      if PRINT_TIMESTAMP[i].Number? {
        PrintedDecimal(vs[PRINT_TIMESTAMP[i].arg]);
      }
    }
    PrintPieces(PRINT_TIMESTAMP, vs, pieces);
  }

  lemma TimeNumbers(s: seq<byte>, p: nat)
    ensures var vs := TimestampNumbers(TimeStampAt(s, p));
      && vs[0] == Tens(N8(s, p + 7)) % 100 && vs[1] == Tens(N8(s, p + 6)) % 100 && vs[2] == Tens(N8(s, p + 5))
      && vs[3] == Tens(N8(s, p + 4)) && vs[4] == Tens(N8(s, p + 2)) && vs[5] == Tens(N8(s, p + 1))
      && vs[6] == Tens(N8(s, p))
  {
    hide N8;
  }

  // ---- fixed-size text --------------------------------------------------------------------------------------

  /** The characters from `p` up to the first NUL, or up to `n` of them. */
  function Chars(s: seq<byte>, p: nat, n: nat): string
    decreases n
  {
    if n == 0 || N8(s, p) == 0 then "" else [N8(s, p) as char] + Chars(s, p + 1, n - 1)
  }

  lemma {:induction false} CharsShown(s: seq<byte>, p: nat, n: nat)
    ensures CString(At(s, p, n)) == Chars(s, p, n)
    decreases n
  {
    if n > 0 {
      CharsShown(s, p + 1, n - 1);
      assert At(s, p, n)[1..] == At(s, p + 1, n - 1);
    }
  }
}
