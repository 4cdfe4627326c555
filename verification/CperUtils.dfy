/** Conversions that every section codec shares. */
module CperUtils {
  import opened Bytes
  import opened CommonUtils
  import opened Guids
  import opened Json
  import opened Names
  import opened Text

  // ---- GUIDs as text ----------------------------------------------------------------------------

  const GUID_FORMAT: seq<Item> := [
    Number(0, 16, 8), Literal('-'), Number(1, 16, 4), Literal('-'), Number(2, 16, 4), Literal('-'),
    Number(3, 16, 2), Number(4, 16, 2), Number(5, 16, 2), Number(6, 16, 2),
    Number(7, 16, 2), Number(8, 16, 2), Number(9, 16, 2), Number(10, 16, 2)]

  function GuidNumbers(g: Guid): (vs: seq<nat>)
    ensures |vs| == 11
  {
    [g.data1, g.data2, g.data3] + g.data4
  }

  function GuidToString(g: Guid): string {
    Print(GUID_FORMAT, GuidNumbers(g))
  }

  /** Stores the scanned fields into a GUID, each truncated to its width; fields not reached keep their value. */
  function StringToGuid(s: string, before: Guid): Guid {
    var vs := Scan(GUID_FORMAT, s, GuidNumbers(before));
    Guid(vs[0] % 0x1_0000_0000, vs[1] % 0x1_0000, vs[2] % 0x1_0000,
         seq(8, i requires 0 <= i < 8 => vs[3 + i] % 0x100))
  }

  lemma GuidRoundTrip(g: Guid, before: Guid)
    ensures StringToGuid(GuidToString(g), before) == g
  {
    hide Print, Scan;
    var vs := GuidNumbers(g);
    HexWidths();
    assert Delimited(GUID_FORMAT, GUID_FORMAT, vs);
    ScanPrint(GUID_FORMAT, GUID_FORMAT, vs, GuidNumbers(before));
    var r := Scan(GUID_FORMAT, GuidToString(g), GuidNumbers(before));
    forall k | 0 <= k < 11
      ensures r[k] == vs[k]
    {
      assert GUID_FORMAT[if k < 3 then 2 * k else k + 3].arg == k;
    }
  }

  lemma HexWidths()
    ensures Capacity(16, 2) == 0x100 && Capacity(16, 4) == 0x1_0000 && Capacity(16, 8) == 0x1_0000_0000
  {
  }

  // ---- timestamps as text -----------------------------------------------------------------------

  datatype Timestamp = Timestamp(seconds: byte, minutes: byte, hours: byte, flag: byte,
                                 day: byte, month: byte, year: byte, century: byte)

  const PRINT_TIMESTAMP: seq<Item> := [
    Number(0, 10, 2), Number(1, 10, 2), Literal('-'), Number(2, 10, 2), Literal('-'), Number(3, 10, 2),
    Literal('T'), Number(4, 10, 2), Literal(':'), Number(5, 10, 2), Literal(':'), Number(6, 10, 2),
    Literal('.'), Literal('0'), Literal('0'), Literal('0')]

  const SCAN_TIMESTAMP: seq<Item> := [
    Number(0, 10, 2), Number(1, 10, 2), Literal('-'), Number(2, 10, 0), Literal('-'), Number(3, 10, 0),
    Literal('T'), Number(4, 10, 0), Literal(':'), Number(5, 10, 0), Literal(':'), Number(6, 10, 0),
    Literal('.'), Literal('0'), Literal('0'), Literal('0')]

  /** The decimal values of a timestamp's fields, in the order they are printed. */
  function TimestampNumbers(t: Timestamp): (vs: seq<nat>)
    ensures |vs| == 7
  {
    [BcdToInt(t.century) % 100, BcdToInt(t.year) % 100, BcdToInt(t.month), BcdToInt(t.day),
     BcdToInt(t.hours), BcdToInt(t.minutes), BcdToInt(t.seconds)]
  }

  function TimestampToString(t: Timestamp): string {
    Print(PRINT_TIMESTAMP, TimestampNumbers(t))
  }

  /** Scans seven decimal numbers into bytes and turns each into packed decimal; the flag is not touched. */
  function StringToTimestamp(s: string, before: Timestamp): Timestamp {
    var was := [before.century as nat, before.year, before.month, before.day, before.hours, before.minutes,
                before.seconds];
    var vs := Scan(SCAN_TIMESTAMP, s, was);
    Timestamp(Bcd(vs[6] % 0x100), Bcd(vs[5] % 0x100), Bcd(vs[4] % 0x100), before.flag,
              Bcd(vs[3] % 0x100), Bcd(vs[2] % 0x100), Bcd(vs[1] % 0x100), Bcd(vs[0] % 0x100))
  }

  /** What a packed decimal byte becomes on its way through text: the byte of its value's last two digits. */
  function Decimal(b: byte): byte {
    Bcd(BcdToInt(b))
  }

  /** The timestamp that comes back from text. */
  function NormalTimestamp(t: Timestamp, flag: byte): Timestamp {
    Timestamp(Decimal(t.seconds), Decimal(t.minutes), Decimal(t.hours), flag,
              Decimal(t.day), Decimal(t.month), Decimal(t.year), Decimal(t.century))
  }

  lemma TimestampRoundTrip(t: Timestamp, before: Timestamp)
    ensures StringToTimestamp(TimestampToString(t), before) == NormalTimestamp(t, before.flag)
  {
    hide BcdToInt, Bcd, Scan, TimestampToString;
    ScanTimestamp(t, [before.century as nat, before.year, before.month, before.day, before.hours, before.minutes,
                      before.seconds]);
    BcdOfRemainder(BcdToInt(t.century));
    BcdOfRemainder(BcdToInt(t.year));
  }

  lemma ScanTimestamp(t: Timestamp, was: seq<nat>)
    requires |was| == 7
    ensures Scan(SCAN_TIMESTAMP, TimestampToString(t), was) == TimestampNumbers(t)
  {
    hide Print, Scan, BcdToInt;
    ScanTime(TimestampNumbers(t), was);
  }

  /** Whatever numbers a text holds in the places of the seven fields, each is cut to a byte and its last two digits are
      packed. */
  lemma TimestampScanned(vs: seq<nat>, before: Timestamp)
    requires |vs| == 7 && vs[0] < 100 && vs[1] < 100
    ensures StringToTimestamp(Print(PRINT_TIMESTAMP, vs), before) ==
      Timestamp(Bcd(vs[6] % 0x100), Bcd(vs[5] % 0x100), Bcd(vs[4] % 0x100), before.flag,
                Bcd(vs[3] % 0x100), Bcd(vs[2] % 0x100), Bcd(vs[1] % 0x100), Bcd(vs[0] % 0x100))
  {
    hide Print, Scan, Bcd;
    ScanTime(vs, [before.century as nat, before.year, before.month, before.day, before.hours, before.minutes,
                  before.seconds]);
  }

  lemma ScanTime(vs: seq<nat>, was: seq<nat>)
    requires |vs| == |was| == 7 && vs[0] < 100 && vs[1] < 100
    ensures Scan(SCAN_TIMESTAMP, Print(PRINT_TIMESTAMP, vs), was) == vs
  {
    hide Print, Scan, IsDigit;
    assert Capacity(10, 2) == 100;
    TimeLiterals();
    assert Delimited(PRINT_TIMESTAMP, SCAN_TIMESTAMP, vs);
    ScanPrint(PRINT_TIMESTAMP, SCAN_TIMESTAMP, vs, was);
    var r := Scan(SCAN_TIMESTAMP, Print(PRINT_TIMESTAMP, vs), was);
    forall k | 0 <= k < 7
      ensures r[k] == vs[k]
    {
      assert SCAN_TIMESTAMP[if k < 2 then k else 2 * k - 1].arg == k;
    }
  }

  lemma TimeLiterals()
    ensures !IsDigit('-', 10) && !IsDigit('T', 10) && !IsDigit(':', 10) && !IsDigit('.', 10)
  {
  }

  lemma BcdOfRemainder(v: nat)
    ensures Bcd(v % 100) == Bcd(v)
  {
    var q, r := v / 100, v % 100;
    assert v == 100 * q + r;
    DivModUnique(v, 10, 10 * q + r / 10, r % 10);
    DivModUnique(v / 10, 10, q, r / 10);
  }

  /** How wide a number below two hundred is printed with at least two digits. */
  function Wide(v: nat): nat {
    if v < 100 then 2 else 3
  }

  lemma PrintedWide(v: nat)
    requires v < 200
    ensures |PrintNumber(v, 10, 2)| == Wide(v)
  {
    if v < 100 {
      PrintedWidth(v, 10, 2);
    } else {
      PrintedWidth(v / 10, 10, 2);
      assert PrintNumber(v, 10, 2) == PrintNumber(v / 10, 10, 1) + [Digit(v % 10)];
      TwoDigits(v / 10);
    }
  }

  lemma TwoDigits(v: nat)
    requires 10 <= v < 20
    ensures |PrintNumber(v, 10, 1)| == 2
  {
    assert PrintNumber(v, 10, 1) == PrintNumber(v / 10, 10, 0) + [Digit(v % 10)];
  }

  /** The text fits the buffer of 24 characters, and is then exactly 23 long, when none of the five values that are not
      cut to two digits reaches a hundred. */
  lemma TimestampLength(t: Timestamp)
    ensures |TimestampToString(t)| >= 23
    ensures |TimestampToString(t)| == 23 <==>
      BcdToInt(t.month) < 100 && BcdToInt(t.day) < 100 && BcdToInt(t.hours) < 100 && BcdToInt(t.minutes) < 100
      && BcdToInt(t.seconds) < 100
  {
    hide Print, PrintNumber, BcdToInt, Sum, Wide;
    var vs := TimestampNumbers(t);
    PrintLength(PRINT_TIMESTAMP, vs);
    forall i | 0 <= i < 7
      ensures |PrintNumber(vs[i], 10, 2)| == Wide(vs[i])
    {
      PrintedWide(vs[i]);
    }
    var a: seq<nat>, b: seq<nat> := [Wide(vs[0]), Wide(vs[1]), 1, Wide(vs[2])], [1, Wide(vs[3]), 1, Wide(vs[4])];
    var c: seq<nat>, d: seq<nat> := [1, Wide(vs[5]), 1, Wide(vs[6])], [1, 1, 1, 1];
    assert PrintedWidths(PRINT_TIMESTAMP, vs) == a + b + c + d;
    SumFour(Wide(vs[0]), Wide(vs[1]), 1, Wide(vs[2]));
    SumFour(1, Wide(vs[3]), 1, Wide(vs[4]));
    SumFour(1, Wide(vs[5]), 1, Wide(vs[6]));
    SumFour(1, 1, 1, 1);
    SumAppend(a, b);
    SumAppend(a + b, c);
    SumAppend(a + b + c, d);
    WideValues();
  }

  lemma ValidTimestampLength(t: Timestamp)
    requires ValidTimestamp(t)
    ensures |TimestampToString(t)| == 23
  {
    hide TimestampToString;
    TimestampLength(t);
  }

  lemma WideValues()
    ensures forall v: nat :: 2 <= Wide(v) <= 3 && (Wide(v) == 2 <==> v < 100)
  {
  }

  predicate ValidTimestamp(t: Timestamp) {
    ValidBcd(t.seconds) && ValidBcd(t.minutes) && ValidBcd(t.hours) && ValidBcd(t.day) &&
    ValidBcd(t.month) && ValidBcd(t.year) && ValidBcd(t.century)
  }

  /** The text trip keeps exactly the timestamps whose seven fields are packed decimal. */
  lemma TimestampKept(t: Timestamp)
    ensures NormalTimestamp(t, t.flag) == t <==> ValidTimestamp(t)
  {
    hide BcdToInt, Bcd, ValidBcd;
    BcdRoundTrip(t.seconds);
    BcdRoundTrip(t.minutes);
    BcdRoundTrip(t.hours);
    BcdRoundTrip(t.day);
    BcdRoundTrip(t.month);
    BcdRoundTrip(t.year);
    BcdRoundTrip(t.century);
  }

  // ---- bit fields as named booleans ----------------------------------------------------------------

  predicate Bit(v: nat, i: nat) {
    High(v, i) % 2 == 1
  }

  function BitValues(v: nat, n: nat): seq<Json> {
    seq(n, i requires 0 <= i < n => Bool(Bit(v, i)))
  }

  function BitfieldToIr(v: nat, names: seq<string>): Json {
    Obj(Members(names, BitValues(v, |names|)))
  }

  method BuildBitfield(v: nat, names: seq<string>) returns (ir: Json)
    ensures ir == BitfieldToIr(v, names)
  {
    var members: map<string, Json> := map[];
    for i := 0 to |names|
      invariant members == Members(names[..i], BitValues(v, i))
    {
      assert names[..i + 1][..i] == names[..i] && BitValues(v, i + 1)[..i] == BitValues(v, i);
      members := members[names[i] := Bool(Bit(v, i))];
    }
    assert names[..|names|] == names;
    ir := Obj(members);
  }

  /** The integer whose bit `i` is set when the member named names[i] is true. */
  function IrToBitfield(ir: Json, names: seq<string>): (v: nat)
    ensures v < Pow2(|names|)
  {
    if names == [] then 0
    else
      var n := |names| - 1;
      IrToBitfield(ir, names[..n]) + if GetBoolean(Get(ir, names[n])) then Pow2(n) else 0
  }

  /** A shifted one for every true member; the names are few enough for the shift to stay within an int. */
  method ParseBitfield(ir: Json, names: seq<string>) returns (v: nat)
    requires |names| <= 31
    ensures v == IrToBitfield(ir, names)
  {
    v := 0;
    for i := 0 to |names|
      invariant v == IrToBitfield(ir, names[..i])
    {
      assert names[..i + 1][..i] == names[..i];
      if GetBoolean(Get(ir, names[i])) {
        v := v + Pow2(i);
      }
    }
    assert names[..|names|] == names;
  }

  /** As many low bits as there are names survive; the names have to differ, since they key one object. */
  lemma BitfieldRoundTrip(v: nat, names: seq<string>)
    requires Distinct(names)
    ensures IrToBitfield(BitfieldToIr(v, names), names) == Low(v, |names|)
  {
    forall i | 0 <= i < |names|
      ensures Get(BitfieldToIr(v, names), names[i]) == Bool(Bit(v, i))
    {
      MembersGet(names, BitValues(v, |names|), i);
    }
    BitsCollected(v, BitfieldToIr(v, names), names);
  }

  lemma {:induction false} BitsCollected(v: nat, ir: Json, names: seq<string>)
    requires forall i :: 0 <= i < |names| ==> Get(ir, names[i]) == Bool(Bit(v, i))
    ensures IrToBitfield(ir, names) == Low(v, |names|)
    decreases |names|
  {
    if names != [] {
      var n := |names| - 1;
      assert Get(ir, names[n]) == Bool(Bit(v, n));
      BitsCollected(v, ir, names[..n]);
      LowTop(v, n);
    }
  }

  lemma {:induction false} LowTop(v: nat, n: nat)
    ensures Low(v, n + 1) == Low(v, n) + if Bit(v, n) then Pow2(n) else 0
    decreases n
  {
    if n > 0 {
      LowTop(v / 2, n - 1);
    } else {
      assert Low(v / 2, 0) == 0 && High(v, 0) == v;
    }
  }

  // ---- numbers with readable names ------------------------------------------------------------------

  /** The name of the last matching key, or the default. */
  function ReadableName(value: int, keys: seq<int>, names: seq<string>, default_: string): string
    requires |keys| == |names|
  {
    if keys == [] then default_
    else
      var n := |keys| - 1;
      if keys[n] == value then names[n] else ReadableName(value, keys[..n], names[..n], default_)
  }

  function Pair(value: nat, t: Table): Json {
    Obj(map["value" := Int(value), "name" := Str(ReadableName(value, Keys(t), Values(t), Default(t)))])
  }

  method IntegerToReadablePair(value: nat, t: Table) returns (ir: Json)
    ensures ir == Pair(value, t)
  {
    hide Keys, Values, Default;
    var keys, names := Keys(t), Values(t);
    var members: map<string, Json> := map["value" := Int(value)];
    var name := Default(t);
    for i := 0 to |keys|
      invariant name == ReadableName(value, keys[..i], names[..i], Default(t))
    {
      assert keys[..i + 1][..i] == keys[..i] && names[..i + 1][..i] == names[..i];
      if keys[i] == value {
        name := names[i];
      }
    }
    assert keys[..|keys|] == keys && names[..|names|] == names;
    members := members["name" := Str(name)];
    ir := Obj(members);
  }

  function PairValue(pair: Json): u64 {
    GetUint64(Get(pair, "value"))
  }

  lemma PairRoundTrip(value: u64, t: Table)
    ensures PairValue(Pair(value, t)) == value
  {
    hide ReadableName;
  }

  /** A one-bit field as a boolean and back. */
  function Flag(bit: nat): Json { Bool(bit != 0) }

  function FlagBit(ir: Json): (bit: nat)
    ensures bit <= 1
  {
    if GetBoolean(ir) then 1 else 0
  }

  lemma FlagRoundTrip(bit: nat)
    requires bit < 2
    ensures FlagBit(Flag(bit)) == bit
  {
  }

  lemma FlagsRoundTrip(f: seq<nat>, lo: nat, hi: nat)
    requires hi <= |f| && forall i :: lo <= i < hi ==> f[i] < 2
    ensures forall i :: lo <= i < hi ==> FlagBit(Flag(f[i])) == f[i]
  {
    forall i | lo <= i < hi
      ensures FlagBit(Flag(f[i])) == f[i]
    {
      FlagRoundTrip(f[i]);
    }
  }

  // ---- revisions and severities ------------------------------------------------------------------

  function RevisionToIr(revision: u16): Json {
    Obj(map["major" := Int(revision / 0x100), "minor" := Int(revision % 0x100)])
  }

  /** `minor + (major << 8)`, stored in sixteen bits. */
  function IrToRevision(ir: Json): u16 {
    (GetInt(Get(ir, "minor")) + GetInt(Get(ir, "major")) * 0x100) % 0x1_0000
  }

  lemma RevisionRoundTrip(revision: u16)
    ensures IrToRevision(RevisionToIr(revision)) == revision
  {
  }

  function SeverityToString(severity: u32): string {
    if severity == 0 then "Recoverable"
    else if severity == 1 then "Fatal"
    else if severity == 2 then "Corrected"
    else if severity == 3 then "Informational"
    else "Unknown"
  }

  function SeverityToIr(severity: u32): Json {
    Obj(map["code" := Int(severity), "name" := Str(SeverityToString(severity))])
  }

  // ---- fixed-size text ----------------------------------------------------------------------------

  /** A C string: the bytes up to the first NUL, or all of them if there is none. */
  function CString(s: seq<byte>): (t: string)
    ensures |t| <= |s|
  {
    if s == [] || s[0] == 0 then "" else [s[0] as char] + CString(s[1..])
  }

  /** The string copied into a zeroed buffer of `n` bytes by `strncpy` of at most n - 1, then terminated. */
  function TextBuffer(t: string, n: nat): (s: seq<byte>)
    requires n > 0
    ensures |s| == n
  {
    seq(n, i requires 0 <= i < n => if i < n - 1 && i < |t| then t[i] as int % 0x100 else 0)
  }

  /** A terminated buffer with nothing but zeros after the first NUL. */
  ghost predicate CleanText(s: seq<byte>) {
    |s| > 0 && s[|s| - 1] == 0 && forall i, j :: 0 <= i < j < |s| && s[i] == 0 ==> s[j] == 0
  }

  lemma {:induction false} CStringIndex(s: seq<byte>)
    ensures forall i :: 0 <= i < |CString(s)| ==> s[i] != 0 && CString(s)[i] == s[i] as char
    ensures |CString(s)| == |s| || s[|CString(s)|] == 0
  {
    if s != [] && s[0] != 0 {
      CStringIndex(s[1..]);
    }
  }

  /** Reading the text at the front of some memory and storing it keeps exactly the clean buffers. */
  lemma TextKept(s: seq<byte>, n: nat)
    requires 0 < n <= |s|
    ensures TextBuffer(CString(s), n) == s[..n] <==> CleanText(s[..n])
  {
    hide CString;
    CStringIndex(s);
    if CleanText(s[..n]) {
      CleanTextKept(CString(s), s, n);
    }
    CStringChars(s);
    TextBufferClean(CString(s), n);
  }

  lemma CleanTextKept(t: string, s: seq<byte>, n: nat)
    requires 0 < n <= |s| && CleanText(s[..n]) && |t| <= |s|
    requires forall i :: 0 <= i < |t| ==> s[i] != 0 && t[i] == s[i] as char
    requires |t| == |s| || s[|t|] == 0
    ensures TextBuffer(t, n) == s[..n]
  {
    var b := s[..n];
    assert b[n - 1] == s[n - 1] == 0;
    assert |t| < n && b[|t|] == 0;
    forall i | 0 <= i < n
      ensures TextBuffer(t, n)[i] == b[i]
    {
      if i > |t| {
        assert b[|t|] == 0 && b[i] == 0;
      }
    }
  }

  lemma CStringChars(s: seq<byte>)
    ensures forall i :: 0 <= i < |CString(s)| ==> 0 < CString(s)[i] as int < 0x100
  {
    CStringIndex(s);
  }

  lemma TextBufferClean(t: string, n: nat)
    requires 0 < n && forall i :: 0 <= i < |t| ==> 0 < t[i] as int < 0x100
    ensures CleanText(TextBuffer(t, n))
  {
  }
}
