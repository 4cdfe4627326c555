/** The Base64 encoder and decoder, RFC 4648 section 4. */
module Base64 {
  import opened Bytes
  import opened Options

  // ---- tables -----------------------------------------------------------------------------------

  const UPPER := "ABCDEFGHIJKLMNOPQRSTUVWXYZ"
  const LOWER := "abcdefghijklmnopqrstuvwxyz"
  const OTHERS := "0123456789+/"

  const ENCODE_TABLE: string := UPPER + LOWER + OTHERS

  /** What the decode table holds for a character outside the alphabet. */
  const INVALID: byte := 0x80

  const BAD_ROW: seq<byte> := [0x80, 0x80, 0x80, 0x80, 0x80, 0x80, 0x80, 0x80, 0x80, 0x80, 0x80, 0x80, 0x80, 0x80,
    0x80, 0x80]

  /** Row `r` of the decode table: the entries of characters 16 * r to 16 * r + 15. */
  function DecodeRow(r: nat): (row: seq<byte>)
    ensures |row| == 16
  {
    match r
    case 2 => [0x80, 0x80, 0x80, 0x80, 0x80, 0x80, 0x80, 0x80, 0x80, 0x80, 0x80, 0x3e, 0x80, 0x80, 0x80, 0x3f]
    case 3 => [0x34, 0x35, 0x36, 0x37, 0x38, 0x39, 0x3a, 0x3b, 0x3c, 0x3d, 0x80, 0x80, 0x80, 0x00, 0x80, 0x80]
    case 4 => [0x80, 0x00, 0x01, 0x02, 0x03, 0x04, 0x05, 0x06, 0x07, 0x08, 0x09, 0x0a, 0x0b, 0x0c, 0x0d, 0x0e]
    case 5 => [0x0f, 0x10, 0x11, 0x12, 0x13, 0x14, 0x15, 0x16, 0x17, 0x18, 0x19, 0x80, 0x80, 0x80, 0x80, 0x80]
    case 6 => [0x80, 0x1a, 0x1b, 0x1c, 0x1d, 0x1e, 0x1f, 0x20, 0x21, 0x22, 0x23, 0x24, 0x25, 0x26, 0x27, 0x28]
    case 7 => [0x29, 0x2a, 0x2b, 0x2c, 0x2d, 0x2e, 0x2f, 0x30, 0x31, 0x32, 0x33, 0x80, 0x80, 0x80, 0x80, 0x80]
    case _ => BAD_ROW
  }

  /** The value of a character code in the alphabet of RFC 4648 section 4, or -1. */
  function Alphabet(u: int): (v: int)
    ensures -1 <= v < 64
  {
    if 65 <= u <= 90 then u - 65            // A-Z
    else if 97 <= u <= 122 then u - 97 + 26 // a-z
    else if 48 <= u <= 57 then u - 48 + 52  // 0-9
    else if u == 43 then 62                 // +
    else if u == 47 then 63                 // /
    else -1
  }

  /** A byte-sized character, the only kind a C string holds. */
  predicate IsByteChar(c: char) { c as int < 0x100 }

  /** A character of the alphabet itself, so not the pad. */
  predicate IsLetter(c: char) {
    IsByteChar(c) && Alphabet(c as int) >= 0
  }

  /** The value of a character: its place in the alphabet, zero for the pad, INVALID for anything else.
      C reduces the character to an unsigned byte first. */
  function Decoded(u: int): (v: byte)
    ensures v < 64 || v == INVALID
  {
    if u == 61 then 0 else if Alphabet(u) >= 0 then Alphabet(u) else INVALID
  }

  function Value(c: char): (v: byte)
    ensures v < 64 || v == INVALID
  {
    Decoded(c as int % 0x100)
  }

  predicate Valid(c: char) {
    Value(c) != INVALID
  }

  ghost predicate AllValid(t: string) {
    forall i :: 0 <= i < |t| ==> Valid(t[i])
  }

  /** The letter of a sextet. */
  function Symbol(v: nat): char
    requires v < 64
  {
    (if v < 26 then 65 + v else if v < 52 then 97 + v - 26 else if v < 62 then 48 + v - 52
     else if v == 62 then 43 else 47) as char
  }

  /** The letter's value is the sextet, and a letter is never the pad. */
  lemma SymbolValue(v: nat)
    requires v < 64
    ensures IsLetter(Symbol(v)) && Symbol(v) != '=' && Value(Symbol(v)) == v
  {
  }

  lemma SymbolOfLetter(c: char)
    requires IsLetter(c)
    ensures Value(c) < 64 && Symbol(Value(c)) == c
  {
  }

  lemma RowsOfDigits(r: nat, k: nat)
    requires 2 <= r < 4 && k < 16
    ensures DecodeRow(r)[k] == Decoded(16 * r + k)
  {
    if r == 2 {}
  }

  lemma RowsOfUpper(r: nat, k: nat)
    requires 4 <= r < 6 && k < 16
    ensures DecodeRow(r)[k] == Decoded(16 * r + k)
  {
    if r == 4 {}
  }

  lemma RowsOfLower(r: nat, k: nat)
    requires 6 <= r < 8 && k < 16
    ensures DecodeRow(r)[k] == Decoded(16 * r + k)
  {
    if r == 6 {}
  }

  lemma OtherRows(r: nat, k: nat)
    requires (r < 2 || 8 <= r < 16) && k < 16
    ensures DecodeRow(r)[k] == Decoded(16 * r + k)
  {
    assert DecodeRow(r) == BAD_ROW;
  }

  /** The decode table at a character holds the character's value. */
  method DecodeLookup(c: char) returns (v: byte)
    ensures v == Value(c)
  {
    var u := c as int % 0x100;
    var r, k := u / 16, u % 16;
    if 2 <= r < 4 {
      RowsOfDigits(r, k);
    } else if 4 <= r < 6 {
      RowsOfUpper(r, k);
    } else if 6 <= r < 8 {
      RowsOfLower(r, k);
    } else {
      OtherRows(r, k);
    }
    v := DecodeRow(r)[k];
  }

  lemma UpperCodes(i: nat)
    requires i < 26
    ensures |UPPER| == |LOWER| == 26
    ensures UPPER[i] as int == 65 + i && LOWER[i] as int == 97 + i
  {
  }

  lemma OtherCodes(i: nat)
    requires i < 12
    ensures |OTHERS| == 12
    ensures OTHERS[i] as int == if i < 10 then 48 + i else if i == 10 then 43 else 47
  {
  }

  /** The encode table at a sextet holds its letter. */
  method EncodeLookup(v: nat) returns (c: char)
    requires v < 64
    ensures c == Symbol(v)
  {
    UpperCodes(0);
    OtherCodes(0);
    if v < 26 {
      UpperCodes(v);
      assert ENCODE_TABLE[v] == UPPER[v];
    } else if v < 52 {
      UpperCodes(v - 26);
      assert ENCODE_TABLE[v] == LOWER[v - 26];
    } else {
      OtherCodes(v - 52);
      assert ENCODE_TABLE[v] == OTHERS[v - 52];
    }
    c := ENCODE_TABLE[v];
  }

  // ---- encoding -------------------------------------------------------------------------------

  /** Four characters for three bytes. */
  function Quantum(a: byte, b: byte, c: byte): (t: string)
    ensures |t| == 4
  {
    [Symbol(a / 4), Symbol(a % 4 * 16 + b / 16), Symbol(b % 16 * 4 + c / 64), Symbol(c % 64)]
  }

  /** The encoding of a byte string: section 4 of RFC 4648. A short last group is filled up with zero bits
      and the missing characters are pads. */
  function Encode(s: seq<byte>): string {
    if |s| >= 3 then Quantum(s[0], s[1], s[2]) + Encode(s[3..])
    else if |s| == 2 then Quantum(s[0], s[1], 0)[..3] + "="
    else if |s| == 1 then Quantum(s[0], 0, 0)[..2] + "=="
    else []
  }

  lemma {:induction false} EncodeLength(s: seq<byte>)
    ensures |Encode(s)| == 4 * ((|s| + 2) / 3)
  {
    if |s| >= 3 {
      EncodeLength(s[3..]);
      assert (|s| + 2) / 3 == 1 + (|s[3..]| + 2) / 3;
    }
  }

  /** The encoded length has to be a 32-bit signed integer. */
  predicate Encodable(n: nat) {
    4 * ((n + 2) / 3) < 0x8000_0000
  }

  /** Writes through the output cursor. */
  method Put<T>(out: array<T>, at: nat, items: seq<T>) returns (next: nat)
    requires at + |items| <= out.Length
    modifies out
    ensures next == at + |items|
    ensures out[..next] == old(out[..at]) + items
  {
    next := at;
    for i := 0 to |items|
      invariant next == at + i
      invariant out[..next] == old(out[..at]) + items[..i]
    {
      out[next] := items[i];
      next := next + 1;
    }
  }

  /** Whole groups first, then the padded tail, through a cursor into a buffer of the exact length. */
  method Base64Encode(src: seq<byte>) returns (r: Option<string>)
    ensures r == if Encodable(|src|) then Some(Encode(src)) else None
  {
    hide Symbol, Encode;
    EncodeNothing();
    EncodeLength(src);
    ghost var groups, k := (|src| + 2) / 3, 0;
    assert 3 * groups <= |src| + 2 < 3 * groups + 3;
    var outLen := 4 * ((|src| + 2) / 3);
    if outLen >= 0x8000_0000 {
      return None;
    }
    var out := new char[outLen];
    var inPos, outPos := 0, 0;
    while |src| - inPos >= 3
      invariant inPos == 3 * k <= |src| && outPos == 4 * k
      invariant out[..outPos] + Encode(src[inPos..]) == Encode(src)
    {
      var a, b, c := src[inPos], src[inPos + 1], src[inPos + 2];
      ghost var done, rest := out[..outPos], src[inPos + 3..];
      assert src[inPos..] == [a, b, c] + rest;
      EncodeStep(a, b, c, rest);
      Regroup(done, Quantum(a, b, c), Encode(rest));
      var c0 := EncodeLookup(a / 4);
      var c1 := EncodeLookup(a % 4 * 16 + b / 16);
      var c2 := EncodeLookup(b % 16 * 4 + c / 64);
      var c3 := EncodeLookup(c % 64);
      outPos := Put(out, outPos, [c0, c1, c2, c3]);
      assert out[..outPos] == done + Quantum(a, b, c);
      inPos := inPos + 3;
      k := k + 1;
    }
    outPos := EncodeTail(src[inPos..], out, outPos);
    assert outPos == out.Length;
    assert out[..] == out[..outPos];
    r := Some(out[..]);
  }

  /** The last one or two bytes, if any, as four characters. */
  method EncodeTail(rest: seq<byte>, out: array<char>, outPos: nat) returns (next: nat)
    requires |rest| < 3 && outPos + |Encode(rest)| <= out.Length
    modifies out
    ensures next == outPos + |Encode(rest)| && out[..next] == old(out[..outPos]) + Encode(rest)
  {
    next := outPos;
    if |rest| != 0 {
      var c0 := EncodeLookup(rest[0] / 4);
      if |rest| == 1 {
        var c1 := EncodeLookup(rest[0] % 4 * 16);
        next := Put(out, outPos, [c0, c1, '=', '=']);
        assert Encode(rest) == [c0, c1, '=', '='];
      } else {
        var c1 := EncodeLookup(rest[0] % 4 * 16 + rest[1] / 16);
        var c2 := EncodeLookup(rest[1] % 16 * 4);
        next := Put(out, outPos, [c0, c1, c2, '=']);
        assert Encode(rest) == [c0, c1, c2, '='];
      }
    }
  }

  lemma EncodeNothing()
    ensures Encode([]) == []
  {
  }

  lemma EncodeStep(a: byte, b: byte, c: byte, rest: seq<byte>)
    ensures Encode([a, b, c] + rest) == Quantum(a, b, c) + Encode(rest)
  {
    assert ([a, b, c] + rest)[3..] == rest;
  }

  lemma Regroup<T>(a: seq<T>, b: seq<T>, c: seq<T>)
    ensures (a + b) + c == a + (b + c)
  {
  }

  // ---- decoding ---------------------------------------------------------------------------------

  /** How many pad characters `t` holds. */
  function Pads(t: string): (n: nat)
    ensures n <= |t|
    ensures n == 0 <==> '=' !in t
  {
    if t == [] then 0
    else
      assert t == t[..|t| - 1] + [t[|t| - 1]];
      Pads(t[..|t| - 1]) + if t[|t| - 1] == '=' then 1 else 0
  }

  /** Three bytes from four table entries, each stored into an unsigned byte. */
  function Triple(b: seq<byte>): (s: seq<byte>)
    requires |b| == 4 && forall i :: 0 <= i < 4 ==> b[i] < 64
    ensures |s| == 3
  {
    [b[0] * 4 + b[1] / 16, b[1] % 16 * 16 + b[2] / 4, b[2] % 4 * 64 + b[3]]
  }

  function Block(t: string): (b: seq<byte>)
    requires |t| == 4 && AllValid(t)
    ensures |b| == 4 && forall i :: 0 <= i < 4 ==> b[i] < 64
  {
    [Value(t[0]), Value(t[1]), Value(t[2]), Value(t[3])]
  }

  /** Block by block: a block with pads is the last one looked at, and an incomplete last block is checked
      and dropped. */
  ghost function Decode(t: string): (r: Option<seq<byte>>)
    ensures r.Some? ==> |r.value| <= |t| / 4 * 3
  {
    if |t| < 4 then
      if AllValid(t) then Some([]) else None
    else if !AllValid(t[..4]) then None
    else
      var triple, pads := Triple(Block(t[..4])), Pads(t[..4]);
      if pads == 0 then
        var rest := Decode(t[4..]);
        if rest.Some? then Some(triple + rest.value) else None
      else if pads <= 2 then Some(triple[..3 - pads])
      else None
  }

  /** `done` in front of a decoded remainder. */
  ghost function Prepend(done: seq<byte>, r: Option<seq<byte>>): Option<seq<byte>> {
    if r.Some? then Some(done + r.value) else None
  }

  /** A full block as three bytes at the output cursor, less one byte for each pad. */
  method FlushBlock(block: array<byte>, out: array<byte>, pos: nat, padCount: nat, ghost cur: string)
    returns (ok: bool, next: nat)
    requires block.Length == |cur| == 4 && block != out && pos + 3 <= out.Length
    requires Loaded(block[..], cur)
    modifies out
    ensures ok <==> padCount <= 2
    ensures ok ==> next == pos + 3 - padCount && out[..next] == old(out[..pos]) + Triple(block[..])[..3 - padCount]
  {
    ghost var done, triple := out[..pos], Triple(block[..]);
    next := Put(out, pos, [block[0] * 4 + block[1] / 16, block[1] % 16 * 16 + block[2] / 4,
                           block[2] % 4 * 64 + block[3]]);
    assert out[..next] == done + triple;
    ok := true;
    if padCount > 0 {
      if padCount == 1 {
        next := next - 1;
      } else if padCount == 2 {
        next := next - 2;
      } else {
        ok := false;
      }
    }
  }

  /** One character at a time into a block of four; a full block is turned into three bytes. */
  method Base64Decode(src: string) returns (r: Option<seq<byte>>)
    ensures r == Decode(src)
  {
    hide Value, Decode, Triple, Pads, Loaded;
    var out := new byte[|src| / 4 * 3];
    var block: array<byte> := new byte[4];
    var pos, padCount, blockIndex, srcIndex := 0, 0, 0, 0;
    // `todo` is what the current block starts, `cur` the part of it in the block, `k` the number of blocks before it
    ghost var todo, cur, k := src, "", 0;
    PrependNothing(Decode(src));
    NothingLoaded(block[..]);
    while srcIndex < |src|
      invariant 0 <= blockIndex < 4 && srcIndex == 4 * k + blockIndex <= |src| && pos == 3 * k
      invariant todo == src[4 * k..] && |cur| == blockIndex && cur <= todo && padCount == Pads(cur)
      invariant Loaded(block[..], cur)
      invariant Prepend(out[..pos], Decode(todo)) == Decode(src)
    {
      var c := src[srcIndex];
      assert c == todo[blockIndex];
      var tmp := DecodeLookup(c);
      if tmp == INVALID {
        InvalidBlock(todo, blockIndex);
        return None;
      }
      LoadedStep(block[..], cur, c);
      PadsStep(cur, c);
      assert cur + [c] <= todo;
      cur := cur + [c];
      if c == '=' {
        padCount := padCount + 1;
      }
      ghost var loaded := block[..][blockIndex := tmp];
      block[blockIndex] := tmp;
      assert block[..] == loaded;
      blockIndex := blockIndex + 1;
      srcIndex := srcIndex + 1;
      if blockIndex == 4 {
        DecodeStep(todo, cur, block[..]);
        FullBlock(block[..], cur);
        ghost var triple := Triple(block[..]);
        assert triple[..3] == triple;
        PrependMore(out[..pos], triple, Decode(todo[4..]));
        var ok;
        ok, pos := FlushBlock(block, out, pos, padCount, cur);
        if !ok {
          return None;
        }
        if padCount > 0 {
          return Some(out[..pos]);
        }
        assert todo[4..] == src[4 * (k + 1)..];
        todo, cur, k := todo[4..], "", k + 1;
        NothingLoaded(block[..]);
        blockIndex := 0;
      }
    }
    assert cur == todo;
    DecodeLeftover(todo, block[..]);
    assert out[..pos] + [] == out[..pos];
    r := Some(out[..pos]);
  }

  /** The first entries of the block are the values of the characters `cur`. */
  ghost predicate Loaded(block: seq<byte>, cur: string) {
    |cur| <= |block| && forall j :: 0 <= j < |cur| ==> Valid(cur[j]) && block[j] == Value(cur[j]) < 64
  }

  lemma NothingLoaded(block: seq<byte>)
    ensures Loaded(block, "") && Pads("") == 0
  {
  }

  lemma LoadedStep(block: seq<byte>, cur: string, c: char)
    requires Loaded(block, cur) && |cur| < |block| && Value(c) != INVALID
    ensures Loaded(block[|cur| := Value(c)], cur + [c])
  {
  }

  lemma PadsStep(t: string, c: char)
    ensures Pads(t + [c]) == Pads(t) + if c == '=' then 1 else 0
  {
    assert (t + [c])[..|t|] == t;
  }

  lemma FullBlock(block: seq<byte>, cur: string)
    requires Loaded(block, cur) && |block| == |cur|
    ensures forall j :: 0 <= j < |block| ==> block[j] < 64
  {
  }

  /** A full block of valid characters: what decoding does with it, by the number of its pads. */
  lemma DecodeStep(t: string, cur: string, b: seq<byte>)
    requires |cur| == |b| == 4 && cur <= t
    requires Loaded(b, cur)
    ensures Pads(cur) == 0 ==> Decode(t) == Prepend(Triple(b), Decode(t[4..]))
    ensures 0 < Pads(cur) <= 2 ==> Decode(t) == Some(Triple(b)[..3 - Pads(cur)])
    ensures Pads(cur) > 2 ==> Decode(t) == None
  {
    assert t[..4] == cur && b == Block(cur);
  }

  lemma DecodeLeftover(t: string, block: seq<byte>)
    requires |t| < 4 && Loaded(block, t)
    ensures Decode(t) == Some([])
  {
  }

  lemma InvalidBlock(t: string, i: nat)
    requires i < |t| && i < 4 && Value(t[i]) == INVALID
    ensures Decode(t) == None
  {
    if |t| >= 4 {
      assert t[..4][i] == t[i];
    }
  }

  lemma PrependNothing(r: Option<seq<byte>>)
    ensures Prepend([], r) == r
  {
    if r.Some? {
      assert [] + r.value == r.value;
    }
  }

  lemma PrependMore(a: seq<byte>, b: seq<byte>, r: Option<seq<byte>>)
    ensures Prepend(a + b, r) == Prepend(a, Prepend(b, r))
  {
    if r.Some? {
      assert (a + b) + r.value == a + (b + r.value);
    }
  }

  // ---- what the codec is for ----------------------------------------------------------------------

  /** Decoding what was encoded gives it back, whatever its length. */
  lemma {:induction false} DecodeEncode(s: seq<byte>)
    ensures Decode(Encode(s)) == Some(s)
    decreases |s|
  {
    hide Quantum, Encode, Decode;
    if s == [] {
      EncodeNothing();
      NothingLoaded([]);
      DecodeLeftover("", []);
    } else {
      var n, g := EncodeHead(s);
      GroupRoundTrip(g[0], g[1], g[2], 3 - n, Encode(s[n..]));
      assert [g[0], g[1], g[2]] == g;
      if n == 3 {
        DecodeEncode(s[3..]);
        assert s == g + s[3..];
      } else {
        assert s == g[..n];
      }
    }
  }

  /** The first group: `n` bytes of `s`, filled up with zero bytes to the three bytes `g`. */
  lemma EncodeHead(s: seq<byte>) returns (n: nat, g: seq<byte>)
    requires s != []
    ensures n == (if |s| < 3 then |s| else 3) && |g| == 3 && g[..n] == s[..n]
    ensures forall i :: n <= i < 3 ==> g[i] == 0
    ensures Encode(s) == Quantum(g[0], g[1], g[2])[..4 - (3 - n)] + "=="[..3 - n] + Encode(s[n..])
  {
    hide Quantum;
    n := if |s| < 3 then |s| else 3;
    g := s[..n] + Zeros(3 - n);
    var q := Quantum(g[0], g[1], g[2]);
    if n == 3 {
      assert q[..4] + "=="[..0] == q;
    } else {
      assert "=="[..1] == "=" && "=="[..2] == "==";
      assert Encode(s[n..]) == [];
    }
  }

  /** One group of characters, its last `pads` characters replaced by pads, in front of more text. */
  lemma GroupRoundTrip(a: byte, b: byte, c: byte, pads: nat, more: string)
    requires pads == 0 || (pads == 1 && c == 0) || (pads == 2 && b == c == 0)
    ensures var group := Quantum(a, b, c)[..4 - pads] + "=="[..pads];
      Decode(group + more) == if pads == 0 then Prepend([a, b, c], Decode(more)) else Some([a, b, c][..3 - pads])
  {
    hide Value, Symbol, Decode, Pads, Triple, Quantum;
    var group := Quantum(a, b, c)[..4 - pads] + "=="[..pads];
    var s := [a / 4, a % 4 * 16 + b / 16, b % 16 * 4 + c / 64, c % 64];
    GroupLoaded(a, b, c, pads);
    SextetsTriple(a, b, c);
    GroupPads(group, pads);
    DecodeStep(group + more, group, s);
    assert (group + more)[4..] == more;
  }

  lemma GroupLoaded(a: byte, b: byte, c: byte, pads: nat)
    requires pads == 0 || (pads == 1 && c == 0) || (pads == 2 && b == c == 0)
    ensures var group := Quantum(a, b, c)[..4 - pads] + "=="[..pads];
      && |group| == 4 && Loaded([a / 4, a % 4 * 16 + b / 16, b % 16 * 4 + c / 64, c % 64], group)
      && forall i :: 0 <= i < 4 ==> (group[i] == '=' <==> 4 - pads <= i)
  {
    hide Value, Symbol;
    var s := [a / 4, a % 4 * 16 + b / 16, b % 16 * 4 + c / 64, c % 64];
    PadValue();
    SymbolValue(s[0]);
    SymbolValue(s[1]);
    SymbolValue(s[2]);
    SymbolValue(s[3]);
  }

  lemma SextetsTriple(a: byte, b: byte, c: byte)
    ensures Triple([a / 4, a % 4 * 16 + b / 16, b % 16 * 4 + c / 64, c % 64]) == [a, b, c]
  {
  }

  lemma PadValue()
    ensures Value('=') == 0 && Valid('=')
  {
  }

  lemma GroupPads(group: string, pads: nat)
    requires |group| == 4 && pads <= 2 && forall i :: 0 <= i < 4 ==> (group[i] == '=' <==> 4 - pads <= i)
    ensures Pads(group) == pads
  {
    PadsStep(group[..3], group[3]);
    PadsStep(group[..2], group[2]);
    assert group == group[..3] + [group[3]] && group[..3] == group[..2] + [group[2]];
    assert '=' !in group[..2];
  }

  /** Block `k` is complete and holds a pad. */
  ghost predicate Padded(t: string, k: nat) {
    4 * k + 4 <= |t| && '=' in t[4 * k..4 * k + 4]
  }

  /** How many complete blocks come before the first one that holds a pad, if any. */
  ghost function PlainBlocks(t: string): (n: nat)
    ensures 4 * n <= |t| && forall k :: 0 <= k < n ==> !Padded(t, k)
    ensures Padded(t, n) || |t| < 4 * n + 4
  {
    if |t| < 4 || Padded(t, 0) then 0
    else
      PaddedShift(t);
      PlainBlocks(t[4..]) + 1
  }

  lemma PaddedShift(t: string)
    requires |t| >= 4
    ensures forall k :: 0 < k ==> (Padded(t, k) <==> Padded(t[4..], k - 1))
  {
    forall k | 0 < k && 4 * k + 4 <= |t|
      ensures t[4 * k..4 * k + 4] == t[4..][4 * (k - 1)..4 * (k - 1) + 4]
    {
    }
  }

  /** How far the decoder looks: to the end of the first padded block, or to the end of the text. */
  ghost function Examined(t: string): (n: nat)
    ensures n <= |t|
  {
    var n := PlainBlocks(t);
    if Padded(t, n) then 4 * n + 4 else |t|
  }

  /** How many pads the first padded block has. */
  ghost function FinalPads(t: string): nat {
    var n := PlainBlocks(t);
    if Padded(t, n) then Pads(t[4 * n..4 * n + 4]) else 0
  }

  /** Decoding succeeds exactly when everything examined is in the table and the padded block, if there is one,
      has at most two pads; the result has three bytes for each block examined less one for each pad. */
  lemma {:induction false} DecodeOutcome(t: string)
    ensures Decode(t).Some? <==> AllValid(t[..Examined(t)]) && FinalPads(t) <= 2
    ensures Decode(t).Some? ==> |Decode(t).value| == Examined(t) / 4 * 3 - FinalPads(t)
    decreases |t|
  {
    hide Value, Triple, Block, Valid, AllValid, PlainBlocks, Examined, FinalPads;
    if |t| < 4 || Padded(t, 0) {
      LastExamined(t);
    } else {
      ExaminedShift(t);
      DecodeOutcome(t[4..]);
    }
  }

  lemma LastExamined(t: string)
    requires |t| < 4 || Padded(t, 0)
    ensures |t| < 4 ==> Examined(t) == |t| && t[..Examined(t)] == t && FinalPads(t) == 0
    ensures |t| >= 4 ==> Examined(t) == 4 && FinalPads(t) == Pads(t[..4]) > 0
  {
    if |t| >= 4 {
      assert t[0..4] == t[..4];
    }
  }

  /** A plain first block adds four examined characters and changes nothing else. */
  lemma ExaminedShift(t: string)
    requires |t| >= 4 && !Padded(t, 0)
    ensures Pads(t[..4]) == 0
    ensures Examined(t) == 4 + Examined(t[4..]) && FinalPads(t) == FinalPads(t[4..])
    ensures AllValid(t[..Examined(t)]) <==> AllValid(t[..4]) && AllValid(t[4..][..Examined(t[4..])])
  {
    hide Value, Valid, Pads;
    var t', n := t[4..], PlainBlocks(t[4..]);
    assert t[0..4] == t[..4];
    PaddedShift(t);
    assert PlainBlocks(t) == n + 1;
    if Padded(t, n + 1) {
      assert t'[4 * n..4 * n + 4] == t[4 * (n + 1)..4 * (n + 1) + 4];
    }
    AllValidAppend(t[..4], t'[..Examined(t')]);
    assert t[..Examined(t)] == t[..4] + t'[..Examined(t')];
  }

  lemma AllValidAppend(a: string, b: string)
    ensures AllValid(a + b) <==> AllValid(a) && AllValid(b)
  {
    hide Valid;
    if AllValid(a + b) {
      assert forall i :: 0 <= i < |a| ==> a[i] == (a + b)[i];
      assert forall i :: 0 <= i < |b| ==> b[i] == (a + b)[|a| + i];
    }
  }

  /** Text that an encoder could have produced: whole blocks of letters, the last one possibly ending in one or
      two pads after a letter whose unused low bits are zero (RFC 4648 section 3.5). */
  ghost predicate Canonical(t: string) {
    var n := |t|;
    n % 4 == 0 && (n > 0 ==>
      && (forall i :: 0 <= i < n - 2 ==> IsLetter(t[i]))
      && ((IsLetter(t[n - 2]) && IsLetter(t[n - 1]))
          || (IsLetter(t[n - 2]) && t[n - 1] == '=' && Value(t[n - 2]) % 4 == 0)
          || (t[n - 2] == '=' && t[n - 1] == '=' && Value(t[n - 3]) % 16 == 0)))
  }

  /** Re-encoding gives the text back exactly when the text is canonical. */
  lemma EncodeDecode(t: string)
    ensures (Decode(t).Some? && Encode(Decode(t).value) == t) <==> Canonical(t)
  {
    if Decode(t).Some? && Encode(Decode(t).value) == t {
      EncodeCanonical(Decode(t).value);
    }
    if Canonical(t) {
      CanonicalRoundTrip(t);
    }
  }

  lemma {:induction false} EncodeCanonical(s: seq<byte>)
    ensures Canonical(Encode(s))
    decreases |s|
  {
    hide Quantum, Encode, IsLetter, Value;
    if s == [] {
      EncodeNothing();
    } else {
      var n, g := EncodeHead(s);
      var q := Quantum(g[0], g[1], g[2]);
      EncodeLength(s);
      QuantumLetters(g[0], g[1], g[2]);
      if n == 3 {
        EncodeCanonical(s[3..]);
        assert Encode(s) == q + Encode(s[3..]);
      } else {
        EncodeLength(s[n..]);
        assert Encode(s) == q[..n + 1] + "=="[..3 - n];
      }
    }
  }

  lemma QuantumLetters(a: byte, b: byte, c: byte)
    ensures var q := Quantum(a, b, c);
      && |q| == 4 && (forall i :: 0 <= i < 4 ==> IsLetter(q[i]))
      && (c == 0 ==> Value(q[2]) % 4 == 0) && (b == 0 ==> Value(q[1]) % 16 == 0)
  {
    hide Symbol, IsLetter, Value;
    SymbolValue(a / 4);
    SymbolValue(a % 4 * 16 + b / 16);
    SymbolValue(b % 16 * 4 + c / 64);
    SymbolValue(c % 64);
  }

  lemma {:induction false} CanonicalRoundTrip(t: string)
    requires Canonical(t)
    ensures Decode(t).Some? && Encode(Decode(t).value) == t
    decreases |t|
  {
    if |t| > 4 {
      assert Canonical(t[4..]);
      CanonicalRoundTrip(t[4..]);
      BlockRoundTrip(t, 0);
    } else if |t| == 4 {
      BlockRoundTrip(t, if t[3] != '=' then 0 else if t[2] != '=' then 1 else 2);
    }
  }

  /** A first block of letters and then pads, whose unused bits are zero, is what its bytes encode to. */
  lemma BlockRoundTrip(t: string, pads: nat)
    requires |t| >= 4 && pads <= 2
    requires forall i :: 0 <= i < 4 ==> if i < 4 - pads then IsLetter(t[i]) else t[i] == '='
    requires pads == 1 ==> Value(t[2]) % 4 == 0
    requires pads == 2 ==> Value(t[1]) % 16 == 0
    requires pads == 0 ==> Decode(t[4..]).Some? && Encode(Decode(t[4..]).value) == t[4..]
    requires pads > 0 ==> |t| == 4
    ensures Decode(t).Some? && Encode(Decode(t).value) == t
  {
    hide Value, Symbol, IsLetter, Decode, Pads, Encode, Quantum, Triple;
    var cur := t[..4];
    PadValue();
    forall i | 0 <= i < 4
      ensures Valid(cur[i]) && Value(cur[i]) < 64 && (cur[i] == '=' <==> 4 - pads <= i)
      ensures i < 4 - pads ==> Symbol(Value(cur[i])) == cur[i]
    {
      if i < 4 - pads {
        SymbolOfLetter(cur[i]);
        LetterIsNotPad(cur[i]);
      }
    }
    var s := [Value(t[0]), Value(t[1]), Value(t[2]), Value(t[3])];
    GroupPads(cur, pads);
    assert Loaded(s, cur);
    DecodeStep(t, cur, s);
    PackedGroup(s, cur, pads);
    var b := Triple(s);
    if pads == 0 {
      var rest := Decode(t[4..]).value;
      assert b + rest == [b[0], b[1], b[2]] + rest;
      EncodeStep(b[0], b[1], b[2], rest);
      assert t == cur + t[4..];
    } else {
      assert t == cur;
    }
  }

  /** The bytes of a block encode to the block. */
  lemma PackedGroup(s: seq<byte>, cur: string, pads: nat)
    requires |s| == |cur| == 4 && pads <= 2
    requires forall i :: 0 <= i < 4 ==>
      s[i] < 64 && if i < 4 - pads then Symbol(s[i]) == cur[i] else s[i] == 0 && cur[i] == '='
    requires pads == 1 ==> s[2] % 4 == 0
    requires pads == 2 ==> s[1] % 16 == 0
    ensures var b := Triple(s); if pads == 0 then Quantum(b[0], b[1], b[2]) == cur else Encode(b[..3 - pads]) == cur
  {
    hide Symbol, Triple;
    var b := Triple(s);
    TripleSextets(s);
    assert Quantum(b[0], b[1], b[2]) == [Symbol(s[0]), Symbol(s[1]), Symbol(s[2]), Symbol(s[3])];
  }

  lemma LetterIsNotPad(c: char)
    requires IsLetter(c)
    ensures c != '='
  {
  }

  /** Cutting three bytes into sextets undoes packing four sextets into three bytes. */
  lemma TripleSextets(s: seq<byte>)
    requires |s| == 4 && forall i :: 0 <= i < 4 ==> s[i] < 64
    ensures var b := Triple(s);
      && |b| == 3 && b[0] / 4 == s[0] && b[0] % 4 * 16 + b[1] / 16 == s[1]
      && b[1] % 16 * 4 + b[2] / 64 == s[2] && b[2] % 64 == s[3]
      && (s[2] % 4 == 0 && s[3] == 0 ==> b[2] == 0) && (s[1] % 16 == 0 && s[2] == s[3] == 0 ==> b[1] == b[2] == 0)
  {
  }
}
