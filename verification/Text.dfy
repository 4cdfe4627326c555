/** The formatted printing and scanning that GUIDs and timestamps go through. */
module Text {
  import opened Bytes

  /** One item of a format: the number of an argument, in a base and with the width the directive gives (printing
      pads to it with zeros, scanning reads at most so many digits; zero means no width), or a character. */
  datatype Item = Number(arg: nat, base: nat, width: nat) | Literal(c: char)

  /** Numbers are decimal or hexadecimal. */
  predicate ValidBase(base: nat) { base == 10 || base == 16 }

  function Times(v: nat, base: nat): nat { if base == 10 then v * 10 else v * 16 }

  function Over(v: nat, base: nat): nat { if base == 10 then v / 10 else v / 16 }

  function Last(v: nat, base: nat): (d: nat)
    ensures d < 16 && (base == 10 ==> d < 10)
    ensures v == Times(Over(v, base), base) + d
  {
    if base == 10 then v % 10 else v % 16
  }

  function Digit(d: nat): char
    requires d < 16
  {
    if d < 10 then (d + 48) as char else (d - 10 + 97) as char
  }

  /** The value of a digit in any base up to 16, upper or lower case, or -1. */
  function DigitValue(c: char): int {
    if 48 <= c as int <= 57 then c as int - 48
    else if 97 <= c as int <= 102 then c as int - 97 + 10
    else if 65 <= c as int <= 70 then c as int - 65 + 10
    else -1
  }

  predicate IsDigit(c: char, base: nat) {
    0 <= DigitValue(c) < base
  }

  // ---- numbers ----------------------------------------------------------------------------------

  function PrintNumber(v: nat, base: nat, width: nat): (s: string)
    requires ValidBase(base)
    ensures |s| >= 1 && |s| >= width
    decreases v, width
  {
    (if v < base && width <= 1 then "" else PrintNumber(Over(v, base), base, if width == 0 then 0 else width - 1))
    + [Digit(Last(v, base))]
  }

  /** The number a run of digits denotes. */
  function NumberOf(s: string, base: nat): nat {
    if s == "" then 0
    else
      var d := DigitValue(s[|s| - 1]);
      Times(NumberOf(s[..|s| - 1], base), base) + if d < 0 then 0 else d
  }

  /** How many characters a numeric directive takes: as many digits as there are, up to its width. */
  function DigitRun(s: string, base: nat, width: nat): (n: nat)
    ensures n <= |s| && (width > 0 ==> n <= width)
    ensures forall i :: 0 <= i < n ==> IsDigit(s[i], base)
    ensures n == |s| || n == width > 0 || !IsDigit(s[n], base)
  {
    if s == "" || !IsDigit(s[0], base) then 0
    else if width == 1 then 1
    else 1 + DigitRun(s[1..], base, if width == 0 then 0 else width - 1)
  }

  lemma {:induction false} PrintNumberDigits(v: nat, base: nat, width: nat)
    requires ValidBase(base)
    ensures forall i :: 0 <= i < |PrintNumber(v, base, width)| ==> IsDigit(PrintNumber(v, base, width)[i], base)
    ensures NumberOf(PrintNumber(v, base, width), base) == v
    decreases v, width
  {
    hide DigitValue, Digit;
    var s := PrintNumber(v, base, width);
    DigitOfDigit(Last(v, base));
    if !(v < base && width <= 1) {
      PrintNumberDigits(Over(v, base), base, if width == 0 then 0 else width - 1);
      assert s[..|s| - 1] == PrintNumber(Over(v, base), base, if width == 0 then 0 else width - 1);
    }
  }

  lemma DigitOfDigit(d: nat)
    requires d < 16
    ensures DigitValue(Digit(d)) == d
  {
  }

  /** 16 to the power `w`, or 10 to it: how many values fit `w` digits. */
  function Capacity(base: nat, w: nat): (n: nat)
    requires ValidBase(base)
    ensures n > 0
  {
    if w == 0 then 1 else Times(Capacity(base, w - 1), base)
  }

  /** A value that fits the width is printed in exactly that many digits. */
  lemma {:induction false} PrintedWidth(v: nat, base: nat, width: nat)
    requires ValidBase(base) && width > 0 && v < Capacity(base, width)
    ensures |PrintNumber(v, base, width)| == width
    decreases width
  {
    if width > 1 {
      assert Over(v, base) < Capacity(base, width - 1);
      PrintedWidth(Over(v, base), base, width - 1);
    }
  }

  // ---- formats ----------------------------------------------------------------------------------

  /** Every number of the format is in a base we know and names one of `n` arguments. */
  ghost predicate ValidFormat(f: seq<Item>, n: nat) {
    forall i :: 0 <= i < |f| && f[i].Number? ==> ValidBase(f[i].base) && f[i].arg < n
  }

  function Print(f: seq<Item>, vs: seq<nat>): string
    requires ValidFormat(f, |vs|)
  {
    if f == [] then ""
    else (if f[0].Literal? then [f[0].c] else PrintNumber(vs[f[0].arg], f[0].base, f[0].width)) + Print(f[1..], vs)
  }

  function PrintedWidths(f: seq<Item>, vs: seq<nat>): (ws: seq<nat>)
    requires ValidFormat(f, |vs|)
    ensures |ws| == |f|
  {
    seq(|f|, i requires 0 <= i < |f| => if f[i].Literal? then 1 else |PrintNumber(vs[f[i].arg], f[i].base, f[i].width)|)
  }

  lemma {:induction false} PrintLength(f: seq<Item>, vs: seq<nat>)
    requires ValidFormat(f, |vs|)
    ensures |Print(f, vs)| == Sum(PrintedWidths(f, vs))
    decreases |f|
  {
    hide PrintNumber;
    if f != [] {
      PrintLength(f[1..], vs);
      assert PrintedWidths(f, vs)[1..] == PrintedWidths(f[1..], vs);
    }
  }

  /** Scanning stores each number through its argument and stops at the first item that does not match, leaving
      the remaining arguments as they were. */
  function Scan(f: seq<Item>, s: string, out: seq<nat>): (r: seq<nat>)
    requires ValidFormat(f, |out|)
    ensures |r| == |out|
  {
    if f == [] then out
    else if f[0].Literal? then
      if s != "" && s[0] == f[0].c then Scan(f[1..], s[1..], out) else out
    else
      var n := DigitRun(s, f[0].base, f[0].width);
      if n == 0 then out else Scan(f[1..], s[n..], out[f[0].arg := NumberOf(s[..n], f[0].base)])
  }

  /** A scanning format takes apart what a printing format made of these values: the literals agree, and every
      number is delimited, by a width it fits or by a literal after it that is no digit. */
  ghost predicate Delimited(pf: seq<Item>, sf: seq<Item>, vs: seq<nat>)
    requires ValidFormat(pf, |vs|)
  {
    |pf| == |sf| && forall i :: 0 <= i < |pf| ==> DelimitedAt(pf, sf, vs, i)
  }

  ghost predicate DelimitedAt(pf: seq<Item>, sf: seq<Item>, vs: seq<nat>, i: nat)
    requires ValidFormat(pf, |vs|) && i < |pf| == |sf|
  {
    if pf[i].Literal? then sf[i] == pf[i]
    else
      && sf[i].Number? && sf[i].base == pf[i].base && sf[i].arg == pf[i].arg
      && if sf[i].width > 0 then sf[i].width == pf[i].width && vs[pf[i].arg] < Capacity(pf[i].base, pf[i].width)
         else i + 1 < |pf| && pf[i + 1].Literal? && !IsDigit(pf[i + 1].c, pf[i].base)
  }

  /** What is scanned from a printed text are the printed values. */
  lemma {:induction false} ScanPrint(pf: seq<Item>, sf: seq<Item>, vs: seq<nat>, out: seq<nat>)
    requires ValidFormat(pf, |vs|) && |out| == |vs| && ValidFormat(sf, |out|) && Delimited(pf, sf, vs)
    ensures var r := Scan(sf, Print(pf, vs), out);
      && (forall i :: 0 <= i < |sf| && sf[i].Number? ==> r[sf[i].arg] == vs[sf[i].arg])
      && (forall k :: 0 <= k < |vs| && out[k] == vs[k] ==> r[k] == vs[k])
    decreases |pf|
  {
    hide PrintNumber, NumberOf, DigitRun, DigitValue, IsDigit, Capacity;
    if pf != [] {
      var pf', sf', rest := pf[1..], sf[1..], Print(pf[1..], vs);
      DelimitedTail(pf, sf, vs);
      assert DelimitedAt(pf, sf, vs, 0);
      assert forall i :: 0 < i < |sf| ==> sf[i] == sf'[i - 1];
      if pf[0].Literal? {
        assert Print(pf, vs)[1..] == rest;
        ScanPrint(pf', sf', vs, out);
      } else {
        var v := vs[pf[0].arg];
        var number := PrintNumber(v, pf[0].base, pf[0].width);
        PrintNumberDigits(v, pf[0].base, pf[0].width);
        if sf[0].width > 0 {
          PrintedWidth(v, pf[0].base, pf[0].width);
        } else {
          assert rest == [pf'[0].c] + Print(pf'[1..], vs);
        }
        RunOfNumber(number, rest, pf[0].base, sf[0].width);
        assert (number + rest)[..|number|] == number && (number + rest)[|number|..] == rest;
        ScanPrint(pf', sf', vs, out[pf[0].arg := v]);
      }
    }
  }

  lemma DelimitedTail(pf: seq<Item>, sf: seq<Item>, vs: seq<nat>)
    requires pf != [] && ValidFormat(pf, |vs|) && Delimited(pf, sf, vs)
    ensures ValidFormat(pf[1..], |vs|) && Delimited(pf[1..], sf[1..], vs)
  {
    hide IsDigit, Capacity;
    forall i | 0 <= i < |pf[1..]|
      ensures DelimitedAt(pf[1..], sf[1..], vs, i)
    {
      assert DelimitedAt(pf, sf, vs, i + 1);
    }
  }

  lemma RunOfNumber(number: string, rest: string, base: nat, width: nat)
    requires forall i :: 0 <= i < |number| ==> IsDigit(number[i], base)
    requires if width > 0 then |number| == width else rest == "" || !IsDigit(rest[0], base)
    ensures DigitRun(number + rest, base, width) == |number|
  {
    var s := number + rest;
    assert forall i :: 0 <= i < |number| ==> s[i] == number[i];
    assert rest != "" ==> s[|number|] == rest[0];
  }
}
