/** The intermediate representation: JSON trees and the accessors they are read through. Like json-c's they give a
    default for what is missing or of another type, with one exception: json-c aborts the program when it is asked for
    the length or an element of anything but an array, so that writers which do so require one. */
module Json {
  import opened Bytes
  import opened Names
  import opened Options

  datatype Json =
    | Null
    | Bool(b: bool)
    | Int(i: int)
    | Double(d: real)
    | Str(s: string)
    | Arr(a: seq<Json>)
    | Obj(o: map<string, Json>)

  /** A missing member, or a member of something that is not an object, is null. */
  function Get(j: Json, key: string): Json {
    if j.Obj? && key in j.o then j.o[key] else Null
  }

  function GetUint64(j: Json): u64 {
    match j
    case Int(i) => if i < 0 then 0 else if i < 0x1_0000_0000_0000_0000 then i else 0xFFFF_FFFF_FFFF_FFFF
    case Bool(b) => if b then 1 else 0
    case _ => 0
  }

  /** Saturates at the ends of the 32-bit range. */
  function GetInt(j: Json): (r: int)
    ensures -0x8000_0000 <= r < 0x8000_0000
  {
    match j
    case Int(i) => if i < -0x8000_0000 then -0x8000_0000 else if i < 0x8000_0000 then i else 0x7FFF_FFFF
    case Bool(b) => if b then 1 else 0
    case _ => 0
  }

  function GetBoolean(j: Json): bool {
    match j
    case Bool(b) => b
    case Int(i) => i != 0
    case Double(d) => d != 0.0
    case Str(s) => s != ""
    case _ => false
  }

  function GetString(j: Json): string {
    if j.Str? then j.s else ""
  }

  function ArrayLength(j: Json): nat {
    if j.Arr? then |j.a| else 0
  }

  function ArrayIdx(j: Json, i: nat): Json {
    if j.Arr? && i < |j.a| then j.a[i] else Null
  }

  function Distance(a: int, b: int): nat {
    if a < b then b - a else a - b
  }

  /** A number that does not fit is read as the nearest one that does. */
  lemma Saturates(i: int, r: int)
    ensures -0x8000_0000 <= r < 0x8000_0000 ==> Distance(GetInt(Int(i)), i) <= Distance(r, i)
    ensures 0 <= r < 0x1_0000_0000_0000_0000 ==> Distance(GetUint64(Int(i)), i) <= Distance(r, i)
  {
  }

  /** What is missing reads as zero, false or empty; booleans and integers can be read as each other. */
  lemma ReadAcross(b: bool, i: int, d: real, s: string)
    ensures GetUint64(Null) == GetInt(Null) == 0 && !GetBoolean(Null) && GetString(Null) == ""
    ensures (GetBoolean(Bool(b)) <==> b) && (GetBoolean(Int(i)) <==> GetInt(Int(i)) != 0)
    ensures (GetBoolean(Double(d)) <==> d < 0.0 || 0.0 < d) && (GetBoolean(Str(s)) <==> |s| > 0)
    ensures GetUint64(Bool(b)) == GetInt(Bool(b)) == GetUint64(Int(if GetBoolean(Bool(b)) then 1 else 0))
  {
  }

  /** What json-c aborts on: the length or an element of anything but an array. */
  method AskLength(j: Json) returns (n: nat)
    requires j.Arr?
    ensures n == ArrayLength(j)
  {
    n := |j.a|;
  }

  method AskElement(j: Json, i: nat) returns (e: Json)
    requires j.Arr?
    ensures e == ArrayIdx(j, i)
  {
    e := if i < |j.a| then j.a[i] else Null;
  }

  /** Text that is copied has to be there: the text of null is a null pointer. */
  method AskString(j: Json) returns (s: string)
    requires !j.Null?
    ensures s == GetString(j)
  {
    s := GetString(j);
  }

  // ---- objects built member by member ----------------------------------------------------------

  /** The object left after adding each key in turn; a repeated key replaces the earlier member. */
  function Members(keys: seq<string>, values: seq<Json>): map<string, Json>
    requires |keys| == |values|
  {
    if keys == [] then map[]
    else
      var n := |keys| - 1;
      Members(keys[..n], values[..n])[keys[n] := values[n]]
  }

  lemma {:induction false} MembersGet(keys: seq<string>, values: seq<Json>, i: nat)
    requires |keys| == |values| && i < |keys| && Distinct(keys)
    ensures Get(Obj(Members(keys, values)), keys[i]) == values[i]
  {
    var n := |keys| - 1;
    if i < n {
      MembersGet(keys[..n], values[..n], i);
      assert keys[..n][i] == keys[i] != keys[n];
    }
  }

  ghost predicate Has(ir: Json, keys: seq<string>, values: seq<Json>)
    requires |keys| == |values|
  {
    forall i :: 0 <= i < |keys| ==> Get(ir, keys[i]) == values[i]
  }

  lemma MembersHas(keys: seq<string>, values: seq<Json>)
    requires |keys| == |values| && Distinct(keys)
    ensures Has(Obj(Members(keys, values)), keys, values)
  {
    forall i | 0 <= i < |keys|
      ensures Get(Obj(Members(keys, values)), keys[i]) == values[i]
    {
      MembersGet(keys, values, i);
    }
  }

  /** The object left after adding each key that has a value. */
  function Present(keys: seq<string>, values: seq<Option<Json>>): map<string, Json>
    requires |keys| == |values|
  {
    if keys == [] then map[]
    else
      var n := |keys| - 1;
      var m := Present(keys[..n], values[..n]);
      if values[n].Some? then m[keys[n] := values[n].value] else m
  }

  function OrNull(value: Option<Json>): Json {
    if value.Some? then value.value else Null
  }

  lemma {:induction false} NotPresent(keys: seq<string>, values: seq<Option<Json>>, key: string)
    requires |keys| == |values| && forall j :: 0 <= j < |keys| ==> keys[j] != key
    ensures key !in Present(keys, values)
  {
    if keys != [] {
      var n := |keys| - 1;
      NotPresent(keys[..n], values[..n], key);
      assert keys[n] != key;
    }
  }

  lemma {:induction false} PresentGet(keys: seq<string>, values: seq<Option<Json>>, i: nat)
    requires |keys| == |values| && i < |keys| && Distinct(keys)
    ensures Get(Obj(Present(keys, values)), keys[i]) == OrNull(values[i])
  {
    var n := |keys| - 1;
    if i < n {
      PresentGet(keys[..n], values[..n], i);
      assert keys[..n][i] == keys[i] != keys[n];
    } else {
      NotPresent(keys[..n], values[..n], keys[n]);
    }
  }

  lemma PresentHas(keys: seq<string>, values: seq<Option<Json>>)
    requires |keys| == |values| && Distinct(keys)
    ensures forall i :: 0 <= i < |keys| ==> Get(Obj(Present(keys, values)), keys[i]) == OrNull(values[i])
  {
    hide Get, OrNull, Present;
    forall i | 0 <= i < |keys|
      ensures Get(Obj(Present(keys, values)), keys[i]) == OrNull(values[i])
    {
      PresentGet(keys, values, i);
    }
  }

  // ---- integers ---------------------------------------------------------------------------------

  /** An unsigned integer of at most eight bytes survives the trip through a JSON number. */
  lemma NumberRoundTrip(p: seq<byte>)
    requires |p| <= 8
    ensures LE(GetUint64(Int(FromLE(p))), |p|) == p
  {
    StoreLoad(p);
    FromLEBound(p);
    RangeMonotone(|p|, 8);
    assert Range(8) == 0x1_0000_0000_0000_0000;
  }

  lemma IntRoundTrip(p: seq<byte>)
    requires |p| <= 2
    ensures LE(GetInt(Int(FromLE(p))), |p|) == p
  {
    StoreLoad(p);
    FromLEBound(p);
    RangeMonotone(|p|, 2);
    assert Range(2) == 0x1_0000;
  }

  lemma RangeMonotone(a: nat, b: nat)
    requires a <= b
    ensures Range(a) <= Range(b)
  {
    if a < b {
      RangeMonotone(a, b - 1);
    }
  }
}
