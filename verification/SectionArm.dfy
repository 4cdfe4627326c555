/** The walk over ARM processor error sections: UEFI Specification 2.9, section N.2.4.4. What the error structures and
    register arrays hold is not modelled; any functions may stand for it. */
module SectionArm {
  import opened Base64
  import opened Bytes
  import opened Json
  import opened Options

  const HEADER_SIZE: nat := 40
  const ERROR_INFO_SIZE: nat := 32
  const CONTEXT_HEADER_SIZE: nat := 8

  /** Register arrays of these types have a layout of their own; others are kept as base64 text. */
  const LAST_KNOWN_TYPE: u16 := 8

  /** The object of an error structure and, given a section and where a register array starts, that of the array. */
  datatype Contents = Contents(errorInfo: seq<byte> -> Json, registers: (seq<byte>, nat) -> Json)

  function ErrInfoNum(s: seq<byte>): u16 { U16(At(s, 4, 2)) }

  function ContextInfoNum(s: seq<byte>): u16 { U16(At(s, 6, 2)) }

  function SectionLength(s: seq<byte>): u32 { U32(At(s, 8, 4)) }

  function ErrorAt(s: seq<byte>, i: nat): seq<byte> {
    At(s, HEADER_SIZE + ERROR_INFO_SIZE * i, ERROR_INFO_SIZE)
  }

  function ContextStart(s: seq<byte>): nat {
    HEADER_SIZE + ERROR_INFO_SIZE * ErrInfoNum(s)
  }

  // ---- contexts -------------------------------------------------------------------------------------

  function ContextType(s: seq<byte>, cur: nat): u16 { U16(At(s, cur + 2, 2)) }

  function ArraySize(s: seq<byte>, cur: nat): u32 { U32(At(s, cur + 4, 4)) }

  /** A register array of unknown type is too long to be encoded: the context is given up with the cursor behind
      its header. */
  predicate GivenUp(s: seq<byte>, cur: nat) {
    ContextType(s, cur) > LAST_KNOWN_TYPE && !Encodable(ArraySize(s, cur))
  }

  /** How far the cursor moves over one context. */
  function ContextSize(s: seq<byte>, cur: nat): nat {
    CONTEXT_HEADER_SIZE + if GivenUp(s, cur) then 0 else ArraySize(s, cur)
  }

  /** Where the cursor stands after `n` contexts. */
  function Cursor(s: seq<byte>, n: nat): (cur: nat)
    ensures cur >= HEADER_SIZE
  {
    if n == 0 then ContextStart(s)
    else
      var cur := Cursor(s, n - 1);
      cur + ContextSize(s, cur)
  }

  function WalkEnd(s: seq<byte>): (end: nat)
    ensures end >= HEADER_SIZE
  {
    Cursor(s, ContextInfoNum(s))
  }

  /** What the walk leaves of the section. */
  function VendorInfo(s: seq<byte>): Option<seq<byte>> {
    if WalkEnd(s) < SectionLength(s) then Some(At(s, WalkEnd(s), SectionLength(s) - WalkEnd(s))) else None
  }

  // ---- the intermediate representation ------------------------------------------------------------------

  function ContextToIr(contents: Contents, s: seq<byte>, cur: nat): Json {
    if GivenUp(s, cur) then Null
    else
      Obj(map[
        "version" := Int(U16(At(s, cur, 2))),
        "registerContextType" := Obj(map["value" := Int(ContextType(s, cur))]),
        "registerArraySize" := Int(ArraySize(s, cur)),
        "registerArray" := contents.registers(s, cur + CONTEXT_HEADER_SIZE)])
  }

  function ErrorsToIr(contents: Contents, s: seq<byte>, n: nat): (ir: seq<Json>)
    ensures |ir| == n
  {
    if n == 0 then [] else ErrorsToIr(contents, s, n - 1) + [contents.errorInfo(ErrorAt(s, n - 1))]
  }

  function ContextsToIr(contents: Contents, s: seq<byte>, n: nat): (ir: seq<Json>)
    ensures |ir| == n
  {
    if n == 0 then [] else ContextsToIr(contents, s, n - 1) + [ContextToIr(contents, s, Cursor(s, n - 1))]
  }

  function WalkToIr(s: seq<byte>, errors: seq<Json>, contexts: seq<Json>): Json {
    Obj(map[
      "errorInfoNum" := Int(ErrInfoNum(s)),
      "contextInfoNum" := Int(ContextInfoNum(s)),
      "sectionLength" := Int(SectionLength(s)),
      "errorInfo" := Arr(errors),
      "contextInfo" := Arr(contexts)])
  }

  /** Nothing at all comes of a section whose vendor information is too long to be encoded. */
  function SectionToIr(contents: Contents, s: seq<byte>): Json {
    var ir := WalkToIr(s, ErrorsToIr(contents, s, ErrInfoNum(s)), ContextsToIr(contents, s, ContextInfoNum(s)));
    var vendor := VendorInfo(s);
    if vendor.None? then ir
    else if !Encodable(|vendor.value|) then Null
    else Obj(ir.o["vendorSpecificInfo" := Obj(map["data" := Str(Encode(vendor.value))])])
  }

  // ---- the reader -----------------------------------------------------------------------------------------

  method ReadContext(contents: Contents, s: seq<byte>, cur: nat) returns (ir: Json, next: nat)
    ensures ir == ContextToIr(contents, s, cur) && next == cur + ContextSize(s, cur)
  {
    hide At, U16, U32, Encodable;
    next := cur + CONTEXT_HEADER_SIZE;
    if ContextType(s, cur) > LAST_KNOWN_TYPE && !Encodable(ArraySize(s, cur)) {
      return Null, next;
    }
    ir := Obj(map[
      "version" := Int(U16(At(s, cur, 2))),
      "registerContextType" := Obj(map["value" := Int(ContextType(s, cur))]),
      "registerArraySize" := Int(ArraySize(s, cur)),
      "registerArray" := contents.registers(s, next)]);
    next := next + ArraySize(s, cur);
  }

  method ReadErrors(contents: Contents, s: seq<byte>) returns (errors: seq<Json>, cur: nat)
    ensures errors == ErrorsToIr(contents, s, ErrInfoNum(s)) && cur == ContextStart(s)
  {
    hide At, U16;
    cur := HEADER_SIZE;
    errors := [];
    for i := 0 to ErrInfoNum(s)
      invariant cur == HEADER_SIZE + ERROR_INFO_SIZE * i && errors == ErrorsToIr(contents, s, i)
    {
      errors := errors + [contents.errorInfo(At(s, cur, ERROR_INFO_SIZE))];
      cur := cur + ERROR_INFO_SIZE;
    }
  }

  method ReadContexts(contents: Contents, s: seq<byte>, start: nat) returns (contexts: seq<Json>, cur: nat)
    requires start == ContextStart(s)
    ensures contexts == ContextsToIr(contents, s, ContextInfoNum(s)) && cur == WalkEnd(s)
  {
    hide ContextToIr, ContextSize, ContextStart, ContextInfoNum;
    cur := start;
    contexts := [];
    for i := 0 to ContextInfoNum(s)
      invariant cur == Cursor(s, i) && contexts == ContextsToIr(contents, s, i)
    {
      var context;
      context, cur := ReadContext(contents, s, cur);
      contexts := contexts + [context];
    }
  }

  method ReadSection(contents: Contents, s: seq<byte>) returns (ir: Json, end: nat)
    ensures ir == SectionToIr(contents, s) && end == WalkEnd(s)
  {
    hide ErrorsToIr, ContextsToIr, WalkEnd, ContextStart, At, U16, U32, Encode, Encodable;
    var errors, start := ReadErrors(contents, s);
    var contexts;
    contexts, end := ReadContexts(contents, s, start);
    ir := WalkToIr(s, errors, contexts);
    if end < SectionLength(s) {
      var encoded := Base64Encode(At(s, end, SectionLength(s) - end));
      if encoded.None? {
        return Null, end;
      }
      ir := Obj(ir.o["vendorSpecificInfo" := Obj(map["data" := Str(encoded.value)])]);
    }
  }
}
