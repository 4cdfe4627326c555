/** What the reader shows of an ARM processor error section, and how it walks, from the section's bytes. */
module ArmReadings {
  import opened Base64
  import opened Bytes
  import opened Json
  import opened Options
  import opened Readings
  import opened SectionArm

  lemma ArmHeader(s: seq<byte>)
    ensures ErrInfoNum(s) == N16(s, 4) && ContextInfoNum(s) == N16(s, 6) && SectionLength(s) == N32(s, 8)
  {
    hide At, FromLE, N16, N32;
    Read16(s, 4);
    Read16(s, 6);
    Read32(s, 8);
  }

  lemma ArmContextHeader(s: seq<byte>, p: nat)
    ensures U16(At(s, p, 2)) == N16(s, p) && ContextType(s, p) == N16(s, p + 2) && ArraySize(s, p) == N32(s, p + 4)
  {
    hide At, FromLE, N16, N32;
    Read16(s, p);
    Read16(s, p + 2);
    Read32(s, p + 4);
  }

  /** Whether the base64 text of `n` bytes would be longer than a C `int` can count. */
  predicate TooLong(n: nat) {
    (n + 2) / 3 * 4 > 0x7FFF_FFFF
  }

  /** How many bytes the walk takes for the register array of the context at `p`. */
  function ArrayTaken(s: seq<byte>, p: nat): nat {
    if N16(s, p + 2) > 8 && TooLong(N32(s, p + 4)) then 0 else N32(s, p + 4)
  }

  /** Where the i-th context is: behind the error structures, whose number is in bytes 4 and 5, and the contexts before
      it. */
  function ArmPlace(s: seq<byte>, i: nat): nat {
    if i == 0 then 40 + 32 * N16(s, 4)
    else
      var p := ArmPlace(s, i - 1);
      p + 8 + ArrayTaken(s, p)
  }

  lemma {:induction false} ArmPlaced(s: seq<byte>, i: nat)
    ensures Cursor(s, i) == ArmPlace(s, i)
    decreases i
  {
    hide ErrInfoNum, ArraySize, ContextType, N16, N32;
    if i > 0 {
      ArmPlaced(s, i - 1);
      ArmContextHeader(s, Cursor(s, i - 1));
    } else {
      ArmHeader(s);
    }
  }

  /** The walk ends behind as many contexts as bytes 6 and 7 say. */
  lemma ArmWalkEnds(s: seq<byte>)
    ensures Cursor(s, FRONT) == 40 + 32 * N16(s, 4) && WalkEnd(s) == ArmPlace(s, N16(s, 6))
  {
    hide ErrInfoNum, ContextInfoNum, N16, Cursor, ArrayTaken;
    ArmHeader(s);
    ArmPlaced(s, FRONT);
    ArmPlaced(s, N16(s, 6));
  }

  const FRONT: nat := 0

  /** The context at `p`. */
  lemma ArmContextShown(contents: Contents, s: seq<byte>, p: nat)
    ensures var ir := ContextToIr(contents, s, p);
      if N16(s, p + 2) > 8 && TooLong(N32(s, p + 4)) then ir == Null
      else
        && Get(ir, "version") == Int(N16(s, p))
        && Get(Get(ir, "registerContextType"), "value") == Int(N16(s, p + 2))
        && Get(ir, "registerArraySize") == Int(N32(s, p + 4))
        && Get(ir, "registerArray") == contents.registers(s, p + 8)
  {
    hide At, U16, U32, N16, N32, ContextType, ArraySize;
    ArmContextHeader(s, p);
  }

  /** How many bytes the section's length, in bytes 8 to 11, leaves behind the walk. */
  function VendorSize(s: seq<byte>): nat {
    var end := ArmPlace(s, N16(s, 6));
    if end < N32(s, 8) then N32(s, 8) - end else 0
  }

  lemma {:induction false} ArmErrorListed(contents: Contents, s: seq<byte>, n: nat, i: nat)
    requires i < n
    ensures ErrorsToIr(contents, s, n)[i] == contents.errorInfo(At(s, 40 + 32 * i, 32))
    decreases n
  {
    hide At;
    if i < n - 1 {
      ArmErrorListed(contents, s, n - 1, i);
    }
  }

  lemma {:induction false} ArmContextListed(contents: Contents, s: seq<byte>, n: nat, i: nat)
    requires i < n
    ensures ContextsToIr(contents, s, n)[i] == ContextToIr(contents, s, ArmPlace(s, i))
    decreases n
  {
    hide ContextToIr, Cursor, ArmPlace;
    if i < n - 1 {
      ArmContextListed(contents, s, n - 1, i);
    } else {
      ArmPlaced(s, i);
    }
  }

  /** The two arrays, whatever comes of the vendor information. */
  ghost predicate WalkIs(ir: Json, contents: Contents, s: seq<byte>) {
    var errors, contexts := Get(ir, "errorInfo"), Get(ir, "contextInfo");
    && Get(ir, "errorInfoNum") == Int(N16(s, 4)) && Get(ir, "contextInfoNum") == Int(N16(s, 6))
    && Get(ir, "sectionLength") == Int(N32(s, 8))
    && errors.Arr? && |errors.a| == N16(s, 4) && contexts.Arr? && |contexts.a| == N16(s, 6)
    && (forall i: nat :: i < N16(s, 4) ==> errors.a[i] == contents.errorInfo(At(s, 40 + 32 * i, 32)))
    && (forall i: nat :: i < N16(s, 6) ==> contexts.a[i] == ContextToIr(contents, s, ArmPlace(s, i)))
  }

  lemma WalkShown(contents: Contents, s: seq<byte>)
    ensures WalkIs(WalkToIr(s, ErrorsToIr(contents, s, ErrInfoNum(s)), ContextsToIr(contents, s, ContextInfoNum(s))),
                   contents, s)
  {
    hide At, N16, N32, ErrInfoNum, ContextInfoNum, SectionLength, ErrorsToIr, ContextsToIr, ContextToIr, ArmPlace;
    ArmHeader(s);
    forall i: nat | i < N16(s, 4)
      ensures ErrorsToIr(contents, s, N16(s, 4))[i] == contents.errorInfo(At(s, 40 + 32 * i, 32))
    {
      ArmErrorListed(contents, s, N16(s, 4), i);
    }
    forall i: nat | i < N16(s, 6)
      ensures ContextsToIr(contents, s, N16(s, 6))[i] == ContextToIr(contents, s, ArmPlace(s, i))
    {
      ArmContextListed(contents, s, N16(s, 6), i);
    }
  }

  /** The object of a section: its counts, as many elements as they say, and what is left behind the walk as text. There
      is none when that text would be too long. */
  lemma ArmSectionShown(contents: Contents, s: seq<byte>)
    ensures var ir, n, end := SectionToIr(contents, s), VendorSize(s), ArmPlace(s, N16(s, 6));
      if TooLong(n) then ir == Null
      else
        && WalkIs(ir, contents, s)
        && Get(ir, "vendorSpecificInfo") == if n == 0 then Null else Obj(map["data" := Str(Encode(At(s, end, n)))])
  {
    hide At, N16, N32, ErrorsToIr, ContextsToIr, ContextToIr, ArmPlace, WalkEnd, Encode;
    ArmHeader(s);
    ArmWalkEnds(s);
    WalkShown(contents, s);
  }
}
