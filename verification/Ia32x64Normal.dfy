/** What is written of an IA32/x64 section: where its structures are, and that a second trip changes nothing. */
module Ia32x64Normal {
  import opened Bytes
  import opened Guids
  import opened Ia32x64Checks
  import opened Ia32x64Registers
  import opened Packed
  import opened SectionIa32x64

  // ---- the record ---------------------------------------------------------------------------------------

  lemma RecordAgain(s: seq<byte>, n: seq<byte>)
    requires n == NormalSection(s)
    ensures RecordParts(n) == NormalRecordParts(RecordParts(s))
  {
    hide Join, Chop, Sum, NormalRecordParts, NormalErrors, NormalContexts, ErrorCount, ContextCount, ContextStart;
    RecordWidths();
    NormalRecordWidths(RecordParts(s));
    ChopJoin(NormalRecordParts(RecordParts(s)), RECORD_WIDTHS);
    var rest := NormalErrors(s, ErrorCount(s)) + NormalContexts(s, ContextStart(s), ContextCount(s));
    assert n == NormalRecord(s) + rest;
    AtLeft(NormalRecord(s), rest, 0, RECORD_SIZE);
    AtWhole(NormalRecord(s));
  }

  lemma NormalRecordWidths(p: seq<seq<byte>>)
    requires HasWidths(p, RECORD_WIDTHS)
    ensures HasWidths(NormalRecordParts(p), RECORD_WIDTHS)
  {
    hide LE, U64, Low;
  }

  /** Both counts survive, and nothing reserved is set. */
  lemma CountsAgain(s: seq<byte>, n: seq<byte>)
    requires n == NormalSection(s)
    ensures ErrorCount(n) == ErrorCount(s) && ContextCount(n) == ContextCount(s)
    ensures U64(RecordParts(n)[0]) < 0x4000 && RecordParts(n)[6] == Zeros(16)
  {
    hide NormalSection, RecordParts, SplitBits, JoinBits, LE, FromLE, Low, Pow2;
    var v, f := U64(RecordParts(s)[0]), ValidFields(s);
    RecordAgain(s, n);
    SmallPowers();
    StoreKept(LE(Low(v, 14), 8), Low(v, 14));
    ValidFieldsRoundTrip(s);
    var g := [f[0], f[1], f[2], f[3], 0];
    SplitJoinBits(g, VALID_BITS);
    LowOfLow(f[2], VALID_BITS[2]);
    LowOfLow(f[3], VALID_BITS[3]);
  }

  // ---- the error structures -------------------------------------------------------------------------------

  lemma {:induction false} ErrorAmong(s: seq<byte>, count: nat, i: nat)
    requires i < count
    ensures At(NormalErrors(s, count), ERROR_INFO_SIZE * i, ERROR_INFO_SIZE) == NormalErrorInfo(ErrorAt(s, i))
    decreases count
  {
    hide At, NormalErrorInfo, ErrorAt;
    NormalErrorInfoSize(ErrorAt(s, count - 1));
    var front, last := NormalErrors(s, count - 1), NormalErrorInfo(ErrorAt(s, count - 1));
    if i == count - 1 {
      AtEnd(front, last);
    } else {
      ErrorAmong(s, count - 1, i);
      AtLeft(front, last, ERROR_INFO_SIZE * i, ERROR_INFO_SIZE);
    }
  }

  lemma ErrorAgain(s: seq<byte>, n: seq<byte>, i: nat)
    requires n == NormalSection(s) && i < ErrorCount(s)
    ensures ErrorAt(n, i) == NormalErrorInfo(ErrorAt(s, i))
  {
    hide At, NormalRecord, NormalErrors, NormalContexts, NormalErrorInfo, ContextStart, ErrorCount, ContextCount;
    RecordKept(s);
    ErrorAmong(s, ErrorCount(s), i);
    AtMiddle(NormalRecord(s), NormalErrors(s, ErrorCount(s)), NormalContexts(s, ContextStart(s), ContextCount(s)),
      ERROR_INFO_SIZE * i, ERROR_INFO_SIZE);
  }

  lemma NormalErrorInfoCanonical(e: seq<byte>)
    requires |e| == ERROR_INFO_SIZE
    ensures |NormalErrorInfo(e)| == ERROR_INFO_SIZE && CanonicalErrorInfo(NormalErrorInfo(e))
  {
    hide Join, Chop, Sum, LE, FromLE, Low, NormalCheck, CanonicalCheck, KindOf, GuidOf, Pow2;
    var p := ErrorInfoParts(e);
    var check := NormalCheck(KindOf(GuidOf(p[0])), U64(p[2]));
    ErrorInfoWidths();
    NormalErrorInfoSize(e);
    NormalPartsWidths(p);
    ChopJoin(NormalParts(p), ERROR_INFO_WIDTHS);
    SmallPowers();
    StoreKept(LE(Low(U64(p[1]), 5), 8), Low(U64(p[1]), 5));
    StoreKept(LE(check, 8), check);
    NormalCheckCanonical(KindOf(GuidOf(p[0])), U64(p[2]));
  }

  // ---- the contexts ---------------------------------------------------------------------------------------

  lemma LastContext(s: seq<byte>, start: nat, count: nat)
    requires count > 0
    ensures NormalContexts(s, start, count) ==
      NormalContexts(s, start, count - 1) + NormalContext(s, Cursor(s, start, count - 1))
  {
    hide NormalContext, Cursor;
  }

  lemma {:induction false} ContextAmong(s: seq<byte>, start: nat, count: nat, i: nat)
    requires i < count
    ensures var cur, c := Cursor(s, start, i), NormalContext(s, Cursor(s, start, i));
      && cur - start + |c| <= |NormalContexts(s, start, count)|
      && At(NormalContexts(s, start, count), cur - start, |c|) == c
    decreases count
  {
    hide At, NormalContext, Cursor, NormalContexts;
    LastContext(s, start, count);
    var front, last := NormalContexts(s, start, count - 1), NormalContext(s, Cursor(s, start, count - 1));
    if i == count - 1 {
      AtEnd(front, last);
    } else {
      ContextAmong(s, start, count - 1, i);
      AtLeft(front, last, Cursor(s, start, i) - start, |NormalContext(s, Cursor(s, start, i))|);
    }
  }

  /** Each context is written where it was read. */
  lemma ContextPlace(s: seq<byte>, n: seq<byte>, i: nat)
    requires n == NormalSection(s) && i < ContextCount(s)
    ensures var cur := Cursor(s, ContextStart(s), i);
      At(n, cur, ContextSize(s, cur)) == NormalContext(s, cur)
  {
    hide At, NormalRecord, NormalErrors, NormalContexts, NormalContext, ContextSize, Cursor, ErrorCount, ContextCount;
    var start := ContextStart(s);
    var cur := Cursor(s, start, i);
    RecordKept(s);
    ContextKept(s, cur);
    ContextAmong(s, start, ContextCount(s), i);
    var front, contexts := NormalRecord(s) + NormalErrors(s, ErrorCount(s)), NormalContexts(s, start, ContextCount(s));
    assert n == front + contexts + [];
    AtMiddle(front, contexts, [], cur - start, ContextSize(s, cur));
  }

  /** A context in its normal form has the header, and so the type and the size, it had before. */
  lemma HeaderAgain(s: seq<byte>, n: seq<byte>, cur: nat)
    requires At(n, cur, ContextSize(s, cur)) == NormalContext(s, cur)
    ensures ContextKind(n, cur) == ContextKind(s, cur) && ContextSize(n, cur) == ContextSize(s, cur)
    ensures ContextPayload(n, cur) == NormalPayload(ContextKind(s, cur), ContextPayload(s, cur))
  {
    hide At, NormalPayload, ContextParts, FitsKind, U16, PayloadSize;
    var size := ContextPayloadSize(s, cur);
    PayloadKept(ContextKind(s, cur), ContextPayload(s, cur));
    AtSplit(n, cur, CONTEXT_HEADER_SIZE, size);
    AppendKept(At(n, cur, CONTEXT_HEADER_SIZE), At(n, cur + CONTEXT_HEADER_SIZE, size),
      At(s, cur, CONTEXT_HEADER_SIZE), NormalPayload(ContextKind(s, cur), ContextPayload(s, cur)));
  }

  lemma NormalPayloadTwice(kind: u16, d: seq<byte>)
    requires FitsKind(kind, d)
    ensures FitsKind(kind, NormalPayload(kind, d))
    ensures NormalPayload(kind, NormalPayload(kind, d)) == NormalPayload(kind, d)
  {
    hide X64Registers, NormalPacked, GoodLayout, Sum, Widths;
    if kind == CONTEXT_X64 {
      X64Layout();
      X64Kept(d);
      NormalPackedTwice(X64Registers(), d);
    }
  }

  lemma ContextAgain(s: seq<byte>, n: seq<byte>, cur: nat)
    requires At(n, cur, ContextSize(s, cur)) == NormalContext(s, cur)
    ensures CanonicalContext(n, cur)
  {
    hide At, NormalPayload, ContextKind, ContextPayload, ContextSize, CanonicalContext;
    HeaderAgain(s, n, cur);
    ContextKept(n, cur);
    NormalPayloadTwice(ContextKind(s, cur), ContextPayload(s, cur));
    ContextSplit(s, n, cur);
  }

  lemma ContextSplit(s: seq<byte>, n: seq<byte>, cur: nat)
    requires At(n, cur, ContextSize(s, cur)) == NormalContext(s, cur)
    ensures At(n, cur, CONTEXT_HEADER_SIZE) == At(s, cur, CONTEXT_HEADER_SIZE)
  {
    hide NormalPayload, ContextKind, ContextPayload, ContextPayloadSize;
    AtAt(n, cur, ContextSize(s, cur), 0, CONTEXT_HEADER_SIZE);
  }

  /** The cursor goes through what is written just as it went through what was read. */
  lemma {:induction false} CursorAgain(s: seq<byte>, n: seq<byte>, i: nat)
    requires n == NormalSection(s) && i <= ContextCount(s)
    ensures Cursor(n, ContextStart(s), i) == Cursor(s, ContextStart(s), i)
    decreases i
  {
    hide At, NormalSection, NormalContext, ContextSize, ContextStart, ContextCount;
    if i > 0 {
      CursorAgain(s, n, i - 1);
      ContextPlace(s, n, i - 1);
      HeaderAgain(s, n, Cursor(s, ContextStart(s), i - 1));
    }
  }

  /** What is written is canonical: a second trip changes nothing. */
  lemma NormalCanonical(s: seq<byte>)
    ensures CanonicalSection(NormalSection(s))
  {
    hide At, NormalSection, NormalErrorInfo, CanonicalErrorInfo, CanonicalContext, RecordParts, Cursor, ErrorCount,
      ContextCount, ErrorAt, U64, ContextSize, NormalContext, Zeros;
    var n := NormalSection(s);
    CountsAgain(s, n);
    ReservedKept(s);
    CursorAgain(s, n, ContextCount(s));
    forall i | 0 <= i < ErrorCount(n)
      ensures CanonicalErrorInfo(ErrorAt(n, i))
    {
      ErrorAgain(s, n, i);
      NormalErrorInfoCanonical(ErrorAt(s, i));
    }
    forall i | 0 <= i < ContextCount(n)
      ensures CanonicalContext(n, Cursor(n, ContextStart(n), i))
    {
      CursorAgain(s, n, i);
      ContextPlace(s, n, i);
      ContextAgain(s, n, Cursor(s, ContextStart(s), i));
    }
  }
}
