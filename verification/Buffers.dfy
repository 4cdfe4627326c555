/** Byte buffers edited in place. */
module Buffers {
  import opened Bytes

  /** Copies `src` to offset `off` of a buffer. */
  method MemCpy(dst: array<byte>, off: nat, src: seq<byte>)
    requires off + |src| <= dst.Length
    modifies dst
    ensures dst[..] == Patch(old(dst[..]), off, src)
  {
    for i := 0 to |src|
      invariant forall k :: 0 <= k < i ==> dst[off + k] == src[k]
      invariant forall k :: 0 <= k < dst.Length && !(off <= k < off + i) ==> dst[k] == old(dst[k])
    {
      dst[off + i] := src[i];
    }
    PatchIndex(old(dst[..]), off, src);
    assert dst[..] == Patch(old(dst[..]), off, src);
  }

  /** `*(UINT64 *)(a + off) &= mask`. */
  method MaskU64(a: array<byte>, off: nat, mask: u64)
    requires off + 8 <= a.Length
    modifies a
    ensures a[..] == Patch(old(a[..]), off, LE(And(U64(At(old(a[..]), off, 8)), mask), 8))
  {
    hide Patch, And, LE, FromLE;
    var v := U64(a[off..off + 8]);
    assert a[off..off + 8] == At(a[..], off, 8);
    MemCpy(a, off, LE(And(v, mask), 8));
  }

  /** `*(UINT64 *)(a + off) |= bits`. */
  method SetU64(a: array<byte>, off: nat, bits: u64)
    requires off + 8 <= a.Length
    modifies a
    ensures a[..] == Patch(old(a[..]), off, LE(Or(U64(At(old(a[..]), off, 8)), bits), 8))
  {
    hide Patch, Or, LE, FromLE;
    var v := U64(a[off..off + 8]);
    assert a[off..off + 8] == At(a[..], off, 8);
    MemCpy(a, off, LE(Or(v, bits), 8));
  }

  /** A loop that stores zero bytes one by one. */
  method ZeroBytes(a: array<byte>, off: nat, count: nat)
    requires off + count <= a.Length
    modifies a
    ensures a[..] == Patch(old(a[..]), off, Zeros(count))
  {
    for i := 0 to count
      invariant forall k :: off <= k < off + i ==> a[k] == 0
      invariant forall k :: 0 <= k < a.Length && !(off <= k < off + i) ==> a[k] == old(a[k])
    {
      a[off + i] := 0;
    }
    PatchIndex(old(a[..]), off, Zeros(count));
    assert a[..] == Patch(old(a[..]), off, Zeros(count));
  }

  /** Storing at the end of what is filled so far extends it. */
  lemma PatchGrows(d: seq<byte>, p: nat, b: seq<byte>)
    requires p + |b| <= |d|
    ensures |Patch(d, p, b)| == |d| && Patch(d, p, b)[..p + |b|] == d[..p] + b
  {
  }

  // ---- runs of stores -----------------------------------------------------------------------------------

  /** Bytes stored at an offset. */
  datatype Store = Store(pos: nat, bytes: seq<byte>)

  /** A buffer after a run of stores. */
  function Stored(d: seq<byte>, stores: seq<Store>): seq<byte> {
    if stores == [] then d
    else
      var n := |stores| - 1;
      Patch(Stored(d, stores[..n]), stores[n].pos, stores[n].bytes)
  }

  predicate Apart(a: Store, b: Store) {
    a.pos + |a.bytes| <= b.pos || b.pos + |b.bytes| <= a.pos
  }

  /** All stores lie within `size` bytes and touch different ones. */
  ghost predicate Separate(stores: seq<Store>, size: nat) {
    && (forall i :: 0 <= i < |stores| ==> stores[i].pos + |stores[i].bytes| <= size)
    && (forall i, j :: 0 <= i < j < |stores| ==> Apart(stores[i], stores[j]))
  }

  lemma StoredMore(d: seq<byte>, stores: seq<Store>, s: Store)
    ensures Stored(d, stores + [s]) == Patch(Stored(d, stores), s.pos, s.bytes)
  {
    assert (stores + [s])[..|stores|] == stores;
  }

  lemma {:induction false} StoredSize(d: seq<byte>, stores: seq<Store>)
    requires Separate(stores, |d|)
    ensures |Stored(d, stores)| == |d|
    decreases |stores|
  {
    hide Patch;
    if stores != [] {
      var n := |stores| - 1;
      StoredSize(d, stores[..n]);
      PatchLength(Stored(d, stores[..n]), stores[n].pos, stores[n].bytes);
    }
  }

  /** What was stored somewhere is still there after the other stores. */
  lemma {:induction false} StoredAt(d: seq<byte>, stores: seq<Store>, i: nat)
    requires Separate(stores, |d|) && i < |stores|
    ensures At(Stored(d, stores), stores[i].pos, |stores[i].bytes|) == stores[i].bytes
    decreases |stores|
  {
    hide Patch, At;
    var n := |stores| - 1;
    var before := Stored(d, stores[..n]);
    if i == n {
      PatchRead(before, stores[n].pos, stores[n].bytes);
    } else {
      StoredSize(d, stores[..n]);
      StoredAt(d, stores[..n], i);
      assert stores[..n][i] == stores[i] && Apart(stores[i], stores[n]);
      PatchElsewhere(before, stores[n].pos, stores[n].bytes, stores[i].pos, |stores[i].bytes|);
    }
  }

  /** Stores bytes and keeps account of it. */
  method Put(a: array<byte>, pos: nat, bytes: seq<byte>, ghost d: seq<byte>, ghost stores: seq<Store>)
    returns (ghost more: seq<Store>)
    requires pos + |bytes| <= a.Length && a[..] == Stored(d, stores)
    modifies a
    ensures more == stores + [Store(pos, bytes)] && a[..] == Stored(d, more)
  {
    hide Patch, Stored;
    MemCpy(a, pos, bytes);
    more := stores + [Store(pos, bytes)];
    StoredMore(d, stores, Store(pos, bytes));
  }

  method PutZeros(a: array<byte>, pos: nat, count: nat, ghost d: seq<byte>, ghost stores: seq<Store>)
    returns (ghost more: seq<Store>)
    requires pos + count <= a.Length && a[..] == Stored(d, stores)
    modifies a
    ensures more == stores + [Store(pos, Zeros(count))] && a[..] == Stored(d, more)
  {
    hide Patch, Stored;
    ZeroBytes(a, pos, count);
    more := stores + [Store(pos, Zeros(count))];
    StoredMore(d, stores, Store(pos, Zeros(count)));
  }

  method PutMasked(a: array<byte>, pos: nat, mask: u64, ghost d: seq<byte>, ghost stores: seq<Store>)
    returns (ghost v: u64, ghost more: seq<Store>)
    requires pos + 8 <= a.Length && a[..] == Stored(d, stores)
    modifies a
    ensures v <= mask && more == stores + [Store(pos, LE(v, 8))] && a[..] == Stored(d, more)
  {
    hide Patch, Stored, And, LE, FromLE;
    v := And(U64(At(a[..], pos, 8)), mask);
    MaskU64(a, pos, mask);
    more := stores + [Store(pos, LE(v, 8))];
    StoredMore(d, stores, Store(pos, LE(v, 8)));
  }

  lemma NothingStored(d: seq<byte>)
    ensures Stored(d, []) == d
  {
  }
}
