/** A C stream: the file's bytes and a position that every read, write and seek moves. */
module Streams {
  import opened Bytes

  class File {
    var data: seq<byte>
    var pos: nat

    constructor (contents: seq<byte>)
      ensures data == contents && pos == 0
    {
      data, pos := contents, 0;
    }

    method Tell() returns (p: nat)
      ensures p == pos
    {
      p := pos;
    }

    /** Seeking past the end is allowed; only a later read or write notices. */
    method Seek(p: nat)
      modifies this
      ensures data == old(data) && pos == p
    {
      pos := p;
    }

    /** Reads one item of `n` bytes. A short read consumes what is left; an item of no bytes is never read. */
    method Read(n: nat) returns (ok: bool, item: seq<byte>)
      modifies this
      ensures data == old(data)
      ensures ok <==> CanRead(data, old(pos), n)
      ensures ok ==> item == data[old(pos)..old(pos) + n]
      ensures pos == AfterRead(data, old(pos), n)
    {
      if 0 < n && pos + n <= |data| {
        ok, item := true, data[pos..pos + n];
        pos := pos + n;
      } else {
        ok, item := false, [];
        if 0 < n && pos < |data| {
          pos := |data|;
        }
      }
    }

    method Write(b: seq<byte>)
      modifies this
      ensures Holds(old(data), old(pos), b)
    {
      data := Patch(data, pos, b);
      pos := pos + |b|;
    }

    /** What the stream is after the bytes `b` are written to a stream `d` at position `p`. */
    ghost predicate Holds(d: seq<byte>, p: nat, b: seq<byte>)
      reads this
    {
      data == Patch(d, p, b) && pos == p + |b|
    }

    lemma HoldsNothing()
      ensures Holds(data, pos, [])
    {
    }

    /** Writing more after `a` was written is writing the concatenation. */
    lemma HoldsMore(d: seq<byte>, p: nat, a: seq<byte>, d': seq<byte>, p': nat, b: seq<byte>)
      requires d' == Patch(d, p, a) && p' == p + |a|
      requires Holds(d', p', b)
      ensures Holds(d, p, a + b)
    {
      hide Patch;
      PatchTwice(d, p, a, b);
    }
  }

  predicate CanRead(data: seq<byte>, pos: nat, n: nat) {
    0 < n && pos + n <= |data|
  }

  function AfterRead(data: seq<byte>, pos: nat, n: nat): nat {
    if n == 0 || |data| <= pos then pos else if pos + n <= |data| then pos + n else |data|
  }
}
