/** Bytes, file contents and the partition list they form, with the byte semantics
    assumed of `pread` and `pwrite`. */
module Bytes {
  type byte = x: int | 0 <= x < 256

  /** What follows position `k` of `s`; nothing when `k` is past the end. */
  function Tail(s: seq<byte>, k: nat): seq<byte> {
    if k <= |s| then s[k..] else []
  }

  /** `buf` with `data` stored over the bytes that start at `off`. */
  function Overlay(buf: seq<byte>, off: nat, data: seq<byte>): (r: seq<byte>)
    requires off + |data| <= |buf|
    ensures |r| == |buf|
    ensures r[off..off + |data|] == data
    ensures forall i :: 0 <= i < |buf| && !(off <= i < off + |data|) ==> r[i] == buf[i]
  {
    buf[..off] + data + buf[off + |data|..]
  }

  /** `pread`: at most `size` bytes, fewer at the end of the file. */
  function PRead(file: seq<byte>, off: nat, size: nat): seq<byte> {
    if off >= |file| then []
    else if off + size <= |file| then file[off..off + size] else file[off..]
  }

  /** `pwrite`: grows the file when needed; a hole reads as zero. */
  function PWrite(file: seq<byte>, off: nat, data: seq<byte>): seq<byte> {
    var end := off + |data|;
    Overlay(if |file| < end then file + seq(end - |file|, _ => 0) else file, off, data)
  }

  /** A write that starts inside or right at the end of the file appends to what
      precedes it and leaves what follows it. */
  lemma PWriteWithin(file: seq<byte>, off: nat, data: seq<byte>)
    requires off <= |file|
    ensures PWrite(file, off, data) == file[..off] + data + Tail(file, off + |data|)
  {
  }

  /** The bytes of all partition files, one after another. */
  function Flat(parts: seq<seq<byte>>): seq<byte> {
    if parts == [] then [] else Flat(parts[..|parts| - 1]) + parts[|parts| - 1]
  }

  /** Global position of the first byte of partition `p`. */
  function Start(parts: seq<seq<byte>>, p: nat): nat
    requires p <= |parts|
  {
    |Flat(parts[..p])|
  }

  lemma {:induction false} FlatAppend(parts: seq<seq<byte>>, last: seq<byte>)
    ensures Flat(parts + [last]) == Flat(parts) + last
  {
    assert (parts + [last])[..|parts|] == parts;
  }

  lemma {:induction false} FlatPrefix(parts: seq<seq<byte>>, p: nat)
    requires p <= |parts|
    ensures Flat(parts[..p]) <= Flat(parts)
  {
    if p == |parts| {
      assert parts[..p] == parts;
    } else {
      FlatPrefix(parts[..|parts| - 1], p);
      assert parts[..|parts| - 1][..p] == parts[..p];
    }
  }

  lemma {:induction false} StartNext(parts: seq<seq<byte>>, p: nat)
    requires p < |parts|
    ensures Start(parts, p + 1) == Start(parts, p) + |parts[p]|
    ensures Start(parts, p + 1) <= |Flat(parts)|
    ensures Flat(parts)[Start(parts, p)..Start(parts, p + 1)] == parts[p]
  {
    assert parts[..p + 1] == parts[..p] + [parts[p]];
    FlatAppend(parts[..p], parts[p]);
    FlatPrefix(parts, p + 1);
    FlatPrefix(parts, p);
  }

  lemma {:induction false} StartMonotone(parts: seq<seq<byte>>, p: nat, q: nat)
    requires p <= q <= |parts|
    ensures Start(parts, p) <= Start(parts, q) <= |Flat(parts)|
  {
    FlatPrefix(parts, q);
    FlatPrefix(parts[..q], p);
    assert parts[..q][..p] == parts[..p];
  }
}
