/** Reading partition files into fixed-size host chunks, `Model::ToHost` of
    csrc/sllm_store/model.cpp. */
module HostLoader {
  import opened Arith
  import opened Bytes
  import opened ConcurrentVectors

  // ---- Which partition a byte is in ----------------------------------------------------

  /** The loop that skips whole partitions: where byte `off` past the start of partition `p`
      lies. The first component is `|parts|` when it lies past the end. */
  function Locate(parts: seq<seq<byte>>, off: nat, p: nat): (nat, nat)
    requires p <= |parts|
    decreases |parts| - p
  {
    if p < |parts| && off >= |parts[p]| then Locate(parts, off - |parts[p]|, p + 1) else (p, off)
  }

  lemma {:induction false} LocateSound(parts: seq<seq<byte>>, off: nat, p: nat)
    requires p <= |parts|
    ensures var (q, r) := Locate(parts, off, p);
            && p <= q <= |parts|
            && Start(parts, q) + r == Start(parts, p) + off
            && (q < |parts| ==> r < |parts[q]|)
    decreases |parts| - p
  {
    if p < |parts| && off >= |parts[p]| {
      StartNext(parts, p);
      LocateSound(parts, off - |parts[p]|, p + 1);
    }
  }

  /** The partition that holds global byte `g`. */
  function PartOf(parts: seq<seq<byte>>, g: nat): nat {
    Locate(parts, g, 0).0
  }

  lemma {:induction false} PartOfBounds(parts: seq<seq<byte>>, g: nat)
    requires g < |Flat(parts)|
    ensures PartOf(parts, g) < |parts|
    ensures Start(parts, PartOf(parts, g)) <= g < Start(parts, PartOf(parts, g)) + |parts[PartOf(parts, g)]|
  {
    LocateSound(parts, g, 0);
    assert parts[..|parts|] == parts;
    assert parts[..0] == [];
  }

  lemma {:induction false} PartOfUnique(parts: seq<seq<byte>>, g: nat, p: nat)
    requires p < |parts| && Start(parts, p) <= g < Start(parts, p) + |parts[p]|
    ensures g < |Flat(parts)| && PartOf(parts, g) == p
  {
    StartNext(parts, p);
    PartOfBounds(parts, g);
    var q := PartOf(parts, g);
    StartNext(parts, q);
    if q < p {
      StartMonotone(parts, q + 1, p);
    } else if p < q {
      StartMonotone(parts, p + 1, q);
    }
  }

  /** Bytes of one partition are bytes of the concatenation. */
  lemma {:induction false} SliceIsFlat(parts: seq<seq<byte>>, p: nat, off: nat, n: nat)
    requires p < |parts| && off + n <= |parts[p]|
    ensures Start(parts, p) + off + n <= |Flat(parts)|
    ensures parts[p][off..off + n] == Flat(parts)[Start(parts, p) + off..Start(parts, p) + off + n]
  {
    StartNext(parts, p);
    var s := Start(parts, p);
    SliceOfSlice(Flat(parts), s, s + |parts[p]|, off, n);
  }

  lemma SliceOfSlice(s: seq<byte>, a: nat, b: nat, off: nat, n: nat)
    requires a <= b <= |s| && off + n <= b - a
    ensures s[a..b][off..off + n] == s[a + off..a + off + n]
  {
    var u, v := s[a..b][off..off + n], s[a + off..a + off + n];
    forall i | 0 <= i < n ensures u[i] == v[i] {
    }
  }

  // ---- Reading one chunk ---------------------------------------------------------------

  /** Outcome of reading one chunk: everything, with the position behind it, or less. */
  datatype ChunkRead = Full(bytes: seq<byte>, part: nat, off: nat) | Short(bytes: seq<byte>)

  /** One `pread`, and after a short one a second `pread` at the start of the next partition. */
  function ReadChunk(parts: seq<seq<byte>>, p: nat, off: nat, size: nat): (r: ChunkRead)
    requires p < |parts|
    ensures |r.bytes| <= size && (r.Full? <==> |r.bytes| == size)
  {
    var b := PRead(parts[p], off, size);
    if |b| == size then Full(b, p, off + size)
    else if p + 1 < |parts| then
      var b2 := PRead(parts[p + 1], 0, size - |b|);
      if |b2| == size - |b| then Full(b + b2, p + 1, |b2|) else Short(b + b2)
    else Short(b)
  }

  lemma {:induction false} ReadWithin(parts: seq<seq<byte>>, p: nat, off: nat, size: nat)
    requires p < |parts| && size > 0 && off + size <= |parts[p]|
    ensures var g := Start(parts, p) + off;
            && g + size <= |Flat(parts)| && PartOf(parts, g + size - 1) == p
            && PRead(parts[p], off, size) == Flat(parts)[g..g + size]
  {
    SliceIsFlat(parts, p, off, size);
    PartOfUnique(parts, Start(parts, p) + off + size - 1, p);
  }

  /** A read succeeds exactly when its last byte is no further than the next partition, and
      then it delivers the bytes of the concatenation. */
  lemma {:induction false} ReadChunkExact(parts: seq<seq<byte>>, p: nat, off: nat, size: nat)
    requires p < |parts| && off <= |parts[p]| && size > 0
    requires Start(parts, p) + off + size <= |Flat(parts)|
    ensures var g := Start(parts, p) + off;
            var r := ReadChunk(parts, p, off, size);
            && (r.Full? <==> PartOf(parts, g + size - 1) <= p + 1)
            && (r.Full? ==>
                  && r.bytes == Flat(parts)[g..g + size]
                  && r.part == PartOf(parts, g + size - 1) < |parts|
                  && r.off <= |parts[r.part]| && Start(parts, r.part) + r.off == g + size)
  {
    var g, last := Start(parts, p) + off, Start(parts, p) + off + size - 1;
    StartNext(parts, p);
    PartOfBounds(parts, last);
    if off + size <= |parts[p]| {
      ReadWithin(parts, p, off, size);
    } else {
      LastPartIsLater(parts, p, last);
      if p + 1 < |parts| {
        ReadAcross(parts, p, off, size);
      }
    }
  }

  lemma JoinSlices(s: seq<byte>, a: nat, b: nat, c: nat)
    requires a <= b <= c <= |s|
    ensures s[a..b] + s[b..c] == s[a..c]
  {
  }

  lemma {:induction false} ReadAcross(parts: seq<seq<byte>>, p: nat, off: nat, size: nat)
    requires p + 1 < |parts| && off <= |parts[p]| < off + size
    requires Start(parts, p) + off + size <= |Flat(parts)|
    ensures var g := Start(parts, p) + off;
            var n := size - (|parts[p]| - off);
            && (n <= |parts[p + 1]| <==> PartOf(parts, g + size - 1) <= p + 1)
            && (n <= |parts[p + 1]| ==>
                  && parts[p][off..] + parts[p + 1][..n] == Flat(parts)[g..g + size]
                  && PartOf(parts, g + size - 1) == p + 1
                  && Start(parts, p + 1) + n == g + size)
  {
    var g, k := Start(parts, p) + off, |parts[p]| - off;
    var last := g + size - 1;
    StartNext(parts, p);
    StartNext(parts, p + 1);
    if size - k <= |parts[p + 1]| {
      SliceIsFlat(parts, p, off, k);
      SliceIsFlat(parts, p + 1, 0, size - k);
      JoinSlices(Flat(parts), g, g + k, g + size);
      assert parts[p][off..] == parts[p][off..off + k] && parts[p + 1][..size - k] == parts[p + 1][0..size - k];
      PartOfUnique(parts, last, p + 1);
    } else {
      LastPartIsLater(parts, p + 1, last);
    }
  }

  lemma {:induction false} LastPartIsLater(parts: seq<seq<byte>>, p: nat, last: nat)
    requires p < |parts| && Start(parts, p + 1) <= last < |Flat(parts)|
    ensures p < PartOf(parts, last) < |parts|
  {
    PartOfBounds(parts, last);
    var q := PartOf(parts, last);
    if q <= p {
      StartNext(parts, q);
      StartMonotone(parts, q + 1, p + 1);
    }
  }

  // ---- Chunks and threads --------------------------------------------------------------

  /** What a load reads, the chunk size and the number of I/O threads. */
  datatype LoadConfig = LoadConfig(parts: seq<seq<byte>>, chunk: nat, threads: nat) {
    predicate Valid() {
      0 < chunk && 0 < threads && |Flat(parts)| > 0
    }

    function Total(): nat {
      |Flat(parts)|
    }

    function NumChunks(): nat
      requires Valid()
    {
      CeilDiv(Total(), chunk)
    }

    function ChunkPerThread(): nat
      requires Valid()
    {
      CeilDiv(NumChunks(), threads)
    }

    /** First chunk of thread `t`. */
    function Lo(t: nat): nat
      requires Valid()
    {
      t * ChunkPerThread()
    }

    /** End of the chunk range of thread `t`. */
    function Hi(t: nat): nat
      requires Valid()
    {
      if (t + 1) * ChunkPerThread() <= NumChunks() then (t + 1) * ChunkPerThread() else NumChunks()
    }

    /** Global position of the first byte of chunk `i`. */
    function Pos(i: nat): nat {
      i * chunk
    }

    /** Number of bytes chunk `i` holds; the last chunk may be short. */
    function Size(i: nat): nat {
      if Pos(i) + chunk <= Total() then chunk else if Pos(i) <= Total() then Total() - Pos(i) else 0
    }

    /** The bytes chunk `i` is to hold. */
    function Content(i: nat): seq<byte>
      requires Valid() && i < NumChunks()
    {
      SizeBounds(i);
      Flat(parts)[Pos(i)..Pos(i) + Size(i)]
    }

    lemma SizeBounds(i: nat)
      requires Valid() && i < NumChunks()
      ensures 0 < Size(i) <= chunk && Pos(i) + Size(i) <= Total()
      ensures Pos(i + 1) == Pos(i) + chunk
      ensures i + 1 < NumChunks() ==> Pos(i) + Size(i) == Pos(i + 1) < Total()
      ensures i + 1 == NumChunks() ==> Pos(i) + Size(i) == Total()
    {
      CeilDivBounds(Total(), chunk);
      if i + 1 < NumChunks() {
        MulLess(i + 1, NumChunks(), chunk);
      }
    }

    /** The thread ranges cover every chunk; `RangesDisjoint` says: only once. */
    lemma ThreadOfChunk(i: nat) returns (t: nat)
      requires Valid() && i < NumChunks()
      ensures t < threads && Lo(t) <= i < Hi(t)
    {
      CeilDivBounds(NumChunks(), threads);
      t := i / ChunkPerThread();
      DivLess(i, threads, ChunkPerThread());
    }

    lemma RangesDisjoint(t: nat, u: nat, i: nat)
      requires Valid() && Lo(t) <= i < Hi(t) && Lo(u) <= i < Hi(u)
      ensures t == u
    {
      var c := ChunkPerThread();
      assert (t + 1) * c == t * c + c && (u + 1) * c == u * c + c;
      if u < t {
        MulLess(u, t, c);
      } else if t < u {
        MulLess(t, u, c);
      }
    }

    /** The chunks are shared evenly: with one chunk less, a thread's share would be below the
        average. */
    lemma ShareBound(t: nat)
      requires Valid()
      ensures Hi(t) > Lo(t) ==> (Hi(t) - Lo(t) - 1) * threads < NumChunks()
    {
      var c := ChunkPerThread();
      CeilDivBounds(NumChunks(), threads);
      MulAdd(t, 1, c);
      if Hi(t) > Lo(t) {
        var less := c - (Hi(t) - Lo(t));
        MulAdd(Hi(t) - Lo(t) - 1, less + 1, threads);
        MulAdd(less, 1, threads);
      }
    }

    /** In front of a thread that has chunks all threads have the same number, no fewer than it, and
        theirs come first. */
    lemma EqualShares(t: nat, u: nat)
      requires Valid() && t < u && Lo(u) < Hi(u)
      ensures Hi(t) - Lo(t) == Hi(0) - Lo(0) >= Hi(u) - Lo(u)
      ensures Hi(t) <= Lo(u)
    {
      var c := ChunkPerThread();
      MulAdd(t, 1, c);
      MulAdd(u, 1, c);
      MulLess(t, u, c);
      if t > 0 {
        MulLess(0, t, c);
      }
    }

    /** A thread finds no partition to start in exactly when it has no chunk to read. */
    lemma EarlyExit(t: nat)
      requires Valid()
      ensures Locate(parts, Pos(Lo(t)), 0).0 == |parts| <==> Lo(t) >= Hi(t)
      ensures Lo(t) >= Hi(t) <==> Lo(t) >= NumChunks()
    {
      var c := ChunkPerThread();
      CeilDivBounds(Total(), chunk);
      CeilDivBounds(NumChunks(), threads);
      assert c == 0 ==> c * threads == 0;
      assert (t + 1) * c == t * c + c;
      LocateSound(parts, Pos(Lo(t)), 0);
      assert parts[..0] == [] && parts[..|parts|] == parts;
      if Lo(t) < NumChunks() {
        SizeBounds(Lo(t));
        PartOfBounds(parts, Pos(Lo(t)));
      } else {
        assert Pos(Lo(t)) >= Pos(NumChunks()) by {
          if Lo(t) > NumChunks() {
            MulLess(NumChunks(), Lo(t), chunk);
          }
        }
        var (q, r) := Locate(parts, Pos(Lo(t)), 0);
        if q < |parts| {
          StartNext(parts, q);
        }
      }
    }

    /** Partition in which a thread that began at chunk `lo` stands before chunk `i`: a thread
        starts in the partition of its first byte, and otherwise still stands where the
        previous chunk ended. */
    function StandsIn(lo: nat, i: nat): nat
      requires lo <= i
    {
      if i == lo || Pos(i) == 0 then PartOf(parts, Pos(i)) else PartOf(parts, Pos(i) - 1)
    }

    /** Chunk `i` ends no further than the partition after the one its reader stands in. */
    predicate Readable(lo: nat, i: nat)
      requires lo <= i
    {
      Pos(i) + Size(i) > 0 && PartOf(parts, Pos(i) + Size(i) - 1) <= StandsIn(lo, i) + 1
    }

    predicate AllReadable(lo: nat, hi: nat) {
      forall i: nat :: lo <= i < hi ==> Readable(lo, i)
    }

    /** The position `(p, off)` is right for reading chunk `i` next. */
    predicate AtChunk(lo: nat, i: nat, p: nat, off: nat)
      requires Valid() && lo <= i
    {
      && p < |parts| && off <= |parts[p]|
      && (i < NumChunks() ==> Start(parts, p) + off == Pos(i) && p == StandsIn(lo, i))
    }

    lemma StartsAtChunk(t: nat)
      requires Valid() && Lo(t) < Hi(t)
      ensures var (p, off) := Locate(parts, Pos(Lo(t)), 0); AtChunk(Lo(t), Lo(t), p, off)
    {
      EarlyExit(t);
      LocateSound(parts, Pos(Lo(t)), 0);
      assert parts[..0] == [];
    }

    /** Reading chunk `i` from the right position succeeds exactly when the chunk is readable;
        it then delivers the chunk and leaves the right position for the next one. */
    lemma ReadsChunk(lo: nat, i: nat, p: nat, off: nat)
      requires Valid() && lo <= i < NumChunks() && AtChunk(lo, i, p, off)
      ensures Size(i) > 0
      ensures var r := ReadChunk(parts, p, off, Size(i));
              && (r.Full? <==> Readable(lo, i))
              && (r.Full? ==> r.bytes == Content(i) && AtChunk(lo, i + 1, r.part, r.off))
    {
      SizeBounds(i);
      ReadChunkExact(parts, p, off, Size(i));
    }

    /** When every partition except the first and the last is at least one chunk long, every
        chunk is readable, wherever its reader began. */
    lemma LongPartitionsReadable(lo: nat, i: nat)
      requires Valid() && lo <= i < NumChunks()
      requires forall p :: 0 < p < |parts| - 1 ==> |parts[p]| >= chunk
      ensures Readable(lo, i)
    {
      SizeBounds(i);
      var from := if i == lo || Pos(i) == 0 then Pos(i) else Pos(i) - 1;
      var last := Pos(i) + Size(i) - 1;
      if PartOf(parts, last) > PartOf(parts, from) + 1 {
        PartitionBetween(parts, from, last);
      }
    }
  }

  /** Two bytes that are more than one partition apart are further apart than the partition
      between them is long. */
  lemma {:induction false} PartitionBetween(parts: seq<seq<byte>>, from: nat, last: nat)
    requires from <= last < |Flat(parts)| && PartOf(parts, last) > PartOf(parts, from) + 1
    ensures 0 < PartOf(parts, from) + 1 < |parts| - 1
    ensures last - from > |parts[PartOf(parts, from) + 1]|
  {
    PartOfBounds(parts, from);
    PartOfBounds(parts, last);
    var p := PartOf(parts, from);
    StartNext(parts, p);
    StartNext(parts, p + 1);
    StartMonotone(parts, p + 2, PartOf(parts, last));
  }

  /** What a thread announces: a chunk that is in memory, and its size. */
  datatype Batch = Batch(chunkId: nat, size: nat)

  /** What a thread announces about chunks `[lo, hi)`, in the order it reads them. */
  function Announced(cfg: LoadConfig, lo: nat, hi: nat): seq<Batch>
    requires cfg.Valid() && hi <= cfg.NumChunks()
    decreases hi
  {
    if hi <= lo then [] else Announced(cfg, lo, hi - 1) + [Batch(hi - 1, cfg.Size(hi - 1))]
  }

  lemma {:induction false} AnnouncedAt(cfg: LoadConfig, lo: nat, hi: nat)
    requires cfg.Valid() && hi <= cfg.NumChunks()
    ensures var items := Announced(cfg, lo, hi);
            && |items| == (if hi <= lo then 0 else hi - lo)
            && forall k :: 0 <= k < |items| ==> items[k] == Batch(lo + k, cfg.Size(lo + k))
    decreases hi
  {
    if lo < hi {
      AnnouncedAt(cfg, lo, hi - 1);
    }
  }

  /** One I/O thread: finds its first partition, then reads its chunks one by one into the host
      buffers and announces each. It reports success exactly when each of its chunks is
      readable. */
  method LoadThread(cfg: LoadConfig, t: nat, host: array<seq<byte>>, loaded: ConcurrentVector<Batch>) returns (ret: int)
    requires cfg.Valid() && t < cfg.threads
    requires host.Length == cfg.NumChunks() && forall i :: 0 <= i < host.Length ==> |host[i]| == cfg.chunk
    requires loaded.Valid() && loaded.capacity == cfg.NumChunks()
    requires forall k :: k in loaded.keys ==> k < loaded.capacity && !(cfg.Lo(t) <= k < cfg.Hi(t))
    modifies host, loaded, loaded.data
    ensures loaded.Valid()
    ensures ret == 0 <==> cfg.AllReadable(cfg.Lo(t), cfg.Hi(t))
    ensures ret == 0 ==> forall i :: cfg.Lo(t) <= i < cfg.Hi(t) ==> Holds(cfg, host[i], i)
    ensures forall i :: 0 <= i < host.Length && !(cfg.Lo(t) <= i < cfg.Hi(t)) ==> host[i] == old(host[i])
    ensures ret == 0 ==> loaded.Items() == old(loaded.Items()) + Announced(cfg, cfg.Lo(t), cfg.Hi(t))
    ensures ret == 0 ==>
              var n := |loaded.Items()| - |old(loaded.Items())|;
              0 <= n && (n > 0 ==> (n - 1) * cfg.threads < cfg.NumChunks())
  {
    cfg.ShareBound(t);
    AnnouncedAt(cfg, cfg.Lo(t), cfg.Hi(t));
    var partitionId, fileOffset := FindStart(cfg.parts, cfg.Pos(cfg.Lo(t)));
    cfg.EarlyExit(t);
    if partitionId >= |cfg.parts| {
      return 0;
    }
    cfg.StartsAtChunk(t);
    ret := LoadRange(cfg, cfg.Lo(t), cfg.Hi(t), partitionId, fileOffset, host, loaded);
  }

  /** The thread's loop over its chunks `[lo, hi)`. */
  method LoadRange(cfg: LoadConfig, lo: nat, hi: nat, part: nat, offset: nat, host: array<seq<byte>>, loaded: ConcurrentVector<Batch>) returns (ret: int)
    requires cfg.Valid() && lo <= hi <= cfg.NumChunks() && cfg.AtChunk(lo, lo, part, offset)
    requires host.Length == cfg.NumChunks() && forall i :: 0 <= i < host.Length ==> |host[i]| == cfg.chunk
    requires loaded.Valid() && loaded.capacity == cfg.NumChunks()
    requires forall k :: k in loaded.keys ==> k < loaded.capacity && !(lo <= k < hi)
    modifies host, loaded, loaded.data
    ensures loaded.Valid()
    ensures ret == 0 <==> cfg.AllReadable(lo, hi)
    ensures ret == 0 ==> forall i :: lo <= i < hi ==> Holds(cfg, host[i], i)
    ensures forall i :: 0 <= i < host.Length && !(lo <= i < hi) ==> host[i] == old(host[i])
    ensures ret == 0 ==> loaded.Items() == old(loaded.Items()) + Announced(cfg, lo, hi)
  {
    var partitionId, fileOffset := part, offset;
    var chunkIdx := lo;
    while chunkIdx < hi
      invariant lo <= chunkIdx <= hi
      invariant cfg.AtChunk(lo, chunkIdx, partitionId, fileOffset)
      invariant cfg.AllReadable(lo, chunkIdx)
      invariant forall i :: lo <= i < chunkIdx ==> Holds(cfg, host[i], i)
      invariant forall i :: 0 <= i < host.Length && !(lo <= i < chunkIdx) ==> host[i] == old(host[i])
      invariant loaded.Valid()
      invariant forall k :: k in loaded.keys ==> k < loaded.capacity && !(chunkIdx <= k < hi)
      invariant loaded.Items() == old(loaded.Items()) + Announced(cfg, lo, chunkIdx)
    {
      var ok;
      ok, partitionId, fileOffset := LoadChunk(cfg, lo, chunkIdx, partitionId, fileOffset, host, loaded);
      if !ok {
        return -1;
      }
      chunkIdx := chunkIdx + 1;
    }
    return 0;
  }

  method FindStart(parts: seq<seq<byte>>, pos: nat) returns (partitionId: nat, fileOffset: nat)
    ensures partitionId <= |parts| && (partitionId, fileOffset) == Locate(parts, pos, 0)
  {
    partitionId, fileOffset := 0, pos;
    while partitionId < |parts| && fileOffset >= |parts[partitionId]|
      invariant 0 <= partitionId <= |parts|
      invariant Locate(parts, fileOffset, partitionId) == Locate(parts, pos, 0)
    {
      fileOffset := fileOffset - |parts[partitionId]|;
      partitionId := partitionId + 1;
    }
  }

  /** The buffer begins with the content of chunk `i`. */
  ghost predicate Holds(cfg: LoadConfig, buf: seq<byte>, i: nat)
    requires cfg.Valid() && i < cfg.NumChunks()
  {
    cfg.Size(i) <= |buf| && buf[..cfg.Size(i)] == cfg.Content(i)
  }

  /** One round of the thread's loop. */
  method LoadChunk(cfg: LoadConfig, ghost lo: nat, i: nat, part: nat, offset: nat, host: array<seq<byte>>, loaded: ConcurrentVector<Batch>)
    returns (ok: bool, part': nat, offset': nat)
    requires cfg.Valid() && lo <= i < cfg.NumChunks() && cfg.AtChunk(lo, i, part, offset)
    requires i < host.Length && |host[i]| == cfg.chunk
    requires loaded.Valid() && loaded.capacity == cfg.NumChunks()
    requires i !in loaded.keys && forall k :: k in loaded.keys ==> k < loaded.capacity
    modifies host, loaded, loaded.data
    ensures loaded.Valid()
    ensures ok <==> cfg.Readable(lo, i)
    ensures ok ==> cfg.AtChunk(lo, i + 1, part', offset') && Holds(cfg, host[i], i)
    ensures ok ==> loaded.keys == old(loaded.keys) + {i}
    ensures ok ==> loaded.Items() == old(loaded.Items()) + [Batch(i, cfg.Size(i))]
    ensures |host[i]| == cfg.chunk
    ensures forall j :: 0 <= j < host.Length && j != i ==> host[j] == old(host[j])
  {
    cfg.SizeBounds(i);
    cfg.ReadsChunk(lo, i, part, offset);
    var size := cfg.Size(i);
    var buf;
    ok, buf, part', offset' := ReadInto(cfg.parts, part, offset, size, host[i]);
    host[i] := buf;
    if ok {
      loaded.Enqueue(i, Batch(i, size));
    }
  }

  /** The two `pread` calls for one chunk, into the chunk's buffer. */
  method ReadInto(parts: seq<seq<byte>>, part: nat, offset: nat, size: nat, buf: seq<byte>)
    returns (ok: bool, buf': seq<byte>, part': nat, offset': nat)
    requires part < |parts| && size <= |buf|
    ensures var r := ReadChunk(parts, part, offset, size);
            && ok == r.Full?
            && buf' == Overlay(buf, 0, r.bytes)
            && (ok ==> part' == r.part && offset' == r.off)
  {
    part', offset' := part, offset;
    var b := PRead(parts[part'], offset', size);
    buf' := Overlay(buf, 0, b);
    if |b| != size {
      if part' + 1 >= |parts| {
        return false, buf', part', offset';
      }
      part', offset' := part' + 1, 0;
      var remaining := size - |b|;
      var b2 := PRead(parts[part'], offset', remaining);
      OverlayTwice(buf, b, b2);
      buf' := Overlay(buf', |b|, b2);
      if |b2| != remaining {
        return false, buf', part', offset';
      }
      return true, buf', part', offset' + |b2|;
    }
    return true, buf', part', offset' + |b|;
  }

  lemma OverlayTwice(buf: seq<byte>, a: seq<byte>, b: seq<byte>)
    requires |a| + |b| <= |buf|
    ensures Overlay(Overlay(buf, 0, a), |a|, b) == Overlay(buf, 0, a + b)
  {
  }
}
