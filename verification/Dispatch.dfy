/** Cutting copy requests at chunk boundaries and grouping the pieces by chunk,
    `MapDataToChunks` and the first half of `DispatchToGpu` in csrc/sllm_store/model.cpp. */
module Dispatch {
  import opened Arith

  /** Copy `size` bytes at global position `src` to `dst` behind one memory handle. */
  datatype MemCopyChunk = MemCopyChunk(src: nat, size: nat, dst: nat, handle: nat)

  /** A piece of a request that lies in one chunk. */
  datatype ChunkPiece = ChunkPiece(chunkId: nat, chunkOffset: nat, size: nat)

  /** An entry of a device queue; the entry of size 0 marks the end. */
  datatype GpuBatch = GpuBatch(chunkId: nat, chunkOffset: nat, size: nat, gpuOffset: nat, handle: nat)

  const END_MARKER := GpuBatch(0, 0, 0, 0, 0)

  // ---- Cutting a range at chunk boundaries ---------------------------------------------

  /** Pieces of `size` bytes that start at `off` in chunk `c`. */
  function CutFrom(c: nat, off: nat, size: nat, chunk: nat): seq<ChunkPiece>
    requires off < chunk
    decreases size
  {
    if size == 0 then []
    else
      var n := if chunk - off <= size then chunk - off else size;
      [ChunkPiece(c, off, n)] + CutFrom(c + 1, 0, size - n, chunk)
  }

  function Cut(offset: nat, size: nat, chunk: nat): seq<ChunkPiece>
    requires 0 < chunk
  {
    CutFrom(offset / chunk, offset % chunk, size, chunk)
  }

  /** The pieces are consecutive and non-empty, each lies inside one chunk, and together they
      are exactly the range. */
  ghost predicate Tiles(cut: seq<ChunkPiece>, offset: nat, size: nat, chunk: nat)
    decreases |cut|
  {
    if cut == [] then size == 0
    else
      && 0 < cut[0].size <= size
      && cut[0].chunkOffset + cut[0].size <= chunk
      && cut[0].chunkId * chunk + cut[0].chunkOffset == offset
      && Tiles(cut[1..], offset + cut[0].size, size - cut[0].size, chunk)
  }

  lemma {:induction false} CutFromTiles(c: nat, off: nat, size: nat, chunk: nat)
    requires off < chunk
    ensures Tiles(CutFrom(c, off, size, chunk), c * chunk + off, size, chunk)
    decreases size
  {
    if size > 0 {
      var n := if chunk - off <= size then chunk - off else size;
      CutFromTiles(c + 1, 0, size - n, chunk);
      assert (c + 1) * chunk == c * chunk + chunk;
      assert CutFrom(c, off, size, chunk)[1..] == CutFrom(c + 1, 0, size - n, chunk);
      assert n == size ==> CutFrom(c + 1, 0, size - n, chunk) == [];
    }
  }

  lemma {:induction false} CutTiles(offset: nat, size: nat, chunk: nat)
    requires 0 < chunk
    ensures Tiles(Cut(offset, size, chunk), offset, size, chunk)
  {
    CutFromTiles(offset / chunk, offset % chunk, size, chunk);
    assert offset == offset / chunk * chunk + offset % chunk;
  }

  ghost predicate OncePerChunk(cut: seq<ChunkPiece>) {
    forall i, j :: 0 <= i < j < |cut| ==> cut[i].chunkId != cut[j].chunkId
  }

  ghost predicate Ascends(cut: seq<ChunkPiece>, c: nat) {
    forall k :: 0 <= k < |cut| ==> cut[k].chunkId == c + k
  }

  lemma {:induction false} CutFromAscends(c: nat, off: nat, size: nat, chunk: nat)
    requires off < chunk
    ensures Ascends(CutFrom(c, off, size, chunk), c)
    decreases size
  {
    if size > 0 {
      var n := if chunk - off <= size then chunk - off else size;
      var cut, rest := CutFrom(c, off, size, chunk), CutFrom(c + 1, 0, size - n, chunk);
      CutFromAscends(c + 1, 0, size - n, chunk);
      assert cut == [cut[0]] + rest && Ascends(rest, c + 1);
    }
  }

  lemma SamePlace(a: nat, i: nat, b: nat, j: nat, chunk: nat)
    requires i < chunk && j < chunk && a * chunk + i == b * chunk + j
    ensures a == b && i == j
  {
    if a < b {
      MulLess(a, b, chunk);
    } else if b < a {
      MulLess(b, a, chunk);
    }
  }

  /** A piece ends with its chunk or with the range. */
  lemma FirstPiece(cut: seq<ChunkPiece>, c: nat, off: nat, size: nat, chunk: nat)
    requires off < chunk && cut != [] && Tiles(cut, c * chunk + off, size, chunk) && OncePerChunk(cut)
    ensures cut[0] == ChunkPiece(c, off, if chunk - off <= size then chunk - off else size)
  {
    var n := cut[0].size;
    SamePlace(cut[0].chunkId, cut[0].chunkOffset, c, off, chunk);
    if n < chunk - off && n < size {
      var next := cut[1..][0];
      assert cut[1].chunkId != cut[0].chunkId;
      SamePlace(next.chunkId, next.chunkOffset, c, off + n, chunk);
    }
  }

  lemma {:induction false} CutFromUnique(cut: seq<ChunkPiece>, c: nat, off: nat, size: nat, chunk: nat)
    requires off < chunk && Tiles(cut, c * chunk + off, size, chunk) && OncePerChunk(cut)
    ensures cut == CutFrom(c, off, size, chunk)
    decreases |cut|
  {
    if cut != [] {
      FirstPiece(cut, c, off, size, chunk);
      var n := cut[0].size;
      if n == size {
        assert cut[1..] == [];
      } else {
        MulAdd(c, 1, chunk);
        CutFromUnique(cut[1..], c + 1, 0, size - n, chunk);
      }
      assert cut == [cut[0]] + cut[1..];
    }
  }

  lemma {:induction false} CutFromOnly(cut: seq<ChunkPiece>, c: nat, off: nat, size: nat, chunk: nat)
    requires off < chunk
    ensures cut == CutFrom(c, off, size, chunk) <==> Tiles(cut, c * chunk + off, size, chunk) && OncePerChunk(cut)
  {
    CutFromTiles(c, off, size, chunk);
    CutFromAscends(c, off, size, chunk);
    if Tiles(cut, c * chunk + off, size, chunk) && OncePerChunk(cut) {
      CutFromUnique(cut, c, off, size, chunk);
    }
  }

  /** The range is cut at chunk boundaries only: it has one piece in each chunk it touches, and is
      the only way to tile the range so. */
  lemma {:induction false} CutUnique(cut: seq<ChunkPiece>, offset: nat, size: nat, chunk: nat)
    requires 0 < chunk
    ensures cut == Cut(offset, size, chunk) <==> Tiles(cut, offset, size, chunk) && OncePerChunk(cut)
  {
    assert offset == offset / chunk * chunk + offset % chunk;
    CutFromOnly(cut, offset / chunk, offset % chunk, size, chunk);
  }

  const MAX_INT: nat := 0x7fff_ffff

  /** Chunk numbers of the pieces fit the program's `int`. */
  ghost predicate FitInt(cut: seq<ChunkPiece>) {
    forall k :: 0 <= k < |cut| ==> cut[k].chunkId <= MAX_INT
  }

  lemma {:induction false} CutFromFits(c: nat, off: nat, size: nat, chunk: nat)
    requires off < chunk
    ensures FitInt(CutFrom(c, off, size, chunk)) <==> size == 0 || c * chunk + off + size <= (MAX_INT + 1) * chunk
    decreases size
  {
    if size > 0 {
      var n := if chunk - off <= size then chunk - off else size;
      var cut, rest := CutFrom(c, off, size, chunk), CutFrom(c + 1, 0, size - n, chunk);
      CutFromFits(c + 1, 0, size - n, chunk);
      assert cut[1..] == rest && cut[0].chunkId == c;
      assert FitInt(cut) <==> c <= MAX_INT && FitInt(rest) by {
        assert forall k :: 0 < k < |cut| ==> cut[k] == rest[k - 1];
        assert forall k :: 0 <= k < |rest| ==> rest[k] == cut[k + 1];
      }
      ChunkEnds(c, chunk);
    }
  }

  lemma ChunkEnds(c: nat, chunk: nat)
    requires chunk > 0
    ensures (c + 1) * chunk == c * chunk + chunk
    ensures c <= MAX_INT <==> (c + 1) * chunk <= (MAX_INT + 1) * chunk
    ensures c > MAX_INT ==> c * chunk >= (MAX_INT + 1) * chunk
  {
    if c < MAX_INT {
      MulLess(c + 1, MAX_INT + 1, chunk);
    } else if c > MAX_INT + 1 {
      MulLess(MAX_INT + 1, c, chunk);
    }
  }

  /** No chunk number is truncated if and only if the range ends within the first 2^31 chunks. */
  lemma CutFitsIff(offset: nat, size: nat, chunk: nat)
    requires 0 < chunk
    ensures FitInt(Cut(offset, size, chunk)) <==> size == 0 || offset + size <= (MAX_INT + 1) * chunk
  {
    CutFromFits(offset / chunk, offset % chunk, size, chunk);
    assert offset == offset / chunk * chunk + offset % chunk;
  }

  /** The bytes the pieces select from the chunked bytes `s`. */
  function Select<T>(s: seq<T>, cut: seq<ChunkPiece>, chunk: nat): seq<T> {
    if cut == [] then []
    else
      var from := cut[0].chunkId * chunk + cut[0].chunkOffset;
      (if from + cut[0].size <= |s| then s[from..from + cut[0].size] else []) + Select(s, cut[1..], chunk)
  }

  /** Read chunk by chunk, a tiling selects exactly the range. */
  lemma {:induction false} TilesSelect<T>(s: seq<T>, cut: seq<ChunkPiece>, offset: nat, size: nat, chunk: nat)
    requires Tiles(cut, offset, size, chunk) && offset + size <= |s|
    ensures Select(s, cut, chunk) == s[offset..offset + size]
    decreases |cut|
  {
    if cut != [] {
      var n := cut[0].size;
      TilesSelect(s, cut[1..], offset + n, size - n, chunk);
      assert s[offset..offset + n] + s[offset + n..offset + size] == s[offset..offset + size];
    }
  }

  lemma CutFromNext(c: nat, off: nat, size: nat, chunk: nat, done: seq<ChunkPiece>)
    requires off < chunk && size > 0
    ensures var n := if chunk - off <= size then chunk - off else size;
            done + CutFrom(c, off, size, chunk) == (done + [ChunkPiece(c, off, n)]) + CutFrom(c + 1, 0, size - n, chunk)
  {
  }

  method MapDataToChunks(offset: nat, size: nat, chunk: nat) returns (output: seq<ChunkPiece>)
    requires 0 < chunk
    ensures output == Cut(offset, size, chunk)
  {
    output := CutFromChunk(offset / chunk, offset % chunk, size, chunk);
  }

  /** The loop of `MapDataToChunks`. */
  method CutFromChunk(startChunk: nat, offsetInStartChunk: nat, size: nat, chunk: nat) returns (output: seq<ChunkPiece>)
    requires offsetInStartChunk < chunk
    ensures output == CutFrom(startChunk, offsetInStartChunk, size, chunk)
  {
    var remainingData: nat := size;
    output := [];
    var chunkId := startChunk;
    while remainingData > 0
      invariant startChunk <= chunkId
      invariant output + CutFrom(chunkId, if chunkId == startChunk then offsetInStartChunk else 0, remainingData, chunk)
                == CutFrom(startChunk, offsetInStartChunk, size, chunk)
    {
      var chunkDataSize :=
        if chunkId == startChunk then
          if chunk - offsetInStartChunk <= remainingData then chunk - offsetInStartChunk else remainingData
        else
          if chunk <= remainingData then chunk else remainingData;
      var chunkOffset := if chunkId == startChunk then offsetInStartChunk else 0;
      CutFromNext(chunkId, chunkOffset, remainingData, chunk, output);
      output := output + [ChunkPiece(chunkId, chunkOffset, chunkDataSize)];
      remainingData := remainingData - chunkDataSize;
      chunkId := chunkId + 1;
    }
  }

  // ---- Pieces of a request list --------------------------------------------------------

  /** The pieces, each with its destination: the destination runs along with the data. */
  function Place(cut: seq<ChunkPiece>, dst: nat, handle: nat): (s: seq<GpuBatch>)
    ensures |s| == |cut|
  {
    if cut == [] then []
    else
      [GpuBatch(cut[0].chunkId, cut[0].chunkOffset, cut[0].size, dst, handle)] +
      Place(cut[1..], dst + cut[0].size, handle)
  }

  function PiecesOf(req: MemCopyChunk, chunk: nat): seq<GpuBatch>
    requires 0 < chunk
  {
    Place(Cut(req.src, req.size, chunk), req.dst, req.handle)
  }

  /** All pieces of one device's copy list, in list order. */
  function Pieces(reqs: seq<MemCopyChunk>, chunk: nat): seq<GpuBatch>
    requires 0 < chunk
  {
    if reqs == [] then [] else Pieces(reqs[..|reqs| - 1], chunk) + PiecesOf(reqs[|reqs| - 1], chunk)
  }

  /** Piece `x` moves part of the request, to where the request wants it. */
  ghost predicate PartOfRequest(x: GpuBatch, req: MemCopyChunk, chunk: nat) {
    && 0 < x.size && x.chunkOffset + x.size <= chunk && x.handle == req.handle
    && req.dst <= x.gpuOffset && x.gpuOffset + x.size <= req.dst + req.size
    && x.chunkId * chunk + x.chunkOffset == req.src + (x.gpuOffset - req.dst)
  }

  /** Destinations of the two pieces do not overlap. */
  ghost predicate Apart(x: GpuBatch, y: GpuBatch) {
    x.handle != y.handle || x.gpuOffset + x.size <= y.gpuOffset || y.gpuOffset + y.size <= x.gpuOffset
  }

  ghost predicate AllApart(s: seq<GpuBatch>) {
    && (forall i :: 0 <= i < |s| ==> 0 < s[i].size)
    && (forall i, j :: 0 <= i < j < |s| ==> Apart(s[i], s[j]))
  }

  /** Byte `k` of the destination of `req` is written by some piece. */
  ghost predicate Covered(s: seq<GpuBatch>, handle: nat, k: nat) {
    exists i :: 0 <= i < |s| && s[i].handle == handle && s[i].gpuOffset <= k < s[i].gpuOffset + s[i].size
  }

  lemma {:induction false} PlaceSound(cut: seq<ChunkPiece>, req: MemCopyChunk, done: nat, chunk: nat)
    requires done <= req.size && Tiles(cut, req.src + done, req.size - done, chunk)
    ensures var s := Place(cut, req.dst + done, req.handle);
            && (forall i :: 0 <= i < |s| ==> PartOfRequest(s[i], req, chunk) && req.dst + done <= s[i].gpuOffset)
            && AllApart(s)
            && (forall k :: req.dst + done <= k < req.dst + req.size ==> Covered(s, req.handle, k))
    decreases |cut|
  {
    if cut != [] {
      var n := cut[0].size;
      PlaceSound(cut[1..], req, done + n, chunk);
      var s, rest := Place(cut, req.dst + done, req.handle), Place(cut[1..], req.dst + done + n, req.handle);
      assert s == [s[0]] + rest;
      forall k | req.dst + done <= k < req.dst + req.size
        ensures Covered(s, req.handle, k)
      {
        if k < req.dst + done + n {
          assert s[0].gpuOffset <= k < s[0].gpuOffset + s[0].size;
        } else {
          assert Covered(rest, req.handle, k);
          var i :| 0 <= i < |rest| && rest[i].handle == req.handle && rest[i].gpuOffset <= k < rest[i].gpuOffset + rest[i].size;
          assert s[i + 1] == rest[i];
        }
      }
    }
  }

  lemma PiecesOfSound(req: MemCopyChunk, chunk: nat)
    requires 0 < chunk
    ensures var s := PiecesOf(req, chunk);
            && (forall i :: 0 <= i < |s| ==> PartOfRequest(s[i], req, chunk))
            && AllApart(s)
            && (forall k :: req.dst <= k < req.dst + req.size ==> Covered(s, req.handle, k))
  {
    CutTiles(req.src, req.size, chunk);
    PlaceSound(Cut(req.src, req.size, chunk), req, 0, chunk);
  }

  /** Destinations of the two requests do not overlap. */
  ghost predicate RequestsApart(a: MemCopyChunk, b: MemCopyChunk) {
    a.handle != b.handle || a.dst + a.size <= b.dst || b.dst + b.size <= a.dst
  }

  ghost predicate DisjointRequests(reqs: seq<MemCopyChunk>) {
    forall i, j :: 0 <= i < j < |reqs| ==> RequestsApart(reqs[i], reqs[j])
  }

  /** Every piece belongs to a request of the list. */
  lemma {:induction false} PieceHasRequest(reqs: seq<MemCopyChunk>, chunk: nat, i: nat) returns (r: nat)
    requires 0 < chunk && i < |Pieces(reqs, chunk)|
    ensures r < |reqs| && PartOfRequest(Pieces(reqs, chunk)[i], reqs[r], chunk)
  {
    var init := reqs[..|reqs| - 1];
    if i < |Pieces(init, chunk)| {
      r := PieceHasRequest(init, chunk, i);
    } else {
      r := |reqs| - 1;
      PiecesOfSound(reqs[r], chunk);
    }
  }

  /** Disjoint requests have disjoint pieces. */
  lemma {:induction false} PiecesApart(reqs: seq<MemCopyChunk>, chunk: nat)
    requires 0 < chunk && DisjointRequests(reqs)
    ensures AllApart(Pieces(reqs, chunk))
  {
    if reqs != [] {
      var init, last := reqs[..|reqs| - 1], reqs[|reqs| - 1];
      PiecesApart(init, chunk);
      PiecesOfSound(last, chunk);
      var s, t := Pieces(init, chunk), PiecesOf(last, chunk);
      forall i, j | 0 <= i < |s| && 0 <= j < |t|
        ensures Apart(s[i], t[j])
      {
        var r := PieceHasRequest(init, chunk, i);
        assert RequestsApart(reqs[r], reqs[|reqs| - 1]);
      }
    }
  }

  /** Every byte of every request is covered. */
  lemma {:induction false} PiecesCover(reqs: seq<MemCopyChunk>, chunk: nat, r: nat, k: nat) returns (i: nat)
    requires 0 < chunk && r < |reqs| && reqs[r].dst <= k < reqs[r].dst + reqs[r].size
    ensures i < |Pieces(reqs, chunk)|
    ensures Pieces(reqs, chunk)[i].gpuOffset <= k < Pieces(reqs, chunk)[i].gpuOffset + Pieces(reqs, chunk)[i].size
    ensures PartOfRequest(Pieces(reqs, chunk)[i], reqs[r], chunk)
  {
    var init, last := reqs[..|reqs| - 1], reqs[|reqs| - 1];
    if r < |init| {
      i := PiecesCover(init, chunk, r, k);
    } else {
      PiecesOfSound(last, chunk);
      var t := PiecesOf(last, chunk);
      assert Covered(t, last.handle, k);
      var j :| 0 <= j < |t| && t[j].handle == last.handle && t[j].gpuOffset <= k < t[j].gpuOffset + t[j].size;
      i := |Pieces(init, chunk)| + j;
    }
  }
}
