/** The partitioned record writer of csrc/checkpoint/tensor_writer.cpp. */
module TensorWriters {
  import opened Bytes
  import opened AlignedBuffers

  const K_PARTITION_MAX_SIZE: nat := 0x2_8000_0000

  /** The sizes the writer is compiled with. */
  datatype WriterConfig = WriterConfig(bufSize: nat, limit: nat) {
    ghost predicate Valid() {
      && 0 < bufSize && bufSize % 4096 == 0
      && limit % 8 == 0
    }
  }

  const SOURCE_CONFIG := WriterConfig(K_BUFFER_SIZE, K_PARTITION_MAX_SIZE)

  lemma SourceConfigValid()
    ensures SOURCE_CONFIG.Valid()
  {
  }

  // ---- Where records of given sizes go -------------------------------------------------

  function Padding(size: nat): nat {
    if size % 8 != 0 then 8 - size % 8 else 0
  }

  /** Bytes one record occupies, padding included. */
  function Padded(size: nat): nat {
    size + Padding(size)
  }

  lemma PaddedBounds(size: nat)
    ensures Padded(size) % 8 == 0 && size <= Padded(size) < size + 8
  {
  }

  lemma SumAligned(a: nat, b: nat)
    requires a % 8 == 0 && b % 8 == 0
    ensures (a + b) % 8 == 0
  {
  }

  lemma PaddedFits(filled: nat, size: nat, limit: nat)
    requires filled % 8 == 0 && limit % 8 == 0 && filled + size <= limit
    ensures filled + Padded(size) <= limit
  {
    PaddedBounds(size);
  }

  /** Bytes that records of these sizes occupy. */
  function SumPadded(sizes: seq<nat>): nat {
    if sizes == [] then 0
    else SumPadded(sizes[..|sizes| - 1]) + Padded(sizes[|sizes| - 1])
  }

  lemma {:induction false} SumPaddedAligned(sizes: seq<nat>)
    ensures SumPadded(sizes) % 8 == 0
  {
    if sizes != [] {
      SumPaddedAligned(sizes[..|sizes| - 1]);
      PaddedBounds(sizes[|sizes| - 1]);
    }
  }

  lemma {:induction false} SumPaddedAppend(sizes: seq<nat>, size: nat)
    ensures SumPadded(sizes + [size]) == SumPadded(sizes) + Padded(size)
  {
    assert (sizes + [size])[..|sizes|] == sizes;
  }

  lemma SumPaddedOne(size: nat)
    ensures SumPadded([size]) == Padded(size)
  {
    assert [size][..0] == [];
  }

  lemma {:induction false} SumPaddedMonotone(sizes: seq<nat>, i: nat)
    requires i < |sizes|
    ensures SumPadded(sizes[..i]) + sizes[i] <= SumPadded(sizes)
  {
    var init := sizes[..|sizes| - 1];
    if i < |init| {
      SumPaddedMonotone(init, i);
      assert init[..i] == sizes[..i];
    }
  }

  /** The record sizes of each partition: a record opens a partition when there is none yet
      or when it would take the open one over the limit. */
  function Layout(sizes: seq<nat>, limit: nat): seq<seq<nat>> {
    if sizes == [] then []
    else Place(Layout(sizes[..|sizes| - 1], limit), sizes[|sizes| - 1], limit)
  }

  function Place(groups: seq<seq<nat>>, size: nat, limit: nat): seq<seq<nat>> {
    if groups == [] || SumPadded(groups[|groups| - 1]) + size > limit then groups + [[size]]
    else groups[..|groups| - 1] + [groups[|groups| - 1] + [size]]
  }

  function FlattenSizes(groups: seq<seq<nat>>): seq<nat> {
    if groups == [] then [] else FlattenSizes(groups[..|groups| - 1]) + groups[|groups| - 1]
  }

  /** The rollover rule, as a reader of the files sees it: no partition is without records,
      each one stays within the limit unless it consists of a single record, and each one was
      closed only because the first record of the next did not fit. */
  ghost predicate GreedyCut(groups: seq<seq<nat>>, limit: nat) {
    && (forall p :: 0 <= p < |groups| ==> groups[p] != [])
    && (forall p :: 0 <= p < |groups| ==> SumPadded(groups[p]) <= limit || |groups[p]| == 1)
    && (forall p :: 0 < p < |groups| ==> SumPadded(groups[p - 1]) + groups[p][0] > limit)
  }

  lemma PlaceGreedy(groups: seq<seq<nat>>, size: nat, limit: nat)
    requires limit % 8 == 0 && GreedyCut(groups, limit)
    ensures GreedyCut(Place(groups, size, limit), limit)
  {
    var groups', k := Place(groups, size, limit), |groups| - 1;
    if |groups'| == |groups| {
      var open := groups[k];
      SumPaddedAppend(open, size);
      SumPaddedAligned(open);
      PaddedFits(SumPadded(open), size, limit);
      assert (open + [size])[0] == open[0];
    }
  }

  lemma {:induction false} PlaceFlatten(groups: seq<seq<nat>>, size: nat, limit: nat)
    ensures FlattenSizes(Place(groups, size, limit)) == FlattenSizes(groups) + [size]
  {
    var groups', k := Place(groups, size, limit), |groups| - 1;
    if |groups'| == |groups| {
      assert groups'[..k] == groups[..k];
      assert FlattenSizes(groups') == FlattenSizes(groups[..k]) + (groups[k] + [size]);
    } else {
      assert groups'[..|groups|] == groups;
    }
  }

  /** The partitions cut the record sequence ... */
  lemma {:induction false} LayoutFlatten(sizes: seq<nat>, limit: nat)
    ensures FlattenSizes(Layout(sizes, limit)) == sizes
  {
    if sizes != [] {
      var init, size := sizes[..|sizes| - 1], sizes[|sizes| - 1];
      LayoutFlatten(init, limit);
      PlaceFlatten(Layout(init, limit), size, limit);
    }
  }

  /** ... by the rollover rule. */
  lemma {:induction false} LayoutGreedy(sizes: seq<nat>, limit: nat)
    requires limit % 8 == 0
    ensures GreedyCut(Layout(sizes, limit), limit)
  {
    if sizes != [] {
      var init := sizes[..|sizes| - 1];
      LayoutGreedy(init, limit);
      PlaceGreedy(Layout(init, limit), sizes[|sizes| - 1], limit);
    }
  }

  /** The rule determines the cut: the writer's is the only one that satisfies it. */
  lemma {:induction false} LayoutUnique(groups: seq<seq<nat>>, limit: nat)
    requires GreedyCut(groups, limit)
    ensures Layout(FlattenSizes(groups), limit) == groups
    decreases |FlattenSizes(groups)|, |groups|
  {
    if groups != [] {
      var k := |groups| - 1;
      var open := groups[k];
      var size := open[|open| - 1];
      if |open| == 1 {
        OpenGreedy(groups, limit);
        assert FlattenSizes(groups) == FlattenSizes(groups[..k]) + open;
        LayoutUnique(groups[..k], limit);
        LayoutOf(groups[..k], groups, limit);
      } else {
        UnplaceGreedy(groups, limit);
        var smaller := groups[..k] + [open[..|open| - 1]];
        PlaceFlatten(smaller, size, limit);
        LayoutUnique(smaller, limit);
        LayoutOf(smaller, groups, limit);
      }
    }
  }

  lemma {:induction false} LayoutOf(smaller: seq<seq<nat>>, groups: seq<seq<nat>>, limit: nat)
    requires groups != [] && groups[|groups| - 1] != []
    requires Layout(FlattenSizes(smaller), limit) == smaller
    requires Place(smaller, Last(groups[|groups| - 1]), limit) == groups
    ensures Layout(FlattenSizes(groups), limit) == groups
  {
    var size := Last(groups[|groups| - 1]);
    PlaceFlatten(smaller, size, limit);
    assert FlattenSizes(groups)[..|FlattenSizes(smaller)|] == FlattenSizes(smaller);
  }

  lemma OpenGreedy(groups: seq<seq<nat>>, limit: nat)
    requires GreedyCut(groups, limit) && groups != [] && |groups[|groups| - 1]| == 1
    ensures var k := |groups| - 1;
            && GreedyCut(groups[..k], limit)
            && Place(groups[..k], groups[k][0], limit) == groups
  {
    var k := |groups| - 1;
    var init, size := groups[..k], groups[k][0];
    assert groups[k] == [size];
    assert groups == init + [[size]];
    assert k > 0 ==> SumPadded(groups[k - 1]) + size > limit;
  }

  function Last(s: seq<nat>): nat
    requires s != []
  {
    s[|s| - 1]
  }

  lemma UnplaceGreedy(groups: seq<seq<nat>>, limit: nat)
    requires GreedyCut(groups, limit) && groups != [] && |groups[|groups| - 1]| > 1
    ensures var k := |groups| - 1;
            var open := groups[k];
            var smaller := groups[..k] + [open[..|open| - 1]];
            GreedyCut(smaller, limit) && Place(smaller, open[|open| - 1], limit) == groups
  {
    var k := |groups| - 1;
    var open := groups[k];
    var rest := open[..|open| - 1];
    assert open == rest + [open[|open| - 1]];
    SumPaddedAppend(rest, open[|open| - 1]);
    var smaller := groups[..k] + [rest];
    assert smaller[..k] == groups[..k];
    assert groups == groups[..k] + [open];
  }

  function LayoutBytes(groups: seq<seq<nat>>): nat {
    if groups == [] then 0
    else LayoutBytes(groups[..|groups| - 1]) + SumPadded(groups[|groups| - 1])
  }

  lemma {:induction false} LayoutBytesAppend(groups: seq<seq<nat>>, group: seq<nat>)
    ensures LayoutBytes(groups + [group]) == LayoutBytes(groups) + SumPadded(group)
  {
    assert (groups + [group])[..|groups|] == groups;
  }

  lemma {:induction false} PlaceBytes(groups: seq<seq<nat>>, size: nat, limit: nat)
    ensures LayoutBytes(Place(groups, size, limit)) == LayoutBytes(groups) + Padded(size)
  {
    var k := |groups| - 1;
    if |Place(groups, size, limit)| == |groups| {
      assert groups == groups[..k] + [groups[k]];
      LayoutBytesAppend(groups[..k], groups[k]);
      LayoutBytesAppend(groups[..k], groups[k] + [size]);
      SumPaddedAppend(groups[k], size);
    } else {
      LayoutBytesAppend(groups, [size]);
      SumPaddedOne(size);
    }
  }

  /** Total file size is the total padded size of the records. */
  lemma {:induction false} LayoutTotal(sizes: seq<nat>, limit: nat)
    ensures LayoutBytes(Layout(sizes, limit)) == SumPadded(sizes)
  {
    if sizes != [] {
      var init := sizes[..|sizes| - 1];
      LayoutTotal(init, limit);
      PlaceBytes(Layout(init, limit), sizes[|sizes| - 1], limit);
    }
  }

  /** When every record leaves room for `chunk` more bytes below the limit, every partition
      but the last is at least one chunk long. */
  lemma {:induction false} ClosedPartitionsLong(sizes: seq<nat>, limit: nat, chunk: nat)
    requires limit % 8 == 0
    requires forall i :: 0 <= i < |sizes| ==> sizes[i] + chunk <= limit
    ensures var groups := Layout(sizes, limit);
            forall p :: 0 <= p < |groups| - 1 ==> SumPadded(groups[p]) >= chunk
  {
    LayoutFlatten(sizes, limit);
    LayoutGreedy(sizes, limit);
    var groups := Layout(sizes, limit);
    forall p | 0 <= p < |groups| - 1
      ensures SumPadded(groups[p]) >= chunk
    {
      FlattenContains(groups, p + 1, 0);
      assert SumPadded(groups[p + 1 - 1]) + groups[p + 1][0] > limit;
    }
  }

  lemma {:induction false} FlattenContains(groups: seq<seq<nat>>, p: nat, i: nat)
    requires p < |groups| && i < |groups[p]|
    ensures groups[p][i] in FlattenSizes(groups)
  {
    if p < |groups| - 1 {
      FlattenContains(groups[..|groups| - 1], p, i);
    }
  }

  function Sizes(recs: seq<seq<byte>>): (s: seq<nat>)
    ensures |s| == |recs|
    ensures forall i :: 0 <= i < |recs| ==> s[i] == |recs[i]|
  {
    seq(|recs|, i requires 0 <= i < |recs| => |recs[i]|)
  }

  /** Global offset of record `i`. */
  function RecordOffset(recs: seq<seq<byte>>, i: nat): nat
    requires i <= |recs|
  {
    SumPadded(Sizes(recs)[..i])
  }

  /** `stream` holds every record at its global offset and nothing beyond the last one. */
  ghost predicate Holds(stream: seq<byte>, recs: seq<seq<byte>>) {
    && |stream| == SumPadded(Sizes(recs))
    && forall i :: 0 <= i < |recs| ==> HeldAt(stream, recs, i)
  }

  ghost predicate HeldAt(stream: seq<byte>, recs: seq<seq<byte>>, i: nat)
    requires i < |recs|
  {
    var off := RecordOffset(recs, i);
    off + |recs[i]| <= |stream| && stream[off..off + |recs[i]|] == recs[i]
  }

  lemma HoldsAppend(stream: seq<byte>, recs: seq<seq<byte>>, data: seq<byte>, pad: seq<byte>)
    requires Holds(stream, recs) && |pad| == Padding(|data|)
    ensures Holds(stream + data + pad, recs + [data])
  {
    var recs', stream' := recs + [data], stream + data + pad;
    assert Sizes(recs') == Sizes(recs) + [|data|];
    SumPaddedAppend(Sizes(recs), |data|);
    forall i | 0 <= i < |recs'|
      ensures HeldAt(stream', recs', i)
    {
      if i < |recs| {
        assert HeldAt(stream, recs, i);
        assert Sizes(recs')[..i] == Sizes(recs)[..i];
      } else {
        assert Sizes(recs')[..i] == Sizes(recs);
      }
    }
  }

  /** The partition contents `parts` are what the writer makes of the records `recs`. */
  ghost predicate Stored(parts: seq<seq<byte>>, recs: seq<seq<byte>>, limit: nat) {
    && Holds(Flat(parts), recs)
    && SizesMatch(parts, Layout(Sizes(recs), limit))
  }

  ghost predicate SizesMatch(parts: seq<seq<byte>>, groups: seq<seq<nat>>) {
    && |parts| == |groups|
    && forall p :: 0 <= p < |parts| ==> |parts[p]| == SumPadded(groups[p])
  }

  lemma StoredNewPartition(parts: seq<seq<byte>>, recs: seq<seq<byte>>, data: seq<byte>, pad: seq<byte>, limit: nat)
    requires Stored(parts, recs, limit) && |pad| == Padding(|data|)
    requires parts == [] || |parts[|parts| - 1]| + |data| > limit
    ensures Stored(parts + [data + pad], recs + [data], limit)
  {
    FlatAppend(parts, data + pad);
    HoldsAppend(Flat(parts), recs, data, pad);
    assert Flat(parts) + (data + pad) == Flat(parts) + data + pad;
    LayoutNext(recs, data, limit);
    SizesMatchNew(parts, Layout(Sizes(recs), limit), data + pad, |data|);
  }

  lemma SizesMatchNew(parts: seq<seq<byte>>, groups: seq<seq<nat>>, part: seq<byte>, size: nat)
    requires SizesMatch(parts, groups) && |part| == Padded(size)
    ensures SizesMatch(parts + [part], groups + [[size]])
  {
    SumPaddedOne(size);
  }

  lemma StoredSamePartition(closed: seq<seq<byte>>, open: seq<byte>, recs: seq<seq<byte>>, data: seq<byte>, pad: seq<byte>, limit: nat)
    requires Stored(closed + [open], recs, limit) && |pad| == Padding(|data|)
    requires |open| + |data| <= limit
    ensures Stored(closed + [open + data + pad], recs + [data], limit)
  {
    FlatAppend(closed, open);
    FlatAppend(closed, open + data + pad);
    HoldsAppend(Flat(closed + [open]), recs, data, pad);
    assert Flat(closed) + (open + data + pad) == Flat(closed) + open + data + pad;
    LayoutNext(recs, data, limit);
    var groups := Layout(Sizes(recs), limit);
    assert (closed + [open])[|closed|] == open;
    SumPaddedAppend(groups[|closed|], |data|);
  }

  /** The partitions after one more record: in the open partition or in a new one. */
  function Append(parts: seq<seq<byte>>, data: seq<byte>, pad: seq<byte>, limit: nat): seq<seq<byte>> {
    if parts == [] || |parts[|parts| - 1]| + |data| > limit then parts + [data + pad]
    else parts[..|parts| - 1] + [parts[|parts| - 1] + data + pad]
  }

  lemma AppendCases(parts: seq<seq<byte>>, closed: seq<seq<byte>>, open: seq<byte>, data: seq<byte>, pad: seq<byte>, limit: nat)
    requires || (parts == closed + [open] && |open| + |data| <= limit)
             || (parts == closed && open == [] && (parts == [] || |parts[|parts| - 1]| + |data| > limit))
    ensures Append(parts, data, pad, limit) == closed + [open + data + pad]
  {
    if parts == closed {
      assert open + data + pad == data + pad;
    } else {
      assert parts[..|closed|] == closed;
    }
  }

  /** Whatever the padding holds, appending keeps every record where it was and stores the
      new one right behind them. */
  lemma AppendStored(parts: seq<seq<byte>>, recs: seq<seq<byte>>, data: seq<byte>, pad: seq<byte>, limit: nat)
    requires Stored(parts, recs, limit) && |pad| == Padding(|data|)
    ensures Stored(Append(parts, data, pad, limit), recs + [data], limit)
  {
    if parts == [] || |parts[|parts| - 1]| + |data| > limit {
      StoredNewPartition(parts, recs, data, pad, limit);
    } else {
      var k := |parts| - 1;
      assert parts == parts[..k] + [parts[k]];
      StoredSamePartition(parts[..k], parts[k], recs, data, pad, limit);
    }
  }

  /** The next record starts where everything before it ends. */
  lemma OffsetNext(recs: seq<seq<byte>>, data: seq<byte>)
    ensures RecordOffset(recs + [data], |recs|) == SumPadded(Sizes(recs))
    ensures SumPadded(Sizes(recs + [data])) == SumPadded(Sizes(recs)) + Padded(|data|)
  {
    assert Sizes(recs + [data])[..|recs|] == Sizes(recs);
  }

  lemma {:induction false} LayoutNext(recs: seq<seq<byte>>, data: seq<byte>, limit: nat)
    ensures Layout(Sizes(recs + [data]), limit) == Place(Layout(Sizes(recs), limit), |data|, limit)
  {
    assert Sizes(recs + [data])[..|recs|] == Sizes(recs);
  }

  /** The buffer position plus the padding reaches a multiple of 8, and so does the buffer's
      end: padding cannot pass it. */
  lemma PaddingFits(fileOffset: nat, bufPos: nat, size: nat, before: nat, config: WriterConfig)
    requires config.Valid() && fileOffset % 4096 == 0 && bufPos < config.bufSize
    requires before % 8 == 0 && fileOffset + bufPos == before + size
    ensures bufPos + Padding(size) <= config.bufSize
  {
  }

  /** Data, then padding to the next multiple of 8, behind `before` bytes of the buffer's stream. */
  method WriteAndPad(buffer: AlignedBuffer, data: seq<byte>, ghost config: WriterConfig, ghost before: nat)
    returns (written: nat, ghost pad: seq<byte>)
    requires buffer.Valid() && config.Valid() && buffer.bufSize == config.bufSize
    requires before == |buffer.Stream()| && before % 8 == 0
    modifies buffer, buffer.buffer
    ensures buffer.Valid()
    ensures written == Padded(|data|) && |pad| == Padding(|data|)
    ensures buffer.Stream() == old(buffer.Stream()) + data + pad
  {
    var padding := if |data| % 8 != 0 then 8 - |data| % 8 else 0;
    written := buffer.WriteData(data);
    ghost var after := buffer.Stream();
    if padding != 0 {
      PaddingFits(buffer.fileOffset, buffer.bufPos, |data|, before, config);
      var padded := buffer.WritePadding(padding);
      written := written + padded;
    }
    pad := buffer.Stream()[|after|..];
  }

  // ---- The writer ----------------------------------------------------------------------

  /** `closed` is the content of the partition files whose buffers have been destroyed. */
  class TensorWriter {
    const config: WriterConfig
    var offset: nat
    var partitionIdx: int
    var partitionSize: nat
    var buffer: AlignedBuffer?
    var closed: seq<seq<byte>>
    ghost var Repr: set<object>

    /** Content of every partition, the open one included. */
    ghost function Partitions(): seq<seq<byte>>
      requires buffer != null ==> buffer.Valid()
      reads this, buffer, if buffer == null then {} else {buffer.buffer}
    {
      if buffer == null then closed else closed + [buffer.Stream()]
    }

    ghost predicate Valid()
      reads this, Repr
    {
      && this in Repr
      && (buffer != null ==> buffer in Repr && buffer.buffer in Repr)
      && config.Valid()
      && (buffer == null ==> closed == [])
      && (buffer != null ==>
            && buffer.Valid() && buffer.initial == []
            && buffer.bufSize == config.bufSize
            && partitionSize == |buffer.Stream()|)
      && partitionIdx == |Partitions()| - 1
      && partitionSize % 8 == 0
    }

    constructor (config: WriterConfig)
      requires config.Valid()
      ensures Valid() && fresh(Repr)
      ensures this.config == config && Partitions() == [] && offset == 0
    {
      this.config := config;
      offset := 0;
      partitionIdx := -1;
      partitionSize := 0;
      buffer := null;
      closed := [];
      Repr := {this};
    }

    /** Appends one record and returns its global offset; `pad` is what follows the data up to
        the next multiple of 8. */
    method WriteRecord(data: seq<byte>) returns (startOffset: nat, ghost pad: seq<byte>)
      requires Valid()
      modifies Repr
      ensures Valid() && fresh(Repr - old(Repr))
      ensures |pad| == Padding(|data|)
      ensures Partitions() == Append(old(Partitions()), data, pad, config.limit)
      ensures startOffset == old(offset) && offset == old(offset) + Padded(|data|)
    {
      ghost var parts := Partitions();
      if partitionIdx == -1 || partitionSize + |data| > config.limit {
        OpenPartition();
      }
      startOffset := offset;
      ghost var open := buffer.Stream();
      pad := AppendPadded(data);
      AppendCases(parts, closed, open, data, pad, config.limit);
    }

    /** Moves on to a new partition file; replacing the old buffer flushes it. */
    method OpenPartition()
      requires Valid()
      modifies Repr
      ensures Valid() && fresh(Repr - old(Repr))
      ensures buffer != null && buffer.Stream() == []
      ensures closed == old(Partitions())
      ensures offset == old(offset)
    {
      partitionIdx := partitionIdx + 1;
      partitionSize := 0;
      var next := new AlignedBuffer([], config.bufSize);
      if buffer != null {
        buffer.Close();
        closed := closed + [buffer.file];
      }
      buffer := next;
      Repr := Repr + {next, next.buffer};
    }

    /** Data, then padding to the next multiple of 8, into the open partition. */
    method AppendPadded(data: seq<byte>) returns (ghost pad: seq<byte>)
      requires Valid() && buffer != null
      modifies this`offset, this`partitionSize, buffer, buffer.buffer
      ensures Valid()
      ensures |pad| == Padding(|data|)
      ensures buffer.Stream() == old(buffer.Stream()) + data + pad
      ensures offset == old(offset) + Padded(|data|)
    {
      var written;
      written, pad := WriteAndPad(buffer, data, config, partitionSize);
      PaddedBounds(|data|);
      SumAligned(partitionSize, written);
      offset := offset + written;
      partitionSize := partitionSize + written;
    }

    /** Destroying the writer destroys its buffer; the files are then complete. */
    method Close() returns (files: seq<seq<byte>>)
      requires Valid()
      modifies Repr
      ensures files == old(Partitions())
    {
      files := closed;
      if buffer != null {
        buffer.Close();
        files := files + [buffer.file];
      }
    }
  }
}
