/** Saving named tensors, csrc/checkpoint/checkpoint.cpp. */
module Checkpoints {
  import opened Bytes
  import opened TensorWriters

  /** Base address and size of a tensor's storage. */
  datatype TensorData = TensorData(ptr: nat, size: nat)

  /** `tensor_data[name]` of an unordered map: a missing name reads as a null, empty storage. */
  function DataOf(data: map<string, TensorData>, name: string): TensorData {
    if name in data then data[name] else TensorData(0, 0)
  }

  function BytesAt(memory: nat -> byte, t: TensorData): (s: seq<byte>)
    ensures |s| == t.size
  {
    seq(t.size, i requires 0 <= i < t.size => memory(t.ptr + i))
  }

  predicate HasPtr(ds: seq<TensorData>, ptr: nat) {
    exists i :: 0 <= i < |ds| && ds[i].ptr == ptr
  }

  /** The storages that are written: one per pointer, in order of first appearance. */
  function Storages(names: seq<string>, data: map<string, TensorData>): seq<TensorData> {
    if names == [] then []
    else
      var ds := Storages(names[..|names| - 1], data);
      var t := DataOf(data, names[|names| - 1]);
      if HasPtr(ds, t.ptr) then ds else ds + [t]
  }

  lemma {:induction false} StoragesDistinct(names: seq<string>, data: map<string, TensorData>)
    ensures forall i, j :: 0 <= i < j < |Storages(names, data)| ==>
              Storages(names, data)[i].ptr != Storages(names, data)[j].ptr
  {
    if names != [] {
      StoragesDistinct(names[..|names| - 1], data);
    }
  }

  lemma {:induction false} StoragesComplete(names: seq<string>, data: map<string, TensorData>, name: string)
    requires name in names
    ensures HasPtr(Storages(names, data), DataOf(data, name).ptr)
  {
    var init := names[..|names| - 1];
    var ds, ds' := Storages(init, data), Storages(names, data);
    if name in init {
      StoragesComplete(init, data, name);
      var i :| 0 <= i < |ds| && ds[i].ptr == DataOf(data, name).ptr;
      assert ds'[i] == ds[i];
    } else {
      assert name == names[|names| - 1];
      assert !HasPtr(ds, DataOf(data, name).ptr) ==> ds'[|ds|].ptr == DataOf(data, name).ptr;
    }
  }

  lemma {:induction false} StoragesNamed(names: seq<string>, data: map<string, TensorData>, i: nat)
    requires i < |Storages(names, data)|
    ensures exists name :: name in names && DataOf(data, name) == Storages(names, data)[i]
  {
    var last := names[|names| - 1];
    if i < |Storages(names[..|names| - 1], data)| {
      StoragesNamed(names[..|names| - 1], data, i);
      var name :| name in names[..|names| - 1] && DataOf(data, name) == Storages(names, data)[i];
      assert name in names;
    } else {
      assert last in names;
    }
  }

  function Records(memory: nat -> byte, ds: seq<TensorData>): (recs: seq<seq<byte>>)
    ensures |recs| == |ds|
    ensures forall i :: 0 <= i < |ds| ==> recs[i] == BytesAt(memory, ds[i])
  {
    seq(|ds|, i requires 0 <= i < |ds| => BytesAt(memory, ds[i]))
  }

  lemma RecordsAppend(memory: nat -> byte, ds: seq<TensorData>, t: TensorData)
    ensures Records(memory, ds + [t]) == Records(memory, ds) + [BytesAt(memory, t)]
  {
  }

  lemma RecordOffsetStable(recs: seq<seq<byte>>, data: seq<byte>, i: nat)
    requires i <= |recs|
    ensures RecordOffset(recs + [data], i) == RecordOffset(recs, i)
  {
    assert Sizes(recs + [data])[..i] == Sizes(recs)[..i];
  }

  /** What a save leaves behind: the partition files of the distinct storages, and for every
      name the global offset of its storage. */
  ghost predicate Saved(names: seq<string>, data: map<string, TensorData>, memory: nat -> byte, limit: nat, offsets: map<string, nat>, files: seq<seq<byte>>)
  {
    var recs := Records(memory, Storages(names, data));
    Stored(files, recs, limit) && Located(names, data, Storages(names, data), recs, offsets)
  }

  ghost predicate Located(names: seq<string>, data: map<string, TensorData>, ds: seq<TensorData>, recs: seq<seq<byte>>, offsets: map<string, nat>)
    requires |recs| == |ds|
  {
    && (forall name :: name in offsets <==> name in names)
    && forall name :: name in names ==> PlacedAt(ds, recs, DataOf(data, name).ptr, offsets[name])
  }

  /** `off` is the global offset of the record of the storage at `ptr`. */
  ghost predicate PlacedAt(ds: seq<TensorData>, recs: seq<seq<byte>>, ptr: nat, off: nat)
    requires |recs| == |ds|
  {
    exists i :: 0 <= i < |ds| && ds[i].ptr == ptr && off == RecordOffset(recs, i)
  }

  lemma PlacedAppend(ds: seq<TensorData>, t: TensorData, recs: seq<seq<byte>>, bytes: seq<byte>, ptr: nat, off: nat)
    requires |recs| == |ds| && PlacedAt(ds, recs, ptr, off)
    ensures PlacedAt(ds + [t], recs + [bytes], ptr, off)
  {
    var i :| 0 <= i < |ds| && ds[i].ptr == ptr && off == RecordOffset(recs, i);
    RecordOffsetStable(recs, bytes, i);
    assert (ds + [t])[i] == ds[i];
  }

  /** The state of the save after `names`: what has been written, the offset table and the
      record of which tensor stands for which storage. */
  ghost predicate Progress(names: seq<string>, data: map<string, TensorData>, memory: nat -> byte, limit: nat, parts: seq<seq<byte>>, offset: nat, offsets: map<string, nat>, dataRecord: map<nat, string>)
  {
    && offset == SumPadded(Sizes(Records(memory, Storages(names, data))))
    && Saved(names, data, memory, limit, offsets, parts)
    && Recorded(names, data, dataRecord)
  }

  /** `dataRecord` names one tensor of each storage written so far. */
  ghost predicate Recorded(names: seq<string>, data: map<string, TensorData>, dataRecord: map<nat, string>) {
    && (forall name :: name in names ==> DataOf(data, name).ptr in dataRecord)
    && (forall ptr :: ptr in dataRecord ==>
          dataRecord[ptr] in names && DataOf(data, dataRecord[ptr]).ptr == ptr)
  }

  method SaveTensors(names: seq<string>, data: map<string, TensorData>, memory: nat -> byte, config: WriterConfig)
    returns (offsets: map<string, nat>, files: seq<seq<byte>>)
    requires config.Valid()
    ensures Saved(names, data, memory, config.limit, offsets, files)
  {
    var writer := new TensorWriter(config);
    offsets := map[];
    var dataRecord: map<nat, string> := map[];
    TakeAll(names);
    ProgressStart(data, memory, config.limit);
    for k := 0 to |names|
      invariant writer.Valid() && fresh(writer.Repr) && writer.config == config
      invariant Progress(names[..k], data, memory, config.limit, writer.Partitions(), writer.offset, offsets, dataRecord)
    {
      TakeNext(names, k);
      offsets, dataRecord := SaveOne(writer, names[k], data, memory, offsets, dataRecord, names[..k]);
    }
    files := writer.Close();
  }

  /** One round of the loop: a storage already written is shared, a new one is appended. */
  method SaveOne(writer: TensorWriter, name: string, data: map<string, TensorData>, memory: nat -> byte, offsets: map<string, nat>, dataRecord: map<nat, string>, ghost done: seq<string>)
    returns (offsets': map<string, nat>, dataRecord': map<nat, string>)
    requires writer.Valid()
    requires Progress(done, data, memory, writer.config.limit, writer.Partitions(), writer.offset, offsets, dataRecord)
    modifies writer.Repr
    ensures writer.Valid() && fresh(writer.Repr - old(writer.Repr))
    ensures Progress(done + [name], data, memory, writer.config.limit, writer.Partitions(), writer.offset, offsets', dataRecord')
  {
    var t := DataOf(data, name);
    if t.ptr in dataRecord {
      ProgressAlias(done, data, memory, writer.config.limit, writer.Partitions(), writer.offset, offsets, dataRecord, name);
      return offsets[name := offsets[dataRecord[t.ptr]]], dataRecord;
    }
    dataRecord' := dataRecord[t.ptr := name];
    ghost var parts := writer.Partitions();
    var offset, pad := writer.WriteRecord(BytesAt(memory, t));
    offsets' := offsets[name := offset];
    ProgressNew(done, data, memory, writer.config.limit, parts, offset, offsets, dataRecord, name, pad);
  }

  lemma TakeNext(s: seq<string>, k: nat)
    requires k < |s|
    ensures s[..k + 1] == s[..k] + [s[k]]
  {
  }

  lemma TakeAll(s: seq<string>)
    ensures s[..0] == [] && s[..|s|] == s
  {
  }

  lemma ProgressStart(data: map<string, TensorData>, memory: nat -> byte, limit: nat)
    ensures Progress([], data, memory, limit, [], 0, map[], map[])
  {
    assert Sizes(Records(memory, [])) == [];
  }

  lemma ProgressAlias(names: seq<string>, data: map<string, TensorData>, memory: nat -> byte, limit: nat, parts: seq<seq<byte>>, offset: nat, offsets: map<string, nat>, dataRecord: map<nat, string>, name: string)
    requires Progress(names, data, memory, limit, parts, offset, offsets, dataRecord)
    requires DataOf(data, name).ptr in dataRecord
    ensures dataRecord[DataOf(data, name).ptr] in offsets
    ensures Progress(names + [name], data, memory, limit, parts, offset,
                     offsets[name := offsets[dataRecord[DataOf(data, name).ptr]]], dataRecord)
  {
    StoragesAlias(names, data, dataRecord, name);
    var ds := Storages(names, data);
    LocatedAlias(names, data, ds, Records(memory, ds), offsets, name, dataRecord[DataOf(data, name).ptr]);
  }

  lemma LocatedAlias(names: seq<string>, data: map<string, TensorData>, ds: seq<TensorData>, recs: seq<seq<byte>>, offsets: map<string, nat>, name: string, same: string)
    requires |recs| == |ds| && Located(names, data, ds, recs, offsets)
    requires same in names && DataOf(data, same).ptr == DataOf(data, name).ptr
    ensures Located(names + [name], data, ds, recs, offsets[name := offsets[same]])
  {
  }

  lemma {:induction false} StoragesAlias(names: seq<string>, data: map<string, TensorData>, dataRecord: map<nat, string>, name: string)
    requires Recorded(names, data, dataRecord)
    requires DataOf(data, name).ptr in dataRecord
    ensures Storages(names + [name], data) == Storages(names, data)
    ensures Recorded(names + [name], data, dataRecord)
  {
    StoragesComplete(names, data, dataRecord[DataOf(data, name).ptr]);
    assert (names + [name])[..|names|] == names;
  }

  lemma ProgressNew(names: seq<string>, data: map<string, TensorData>, memory: nat -> byte, limit: nat, parts: seq<seq<byte>>, offset: nat, offsets: map<string, nat>, dataRecord: map<nat, string>, name: string, pad: seq<byte>)
    requires Progress(names, data, memory, limit, parts, offset, offsets, dataRecord)
    requires DataOf(data, name).ptr !in dataRecord && |pad| == Padding(DataOf(data, name).size)
    ensures var t := DataOf(data, name);
            Progress(names + [name], data, memory, limit, Append(parts, BytesAt(memory, t), pad, limit),
                     offset + Padded(t.size), offsets[name := offset], dataRecord[t.ptr := name])
  {
    var ds, t := Storages(names, data), DataOf(data, name);
    var recs, bytes := Records(memory, ds), BytesAt(memory, t);
    StoragesNew(names, data, dataRecord, name);
    RecordsAppend(memory, ds, t);
    OffsetNext(recs, bytes);
    AppendStored(parts, recs, bytes, pad, limit);
    LocatedAppend(names, data, ds, recs, offsets, name, bytes);
  }

  lemma {:induction false} StoragesNew(names: seq<string>, data: map<string, TensorData>, dataRecord: map<nat, string>, name: string)
    requires Recorded(names, data, dataRecord)
    requires DataOf(data, name).ptr !in dataRecord
    ensures Storages(names + [name], data) == Storages(names, data) + [DataOf(data, name)]
    ensures Recorded(names + [name], data, dataRecord[DataOf(data, name).ptr := name])
  {
    NoStorage(names, data, dataRecord, DataOf(data, name).ptr);
    assert (names + [name])[..|names|] == names;
  }

  lemma {:induction false} NoStorage(names: seq<string>, data: map<string, TensorData>, dataRecord: map<nat, string>, ptr: nat)
    requires Recorded(names, data, dataRecord) && ptr !in dataRecord
    ensures !HasPtr(Storages(names, data), ptr)
  {
    var ds := Storages(names, data);
    if HasPtr(ds, ptr) {
      var i :| 0 <= i < |ds| && ds[i].ptr == ptr;
      StoragesNamed(names, data, i);
    }
  }

  lemma LocatedAppend(names: seq<string>, data: map<string, TensorData>, ds: seq<TensorData>, recs: seq<seq<byte>>, offsets: map<string, nat>, name: string, bytes: seq<byte>)
    requires |recs| == |ds|
    requires Located(names, data, ds, recs, offsets)
    ensures Located(names + [name], data, ds + [DataOf(data, name)], recs + [bytes],
                    offsets[name := RecordOffset(recs + [bytes], |recs|)])
  {
    var t := DataOf(data, name);
    forall other | other in names
      ensures PlacedAt(ds + [t], recs + [bytes], DataOf(data, other).ptr, offsets[other])
    {
      PlacedAppend(ds, t, recs, bytes, DataOf(data, other).ptr, offsets[other]);
    }
    assert (ds + [t])[|ds|] == t;
    assert PlacedAt(ds + [t], recs + [bytes], t.ptr, RecordOffset(recs + [bytes], |recs|));
  }

  // ---- What a reader of the files can rely on ------------------------------------------

  /** Equal pointers mean one and the same storage. */
  ghost predicate PointersIdentifyStorages(names: seq<string>, data: map<string, TensorData>) {
    forall a, b :: a in names && b in names && DataOf(data, a).ptr == DataOf(data, b).ptr ==>
                     DataOf(data, a) == DataOf(data, b)
  }

  lemma RecordOf(names: seq<string>, data: map<string, TensorData>, memory: nat -> byte, limit: nat, offsets: map<string, nat>, files: seq<seq<byte>>, name: string) returns (i: nat)
    requires Saved(names, data, memory, limit, offsets, files)
    requires PointersIdentifyStorages(names, data)
    requires name in names
    ensures i < |Storages(names, data)| && Storages(names, data)[i] == DataOf(data, name)
    ensures offsets[name] == RecordOffset(Records(memory, Storages(names, data)), i)
  {
    var ds := Storages(names, data);
    assert PlacedAt(ds, Records(memory, ds), DataOf(data, name).ptr, offsets[name]);
    i :| 0 <= i < |ds| && ds[i].ptr == DataOf(data, name).ptr && offsets[name] == RecordOffset(Records(memory, ds), i);
    StoragesNamed(names, data, i);
  }

  /** Every name's offset locates its bytes in the concatenated partitions. */
  lemma {:induction false} SavedBytes(names: seq<string>, data: map<string, TensorData>, memory: nat -> byte, limit: nat, offsets: map<string, nat>, files: seq<seq<byte>>, name: string)
    requires Saved(names, data, memory, limit, offsets, files)
    requires PointersIdentifyStorages(names, data)
    requires name in names
    ensures offsets[name] % 8 == 0
    ensures offsets[name] + DataOf(data, name).size <= |Flat(files)|
    ensures Flat(files)[offsets[name]..offsets[name] + DataOf(data, name).size] == BytesAt(memory, DataOf(data, name))
  {
    var recs := Records(memory, Storages(names, data));
    var i := RecordOf(names, data, memory, limit, offsets, files, name);
    assert HeldAt(Flat(files), recs, i);
    SumPaddedAligned(Sizes(recs)[..i]);
  }

  /** Names share a stored range exactly when they share a storage; the ranges of different
      storages do not overlap. */
  lemma SavedOnce(names: seq<string>, data: map<string, TensorData>, memory: nat -> byte, limit: nat, offsets: map<string, nat>, files: seq<seq<byte>>, a: string, b: string)
    requires Saved(names, data, memory, limit, offsets, files)
    requires PointersIdentifyStorages(names, data)
    requires a in names && b in names
    ensures DataOf(data, a).ptr == DataOf(data, b).ptr ==> offsets[a] == offsets[b]
    ensures DataOf(data, a).ptr != DataOf(data, b).ptr ==>
              || offsets[a] + DataOf(data, a).size <= offsets[b]
              || offsets[b] + DataOf(data, b).size <= offsets[a]
  {
    var i := RecordOf(names, data, memory, limit, offsets, files, a);
    var j := RecordOf(names, data, memory, limit, offsets, files, b);
    StoragesDistinct(names, data);
    if i < j {
      RangesOrdered(Records(memory, Storages(names, data)), i, j);
    } else if j < i {
      RangesOrdered(Records(memory, Storages(names, data)), j, i);
    }
  }

  lemma RangesOrdered(recs: seq<seq<byte>>, i: nat, j: nat)
    requires i < j < |recs|
    ensures RecordOffset(recs, i) + |recs[i]| <= RecordOffset(recs, j)
  {
    var sizes := Sizes(recs)[..j];
    SumPaddedMonotone(sizes, i);
    assert sizes[..i] == Sizes(recs)[..i];
  }

  function StorageSizes(ds: seq<TensorData>): (s: seq<nat>)
    ensures |s| == |ds|
    ensures forall i :: 0 <= i < |ds| ==> s[i] == ds[i].size
  {
    seq(|ds|, i requires 0 <= i < |ds| => ds[i].size)
  }

  /** Each storage is written once: the files add up to the padded sizes of the distinct
      storages, cut into partitions by the rollover rule. */
  lemma {:induction false} SavedSizes(names: seq<string>, data: map<string, TensorData>, memory: nat -> byte, limit: nat, offsets: map<string, nat>, files: seq<seq<byte>>)
    requires Saved(names, data, memory, limit, offsets, files)
    ensures var sizes := StorageSizes(Storages(names, data));
            && |Flat(files)| == SumPadded(sizes)
            && SizesMatch(files, Layout(sizes, limit))
  {
    assert Sizes(Records(memory, Storages(names, data))) == StorageSizes(Storages(names, data));
  }

  /** When every storage leaves `chunk` bytes of room below the limit, every partition but the
      last is at least one chunk long. */
  lemma SavedPartitionsLong(names: seq<string>, data: map<string, TensorData>, memory: nat -> byte, limit: nat, offsets: map<string, nat>, files: seq<seq<byte>>, chunk: nat)
    requires Saved(names, data, memory, limit, offsets, files) && limit % 8 == 0
    requires forall name :: name in names ==> DataOf(data, name).size + chunk <= limit
    ensures forall p :: 0 <= p < |files| - 1 ==> |files[p]| >= chunk
  {
    SavedSizes(names, data, memory, limit, offsets, files);
    var sizes := StorageSizes(Storages(names, data));
    forall i | 0 <= i < |sizes| ensures sizes[i] + chunk <= limit {
      StoragesNamed(names, data, i);
    }
    ClosedPartitionsLong(sizes, limit, chunk);
    forall p | 0 <= p < |files| - 1 ensures |files[p]| >= chunk {
      assert |files[p]| == SumPadded(Layout(sizes, limit)[p]);
    }
  }
}
