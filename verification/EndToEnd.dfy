/** Saving, loading and placing put together: every tensor's bytes arrive on its device. */
module EndToEnd {
  import opened Arith
  import opened Bytes
  import opened Checkpoints
  import opened Collections
  import opened TensorWriters
  import opened HostLoader
  import opened Dispatch
  import opened DispatchTables
  import opened LoadMachine
  import opened LoadCompletion
  import opened Planner

  /** A completed save. */
  datatype Checkpoint = Checkpoint(names: seq<string>, data: map<string, TensorData>, memory: nat -> byte, limit: nat, offsets: map<string, nat>, files: seq<seq<byte>>) {
    ghost predicate Valid() {
      && Saved(names, data, memory, limit, offsets, files)
      && PointersIdentifyStorages(names, data)
    }

    /** The tensor index written beside the partition files. */
    ghost function Index(): (index: map<string, Slot>)
      requires Valid()
      ensures forall name :: name in index <==> name in names
      ensures forall name :: name in names ==> index[name] == Slot(offsets[name], DataOf(data, name).size)
    {
      map name | name in offsets :: Slot(offsets[name], DataOf(data, name).size)
    }
  }

  /** The run is a cold start of this checkpoint with the planners' copy lists, on devices whose
      first handle is at least as large as the planner asked for. */
  ghost predicate ColdStart(ck: Checkpoint, deviceMap: seq<Entry>, st: Setup)
    requires ck.Valid()
  {
    && Known(deviceMap, ck.Index()) && DistinctNames(deviceMap)
    && st.cfg.parts == ck.files && st.cfg.Valid()
    && Distinct(st.order) && (forall d :: d in st.order <==> d in st.plan)
    && ChunksOk(deviceMap, ck.Index(), Devices(deviceMap), st.plan)
    && forall d :: d in st.plan ==>
         d in st.mem0 && |st.mem0[d]| > 0 && |st.mem0[d][0]| >= Demand(deviceMap, ck.Index(), d)
  }

  /** What saving and planning produce is what the loader asks of its callers. */
  lemma ColdStartValid(ck: Checkpoint, deviceMap: seq<Entry>, st: Setup)
    requires ck.Valid() && ColdStart(ck, deviceMap, st)
    ensures st.Valid()
  {
    forall d | d in st.plan
      ensures DisjointRequests(st.plan[d])
    {
      RequestsTile(deviceMap, ck.Index(), d);
      TilesDisjoint(st.plan[d], Demand(deviceMap, ck.Index(), d));
    }
    forall d, r | d in st.plan && 0 <= r < |st.plan[d]|
      ensures st.Fits(d, st.plan[d][r])
    {
      RequestsTile(deviceMap, ck.Index(), d);
      TilesBounds(st.plan[d], Demand(deviceMap, ck.Index(), d), r);
      var k := RequestHasEntry(deviceMap, ck.Index(), d, r);
      var name := deviceMap[k].name;
      assert name in ck.Index();
      SavedBytes(ck.names, ck.data, ck.memory, ck.limit, ck.offsets, ck.files, name);
    }
  }

  /** The memory of the entry's device holds the tensor's saved bytes at its planned offset. */
  ghost predicate Arrived(ck: Checkpoint, deviceMap: seq<Entry>, mem: map<int, seq<seq<byte>>>, e: Entry)
    requires ck.Valid()
  {
    var t := DataOf(ck.data, e.name);
    var dst := DstOf(deviceMap, ck.Index(), SlotOf(ck.Index(), e.name));
    && e.device in mem && |mem[e.device]| > 0 && dst + t.size <= |mem[e.device][0]|
    && mem[e.device][0][dst..dst + t.size] == BytesAt(ck.memory, t)
  }

  /** For every chunk size, thread count, partitioning and interleaving: once the copier of a
      device has stopped, each tensor placed on it has arrived, provided the device is the home
      of the tensor's slot. */
  lemma {:induction false} TensorArrives(ck: Checkpoint, deviceMap: seq<Entry>, st: Setup, states: seq<State>, k: nat, i: nat)
    requires ck.Valid() && ColdStart(ck, deviceMap, st)
    requires st.Valid() && IsRun(st, states) && k < |states|
    requires i < |deviceMap| && deviceMap[i].device in states[k].stopped
    requires HomeOf(deviceMap, ck.Index(), SlotOf(ck.Index(), deviceMap[i].name)) == Some(deviceMap[i].device)
    ensures Arrived(ck, deviceMap, states[k].mem, deviceMap[i])
  {
    var r := TensorRequest(ck, deviceMap, st, i);
    DeviceComplete(st, states, k, deviceMap[i].device, r);
    DeliveredArrived(ck, deviceMap, st, states[k].mem, i, r);
  }

  lemma DeliveredArrived(ck: Checkpoint, deviceMap: seq<Entry>, st: Setup, mem: map<int, seq<seq<byte>>>, i: nat, r: nat)
    requires ck.Valid() && i < |deviceMap| && deviceMap[i].device in st.plan && r < |st.plan[deviceMap[i].device]|
    requires Carries(st.cfg.parts, st.plan[deviceMap[i].device][r], Planned(ck, deviceMap, deviceMap[i]), SavedAs(ck, deviceMap[i]))
    requires Delivered(st, mem, deviceMap[i].device, st.plan[deviceMap[i].device][r])
    ensures Arrived(ck, deviceMap, mem, deviceMap[i])
  {
  }

  /** Offset at which the tensor is to lie on its device. */
  ghost function Planned(ck: Checkpoint, deviceMap: seq<Entry>, e: Entry): nat
    requires ck.Valid()
  {
    DstOf(deviceMap, ck.Index(), SlotOf(ck.Index(), e.name))
  }

  ghost function SavedAs(ck: Checkpoint, e: Entry): (bytes: seq<byte>)
    ensures |bytes| == DataOf(ck.data, e.name).size
  {
    BytesAt(ck.memory, DataOf(ck.data, e.name))
  }

  /** The request moves `bytes` from the files to `dst`. */
  ghost predicate Carries(parts: seq<seq<byte>>, req: MemCopyChunk, dst: nat, bytes: seq<byte>) {
    && req.dst == dst && req.size == |bytes| && req.handle == 0
    && req.src + |bytes| <= |Flat(parts)| && Flat(parts)[req.src..req.src + |bytes|] == bytes
  }

  /** The home of a tensor's slot has a request that carries the tensor. */
  lemma TensorRequest(ck: Checkpoint, deviceMap: seq<Entry>, st: Setup, i: nat) returns (r: nat)
    requires ck.Valid() && ColdStart(ck, deviceMap, st) && i < |deviceMap|
    requires HomeOf(deviceMap, ck.Index(), SlotOf(ck.Index(), deviceMap[i].name)) == Some(deviceMap[i].device)
    ensures deviceMap[i].device in st.plan && r < |st.plan[deviceMap[i].device]|
    ensures Carries(st.cfg.parts, st.plan[deviceMap[i].device][r], Planned(ck, deviceMap, deviceMap[i]), SavedAs(ck, deviceMap[i]))
  {
    r := HomeRequest(ck, deviceMap, st, i);
    SavedCarries(ck, deviceMap[i], Planned(ck, deviceMap, deviceMap[i]));
  }

  /** A request for the tensor's slot carries the tensor, wherever it brings it. */
  lemma SavedCarries(ck: Checkpoint, e: Entry, dst: nat)
    requires ck.Valid() && e.name in ck.names
    ensures var slot := SlotOf(ck.Index(), e.name);
            Carries(ck.files, MemCopyChunk(slot.offset, slot.size, dst, 0), dst, SavedAs(ck, e))
  {
    SavedSlot(ck, e);
    SlotCarries(ck.files, SlotOf(ck.Index(), e.name), dst, SavedAs(ck, e));
  }

  lemma HomeRequest(ck: Checkpoint, deviceMap: seq<Entry>, st: Setup, i: nat) returns (r: nat)
    requires ck.Valid() && ColdStart(ck, deviceMap, st) && i < |deviceMap|
    requires HomeOf(deviceMap, ck.Index(), SlotOf(ck.Index(), deviceMap[i].name)) == Some(deviceMap[i].device)
    ensures deviceMap[i].name in ck.names && st.cfg.parts == ck.files
    ensures var slot, d := SlotOf(ck.Index(), deviceMap[i].name), deviceMap[i].device;
            && d in st.plan && r < |st.plan[d]|
            && st.plan[d][r] == MemCopyChunk(slot.offset, slot.size, Planned(ck, deviceMap, deviceMap[i]), 0)
  {
    assert deviceMap[i].name in ck.Index();
    r := HomeHasRequest(deviceMap, ck.Index(), SlotOf(ck.Index(), deviceMap[i].name));
    assert deviceMap[i].device in Devices(deviceMap);
  }

  lemma {:induction false} SlotCarries(parts: seq<seq<byte>>, slot: Slot, dst: nat, bytes: seq<byte>)
    requires slot.size == |bytes| && slot.offset + |bytes| <= |Flat(parts)|
    requires Flat(parts)[slot.offset..slot.offset + |bytes|] == bytes
    ensures Carries(parts, MemCopyChunk(slot.offset, slot.size, dst, 0), dst, bytes)
  {
  }

  lemma SavedSlot(ck: Checkpoint, e: Entry)
    requires ck.Valid() && e.name in ck.names
    ensures var slot, bytes := SlotOf(ck.Index(), e.name), SavedAs(ck, e);
            && slot.size == |bytes| && slot.offset + |bytes| <= |Flat(ck.files)|
            && Flat(ck.files)[slot.offset..slot.offset + |bytes|] == bytes
  {
    SavedBytes(ck.names, ck.data, ck.memory, ck.limit, ck.offsets, ck.files, e.name);
  }

  /** With aliases kept together, every tensor of the map arrives. */
  lemma AllTensorsArrive(ck: Checkpoint, deviceMap: seq<Entry>, st: Setup, states: seq<State>, k: nat, i: nat)
    requires ck.Valid() && ColdStart(ck, deviceMap, st)
    requires st.Valid() && IsRun(st, states) && k < |states|
    requires i < |deviceMap| && deviceMap[i].device in states[k].stopped
    requires AliasesTogether(deviceMap, ck.Index())
    ensures Arrived(ck, deviceMap, states[k].mem, deviceMap[i])
  {
    AllServedIffAliasesTogether(deviceMap, ck.Index());
    ServedIffHome(deviceMap, ck.Index(), i);
    TensorArrives(ck, deviceMap, st, states, k, i);
  }

  lemma DeviceKnown(ck: Checkpoint, deviceMap: seq<Entry>, st: Setup, i: nat)
    requires ck.Valid() && ColdStart(ck, deviceMap, st) && i < |deviceMap|
    ensures deviceMap[i].device in st.mem0
  {
    assert deviceMap[i].device in Devices(deviceMap);
    assert deviceMap[i].device in st.plan;
  }

  /** However far a cold start has got, and in whatever order its threads went, it can go on until
      every tensor of the map has arrived, when inner partitions are at least one chunk long. */
  lemma ColdStartCompletes(ck: Checkpoint, deviceMap: seq<Entry>, st: Setup, states: seq<State>) returns (longer: seq<State>)
    requires ck.Valid() && ColdStart(ck, deviceMap, st) && AliasesTogether(deviceMap, ck.Index())
    requires st.Valid() && IsRun(st, states)
    requires forall p :: 0 < p < |ck.files| - 1 ==> |ck.files[p]| >= st.cfg.chunk
    ensures IsRun(st, longer) && states <= longer
    ensures forall i :: 0 <= i < |deviceMap| ==> Arrived(ck, deviceMap, LastState(longer).mem, deviceMap[i])
  {
    LongAllReadable(st);
    longer := RunCompletes(st, states);
    forall i | 0 <= i < |deviceMap|
      ensures Arrived(ck, deviceMap, LastState(longer).mem, deviceMap[i])
    {
      DeviceKnown(ck, deviceMap, st, i);
      AllTensorsArrive(ck, deviceMap, st, longer, |longer| - 1, i);
    }
  }

  /** A checkpoint whose storages all leave one chunk of room below the partition limit loads:
      no I/O thread of any run fails. */
  lemma RoomyCheckpointLoads(ck: Checkpoint, st: Setup, states: seq<State>, k: nat, t: nat)
    requires ck.Valid() && ck.limit % 8 == 0
    requires st.Valid() && st.cfg.parts == ck.files && IsRun(st, states) && k < |states| && t < |states[k].threads|
    requires forall name :: name in ck.names ==> DataOf(ck.data, name).size + st.cfg.chunk <= ck.limit
    ensures !states[k].threads[t].Failed?
  {
    SavedPartitionsLong(ck.names, ck.data, ck.memory, ck.limit, ck.offsets, ck.files, st.cfg.chunk);
    LongPartitionsNeverFail(st, states, k, t);
  }

  /** Storages of `limit`, 8 and `limit` bytes. */
  ghost predicate SmallBetweenLarge(ck: Checkpoint) {
    && |ck.names| == 3
    && var a, b, c := DataOf(ck.data, ck.names[0]), DataOf(ck.data, ck.names[1]), DataOf(ck.data, ck.names[2]);
       && a.ptr != b.ptr && a.ptr != c.ptr && b.ptr != c.ptr
       && a.size == ck.limit && b.size == 8 && c.size == ck.limit
  }

  /** Without that room it may not, whatever the limit: such a checkpoint, correctly saved, cannot
      be read by one thread with chunks of more than 8 bytes that divide the limit. The chunk
      behind the first partition begins there, and ends behind the second. */
  lemma SavedButUnreadable(ck: Checkpoint, cfg: LoadConfig)
    requires ck.Valid() && ck.limit % 8 == 0 && SmallBetweenLarge(ck)
    requires cfg.parts == ck.files && cfg.threads == 1
    requires 8 < cfg.chunk <= ck.limit && ck.limit % cfg.chunk == 0
    ensures cfg.Valid() && !cfg.AllReadable(cfg.Lo(0), cfg.Hi(0))
  {
    ThreeLaidOut(ck);
    SmallPartUnreadable(cfg, ck.limit);
  }

  /** With the partition limit and buffer size the writer is compiled with, and chunks of 32 MiB. */
  lemma SourceUnreadable(ck: Checkpoint, cfg: LoadConfig)
    requires ck.Valid() && ck.limit == SOURCE_CONFIG.limit && SmallBetweenLarge(ck)
    requires cfg == LoadConfig(ck.files, 0x200_0000, 1)
    ensures cfg.Valid() && !cfg.AllReadable(cfg.Lo(0), cfg.Hi(0))
  {
    SavedButUnreadable(ck, cfg);
  }

  lemma SmallPartUnreadable(cfg: LoadConfig, limit: nat)
    requires cfg.threads == 1 && 8 < cfg.chunk <= limit && limit % cfg.chunk == 0
    requires |cfg.parts| == 3 && Start(cfg.parts, 1) == limit && Start(cfg.parts, 2) == limit + 8
    requires Start(cfg.parts, 0) == 0 && |cfg.parts[0]| == limit && |cfg.parts[2]| == limit && |Flat(cfg.parts)| == 2 * limit + 8
    ensures cfg.Valid() && !cfg.AllReadable(cfg.Lo(0), cfg.Hi(0))
  {
    var q := limit / cfg.chunk;
    Multiple(limit, cfg.chunk);
    CeilDivMore(cfg.Total(), q, cfg.chunk);
    assert cfg.Lo(0) == 0 && cfg.Hi(0) == cfg.NumChunks();
    assert q > 0 && cfg.Pos(q) == limit && cfg.Size(q) == cfg.chunk;
    PartOfUnique(cfg.parts, limit - 1, 0);
    PartOfUnique(cfg.parts, limit + cfg.chunk - 1, 2);
    assert !cfg.Readable(0, q);
  }

  lemma {:induction false} ThreeStarts(parts: seq<seq<byte>>)
    requires |parts| == 3
    ensures Start(parts, 0) == 0 && Start(parts, 1) == |parts[0]| && Start(parts, 2) == |parts[0]| + |parts[1]|
    ensures |Flat(parts)| == |parts[0]| + |parts[1]| + |parts[2]|
  {
    assert parts[..0] == [] && parts[..3] == parts;
    StartNext(parts, 0);
    StartNext(parts, 1);
    StartNext(parts, 2);
  }

  lemma ThreeLaidOut(ck: Checkpoint)
    requires ck.Valid() && ck.limit % 8 == 0 && ck.limit > 0 && SmallBetweenLarge(ck)
    ensures |ck.files| == 3 && |ck.files[0]| == ck.limit && |ck.files[2]| == ck.limit
    ensures Start(ck.files, 0) == 0 && Start(ck.files, 1) == ck.limit && Start(ck.files, 2) == ck.limit + 8
    ensures |Flat(ck.files)| == 2 * ck.limit + 8
  {
    ThreeFiles(ck);
    ThreeStarts(ck.files);
  }

  lemma ThreeFiles(ck: Checkpoint)
    requires ck.Valid() && ck.limit % 8 == 0 && ck.limit > 0 && SmallBetweenLarge(ck)
    ensures |ck.files| == 3 && |ck.files[0]| == ck.limit && |ck.files[1]| == 8 && |ck.files[2]| == ck.limit
  {
    SavedSizes(ck.names, ck.data, ck.memory, ck.limit, ck.offsets, ck.files);
    ThreeDistinct(ck.names, ck.data);
    ThreeSizes(Storages(ck.names, ck.data), ck.limit);
  }

  lemma {:induction false} ThreeSizes(storages: seq<TensorData>, limit: nat)
    requires |storages| == 3 && storages[0].size == limit && storages[1].size == 8 && storages[2].size == limit
    requires limit % 8 == 0 && limit > 0
    ensures var groups := Layout(StorageSizes(storages), limit);
            |groups| == 3 && SumPadded(groups[0]) == limit && SumPadded(groups[1]) == 8 && SumPadded(groups[2]) == limit
  {
    assert StorageSizes(storages) == [limit, 8, limit];
    ThreePartitions(limit);
    SumPaddedOne(limit);
    SumPaddedOne(8);
  }

  lemma {:induction false} ThreeDistinct(names: seq<string>, data: map<string, TensorData>)
    requires |names| == 3
    requires var a, b, c := DataOf(data, names[0]).ptr, DataOf(data, names[1]).ptr, DataOf(data, names[2]).ptr;
             a != b && a != c && b != c
    ensures Storages(names, data) == [DataOf(data, names[0]), DataOf(data, names[1]), DataOf(data, names[2])]
  {
    var two := names[..2];
    assert two[..1] == [names[0]] && [names[0]][..0] == [];
    assert Storages([names[0]], data) == [DataOf(data, names[0])];
    assert Storages(two, data) == [DataOf(data, names[0]), DataOf(data, names[1])];
  }

  lemma {:induction false} ThreePartitions(limit: nat)
    requires limit % 8 == 0 && limit > 0
    ensures Layout([limit, 8, limit], limit) == [[limit], [8], [limit]]
  {
    var sizes: seq<nat> := [limit, 8, limit];
    assert sizes[..2] == [limit, 8] && sizes[..2][..1] == [limit] && sizes[..2][..1][..0] == [];
    SumPaddedOne(limit);
    SumPaddedOne(8);
    assert Layout([limit], limit) == [[limit]];
    assert Layout([limit, 8], limit) == [[limit], [8]];
  }
}
