/** Planning device memory and tensor destinations, sllm_store/utils.py. */
module Planner {
  import opened Collections
  import opened Dispatch

  /** Where a tensor's storage lies in the checkpoint. */
  datatype Slot = Slot(offset: nat, size: nat)

  /** One item of the device map, whose insertion order matters. */
  datatype Entry = Entry(name: string, device: int)

  datatype Result<T> = Ok(value: T) | ValueError(name: string)

  /** Names are dictionary keys. */
  ghost predicate DistinctNames(deviceMap: seq<Entry>) {
    forall i, j :: 0 <= i < j < |deviceMap| ==> deviceMap[i].name != deviceMap[j].name
  }

  ghost predicate Known(deviceMap: seq<Entry>, index: map<string, Slot>) {
    forall i :: 0 <= i < |deviceMap| ==> deviceMap[i].name in index
  }

  function SlotOf(index: map<string, Slot>, name: string): Slot {
    if name in index then index[name] else Slot(0, 0)
  }

  // ---- The plan, quantity by quantity --------------------------------------------------

  /** Device of the first entry whose tensor occupies `slot`. */
  function HomeOf(deviceMap: seq<Entry>, index: map<string, Slot>, slot: Slot): Option<int> {
    if deviceMap == [] then None
    else
      var init, last := deviceMap[..|deviceMap| - 1], deviceMap[|deviceMap| - 1];
      if HomeOf(init, index, slot).Some? then HomeOf(init, index, slot)
      else if SlotOf(index, last.name) == slot then Some(last.device) else None
  }

  /** Bytes device `d` needs: the size of every slot whose home it is. */
  function Demand(deviceMap: seq<Entry>, index: map<string, Slot>, d: int): nat {
    if deviceMap == [] then 0
    else
      var init, last := deviceMap[..|deviceMap| - 1], deviceMap[|deviceMap| - 1];
      var slot := SlotOf(index, last.name);
      Demand(init, index, d) + if last.device == d && HomeOf(init, index, slot).None? then slot.size else 0
  }

  /** Destination of `slot` on its home: what the home needs for the slots before it. */
  function DstOf(deviceMap: seq<Entry>, index: map<string, Slot>, slot: Slot): nat {
    if deviceMap == [] then 0
    else
      var init, last := deviceMap[..|deviceMap| - 1], deviceMap[|deviceMap| - 1];
      if HomeOf(init, index, slot).Some? then DstOf(init, index, slot) else Demand(init, index, last.device)
  }

  /** Copy list of device `d`: one request per slot whose home it is. */
  function Requests(deviceMap: seq<Entry>, index: map<string, Slot>, d: int): seq<MemCopyChunk> {
    if deviceMap == [] then []
    else
      var init, last := deviceMap[..|deviceMap| - 1], deviceMap[|deviceMap| - 1];
      var slot := SlotOf(index, last.name);
      Requests(init, index, d) +
      if last.device == d && HomeOf(init, index, slot).None?
      then [MemCopyChunk(slot.offset, slot.size, Demand(init, index, d), 0)] else []
  }

  // ---- Properties of the plan ----------------------------------------------------------

  /** The destinations lie one behind the other from 0 to `end`, without gap or overlap. */
  ghost predicate TilesMemory(reqs: seq<MemCopyChunk>, end: nat) {
    if reqs == [] then end == 0
    else
      var last := reqs[|reqs| - 1];
      last.handle == 0 && last.dst + last.size == end && TilesMemory(reqs[..|reqs| - 1], last.dst)
  }

  lemma {:induction false} RequestsTile(deviceMap: seq<Entry>, index: map<string, Slot>, d: int)
    ensures TilesMemory(Requests(deviceMap, index, d), Demand(deviceMap, index, d))
  {
    if deviceMap != [] {
      var init := deviceMap[..|deviceMap| - 1];
      RequestsTile(init, index, d);
      var reqs, reqs' := Requests(init, index, d), Requests(deviceMap, index, d);
      if |reqs'| > |reqs| {
        assert reqs'[..|reqs'| - 1] == reqs && reqs'[|reqs|].dst == Demand(init, index, d);
      } else {
        assert reqs' == reqs;
      }
    }
  }

  lemma {:induction false} TilesBounds(reqs: seq<MemCopyChunk>, end: nat, i: nat)
    requires TilesMemory(reqs, end) && i < |reqs|
    ensures reqs[i].dst + reqs[i].size <= end && reqs[i].handle == 0
  {
    var init := reqs[..|reqs| - 1];
    if i < |init| {
      TilesBounds(init, reqs[|reqs| - 1].dst, i);
    }
  }

  lemma {:induction false} TilesDisjoint(reqs: seq<MemCopyChunk>, end: nat)
    requires TilesMemory(reqs, end)
    ensures DisjointRequests(reqs)
  {
    if reqs != [] {
      var init, last := reqs[..|reqs| - 1], reqs[|reqs| - 1];
      TilesDisjoint(init, last.dst);
      forall i, j | 0 <= i < j < |reqs|
        ensures RequestsApart(reqs[i], reqs[j])
      {
        if j < |init| {
          assert RequestsApart(init[i], init[j]);
        } else {
          TilesBounds(init, last.dst, i);
        }
      }
    }
  }

  lemma {:induction false} TilesCover(reqs: seq<MemCopyChunk>, end: nat, k: nat) returns (i: nat)
    requires TilesMemory(reqs, end) && k < end
    ensures i < |reqs| && reqs[i].dst <= k < reqs[i].dst + reqs[i].size
  {
    var last := reqs[|reqs| - 1];
    if k < last.dst {
      i := TilesCover(reqs[..|reqs| - 1], last.dst, k);
    } else {
      i := |reqs| - 1;
    }
  }

  /** Every request copies the slot of some entry of its device, and that device is the slot's
      home. */
  lemma {:induction false} RequestHasEntry(deviceMap: seq<Entry>, index: map<string, Slot>, d: int, i: nat) returns (k: nat)
    requires i < |Requests(deviceMap, index, d)|
    ensures k < |deviceMap| && deviceMap[k].device == d
    ensures var req, slot := Requests(deviceMap, index, d)[i], SlotOf(index, deviceMap[k].name);
            && req == MemCopyChunk(slot.offset, slot.size, DstOf(deviceMap, index, slot), 0)
            && HomeOf(deviceMap, index, slot) == Some(d)
  {
    var init := deviceMap[..|deviceMap| - 1];
    if i < |Requests(init, index, d)| {
      k := RequestHasEntry(init, index, d, i);
    } else {
      k := |deviceMap| - 1;
    }
  }

  /** The home of a slot has the request that copies it. */
  lemma {:induction false} HomeHasRequest(deviceMap: seq<Entry>, index: map<string, Slot>, slot: Slot) returns (i: nat)
    requires HomeOf(deviceMap, index, slot).Some?
    ensures var reqs := Requests(deviceMap, index, HomeOf(deviceMap, index, slot).value);
            && i < |reqs|
            && reqs[i] == MemCopyChunk(slot.offset, slot.size, DstOf(deviceMap, index, slot), 0)
  {
    var init := deviceMap[..|deviceMap| - 1];
    if HomeOf(init, index, slot).Some? {
      i := HomeHasRequest(init, index, slot);
    } else {
      i := |Requests(init, index, deviceMap[|deviceMap| - 1].device)|;
    }
  }

  lemma {:induction false} EntryHasHome(deviceMap: seq<Entry>, index: map<string, Slot>, i: nat)
    requires i < |deviceMap|
    ensures HomeOf(deviceMap, index, SlotOf(index, deviceMap[i].name)).Some?
  {
    if i < |deviceMap| - 1 {
      EntryHasHome(deviceMap[..|deviceMap| - 1], index, i);
    }
  }

  /** No entry in front of entry `i` has its slot. */
  ghost predicate IsFirst(deviceMap: seq<Entry>, index: map<string, Slot>, i: nat)
    requires i < |deviceMap|
  {
    forall j :: 0 <= j < i ==> SlotOf(index, deviceMap[j].name) != SlotOf(index, deviceMap[i].name)
  }

  /** The home of a slot is the device of its first entry. */
  lemma {:induction false} HomeIsEntry(deviceMap: seq<Entry>, index: map<string, Slot>, slot: Slot) returns (i: nat)
    requires HomeOf(deviceMap, index, slot).Some?
    ensures i < |deviceMap| && SlotOf(index, deviceMap[i].name) == slot
    ensures deviceMap[i].device == HomeOf(deviceMap, index, slot).value && IsFirst(deviceMap, index, i)
  {
    var init := deviceMap[..|deviceMap| - 1];
    if HomeOf(init, index, slot).Some? {
      i := HomeIsEntry(init, index, slot);
    } else {
      i := |deviceMap| - 1;
      forall j | 0 <= j < i
        ensures SlotOf(index, deviceMap[j].name) != slot
      {
        EntryHasHome(init, index, j);
      }
    }
  }

  lemma {:induction false} NoHomeYet(deviceMap: seq<Entry>, index: map<string, Slot>, slot: Slot)
    requires forall i :: 0 <= i < |deviceMap| ==> SlotOf(index, deviceMap[i].name) != slot
    ensures HomeOf(deviceMap, index, slot).None?
  {
    if deviceMap != [] {
      NoHomeYet(deviceMap[..|deviceMap| - 1], index, slot);
    }
  }

  lemma {:induction false} FirstIsHome(deviceMap: seq<Entry>, index: map<string, Slot>, i: nat)
    requires i < |deviceMap| && IsFirst(deviceMap, index, i)
    ensures HomeOf(deviceMap, index, SlotOf(index, deviceMap[i].name)) == Some(deviceMap[i].device)
  {
    var init := deviceMap[..|deviceMap| - 1];
    if i < |init| {
      FirstIsHome(init, index, i);
    } else {
      NoHomeYet(init, index, SlotOf(index, deviceMap[i].name));
    }
  }

  /** On a device slots lie in the order in which the map first names them. */
  lemma {:induction false} InMapOrder(deviceMap: seq<Entry>, index: map<string, Slot>, i: nat, j: nat)
    requires i < j < |deviceMap| && deviceMap[i].device == deviceMap[j].device
    requires IsFirst(deviceMap, index, i) && IsFirst(deviceMap, index, j)
    ensures var a, b := SlotOf(index, deviceMap[i].name), SlotOf(index, deviceMap[j].name);
            DstOf(deviceMap, index, a) + a.size <= DstOf(deviceMap, index, b)
  {
    var init, d := deviceMap[..|deviceMap| - 1], deviceMap[i].device;
    var a, b := SlotOf(index, deviceMap[i].name), SlotOf(index, deviceMap[j].name);
    FirstIsHome(init, index, i);
    if j < |init| {
      FirstIsHome(init, index, j);
      InMapOrder(init, index, i, j);
    } else {
      NoHomeYet(init, index, b);
      SlotInDemand(init, index, a, d);
    }
  }

  lemma {:induction false} SlotInDemand(deviceMap: seq<Entry>, index: map<string, Slot>, slot: Slot, d: int)
    requires HomeOf(deviceMap, index, slot) == Some(d)
    ensures DstOf(deviceMap, index, slot) + slot.size <= Demand(deviceMap, index, d)
  {
    var r := HomeHasRequest(deviceMap, index, slot);
    RequestsTile(deviceMap, index, d);
    TilesBounds(Requests(deviceMap, index, d), Demand(deviceMap, index, d), r);
  }

  /** Some request on the entry's own device brings its bytes to its planned offset. */
  ghost predicate Served(deviceMap: seq<Entry>, index: map<string, Slot>, e: Entry) {
    var slot := SlotOf(index, e.name);
    MemCopyChunk(slot.offset, slot.size, DstOf(deviceMap, index, slot), 0) in Requests(deviceMap, index, e.device)
  }

  /** An entry is served exactly when its device is the home of its slot. */
  lemma {:induction false} ServedIffHome(deviceMap: seq<Entry>, index: map<string, Slot>, i: nat)
    requires i < |deviceMap|
    ensures Served(deviceMap, index, deviceMap[i]) <==>
            HomeOf(deviceMap, index, SlotOf(index, deviceMap[i].name)) == Some(deviceMap[i].device)
  {
    var e := deviceMap[i];
    var slot := SlotOf(index, e.name);
    EntryHasHome(deviceMap, index, i);
    var r := HomeHasRequest(deviceMap, index, slot);
    if Served(deviceMap, index, e) {
      var reqs := Requests(deviceMap, index, e.device);
      var j :| 0 <= j < |reqs| && reqs[j] == MemCopyChunk(slot.offset, slot.size, DstOf(deviceMap, index, slot), 0);
      var k := RequestHasEntry(deviceMap, index, e.device, j);
    }
  }

  ghost predicate AliasesTogether(deviceMap: seq<Entry>, index: map<string, Slot>) {
    forall i, j :: 0 <= i < |deviceMap| && 0 <= j < |deviceMap|
      && SlotOf(index, deviceMap[i].name) == SlotOf(index, deviceMap[j].name)
      ==> deviceMap[i].device == deviceMap[j].device
  }

  /** Every tensor of the map is served exactly when tensors that share a slot share a device. */
  lemma AllServedIffAliasesTogether(deviceMap: seq<Entry>, index: map<string, Slot>)
    ensures (forall i :: 0 <= i < |deviceMap| ==> Served(deviceMap, index, deviceMap[i]))
            <==> AliasesTogether(deviceMap, index)
  {
    forall i | 0 <= i < |deviceMap|
      ensures Served(deviceMap, index, deviceMap[i])
              <==> HomeOf(deviceMap, index, SlotOf(index, deviceMap[i].name)) == Some(deviceMap[i].device)
    {
      ServedIffHome(deviceMap, index, i);
    }
    if AliasesTogether(deviceMap, index) {
      forall i | 0 <= i < |deviceMap|
        ensures Served(deviceMap, index, deviceMap[i])
      {
        EntryHasHome(deviceMap, index, i);
        var h := HomeIsEntry(deviceMap, index, SlotOf(index, deviceMap[i].name));
        assert deviceMap[h].device == deviceMap[i].device;
      }
    }
  }

  // ---- The two planners ----------------------------------------------------------------

  function Devices(deviceMap: seq<Entry>): set<int> {
    set i | 0 <= i < |deviceMap| :: deviceMap[i].device
  }

  lemma DevicesAppend(deviceMap: seq<Entry>, e: Entry)
    ensures Devices(deviceMap + [e]) == Devices(deviceMap) + {e.device}
  {
    assert (deviceMap + [e])[|deviceMap|] == e;
    assert forall i :: 0 <= i < |deviceMap| ==> (deviceMap + [e])[i] == deviceMap[i];
  }

  ghost predicate RecordOk(deviceMap: seq<Entry>, index: map<string, Slot>, record: map<Slot, nat>) {
    forall slot: Slot ::
      && (slot in record <==> HomeOf(deviceMap, index, slot).Some?)
      && (slot in record ==> record[slot] == DstOf(deviceMap, index, slot))
  }

  ghost predicate MemoryOk(deviceMap: seq<Entry>, index: map<string, Slot>, devices: set<int>, memory: map<int, nat>) {
    memory.Keys == devices && forall d :: d in memory ==> memory[d] == Demand(deviceMap, index, d)
  }

  /** Devices outside the map so far need nothing and copy nothing. */
  lemma {:induction false} NoDemand(deviceMap: seq<Entry>, index: map<string, Slot>, d: int)
    requires d !in Devices(deviceMap)
    ensures Demand(deviceMap, index, d) == 0 && Requests(deviceMap, index, d) == []
  {
    if deviceMap != [] {
      var init, last := deviceMap[..|deviceMap| - 1], deviceMap[|deviceMap| - 1];
      assert deviceMap == init + [last];
      DevicesAppend(init, last);
      NoDemand(init, index, d);
    }
  }

  method CalculateDeviceMemory(deviceMap: seq<Entry>, index: map<string, Slot>) returns (r: Result<map<int, nat>>)
    ensures r.Ok? <==> Known(deviceMap, index)
    ensures r.Ok? ==> MemoryOk(deviceMap, index, Devices(deviceMap), r.value)
    ensures r.ValueError? ==> r.name !in index && exists i :: 0 <= i < |deviceMap| && deviceMap[i].name == r.name && Known(deviceMap[..i], index)
  {
    var deviceMemory: map<int, nat> := map[];
    var tensorRecord: set<Slot> := {};
    for k := 0 to |deviceMap|
      invariant Known(deviceMap[..k], index)
      invariant MemoryOk(deviceMap[..k], index, Devices(deviceMap[..k]), deviceMemory)
      invariant forall slot: Slot :: slot in tensorRecord <==> HomeOf(deviceMap[..k], index, slot).Some?
    {
      var e := deviceMap[k];
      EntryNext(deviceMap, k);
      DevicesAppend(deviceMap[..k], e);
      if e.name !in index {
        return ValueError(e.name);
      }
      if e.device !in deviceMemory {
        NoDemand(deviceMap[..k], index, e.device);
        deviceMemory := deviceMemory[e.device := 0];
      }
      var slot := index[e.name];
      if slot !in tensorRecord {
        tensorRecord := tensorRecord + {slot};
        deviceMemory := deviceMemory[e.device := deviceMemory[e.device] + slot.size];
      }
    }
    assert deviceMap[..|deviceMap|] == deviceMap;
    return Ok(deviceMemory);
  }

  lemma EntryNext(deviceMap: seq<Entry>, k: nat)
    requires k < |deviceMap|
    ensures deviceMap[..k + 1] == deviceMap[..k] + [deviceMap[k]]
    ensures deviceMap[..k + 1][..k] == deviceMap[..k]
  {
  }

  /** Result of the second planner: planned offset of every tensor, and the copy lists. */
  datatype Plan = Plan(offsets: map<int, map<string, nat>>, chunks: map<int, seq<MemCopyChunk>>)

  ghost predicate OffsetsOk(deviceMap: seq<Entry>, index: map<string, Slot>, devices: set<int>, offsets: map<int, map<string, nat>>) {
    && offsets.Keys == devices
    && (forall i :: 0 <= i < |deviceMap| ==> OffsetOf(deviceMap, index, offsets, deviceMap[i]))
    && (forall d, name :: d in offsets && name in offsets[d] ==> Entry(name, d) in deviceMap)
  }

  ghost predicate OffsetOf(deviceMap: seq<Entry>, index: map<string, Slot>, offsets: map<int, map<string, nat>>, e: Entry) {
    && e.device in offsets && e.name in offsets[e.device]
    && offsets[e.device][e.name] == DstOf(deviceMap, index, SlotOf(index, e.name))
  }

  ghost predicate ChunksOk(deviceMap: seq<Entry>, index: map<string, Slot>, devices: set<int>, chunks: map<int, seq<MemCopyChunk>>) {
    chunks.Keys == devices && forall d :: d in chunks ==> chunks[d] == Requests(deviceMap, index, d)
  }

  method CalculateTensorDeviceOffsets(deviceMap: seq<Entry>, index: map<string, Slot>) returns (r: Result<Plan>)
    requires DistinctNames(deviceMap)
    ensures r.Ok? <==> Known(deviceMap, index)
    ensures r.Ok? ==> OffsetsOk(deviceMap, index, Devices(deviceMap), r.value.offsets) &&
                        ChunksOk(deviceMap, index, Devices(deviceMap), r.value.chunks)
    ensures r.ValueError? ==> r.name !in index && exists i :: 0 <= i < |deviceMap| && deviceMap[i].name == r.name && Known(deviceMap[..i], index)
  {
    var offsets: map<int, map<string, nat>> := map[];
    var chunks: map<int, seq<MemCopyChunk>> := map[];
    var deviceOffset: map<int, nat> := map[];
    var record: map<Slot, nat> := map[];
    for k := 0 to |deviceMap|
      invariant Known(deviceMap[..k], index)
      invariant OffsetsOk(deviceMap[..k], index, Devices(deviceMap[..k]), offsets)
      invariant ChunksOk(deviceMap[..k], index, Devices(deviceMap[..k]), chunks)
      invariant MemoryOk(deviceMap[..k], index, Devices(deviceMap[..k]), deviceOffset)
      invariant RecordOk(deviceMap[..k], index, record)
    {
      var e := deviceMap[k];
      EntryNext(deviceMap, k);
      if e.name !in index {
        return ValueError(e.name);
      }
      offsets, chunks, deviceOffset := AddDevice(deviceMap[..k], e, index, offsets, chunks, deviceOffset);
      offsets, chunks, deviceOffset, record :=
        PlaceTensor(deviceMap[..k], Devices(deviceMap[..k + 1]), e, index, offsets, chunks, deviceOffset, record);
    }
    assert deviceMap[..|deviceMap|] == deviceMap;
    return Ok(Plan(offsets, chunks));
  }

  /** The part of the second planner's loop that prepares the dictionaries for a device. */
  method AddDevice(ghost done: seq<Entry>, e: Entry, index: map<string, Slot>, offsets0: map<int, map<string, nat>>, chunks0: map<int, seq<MemCopyChunk>>, deviceOffset0: map<int, nat>)
    returns (offsets: map<int, map<string, nat>>, chunks: map<int, seq<MemCopyChunk>>, deviceOffset: map<int, nat>)
    requires OffsetsOk(done, index, Devices(done), offsets0) && ChunksOk(done, index, Devices(done), chunks0)
    requires MemoryOk(done, index, Devices(done), deviceOffset0)
    ensures OffsetsOk(done, index, Devices(done + [e]), offsets) && ChunksOk(done, index, Devices(done + [e]), chunks)
    ensures MemoryOk(done, index, Devices(done + [e]), deviceOffset)
  {
    offsets, chunks, deviceOffset := offsets0, chunks0, deviceOffset0;
    DevicesAppend(done, e);
    assert e.device in offsets ==> Devices(done + [e]) == Devices(done);
    if e.device !in offsets {
      OffsetsAddDevice(done, index, Devices(done), offsets, e.device);
      OthersAddDevice(done, index, chunks, deviceOffset, e.device);
      offsets := offsets[e.device := map[]];
      chunks := chunks[e.device := []];
      deviceOffset := deviceOffset[e.device := 0];
    }
  }

  lemma OthersAddDevice(done: seq<Entry>, index: map<string, Slot>, chunks: map<int, seq<MemCopyChunk>>, memory: map<int, nat>, d: int)
    requires ChunksOk(done, index, Devices(done), chunks) && MemoryOk(done, index, Devices(done), memory) && d !in Devices(done)
    ensures ChunksOk(done, index, Devices(done) + {d}, chunks[d := []])
    ensures MemoryOk(done, index, Devices(done) + {d}, memory[d := 0])
  {
    NoDemand(done, index, d);
  }

  lemma OffsetsAddDevice(done: seq<Entry>, index: map<string, Slot>, devices: set<int>, offsets: map<int, map<string, nat>>, d: int)
    requires OffsetsOk(done, index, devices, offsets) && d !in devices
    ensures OffsetsOk(done, index, devices + {d}, offsets[d := map[]])
  {
    var offsets' := offsets[d := map[]];
    forall i | 0 <= i < |done| ensures OffsetOf(done, index, offsets', done[i]) {
      assert OffsetOf(done, index, offsets, done[i]);
    }
  }

  /** The part of the second planner's loop that places one tensor on a known device. */
  method PlaceTensor(ghost done: seq<Entry>, ghost devices: set<int>, e: Entry, index: map<string, Slot>, offsets0: map<int, map<string, nat>>, chunks0: map<int, seq<MemCopyChunk>>, deviceOffset0: map<int, nat>, record0: map<Slot, nat>)
    returns (offsets: map<int, map<string, nat>>, chunks: map<int, seq<MemCopyChunk>>, deviceOffset: map<int, nat>, record: map<Slot, nat>)
    requires e.name in index && e.device in devices
    requires OffsetsOk(done, index, devices, offsets0) && ChunksOk(done, index, devices, chunks0)
    requires MemoryOk(done, index, devices, deviceOffset0) && RecordOk(done, index, record0)
    requires forall i :: 0 <= i < |done| ==> done[i].name != e.name
    ensures OffsetsOk(done + [e], index, devices, offsets) && ChunksOk(done + [e], index, devices, chunks)
    ensures MemoryOk(done + [e], index, devices, deviceOffset) && RecordOk(done + [e], index, record)
  {
    offsets, chunks, deviceOffset, record := offsets0, chunks0, deviceOffset0, record0;
    var d, slot := e.device, index[e.name];
    MemoryNext(done, devices, e, index, deviceOffset);
    ChunksNext(done, devices, e, index, chunks);
    RecordNext(done, e, index, record);
    OffsetsNext(done, devices, e, index, offsets);
    if slot in record {
      offsets := WithOffset(offsets, e, record[slot]);
    } else {
      record := record[slot := deviceOffset[d]];
      offsets := WithOffset(offsets, e, deviceOffset[d]);
      chunks := chunks[d := chunks[d] + [MemCopyChunk(slot.offset, slot.size, deviceOffset[d], 0)]];
      deviceOffset := deviceOffset[d := deviceOffset[d] + slot.size];
    }
  }

  lemma {:induction false} MemoryNext(done: seq<Entry>, devices: set<int>, e: Entry, index: map<string, Slot>, memory: map<int, nat>)
    requires MemoryOk(done, index, devices, memory) && e.device in devices
    ensures var slot, d := SlotOf(index, e.name), e.device;
            if HomeOf(done, index, slot).None?
            then MemoryOk(done + [e], index, devices, memory[d := memory[d] + slot.size])
            else MemoryOk(done + [e], index, devices, memory)
  {
    assert (done + [e])[..|done|] == done;
  }

  lemma {:induction false} ChunksNext(done: seq<Entry>, devices: set<int>, e: Entry, index: map<string, Slot>, chunks: map<int, seq<MemCopyChunk>>)
    requires ChunksOk(done, index, devices, chunks) && e.device in devices
    ensures var slot, d := SlotOf(index, e.name), e.device;
            if HomeOf(done, index, slot).None?
            then ChunksOk(done + [e], index, devices,
                          chunks[d := chunks[d] + [MemCopyChunk(slot.offset, slot.size, Demand(done, index, d), 0)]])
            else ChunksOk(done + [e], index, devices, chunks)
  {
    assert (done + [e])[..|done|] == done;
  }

  function WithOffset(offsets: map<int, map<string, nat>>, e: Entry, dst: nat): map<int, map<string, nat>>
    requires e.device in offsets
  {
    var ofDevice: map<string, nat> := offsets[e.device][e.name := dst];
    offsets[e.device := ofDevice]
  }

  lemma {:induction false} OffsetsNext(done: seq<Entry>, devices: set<int>, e: Entry, index: map<string, Slot>, offsets: map<int, map<string, nat>>)
    requires OffsetsOk(done, index, devices, offsets) && e.device in devices
    requires forall i :: 0 <= i < |done| ==> done[i].name != e.name
    ensures var dst: nat := DstOf(done + [e], index, SlotOf(index, e.name));
            OffsetsOk(done + [e], index, devices, WithOffset(offsets, e, dst))
  {
    assert (done + [e])[..|done|] == done;
    var dst: nat := DstOf(done + [e], index, SlotOf(index, e.name));
    var offsets' := WithOffset(offsets, e, dst);
    forall i | 0 <= i < |done|
      ensures OffsetOf(done + [e], index, offsets', done[i])
    {
      assert OffsetOf(done, index, offsets, done[i]);
      EntryHasHome(done, index, i);
    }
    forall d, name | d in offsets' && name in offsets'[d]
      ensures Entry(name, d) in done + [e]
    {
      assert (d == e.device && name == e.name) || Entry(name, d) in done;
    }
  }

  lemma {:induction false} RecordNext(done: seq<Entry>, e: Entry, index: map<string, Slot>, record: map<Slot, nat>)
    requires RecordOk(done, index, record)
    ensures var slot := SlotOf(index, e.name);
            && (slot in record <==> HomeOf(done, index, slot).Some?)
            && (slot in record ==> RecordOk(done + [e], index, record) && record[slot] == DstOf(done + [e], index, slot))
            && (slot !in record ==>
                  && RecordOk(done + [e], index, record[slot := Demand(done, index, e.device)])
                  && DstOf(done + [e], index, slot) == Demand(done, index, e.device))
  {
    assert (done + [e])[..|done|] == done;
  }
}
