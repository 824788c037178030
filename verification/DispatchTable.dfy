/** Grouping the pieces of all devices by host chunk, the first half of `DispatchToGpu` in
    csrc/sllm_store/model.cpp, and what sending them out chunk by chunk delivers. */
module DispatchTables {
  import opened Arith
  import opened Collections
  import opened Dispatch

  /** A batch and the device whose queue it is meant for. */
  datatype Item = Item(device: int, batch: GpuBatch)

  function ItemsOf(device: int, s: seq<GpuBatch>): (items: seq<Item>)
    ensures |items| == |s|
    ensures forall i :: 0 <= i < |s| ==> items[i] == Item(device, s[i])
  {
    seq(|s|, i requires 0 <= i < |s| => Item(device, s[i]))
  }

  lemma ItemsOfAppend(device: int, s: seq<GpuBatch>, t: seq<GpuBatch>)
    ensures ItemsOf(device, s + t) == ItemsOf(device, s) + ItemsOf(device, t)
  {
  }

  /** All pieces of all devices, device by device. */
  function Items(order: seq<int>, plan: map<int, seq<MemCopyChunk>>, chunk: nat): seq<Item>
    requires 0 < chunk && forall d :: d in order ==> d in plan
  {
    if order == [] then []
    else
      var d := order[|order| - 1];
      Items(order[..|order| - 1], plan, chunk) + ItemsOf(d, Pieces(plan[d], chunk))
  }

  /** The items of chunk `c`, in their order. */
  function Row(items: seq<Item>, c: nat): seq<Item> {
    if items == [] then []
    else
      var x := items[|items| - 1];
      Row(items[..|items| - 1], c) + if x.batch.chunkId == c then [x] else []
  }

  /** The batches for device `d`, in their order. */
  function OnDevice(items: seq<Item>, d: int): seq<GpuBatch> {
    if items == [] then []
    else
      var x := items[|items| - 1];
      OnDevice(items[..|items| - 1], d) + if x.device == d then [x.batch] else []
  }

  /** What is sent when the chunks become available in the order `loaded`. */
  function Dispatched(items: seq<Item>, loaded: seq<nat>): seq<Item> {
    if loaded == [] then []
    else Dispatched(items, loaded[..|loaded| - 1]) + Row(items, loaded[|loaded| - 1])
  }

  lemma {:induction false} RowAppend(items: seq<Item>, x: Item, c: nat)
    ensures Row(items + [x], c) == Row(items, c) + if x.batch.chunkId == c then [x] else []
  {
    assert (items + [x])[..|items|] == items;
  }

  lemma {:induction false} DispatchedAppend(items: seq<Item>, loaded: seq<nat>, c: nat)
    ensures Dispatched(items, loaded + [c]) == Dispatched(items, loaded) + Row(items, c)
  {
    assert (loaded + [c])[..|loaded|] == loaded;
  }

  lemma {:induction false} OnDeviceAppend(items: seq<Item>, x: Item, d: int)
    ensures OnDevice(items + [x], d) == OnDevice(items, d) + if x.device == d then [x.batch] else []
  {
    assert (items + [x])[..|items|] == items;
  }

  // ---- Counting ------------------------------------------------------------------------

  lemma {:induction false} CountRow(items: seq<Item>, c: nat, y: Item)
    ensures multiset(Row(items, c))[y] == if y.batch.chunkId == c then multiset(items)[y] else 0
  {
    if items != [] {
      var init := items[..|items| - 1];
      assert items == init + [items[|items| - 1]];
      CountRow(init, c, y);
    }
  }

  lemma {:induction false} CountOnDevice(items: seq<Item>, d: int, x: GpuBatch)
    ensures multiset(OnDevice(items, d))[x] == multiset(items)[Item(d, x)]
  {
    if items != [] {
      var init := items[..|items| - 1];
      assert items == init + [items[|items| - 1]];
      CountOnDevice(init, d, x);
    }
  }

  /** Whatever the load order: an item has been sent as often as it occurs, once its chunk is
      among those loaded, and not at all before. */
  lemma {:induction false} CountDispatched(items: seq<Item>, loaded: seq<nat>, y: Item)
    requires Distinct(loaded)
    ensures multiset(Dispatched(items, loaded))[y] == if y.batch.chunkId in loaded then multiset(items)[y] else 0
  {
    if loaded != [] {
      var init, c := loaded[..|loaded| - 1], loaded[|loaded| - 1];
      assert loaded == init + [c];
      CountDispatched(items, init, y);
      CountRow(items, c, y);
      assert c !in init;
    }
  }

  lemma {:induction false} CountItemsOf(device: int, s: seq<GpuBatch>, y: Item)
    ensures multiset(ItemsOf(device, s))[y] == if y.device == device then multiset(s)[y.batch] else 0
  {
    if s != [] {
      var init, last := s[..|s| - 1], s[|s| - 1];
      assert s == init + [last];
      ItemsOfAppend(device, init, [last]);
      assert ItemsOf(device, [last]) == [Item(device, last)];
      CountItemsOf(device, init, y);
    }
  }

  lemma {:induction false} CountItems(order: seq<int>, plan: map<int, seq<MemCopyChunk>>, chunk: nat, y: Item)
    requires 0 < chunk && Distinct(order) && forall d :: d in order ==> d in plan
    ensures multiset(Items(order, plan, chunk))[y] ==
              if y.device in order then multiset(Pieces(plan[y.device], chunk))[y.batch] else 0
  {
    if order != [] {
      var init, d := order[..|order| - 1], order[|order| - 1];
      assert order == init + [d];
      CountItems(init, plan, chunk, y);
      CountItemsOf(d, Pieces(plan[d], chunk), y);
      assert d !in init;
    }
  }

  /** The queue of a device receives exactly the pieces of its copy list, whatever the order in
      which the chunks were loaded. */
  lemma {:induction false} DispatchComplete(order: seq<int>, plan: map<int, seq<MemCopyChunk>>, chunk: nat, loaded: seq<nat>, d: int)
    requires 0 < chunk && Distinct(order) && Distinct(loaded) && d in order
    requires forall e :: e in order ==> e in plan
    requires forall i :: 0 <= i < |Pieces(plan[d], chunk)| ==> Pieces(plan[d], chunk)[i].chunkId in loaded
    ensures multiset(OnDevice(Dispatched(Items(order, plan, chunk), loaded), d)) == multiset(Pieces(plan[d], chunk))
  {
    var items := Items(order, plan, chunk);
    var sent, all := OnDevice(Dispatched(items, loaded), d), Pieces(plan[d], chunk);
    forall x: GpuBatch
      ensures multiset(sent)[x] == multiset(all)[x]
    {
      CountOnDevice(Dispatched(items, loaded), d, x);
      CountDispatched(items, loaded, Item(d, x));
      CountItems(order, plan, chunk, Item(d, x));
      if x in all {
        assert x.chunkId in loaded;
      }
    }
  }

  /** At any point of a run, a device queue has received no piece more often than its copy list
      holds it. */
  lemma {:induction false} DispatchSound(order: seq<int>, plan: map<int, seq<MemCopyChunk>>, chunk: nat, loaded: seq<nat>, sent: seq<Item>, d: int)
    requires 0 < chunk && Distinct(order) && Distinct(loaded)
    requires forall e :: e in order ==> e in plan
    requires sent <= Dispatched(Items(order, plan, chunk), loaded)
    ensures d in order ==> multiset(OnDevice(sent, d)) <= multiset(Pieces(plan[d], chunk))
    ensures d !in order ==> OnDevice(sent, d) == []
  {
    var items := Items(order, plan, chunk);
    var all := Dispatched(items, loaded);
    assert all == sent + all[|sent|..];
    forall x: GpuBatch
      ensures multiset(OnDevice(sent, d))[x] <= if d in order then multiset(Pieces(plan[d], chunk))[x] else 0
    {
      CountOnDevice(sent, d, x);
      CountDispatched(items, loaded, Item(d, x));
      CountItems(order, plan, chunk, Item(d, x));
    }
    var mine := OnDevice(sent, d);
    assert mine != [] ==> multiset(mine)[mine[0]] > 0;
  }

  // ---- Disjointness carries over to any part of the pieces ------------------------------

  lemma {:induction false} CountTwice(s: seq<GpuBatch>, i: nat, j: nat)
    requires i < j < |s| && s[i] == s[j]
    ensures multiset(s)[s[i]] >= 2
  {
    assert s == s[..j] + s[j..];
    assert s[i] in s[..j] && s[j] in s[j..];
  }

  lemma {:induction false} ApartOnce(s: seq<GpuBatch>, x: GpuBatch)
    requires AllApart(s)
    ensures multiset(s)[x] <= 1
  {
    if s != [] {
      var init, last := s[..|s| - 1], s[|s| - 1];
      assert s == init + [last];
      ApartOnce(init, x);
      assert forall i :: 0 <= i < |init| ==> init[i] == s[i] && Apart(s[i], s[|s| - 1]);
    }
  }

  lemma ApartPart(s: seq<GpuBatch>, all: seq<GpuBatch>)
    requires AllApart(all) && multiset(s) <= multiset(all)
    ensures AllApart(s)
  {
    forall i | 0 <= i < |s|
      ensures 0 < s[i].size
    {
      var i' := FindIn(s, all, i);
    }
    forall i, j | 0 <= i < j < |s|
      ensures Apart(s[i], s[j])
    {
      var i' := FindIn(s, all, i);
      var j' := FindIn(s, all, j);
      if s[i] == s[j] {
        CountTwice(s, i, j);
        ApartOnce(all, s[i]);
      } else if i' < j' {
        assert Apart(all[i'], all[j']);
      } else {
        assert Apart(all[j'], all[i']);
      }
    }
  }

  lemma FindIn(s: seq<GpuBatch>, all: seq<GpuBatch>, i: nat) returns (k: nat)
    requires i < |s| && multiset(s) <= multiset(all)
    ensures k < |all| && all[k] == s[i]
  {
    assert s[i] in multiset(s);
    assert s[i] in multiset(all);
    k :| 0 <= k < |all| && all[k] == s[i];
  }

  // ---- Building the table --------------------------------------------------------------

  /** Every piece of the list lies in a chunk below `numChunks` and names a known handle. */
  ghost predicate FitsTable(reqs: seq<MemCopyChunk>, numChunks: nat, handles: nat, chunk: nat) {
    forall r :: 0 <= r < |reqs| ==> FitsRequest(reqs[r], numChunks, handles, chunk)
  }

  ghost predicate FitsRequest(req: MemCopyChunk, numChunks: nat, handles: nat, chunk: nat) {
    req.handle < handles && req.src + req.size <= numChunks * chunk
  }

  lemma PieceFits(x: GpuBatch, req: MemCopyChunk, numChunks: nat, handles: nat, chunk: nat)
    requires PartOfRequest(x, req, chunk) && FitsRequest(req, numChunks, handles, chunk)
    ensures x.chunkId < numChunks
  {
    if x.chunkId > numChunks {
      MulLess(numChunks, x.chunkId, chunk);
    }
  }

  ghost predicate IsTable(table: array<seq<Item>>, items: seq<Item>)
    reads table
  {
    forall c :: 0 <= c < table.Length ==> table[c] == Row(items, c)
  }

  /** The table of pieces per chunk; `order` is the order in which the map of copy lists is
      visited. */
  method BuildTable(order: seq<int>, plan: map<int, seq<MemCopyChunk>>, handles: map<int, nat>, numChunks: nat, chunk: nat)
    returns (table: array<seq<Item>>)
    requires 0 < chunk
    requires forall d :: d in order ==> d in plan && d in handles && FitsTable(plan[d], numChunks, handles[d], chunk)
    ensures fresh(table) && table.Length == numChunks
    ensures IsTable(table, Items(order, plan, chunk))
  {
    table := new seq<Item>[numChunks](_ => []);
    for i := 0 to |order|
      invariant IsTable(table, Items(order[..i], plan, chunk))
    {
      assert order[..i + 1][..i] == order[..i];
      AddDevice(table, order[i], plan[order[i]], handles[order[i]], chunk, Items(order[..i], plan, chunk));
    }
    assert order[..|order|] == order;
  }

  method AddDevice(table: array<seq<Item>>, device: int, reqs: seq<MemCopyChunk>, handles: nat, chunk: nat, ghost done: seq<Item>)
    requires 0 < chunk && FitsTable(reqs, table.Length, handles, chunk)
    requires IsTable(table, done)
    modifies table
    ensures IsTable(table, done + ItemsOf(device, Pieces(reqs, chunk)))
  {
    var handleOffsets: seq<nat> := seq(handles, _ => 0);
    assert done + ItemsOf(device, Pieces(reqs[..0], chunk)) == done;
    for r := 0 to |reqs|
      invariant |handleOffsets| == handles
      invariant IsTable(table, done + ItemsOf(device, Pieces(reqs[..r], chunk)))
    {
      assert FitsRequest(reqs[r], table.Length, handles, chunk);
      handleOffsets := AddRequest(table, device, reqs[r], handleOffsets, chunk, done + ItemsOf(device, Pieces(reqs[..r], chunk)));
      PiecesNext(device, reqs, r, chunk, done);
    }
    assert reqs[..|reqs|] == reqs;
  }

  lemma {:induction false} PiecesNext(device: int, reqs: seq<MemCopyChunk>, r: nat, chunk: nat, done: seq<Item>)
    requires 0 < chunk && r < |reqs|
    ensures done + ItemsOf(device, Pieces(reqs[..r], chunk)) + ItemsOf(device, PiecesOf(reqs[r], chunk))
            == done + ItemsOf(device, Pieces(reqs[..r + 1], chunk))
  {
    assert reqs[..r + 1][..r] == reqs[..r];
    ItemsOfAppend(device, Pieces(reqs[..r], chunk), PiecesOf(reqs[r], chunk));
  }

  /** One request: its pieces go to consecutive destinations behind its handle. */
  method AddRequest(table: array<seq<Item>>, device: int, req: MemCopyChunk, offsets: seq<nat>, chunk: nat, ghost done: seq<Item>)
    returns (handleOffsets: seq<nat>)
    requires 0 < chunk && FitsRequest(req, table.Length, |offsets|, chunk)
    requires IsTable(table, done)
    modifies table
    ensures |handleOffsets| == |offsets|
    ensures IsTable(table, done + ItemsOf(device, PiecesOf(req, chunk)))
  {
    handleOffsets := offsets[req.handle := req.dst];
    var chunks := MapDataToChunks(req.src, req.size, chunk);
    ghost var all := PiecesOf(req, chunk);
    assert chunks[0..] == chunks && done + ItemsOf(device, all[..0]) == done;
    for k := 0 to |chunks|
      invariant |handleOffsets| == |offsets|
      invariant all[k..] == Place(chunks[k..], handleOffsets[req.handle], req.handle)
      invariant IsTable(table, done + ItemsOf(device, all[..k]))
    {
      var c := chunks[k];
      var batch := GpuBatch(c.chunkId, c.chunkOffset, c.size, handleOffsets[req.handle], req.handle);
      NextPlaced(chunks, all, k, handleOffsets[req.handle], req.handle);
      assert all[k] == batch;
      PiecesOfSound(req, chunk);
      PieceFits(batch, req, table.Length, |offsets|, chunk);
      AddItem(table, Item(device, batch), done + ItemsOf(device, all[..k]));
      ItemsNext(device, all, k, done);
      handleOffsets := handleOffsets[req.handle := handleOffsets[req.handle] + c.size];
    }
    assert all[..|all|] == all;
  }

  lemma {:induction false} NextPlaced(cut: seq<ChunkPiece>, all: seq<GpuBatch>, k: nat, dst: nat, handle: nat)
    requires |all| == |cut| && k < |cut| && all[k..] == Place(cut[k..], dst, handle)
    ensures all[k] == GpuBatch(cut[k].chunkId, cut[k].chunkOffset, cut[k].size, dst, handle)
    ensures all[k + 1..] == Place(cut[k + 1..], dst + cut[k].size, handle)
  {
    assert all[k..][0] == all[k] && all[k..][1..] == all[k + 1..];
    assert cut[k..][1..] == cut[k + 1..];
  }

  lemma ItemsNext(device: int, all: seq<GpuBatch>, k: nat, done: seq<Item>)
    requires k < |all|
    ensures done + ItemsOf(device, all[..k]) + [Item(device, all[k])] == done + ItemsOf(device, all[..k + 1])
  {
  }

  method AddItem(table: array<seq<Item>>, item: Item, ghost done: seq<Item>)
    requires item.batch.chunkId < table.Length && IsTable(table, done)
    modifies table
    ensures IsTable(table, done + [item])
  {
    forall c | 0 <= c < table.Length
      ensures Row(done + [item], c) == Row(done, c) + if item.batch.chunkId == c then [item] else []
    {
      RowAppend(done, item, c);
    }
    table[item.batch.chunkId] := table[item.batch.chunkId] + [item];
  }
}
