/** A cold start as a state machine: I/O threads fill host chunks and announce them, one
    dispatcher turns announced chunks into device batches, one copier per device moves the
    bytes. Any interleaving of their steps is a run. Source: `ToHost`, `DispatchToGpu` and
    `ToGpu` in csrc/sllm_store/model.cpp. */
module LoadMachine {
  import opened Arith
  import opened Bytes
  import opened Collections
  import opened ConcurrentVectors
  import opened HostLoader
  import opened Dispatch
  import opened DispatchTables

  /** The load, the copy list of each device in `order`, and the device memory behind each
      handle before the run. */
  datatype Setup = Setup(cfg: LoadConfig, order: seq<int>, plan: map<int, seq<MemCopyChunk>>, mem0: map<int, seq<seq<byte>>>) {
    /** What the callers guarantee: copy lists for known devices and handles, source ranges
        inside the model, destinations inside the memory and disjoint. */
    ghost predicate Valid() {
      && cfg.Valid() && Distinct(order)
      && (forall d :: d in order <==> d in plan)
      && (forall d :: d in plan ==> d in mem0 && DisjointRequests(plan[d]))
      && (forall d, r :: d in plan && 0 <= r < |plan[d]| ==> Fits(d, plan[d][r]))
    }

    ghost predicate Fits(d: int, req: MemCopyChunk)
      requires d in mem0
    {
      && req.src + req.size <= cfg.Total()
      && req.handle < |mem0[d]| && req.dst + req.size <= |mem0[d][req.handle]|
    }

    ghost function AllItems(): seq<Item>
      requires Valid()
    {
      Items(order, plan, cfg.chunk)
    }
  }

  /** Where an I/O thread is. `Read` means chunk `idx` is in memory and not yet announced. */
  datatype Thread =
    | Idle
    | Reading(part: nat, off: nat, idx: nat)
    | Read(part: nat, off: nat, idx: nat)
    | Done
    | Failed

  /** `loaded` is the announcement vector, `fetched` the dispatcher's position in it, `row` what
      is left of the chunk it works on, `sent` everything it has enqueued. `taken[d]` counts what
      the copier of device `d` has dequeued. */
  datatype State = State(
    host: seq<seq<byte>>, threads: seq<Thread>, loaded: seq<nat>,
    fetched: nat, row: seq<Item>, sent: seq<Item>, ended: set<int>,
    taken: map<int, nat>, stopped: set<int>, mem: map<int, seq<seq<byte>>>)
  {
    /** Everything ever enqueued for device `d`, in order. */
    ghost function Queue(d: int): seq<GpuBatch> {
      OnDevice(sent, d) + if d in ended then [END_MARKER] else []
    }
  }

  datatype Step = StartThread(t: nat) | ReadChunkOf(t: nat) | Announce(t: nat)
                | Fetch | Send | End(d: int) | Take(d: int)

  ghost predicate Init(st: Setup, s: State)
    requires st.Valid()
  {
    && |s.host| == st.cfg.NumChunks() && (forall i :: 0 <= i < |s.host| ==> |s.host[i]| == st.cfg.chunk)
    && |s.threads| == st.cfg.threads && (forall t :: 0 <= t < |s.threads| ==> s.threads[t] == Idle)
    && s.loaded == [] && s.fetched == 0 && s.row == [] && s.sent == [] && s.ended == {}
    && s.taken == (map d | d in st.mem0 :: 0) && s.stopped == {} && s.mem == st.mem0
  }

  /** The step is the next one of its thread. */
  ghost predicate Wants(st: Setup, s: State, step: Step)
    requires st.Valid()
  {
    match step
    case StartThread(t) => t < |s.threads| && s.threads[t].Idle?
    case ReadChunkOf(t) => t < |s.threads| && s.threads[t].Reading?
    case Announce(t) => t < |s.threads| && s.threads[t].Read?
    case Fetch => s.row == [] && s.fetched < st.cfg.NumChunks() && s.fetched < |s.loaded|
    case Send => s.row != []
    case End(d) => s.row == [] && s.fetched == st.cfg.NumChunks() && d in st.mem0 && d !in s.ended
    case Take(d) => d in st.mem0 && d !in s.stopped && d in s.taken && s.taken[d] < |s.Queue(d)|
  }

  /** Every index and range the step uses exists. */
  ghost predicate Safe(st: Setup, s: State, step: Step)
    requires st.Valid() && Wants(st, s, step)
  {
    match step
    case StartThread(t) => true
    case ReadChunkOf(t) =>
      var th := s.threads[t];
      th.idx < st.cfg.Hi(t) ==> th.part < |st.cfg.parts| && th.idx < |s.host| && st.cfg.Size(th.idx) <= |s.host[th.idx]|
    case Announce(t) => s.threads[t].idx !in s.loaded ==> |s.loaded| < st.cfg.NumChunks()
    case Fetch => true
    case Send => s.row[0].device in st.mem0
    case End(d) => true
    case Take(d) =>
      var x := s.Queue(d)[s.taken[d]];
      x.size > 0 ==> CopySafe(s, d, x)
  }

  ghost predicate CopySafe(s: State, d: int, x: GpuBatch) {
    && x.chunkId < |s.host| && x.chunkOffset + x.size <= |s.host[x.chunkId]|
    && d in s.mem && x.handle < |s.mem[d]| && x.gpuOffset + x.size <= |s.mem[d][x.handle]|
  }

  ghost function Apply(st: Setup, s: State, step: Step): State
    requires st.Valid() && Wants(st, s, step) && Safe(st, s, step)
  {
    match step
    case StartThread(t) =>
      var (p, off) := Locate(st.cfg.parts, st.cfg.Pos(st.cfg.Lo(t)), 0);
      s.(threads := s.threads[t := if p >= |st.cfg.parts| then Done else Reading(p, off, st.cfg.Lo(t))])
    case ReadChunkOf(t) => ApplyRead(st, s, t)
    case Announce(t) =>
      var th := s.threads[t];
      s.(loaded := if th.idx in s.loaded then s.loaded else s.loaded + [th.idx],
         threads := s.threads[t := Reading(th.part, th.off, th.idx + 1)])
    case Fetch => s.(row := Row(st.AllItems(), s.loaded[s.fetched]), fetched := s.fetched + 1)
    case Send => s.(sent := s.sent + [s.row[0]], row := s.row[1..])
    case End(d) => s.(ended := s.ended + {d})
    case Take(d) =>
      var x := s.Queue(d)[s.taken[d]];
      if x.size == 0 then s.(taken := s.taken[d := s.taken[d] + 1], stopped := s.stopped + {d})
      else s.(taken := s.taken[d := s.taken[d] + 1], mem := s.mem[d := Copied(s, d, x)])
  }

  ghost function ApplyRead(st: Setup, s: State, t: nat): State
    requires st.Valid() && Wants(st, s, ReadChunkOf(t)) && Safe(st, s, ReadChunkOf(t))
  {
    var th := s.threads[t];
    if th.idx >= st.cfg.Hi(t) then s.(threads := s.threads[t := Done])
    else
      var r := ReadChunk(st.cfg.parts, th.part, th.off, st.cfg.Size(th.idx));
      s.(host := s.host[th.idx := Overlay(s.host[th.idx], 0, r.bytes)],
         threads := s.threads[t := if r.Full? then Read(r.part, r.off, th.idx) else Failed])
  }

  /** The memory of device `d` after one copy. */
  ghost function Copied(s: State, d: int, x: GpuBatch): seq<seq<byte>>
    requires CopySafe(s, d, x)
  {
    s.mem[d][x.handle := Overlay(s.mem[d][x.handle], x.gpuOffset, s.host[x.chunkId][x.chunkOffset..x.chunkOffset + x.size])]
  }

  ghost predicate Next(st: Setup, s: State, s': State)
    requires st.Valid()
  {
    exists step :: Wants(st, s, step) && Safe(st, s, step) && s' == Apply(st, s, step)
  }

  /** A run: any number of steps, each by any thread that has one. */
  ghost predicate IsRun(st: Setup, states: seq<State>)
    requires st.Valid()
  {
    && |states| > 0 && Init(st, states[0])
    && forall k :: 0 < k < |states| ==> Next(st, states[k - 1], states[k])
  }

  // ---- The invariant -------------------------------------------------------------------

  ghost predicate Shape(st: Setup, s: State)
    requires st.Valid()
  {
    && |s.host| == st.cfg.NumChunks() && (forall i :: 0 <= i < |s.host| ==> |s.host[i]| == st.cfg.chunk)
    && |s.threads| == st.cfg.threads
    && s.mem.Keys == st.mem0.Keys && s.taken.Keys == st.mem0.Keys
    && forall d :: d in st.mem0 ==> SameShape(s.mem[d], st.mem0[d])
  }

  ghost predicate SameShape(a: seq<seq<byte>>, b: seq<seq<byte>>) {
    |a| == |b| && forall h :: 0 <= h < |a| ==> |a[h]| == |b[h]|
  }

  /** Of the chunks of thread `t`, exactly those below `idx` have been announced. */
  ghost predicate AnnouncedBelow(st: Setup, loaded: seq<nat>, t: nat, idx: nat)
    requires st.Valid()
  {
    forall c :: st.cfg.Lo(t) <= c < st.cfg.Hi(t) ==> (c in loaded <==> c < idx)
  }

  ghost predicate ThreadOk(st: Setup, host: seq<seq<byte>>, loaded: seq<nat>, t: nat, th: Thread)
    requires st.Valid() && |host| == st.cfg.NumChunks()
  {
    var lo, hi := st.cfg.Lo(t), st.cfg.Hi(t);
    match th
    case Idle => AnnouncedBelow(st, loaded, t, lo)
    case Reading(p, off, i) =>
      && lo <= i <= hi && AnnouncedBelow(st, loaded, t, i)
      && st.cfg.AtChunk(lo, i, p, off) && st.cfg.AllReadable(lo, i)
    case Read(p, off, i) =>
      && lo <= i < hi && AnnouncedBelow(st, loaded, t, i)
      && st.cfg.AtChunk(lo, i + 1, p, off) && st.cfg.AllReadable(lo, i + 1)
      && Holds(st.cfg, host[i], i)
    case Done => AnnouncedBelow(st, loaded, t, hi) && st.cfg.AllReadable(lo, hi)
    case Failed => !st.cfg.AllReadable(lo, hi)
  }

  ghost predicate ThreadsOk(st: Setup, s: State)
    requires st.Valid() && Shape(st, s)
  {
    forall t :: 0 <= t < |s.threads| ==> ThreadOk(st, s.host, s.loaded, t, s.threads[t])
  }

  /** Announced chunks are distinct and already hold their bytes. */
  ghost predicate LoadedOk(st: Setup, s: State)
    requires st.Valid() && Shape(st, s)
  {
    && Distinct(s.loaded)
    && forall k :: 0 <= k < |s.loaded| ==> s.loaded[k] < st.cfg.NumChunks() && Holds(st.cfg, s.host[s.loaded[k]], s.loaded[k])
  }

  ghost predicate DispatchOk(st: Setup, s: State)
    requires st.Valid()
  {
    && s.fetched <= |s.loaded| && s.fetched <= st.cfg.NumChunks()
    && s.sent + s.row == Dispatched(st.AllItems(), s.loaded[..s.fetched])
    && (s.ended != {} ==> s.row == [] && s.fetched == st.cfg.NumChunks())
  }

  /** The piece is where it belongs: its destination holds its source bytes. */
  ghost predicate Landed(st: Setup, mem: seq<seq<byte>>, x: GpuBatch) {
    var from := x.chunkId * st.cfg.chunk + x.chunkOffset;
    && x.handle < |mem| && x.gpuOffset + x.size <= |mem[x.handle]| && from + x.size <= st.cfg.Total()
    && mem[x.handle][x.gpuOffset..x.gpuOffset + x.size] == Flat(st.cfg.parts)[from..from + x.size]
  }

  ghost predicate Requested(reqs: seq<MemCopyChunk>, h: nat, k: nat) {
    exists r :: 0 <= r < |reqs| && reqs[r].handle == h && reqs[r].dst <= k < reqs[r].dst + reqs[r].size
  }

  /** Only requested bytes have changed. */
  ghost predicate Frame(st: Setup, d: int, mem: seq<seq<byte>>)
    requires d in st.mem0 && SameShape(mem, st.mem0[d])
  {
    forall h, k :: 0 <= h < |mem| && 0 <= k < |mem[h]| && mem[h][k] != st.mem0[d][h][k] ==>
                     d in st.plan && Requested(st.plan[d], h, k)
  }

  ghost predicate CopierOk(st: Setup, s: State, d: int)
    requires st.Valid() && Shape(st, s) && d in st.mem0
  {
    var sent := OnDevice(s.sent, d);
    && (d in s.stopped ==> d in s.ended && s.taken[d] == |sent| + 1)
    && (d !in s.stopped ==> s.taken[d] <= |sent|)
    && (forall k :: 0 <= k < s.taken[d] && k < |sent| ==> Landed(st, s.mem[d], sent[k]))
    && Frame(st, d, s.mem[d])
  }

  ghost predicate Inv(st: Setup, s: State)
    requires st.Valid()
  {
    && Shape(st, s) && ThreadsOk(st, s) && LoadedOk(st, s) && DispatchOk(st, s)
    && forall d :: d in st.mem0 ==> CopierOk(st, s, d)
  }

  lemma InitInv(st: Setup, s: State)
    requires st.Valid() && Init(st, s)
    ensures Inv(st, s)
  {
    assert OnDevice(s.sent, 0) == [];
  }

  // ---- I/O threads ---------------------------------------------------------------------

  lemma StartInv(st: Setup, s: State, t: nat)
    requires st.Valid() && Inv(st, s) && Wants(st, s, StartThread(t))
    ensures Inv(st, Apply(st, s, StartThread(t)))
  {
    st.cfg.EarlyExit(t);
    LocateSound(st.cfg.parts, st.cfg.Pos(st.cfg.Lo(t)), 0);
    if st.cfg.Lo(t) < st.cfg.Hi(t) {
      st.cfg.StartsAtChunk(t);
    }
    var s' := Apply(st, s, StartThread(t));
    assert forall u :: 0 <= u < |s.threads| && u != t ==> s'.threads[u] == s.threads[u];
    CopiersKept(st, s, s');
  }

  lemma ReadInv(st: Setup, s: State, t: nat)
    requires st.Valid() && Inv(st, s) && Wants(st, s, ReadChunkOf(t))
    ensures Safe(st, s, ReadChunkOf(t))
    ensures Inv(st, Apply(st, s, ReadChunkOf(t)))
  {
    var i, lo, hi := s.threads[t].idx, st.cfg.Lo(t), st.cfg.Hi(t);
    assert ThreadOk(st, s.host, s.loaded, t, s.threads[t]);
    if i < hi {
      st.cfg.SizeBounds(i);
      ReadOne(st, s, t);
      ReadOthers(st, s, t);
    } else {
      var s' := Apply(st, s, ReadChunkOf(t));
      assert forall u :: 0 <= u < |s.threads| ==> u == t || s'.threads[u] == s.threads[u];
    }
    CopiersKept(st, s, Apply(st, s, ReadChunkOf(t)));
  }

  /** Steps that touch neither queues nor device memory leave the copiers alone. */
  lemma CopiersKept(st: Setup, s: State, s': State)
    requires st.Valid() && Inv(st, s) && Shape(st, s')
    requires s'.sent == s.sent && s'.ended == s.ended && s'.taken == s.taken && s'.stopped == s.stopped && s'.mem == s.mem
    ensures forall d :: d in st.mem0 ==> CopierOk(st, s', d)
  {
    forall d | d in st.mem0 ensures CopierOk(st, s', d) {
      assert CopierOk(st, s, d);
    }
  }

  /** Reading a chunk disturbs no other thread and no announced chunk. */
  lemma ReadOthers(st: Setup, s: State, t: nat)
    requires st.Valid() && Inv(st, s) && Wants(st, s, ReadChunkOf(t))
    requires s.threads[t].idx < st.cfg.Hi(t) && Safe(st, s, ReadChunkOf(t))
    ensures var s' := Apply(st, s, ReadChunkOf(t));
            && Shape(st, s') && LoadedOk(st, s')
            && forall u :: 0 <= u < |s.threads| && u != t ==> ThreadOk(st, s'.host, s.loaded, u, s'.threads[u])
  {
    var i := s.threads[t].idx;
    var s' := Apply(st, s, ReadChunkOf(t));
    assert ThreadOk(st, s.host, s.loaded, t, s.threads[t]);
    assert i !in s.loaded;
    forall u | 0 <= u < |s.threads| && u != t
      ensures ThreadOk(st, s'.host, s.loaded, u, s'.threads[u])
    {
      assert ThreadOk(st, s.host, s.loaded, u, s.threads[u]);
      if s.threads[u].Read? && s.threads[u].idx == i {
        st.cfg.RangesDisjoint(t, u, i);
      }
    }
  }

  /** What reading one chunk does to the thread's own state. */
  lemma ReadOne(st: Setup, s: State, t: nat)
    requires st.Valid() && Inv(st, s) && Wants(st, s, ReadChunkOf(t))
    requires s.threads[t].idx < st.cfg.Hi(t) && Safe(st, s, ReadChunkOf(t))
    ensures var s' := Apply(st, s, ReadChunkOf(t));
            ThreadOk(st, s'.host, s.loaded, t, s'.threads[t])
  {
    var th, lo := s.threads[t], st.cfg.Lo(t);
    assert ThreadOk(st, s.host, s.loaded, t, th);
    st.cfg.ReadsChunk(lo, th.idx, th.part, th.off);
    var s' := Apply(st, s, ReadChunkOf(t));
    if s'.threads[t].Failed? {
      assert !st.cfg.Readable(lo, th.idx);
    }
  }

  lemma AnnounceInv(st: Setup, s: State, t: nat)
    requires st.Valid() && Inv(st, s) && Wants(st, s, Announce(t))
    ensures Safe(st, s, Announce(t))
    ensures Inv(st, Apply(st, s, Announce(t)))
  {
    AnnounceSafe(st, s, t);
    var s' := Apply(st, s, Announce(t));
    AnnounceThreads(st, s, t);
    AnnounceLoaded(st, s, t);
    assert s'.loaded[..s.fetched] == s.loaded[..s.fetched];
    CopiersKept(st, s, s');
  }

  /** A chunk that has not been announced finds a free slot in the vector. */
  lemma AnnounceSafe(st: Setup, s: State, t: nat)
    requires st.Valid() && Inv(st, s) && Wants(st, s, Announce(t))
    ensures Safe(st, s, Announce(t))
  {
    assert ThreadOk(st, s.host, s.loaded, t, s.threads[t]);
    if |s.loaded| >= st.cfg.NumChunks() {
      DistinctCovers(s.loaded, st.cfg.NumChunks(), s.threads[t].idx);
    }
  }

  lemma AnnounceThreads(st: Setup, s: State, t: nat)
    requires st.Valid() && Inv(st, s) && Wants(st, s, Announce(t)) && Safe(st, s, Announce(t))
    ensures ThreadsOk(st, Apply(st, s, Announce(t)))
  {
    var i := s.threads[t].idx;
    assert ThreadOk(st, s.host, s.loaded, t, s.threads[t]);
    var s' := Apply(st, s, Announce(t));
    forall u | 0 <= u < |s.threads|
      ensures ThreadOk(st, s'.host, s'.loaded, u, s'.threads[u])
    {
      assert ThreadOk(st, s.host, s.loaded, u, s.threads[u]);
      if u != t && st.cfg.Lo(u) <= i < st.cfg.Hi(u) {
        st.cfg.RangesDisjoint(t, u, i);
      }
    }
  }

  lemma AnnounceLoaded(st: Setup, s: State, t: nat)
    requires st.Valid() && Inv(st, s) && Wants(st, s, Announce(t)) && Safe(st, s, Announce(t))
    ensures LoadedOk(st, Apply(st, s, Announce(t)))
    ensures s.loaded <= Apply(st, s, Announce(t)).loaded
  {
    assert ThreadOk(st, s.host, s.loaded, t, s.threads[t]);
    var s', i := Apply(st, s, Announce(t)), s.threads[t].idx;
    assert s'.loaded == s.loaded + [i];
  }

  // ---- The dispatcher ------------------------------------------------------------------

  lemma FetchInv(st: Setup, s: State)
    requires st.Valid() && Inv(st, s) && Wants(st, s, Fetch)
    ensures Inv(st, Apply(st, s, Fetch))
  {
    FetchDispatch(st, s);
    CopiersKept(st, s, Apply(st, s, Fetch));
  }

  lemma FetchDispatch(st: Setup, s: State)
    requires st.Valid() && DispatchOk(st, s) && Wants(st, s, Fetch)
    ensures DispatchOk(st, Apply(st, s, Fetch))
  {
    assert s.loaded[..s.fetched + 1] == s.loaded[..s.fetched] + [s.loaded[s.fetched]];
    DispatchedAppend(st.AllItems(), s.loaded[..s.fetched], s.loaded[s.fetched]);
  }

  lemma SendInv(st: Setup, s: State)
    requires st.Valid() && Inv(st, s) && Wants(st, s, Send)
    ensures Safe(st, s, Send)
    ensures Inv(st, Apply(st, s, Send))
  {
    var x := s.row[0];
    SentItem(st, s, |s.sent|);
    var s' := Apply(st, s, Send);
    assert s'.sent + s'.row == s.sent + s.row;
    forall d | d in st.mem0 ensures CopierOk(st, s', d) {
      assert CopierOk(st, s, d);
      OnDeviceAppend(s.sent, x, d);
    }
  }

  /** Everything dispatched is a piece of a requested copy, of an announced chunk. */
  lemma SentItem(st: Setup, s: State, i: nat)
    requires st.Valid() && Inv(st, s) && i < |s.sent + s.row|
    ensures var x := (s.sent + s.row)[i];
            && x.batch.chunkId in s.loaded
            && x.device in st.plan && x.batch in Pieces(st.plan[x.device], st.cfg.chunk)
  {
    var x := (s.sent + s.row)[i];
    var items, loaded := st.AllItems(), s.loaded[..s.fetched];
    assert multiset(Dispatched(items, loaded))[x] > 0;
    CountDispatched(items, loaded, x);
    CountItems(st.order, st.plan, st.cfg.chunk, x);
  }

  lemma EndInv(st: Setup, s: State, d: int)
    requires st.Valid() && Inv(st, s) && Wants(st, s, End(d))
    ensures Inv(st, Apply(st, s, End(d)))
  {
    var s' := Apply(st, s, End(d));
    forall e | e in st.mem0 ensures CopierOk(st, s', e) {
      assert CopierOk(st, s, e);
    }
  }

  // ---- The copiers ---------------------------------------------------------------------

  /** The batches sent to a device so far are non-empty and have disjoint destinations. */
  lemma {:induction false} SentApart(st: Setup, s: State, d: int)
    requires st.Valid() && Inv(st, s)
    ensures AllApart(OnDevice(s.sent, d))
    ensures multiset(OnDevice(s.sent, d)) <= (if d in st.plan then multiset(Pieces(st.plan[d], st.cfg.chunk)) else multiset{})
  {
    DispatchSound(st.order, st.plan, st.cfg.chunk, s.loaded[..s.fetched], s.sent, d);
    if d in st.order {
      PiecesApart(st.plan[d], st.cfg.chunk);
      ApartPart(OnDevice(s.sent, d), Pieces(st.plan[d], st.cfg.chunk));
    }
  }

  /** A batch sent to a device is part of one of its requests, in an announced chunk. */
  lemma SentPiece(st: Setup, s: State, d: int, k: nat) returns (r: nat)
    requires st.Valid() && Inv(st, s) && k < |OnDevice(s.sent, d)|
    ensures d in st.plan && r < |st.plan[d]|
    ensures PartOfRequest(OnDevice(s.sent, d)[k], st.plan[d][r], st.cfg.chunk)
    ensures OnDevice(s.sent, d)[k].chunkId in s.loaded
  {
    var x := OnDevice(s.sent, d)[k];
    assert multiset(OnDevice(s.sent, d))[x] > 0;
    CountOnDevice(s.sent, d, x);
    var n :| 0 <= n < |s.sent| && s.sent[n] == Item(d, x);
    SentItem(st, s, n);
    assert (s.sent + s.row)[n] == Item(d, x);
    var i :| 0 <= i < |Pieces(st.plan[d], st.cfg.chunk)| && Pieces(st.plan[d], st.cfg.chunk)[i] == x;
    r := PieceHasRequest(st.plan[d], st.cfg.chunk, i);
  }

  /** It can be copied, and brings the bytes it stands for. */
  lemma {:induction false} BatchReady(st: Setup, s: State, d: int, k: nat)
    requires st.Valid() && Inv(st, s) && k < |OnDevice(s.sent, d)|
    ensures OnDevice(s.sent, d)[k].size > 0 && d in st.plan
    ensures CopySafe(s, d, OnDevice(s.sent, d)[k])
    ensures Brings(st, s, OnDevice(s.sent, d)[k])
    ensures forall j :: OnDevice(s.sent, d)[k].gpuOffset <= j < OnDevice(s.sent, d)[k].gpuOffset + OnDevice(s.sent, d)[k].size ==>
              Requested(st.plan[d], OnDevice(s.sent, d)[k].handle, j)
  {
    var x := OnDevice(s.sent, d)[k];
    var r := SentPiece(st, s, d, k);
    assert st.Fits(d, st.plan[d][r]);
    assert SameShape(s.mem[d], st.mem0[d]);
    ChunkSlice(st, s, x);
    forall j | x.gpuOffset <= j < x.gpuOffset + x.size
      ensures Requested(st.plan[d], x.handle, j)
    {
      assert st.plan[d][r].dst <= j < st.plan[d][r].dst + st.plan[d][r].size;
    }
  }

  /** The chunk buffer of `x` holds the model's bytes at the place `x` reads. */
  ghost predicate Brings(st: Setup, s: State, x: GpuBatch) {
    var from := x.chunkId * st.cfg.chunk + x.chunkOffset;
    && x.chunkId < |s.host| && x.chunkOffset + x.size <= |s.host[x.chunkId]| && from + x.size <= st.cfg.Total()
    && s.host[x.chunkId][x.chunkOffset..x.chunkOffset + x.size] == Flat(st.cfg.parts)[from..from + x.size]
  }

  lemma ChunkSlice(st: Setup, s: State, x: GpuBatch)
    requires st.Valid() && Inv(st, s) && x.chunkId in s.loaded
    requires x.chunkOffset + x.size <= st.cfg.chunk && x.chunkId * st.cfg.chunk + x.chunkOffset + x.size <= st.cfg.Total()
    ensures Brings(st, s, x)
  {
    var c := x.chunkId;
    var k :| 0 <= k < |s.loaded| && s.loaded[k] == c;
    assert Holds(st.cfg, s.host[c], c);
    st.cfg.SizeBounds(c);
    SliceOfSlice(Flat(st.cfg.parts), st.cfg.Pos(c), st.cfg.Pos(c) + st.cfg.Size(c), x.chunkOffset, x.size);
    SliceOfSlice(s.host[c], 0, st.cfg.Size(c), x.chunkOffset, x.size);
  }

  lemma TakeInv(st: Setup, s: State, d: int)
    requires st.Valid() && Inv(st, s) && Wants(st, s, Take(d))
    ensures Safe(st, s, Take(d))
    ensures Inv(st, Apply(st, s, Take(d)))
  {
    TakeOwn(st, s, d);
    var s' := Apply(st, s, Take(d));
    forall e | e in st.mem0 && e != d ensures CopierOk(st, s', e) {
      assert CopierOk(st, s, e);
    }
  }

  /** What a copier's step does to its own device. */
  lemma TakeOwn(st: Setup, s: State, d: int)
    requires st.Valid() && Inv(st, s) && Wants(st, s, Take(d))
    ensures Safe(st, s, Take(d)) && Shape(st, Apply(st, s, Take(d)))
    ensures CopierOk(st, Apply(st, s, Take(d)), d)
  {
    var sent, n := OnDevice(s.sent, d), s.taken[d];
    assert CopierOk(st, s, d);
    if n < |sent| {
      assert s.Queue(d)[n] == sent[n];
      BatchReady(st, s, d, n);
      TakeData(st, s, d);
    } else {
      assert s.Queue(d)[n] == END_MARKER;
    }
    var s' := Apply(st, s, Take(d));
    assert s'.mem.Keys == s.mem.Keys && s'.taken.Keys == s.taken.Keys;
  }

  /** Copying the next batch lands it, and leaves what has landed and what is not requested. */
  lemma {:induction false} TakeData(st: Setup, s: State, d: int)
    requires st.Valid() && Inv(st, s) && d in st.mem0 && s.taken[d] < |OnDevice(s.sent, d)|
    requires CopySafe(s, d, OnDevice(s.sent, d)[s.taken[d]])
    ensures var sent := OnDevice(s.sent, d);
            var mem' := Copied(s, d, sent[s.taken[d]]);
            && SameShape(mem', st.mem0[d]) && Frame(st, d, mem')
            && forall k :: 0 <= k <= s.taken[d] ==> Landed(st, mem', sent[k])
  {
    BatchReady(st, s, d, s.taken[d]);
    SentApart(st, s, d);
    CopierSoFar(st, s, d);
    CopyEffect(st, s, d, OnDevice(s.sent, d), s.taken[d]);
  }

  lemma {:induction false} CopierSoFar(st: Setup, s: State, d: int)
    requires st.Valid() && Inv(st, s) && d in st.mem0 && s.taken[d] < |OnDevice(s.sent, d)|
    ensures SameShape(s.mem[d], st.mem0[d]) && Frame(st, d, s.mem[d])
    ensures forall k :: 0 <= k < s.taken[d] ==> Landed(st, s.mem[d], OnDevice(s.sent, d)[k])
  {
    assert CopierOk(st, s, d);
  }

  lemma CopyEffect(st: Setup, s: State, d: int, sent: seq<GpuBatch>, n: nat)
    requires n < |sent| && CopySafe(s, d, sent[n]) && AllApart(sent) && Brings(st, s, sent[n])
    requires d in st.mem0 && d in st.plan && SameShape(s.mem[d], st.mem0[d]) && Frame(st, d, s.mem[d])
    requires forall j :: sent[n].gpuOffset <= j < sent[n].gpuOffset + sent[n].size ==> Requested(st.plan[d], sent[n].handle, j)
    requires forall k :: 0 <= k < n ==> Landed(st, s.mem[d], sent[k])
    ensures var mem' := Copied(s, d, sent[n]);
            && SameShape(mem', st.mem0[d]) && Frame(st, d, mem')
            && forall k :: 0 <= k <= n ==> Landed(st, mem', sent[k])
  {
    CopyLands(st, s, d, sent[n]);
    CopyFrames(st, s, d, sent[n]);
    CopyKeepsAll(st, s, d, sent, n);
  }

  lemma CopyKeepsAll(st: Setup, s: State, d: int, sent: seq<GpuBatch>, n: nat)
    requires n < |sent| && CopySafe(s, d, sent[n]) && AllApart(sent)
    requires forall k :: 0 <= k < n ==> Landed(st, s.mem[d], sent[k])
    ensures forall k :: 0 <= k < n ==> Landed(st, Copied(s, d, sent[n]), sent[k])
  {
    forall k | 0 <= k < n
      ensures Landed(st, Copied(s, d, sent[n]), sent[k])
    {
      assert Apart(sent[k], sent[n]);
      CopyKeeps(st, s, d, sent[k], sent[n]);
    }
  }

  lemma CopyLands(st: Setup, s: State, d: int, x: GpuBatch)
    requires CopySafe(s, d, x) && Brings(st, s, x)
    ensures Landed(st, Copied(s, d, x), x)
  {
  }

  lemma CopyFrames(st: Setup, s: State, d: int, x: GpuBatch)
    requires CopySafe(s, d, x) && d in st.mem0 && d in st.plan && SameShape(s.mem[d], st.mem0[d]) && Frame(st, d, s.mem[d])
    requires forall j :: x.gpuOffset <= j < x.gpuOffset + x.size ==> Requested(st.plan[d], x.handle, j)
    ensures SameShape(Copied(s, d, x), st.mem0[d]) && Frame(st, d, Copied(s, d, x))
  {
  }

  lemma CopyKeeps(st: Setup, s: State, d: int, x: GpuBatch, y: GpuBatch)
    requires CopySafe(s, d, y) && Landed(st, s.mem[d], x) && Apart(x, y)
    ensures Landed(st, Copied(s, d, y), x)
  {
    var mem, mem' := s.mem[d], Copied(s, d, y);
    assert mem'[x.handle][x.gpuOffset..x.gpuOffset + x.size] == mem[x.handle][x.gpuOffset..x.gpuOffset + x.size];
  }

  // ---- All runs ------------------------------------------------------------------------

  lemma StepInv(st: Setup, s: State, step: Step)
    requires st.Valid() && Inv(st, s) && Wants(st, s, step)
    ensures Safe(st, s, step) && Inv(st, Apply(st, s, step))
  {
    match step
    case StartThread(t) => StartInv(st, s, t);
    case ReadChunkOf(t) => ReadInv(st, s, t);
    case Announce(t) => AnnounceInv(st, s, t);
    case Fetch => FetchInv(st, s);
    case Send => SendInv(st, s);
    case End(d) => EndInv(st, s, d);
    case Take(d) => TakeInv(st, s, d);
  }

  lemma NextInv(st: Setup, s: State, s': State)
    requires st.Valid() && Inv(st, s) && Next(st, s, s')
    ensures Inv(st, s')
  {
    var step :| Wants(st, s, step) && Safe(st, s, step) && s' == Apply(st, s, step);
    StepInv(st, s, step);
  }

  lemma {:induction false} RunInv(st: Setup, states: seq<State>, k: nat)
    requires st.Valid() && IsRun(st, states) && k < |states|
    ensures Inv(st, states[k])
  {
    if k == 0 {
      InitInv(st, states[0]);
    } else {
      RunInv(st, states, k - 1);
      NextInv(st, states[k - 1], states[k]);
    }
  }

  /** No thread of a run ever uses an index or a range that does not exist. */
  lemma RunSafe(st: Setup, states: seq<State>, k: nat, step: Step)
    requires st.Valid() && IsRun(st, states) && k < |states| && Wants(st, states[k], step)
    ensures Safe(st, states[k], step)
  {
    RunInv(st, states, k);
    StepInv(st, states[k], step);
  }

  // ---- What every run delivers ---------------------------------------------------------

  /** `n` distinct numbers below `n` are all of them. */
  lemma DistinctCovers(s: seq<nat>, n: nat, c: nat)
    requires Distinct(s) && |s| >= n && c < n && forall k :: 0 <= k < |s| ==> s[k] < n
    ensures c in s
  {
    DistinctCount(s);
    if c !in s {
      FreeSlot(ToSet(s), c, n);
    }
  }

  /** When end markers go out, the dispatcher has worked through every chunk once. */
  lemma EndedDispatch(st: Setup, states: seq<State>, k: nat, d: int) returns (order: seq<nat>)
    requires st.Valid() && IsRun(st, states) && k < |states| && d in states[k].ended
    ensures Distinct(order) && forall c :: 0 <= c < st.cfg.NumChunks() ==> c in order
    ensures states[k].sent == Dispatched(st.AllItems(), order)
    ensures AllApart(OnDevice(states[k].sent, d))
  {
    var s := states[k];
    RunInv(st, states, k);
    SentApart(st, s, d);
    order := s.loaded[..s.fetched];
    assert s.sent + s.row == s.sent;
    forall c | 0 <= c < st.cfg.NumChunks() ensures c in order {
      DistinctCovers(order, st.cfg.NumChunks(), c);
    }
  }

  /** The queue of a device has received exactly the pieces of its copy list, followed by one end
      marker, when that marker has been sent; no piece looks like the marker. */
  lemma {:induction false} QueueComplete(st: Setup, states: seq<State>, k: nat, d: int)
    requires st.Valid() && IsRun(st, states) && k < |states| && d in states[k].ended && d in st.plan
    ensures states[k].Queue(d) == OnDevice(states[k].sent, d) + [END_MARKER]
    ensures multiset(OnDevice(states[k].sent, d)) == multiset(Pieces(st.plan[d], st.cfg.chunk))
    ensures forall x :: x in OnDevice(states[k].sent, d) ==> x.size > 0
  {
    var order := EndedDispatch(st, states, k, d);
    forall i | 0 <= i < |Pieces(st.plan[d], st.cfg.chunk)|
      ensures Pieces(st.plan[d], st.cfg.chunk)[i].chunkId in order
    {
      var r := PieceHasRequest(st.plan[d], st.cfg.chunk, i);
      assert st.Fits(d, st.plan[d][r]);
      PieceChunk(st, Pieces(st.plan[d], st.cfg.chunk)[i], st.plan[d][r]);
    }
    DispatchComplete(st.order, st.plan, st.cfg.chunk, order, d);
  }

  lemma PieceChunk(st: Setup, x: GpuBatch, req: MemCopyChunk)
    requires st.Valid() && PartOfRequest(x, req, st.cfg.chunk) && req.src + req.size <= st.cfg.Total()
    ensures x.chunkId < st.cfg.NumChunks()
  {
    CeilDivBounds(st.cfg.Total(), st.cfg.chunk);
    if x.chunkId > st.cfg.NumChunks() {
      MulLess(st.cfg.NumChunks(), x.chunkId, st.cfg.chunk);
    }
  }

  /** The memory of device `d` holds the requested range of the model where the request wants
      it. */
  ghost predicate Delivered(st: Setup, mem: map<int, seq<seq<byte>>>, d: int, req: MemCopyChunk) {
    && d in mem && req.handle < |mem[d]| && req.dst + req.size <= |mem[d][req.handle]|
    && req.src + req.size <= st.cfg.Total()
    && mem[d][req.handle][req.dst..req.dst + req.size] == Flat(st.cfg.parts)[req.src..req.src + req.size]
  }

  /** Once its copier has stopped, a device holds every requested range of the model, whatever
      the interleaving, and even if other devices or threads are still at work. */
  lemma DeviceComplete(st: Setup, states: seq<State>, k: nat, d: int, r: nat)
    requires st.Valid() && IsRun(st, states) && k < |states| && d in states[k].stopped
    requires d in st.plan && r < |st.plan[d]|
    ensures Delivered(st, states[k].mem, d, st.plan[d][r])
  {
    var req := st.plan[d][r];
    var mem := StoppedLanded(st, states, k, d);
    assert st.Fits(d, req);
    QueueComplete(st, states, k, d);
    RangeLanded(st, mem, OnDevice(states[k].sent, d), st.plan[d], r);
  }

  lemma SlicesEqual(a: seq<byte>, i: nat, b: seq<byte>, j: nat, n: nat)
    requires i + n <= |a| && j + n <= |b|
    requires forall k :: i <= k < i + n ==> a[k] == b[j + (k - i)]
    ensures a[i..i + n] == b[j..j + n]
  {
  }

  ghost predicate AllLanded(st: Setup, mem: seq<seq<byte>>, sent: seq<GpuBatch>) {
    forall n :: 0 <= n < |sent| ==> Landed(st, mem, sent[n])
  }

  lemma StoppedLanded(st: Setup, states: seq<State>, k: nat, d: int) returns (mem: seq<seq<byte>>)
    requires st.Valid() && IsRun(st, states) && k < |states| && d in states[k].stopped && d in st.mem0
    ensures d in states[k].mem && mem == states[k].mem[d] && SameShape(mem, st.mem0[d])
    ensures d in states[k].ended
    ensures AllLanded(st, mem, OnDevice(states[k].sent, d))
  {
    RunInv(st, states, k);
    assert CopierOk(st, states[k], d);
    mem := states[k].mem[d];
  }

  lemma {:induction false} ByteLanded(st: Setup, mem: seq<seq<byte>>, sent: seq<GpuBatch>, reqs: seq<MemCopyChunk>, r: nat, j: nat)
    requires 0 < st.cfg.chunk && r < |reqs| && reqs[r].dst <= j < reqs[r].dst + reqs[r].size
    requires multiset(sent) == multiset(Pieces(reqs, st.cfg.chunk))
    requires AllLanded(st, mem, sent)
    ensures reqs[r].handle < |mem| && j < |mem[reqs[r].handle]| && reqs[r].src + (j - reqs[r].dst) < st.cfg.Total()
    ensures mem[reqs[r].handle][j] == Flat(st.cfg.parts)[reqs[r].src + (j - reqs[r].dst)]
  {
    var all := Pieces(reqs, st.cfg.chunk);
    var i := PiecesCover(reqs, st.cfg.chunk, r, j);
    var x := all[i];
    var n := FindIn(all, sent, i);
    PieceByte(st, mem, x, reqs[r], x.chunkId * st.cfg.chunk + x.chunkOffset, j);
  }

  lemma PieceByte(st: Setup, mem: seq<seq<byte>>, x: GpuBatch, req: MemCopyChunk, from: nat, j: nat)
    requires Landed(st, mem, x) && from == x.chunkId * st.cfg.chunk + x.chunkOffset
    requires x.handle == req.handle && req.dst <= x.gpuOffset <= j < x.gpuOffset + x.size
    requires from == req.src + (x.gpuOffset - req.dst)
    ensures req.handle < |mem| && j < |mem[req.handle]| && req.src + (j - req.dst) < st.cfg.Total()
    ensures mem[req.handle][j] == Flat(st.cfg.parts)[req.src + (j - req.dst)]
  {
    assert mem[x.handle][x.gpuOffset..x.gpuOffset + x.size][j - x.gpuOffset]
           == Flat(st.cfg.parts)[from..from + x.size][j - x.gpuOffset];
  }

  lemma {:induction false} RangeLanded(st: Setup, mem: seq<seq<byte>>, sent: seq<GpuBatch>, reqs: seq<MemCopyChunk>, r: nat)
    requires 0 < st.cfg.chunk && r < |reqs|
    requires reqs[r].handle < |mem| && reqs[r].dst + reqs[r].size <= |mem[reqs[r].handle]| && reqs[r].src + reqs[r].size <= st.cfg.Total()
    requires multiset(sent) == multiset(Pieces(reqs, st.cfg.chunk))
    requires AllLanded(st, mem, sent)
    ensures mem[reqs[r].handle][reqs[r].dst..reqs[r].dst + reqs[r].size] ==
            Flat(st.cfg.parts)[reqs[r].src..reqs[r].src + reqs[r].size]
  {
    forall j | reqs[r].dst <= j < reqs[r].dst + reqs[r].size
      ensures mem[reqs[r].handle][j] == Flat(st.cfg.parts)[reqs[r].src + (j - reqs[r].dst)]
    {
      ByteLanded(st, mem, sent, reqs, r, j);
    }
    SlicesEqual(mem[reqs[r].handle], reqs[r].dst, Flat(st.cfg.parts), reqs[r].src, reqs[r].size);
  }

  /** Nothing but requested bytes ever changes in device memory. */
  lemma OnlyRequestedChange(st: Setup, states: seq<State>, k: nat, d: int, h: nat, j: nat)
    requires st.Valid() && IsRun(st, states) && k < |states| && d in st.mem0
    requires h < |st.mem0[d]| && j < |st.mem0[d][h]|
    requires d in st.plan ==> !Requested(st.plan[d], h, j)
    ensures d in states[k].mem && h < |states[k].mem[d]| && j < |states[k].mem[d][h]|
    ensures states[k].mem[d][h][j] == st.mem0[d][h][j]
  {
    RunInv(st, states, k);
    assert CopierOk(st, states[k], d) && SameShape(states[k].mem[d], st.mem0[d]);
  }

  ghost predicate AllDone(s: State) {
    forall t :: 0 <= t < |s.threads| ==> s.threads[t].Done?
  }

  ghost predicate AllReadable(st: Setup)
    requires st.Valid()
  {
    forall t: nat :: t < st.cfg.threads ==> st.cfg.AllReadable(st.cfg.Lo(t), st.cfg.Hi(t))
  }

  /** When the I/O threads have finished, none has failed exactly when every chunk was readable
      by its thread. */
  lemma HostOutcome(st: Setup, states: seq<State>, k: nat)
    requires st.Valid() && IsRun(st, states) && k < |states|
    requires forall t :: 0 <= t < |states[k].threads| ==> states[k].threads[t].Done? || states[k].threads[t].Failed?
    ensures AllDone(states[k]) <==> AllReadable(st)
  {
    var s := states[k];
    RunInv(st, states, k);
    forall t | 0 <= t < |s.threads|
      ensures s.threads[t].Done? <==> st.cfg.AllReadable(st.cfg.Lo(t), st.cfg.Hi(t))
    {
      assert ThreadOk(st, s.host, s.loaded, t, s.threads[t]);
    }
  }

  /** When no thread has failed, every host chunk holds exactly its part of the concatenated
      files, and has been announced. */
  lemma HostComplete(st: Setup, states: seq<State>, k: nat, i: nat)
    requires st.Valid() && IsRun(st, states) && k < |states| && AllDone(states[k]) && i < st.cfg.NumChunks()
    ensures i < |states[k].host| && Holds(st.cfg, states[k].host[i], i)
    ensures i in states[k].loaded
  {
    var s := states[k];
    RunInv(st, states, k);
    var t := st.cfg.ThreadOfChunk(i);
    assert s.threads[t].Done?;
    assert ThreadOk(st, s.host, s.loaded, t, s.threads[t]);
    assert i in s.loaded;
    var n :| 0 <= n < |s.loaded| && s.loaded[n] == i;
  }

  /** With every inner partition at least one chunk long, no thread of any run ever fails. */
  lemma LongPartitionsNeverFail(st: Setup, states: seq<State>, k: nat, t: nat)
    requires st.Valid() && IsRun(st, states) && k < |states| && t < |states[k].threads|
    requires forall p :: 0 < p < |st.cfg.parts| - 1 ==> |st.cfg.parts[p]| >= st.cfg.chunk
    ensures !states[k].threads[t].Failed?
  {
    var s, lo, hi := states[k], st.cfg.Lo(t), st.cfg.Hi(t);
    RunInv(st, states, k);
    assert ThreadOk(st, s.host, s.loaded, t, s.threads[t]);
    forall i: nat | lo <= i < hi
      ensures st.cfg.Readable(lo, i)
    {
      st.cfg.LongPartitionsReadable(lo, i);
    }
  }
}
