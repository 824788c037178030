/** The control plane's view of one node's host memory, `SllmLocalStore` in sllm/store_manager.py.
    Between its suspension points the store moves in single steps: a registration, a request to
    load, and one round of the loading loop. */
module LocalStores {
  import opened Arith
  import opened Collections

  /** A registered model: its paths (one per rank) and total size. */
  datatype DiskModel = DiskModel(paths: seq<string>, size: nat)

  datatype IoRequest = IoRequest(name: string, estimated: real)

  /** An entry of the pinned memory pool, with the time its load finished. */
  datatype Pinned = Pinned(name: string, loaded: real)

  datatype Config = Config(chunkSize: nat, poolChunks: nat) {
    predicate Valid() {
      chunkSize > 0
    }
  }

  /** The store's fields; `resident` holds the paths that the client has loaded into host memory
      and not unloaded. */
  datatype View = View(
    disk: map<string, DiskModel>,
    queue: seq<IoRequest>,
    queued: set<string>,
    pool: seq<Pinned>,
    usage: int,
    resident: set<string>)

  const EMPTY := View(map[], [], {}, [], 0, {})

  datatype Event =
    | Register(name: string, paths: seq<string>, size: nat)
    | Request(name: string, now: real, bandwidth: real)
    | Load(now: real, failing: set<string>)

  function Chunks(cfg: Config, size: nat): nat
    requires cfg.Valid()
  {
    CeilDiv(size, cfg.chunkSize)
  }

  function ChunksOf(cfg: Config, disk: map<string, DiskModel>, name: string): nat
    requires cfg.Valid()
  {
    if name in disk then Chunks(cfg, disk[name].size) else 0
  }

  /** Chunks of the pinned models together. */
  function Usage(cfg: Config, disk: map<string, DiskModel>, pool: seq<Pinned>): nat
    requires cfg.Valid()
  {
    if pool == [] then 0 else ChunksOf(cfg, disk, pool[0].name) + Usage(cfg, disk, pool[1..])
  }

  ghost predicate DistinctNames(pool: seq<Pinned>) {
    forall i, j :: 0 <= i < j < |pool| ==> pool[i].name != pool[j].name
  }

  // ---- Eviction ------------------------------------------------------------------------

  /** Python's stable sort by load time. */
  function Insert(p: Pinned, sorted: seq<Pinned>): seq<Pinned> {
    if sorted == [] then [p]
    else if p.loaded <= sorted[0].loaded then [p] + sorted
    else [sorted[0]] + Insert(p, sorted[1..])
  }

  function SortByLoad(pool: seq<Pinned>): seq<Pinned> {
    if pool == [] then [] else Insert(pool[0], SortByLoad(pool[1..]))
  }

  function Remove(pool: seq<Pinned>, name: string): seq<Pinned> {
    if pool == [] then [] else (if pool[0].name == name then [] else [pool[0]]) + Remove(pool[1..], name)
  }

  function RemoveAll(pool: seq<Pinned>, victims: seq<Pinned>): seq<Pinned>
    decreases |victims|
  {
    if victims == [] then pool else RemoveAll(Remove(pool, victims[0].name), victims[1..])
  }

  /** How many models of `order` are evicted until `required` chunks fit. */
  function Victims(cfg: Config, disk: map<string, DiskModel>, usage: int, required: nat, order: seq<Pinned>): (k: nat)
    requires cfg.Valid()
    ensures k <= |order|
    decreases |order|
  {
    if usage + required <= cfg.poolChunks || order == [] then 0
    else 1 + Victims(cfg, disk, usage - ChunksOf(cfg, disk, order[0].name), required, order[1..])
  }

  function PathsOf(disk: map<string, DiskModel>, name: string): set<string> {
    if name in disk then set path | path in disk[name].paths else {}
  }

  function AllPaths(disk: map<string, DiskModel>, pool: seq<Pinned>): set<string> {
    if pool == [] then {} else PathsOf(disk, pool[0].name) + AllPaths(disk, pool[1..])
  }

  /** The entries of `v.pool` that eviction for `size` bytes drops. */
  function Gone(cfg: Config, v: View, size: nat): seq<Pinned>
    requires cfg.Valid()
  {
    var order := SortByLoad(v.pool);
    order[..Victims(cfg, v.disk, v.usage, Chunks(cfg, size), order)]
  }

  /** The oldest models go until `size` bytes fit or nothing is left. */
  function Evicted(cfg: Config, v: View, size: nat): View
    requires cfg.Valid()
  {
    var gone := Gone(cfg, v, size);
    v.(pool := RemoveAll(v.pool, gone),
       usage := v.usage - Usage(cfg, v.disk, gone),
       resident := v.resident - AllPaths(v.disk, gone))
  }

  // ---- Steps ---------------------------------------------------------------------------

  function Max(a: real, b: real): real {
    if a >= b then a else b
  }

  predicate IsPinned(pool: seq<Pinned>, name: string) {
    exists i :: 0 <= i < |pool| && pool[i].name == name
  }

  /** When the disk is free for a request made now: not before now, nor before the requests ahead
      are estimated to be done. */
  function StartTime(queue: seq<IoRequest>, now: real): (start: real)
    ensures start >= now && (queue != [] ==> start >= queue[|queue| - 1].estimated)
    ensures start == now || (queue != [] && start == queue[|queue| - 1].estimated)
  {
    if queue == [] then now else Max(queue[|queue| - 1].estimated, now)
  }

  function LoadTime(size: nat, bandwidth: real): (time: real)
    requires bandwidth > 0.0
    ensures time >= 0.0
  {
    size as real / bandwidth
  }

  function Requested(v: View, name: string, now: real, bandwidth: real): View
    requires bandwidth > 0.0
  {
    if name !in v.disk || IsPinned(v.pool, name) || name in v.queued then v
    else
      v.(queue := v.queue + [IoRequest(name, StartTime(v.queue, now) + LoadTime(v.disk[name].size, bandwidth))],
         queued := v.queued + {name})
  }

  /** Paths that are loaded before the first one that fails, in order. */
  function LoadedPaths(paths: seq<string>, failing: set<string>): set<string> {
    if paths == [] || paths[0] in failing then {} else {paths[0]} + LoadedPaths(paths[1..], failing)
  }

  predicate LoadsAll(paths: seq<string>, failing: set<string>) {
    forall i :: 0 <= i < |paths| ==> paths[i] !in failing
  }

  /** One round of the loading loop. */
  function Loaded(cfg: Config, v: View, now: real, failing: set<string>): View
    requires cfg.Valid()
  {
    if v.queue == [] || v.queue[0].name !in v.disk then v
    else
      var name := v.queue[0].name;
      var m := v.disk[name];
      var e := Evicted(cfg, v, m.size);
      if e.usage + Chunks(cfg, m.size) > cfg.poolChunks then e
      else
        var popped := e.(queue := v.queue[1..], queued := v.queued - {name},
                         resident := e.resident + LoadedPaths(m.paths, failing));
        if !LoadsAll(m.paths, failing) then popped
        else popped.(pool := e.pool + [Pinned(name, now)], usage := e.usage + Chunks(cfg, m.size))
  }

  predicate EventOk(e: Event) {
    e.Request? ==> e.bandwidth > 0.0
  }

  function Apply(cfg: Config, v: View, e: Event): View
    requires cfg.Valid() && EventOk(e)
  {
    match e
    case Register(name, paths, size) =>
      if name in v.disk then v else v.(disk := v.disk[name := DiskModel(paths, size)])
    case Request(name, now, bandwidth) => Requested(v, name, now, bandwidth)
    case Load(now, failing) => Loaded(cfg, v, now, failing)
  }

  predicate EventsOk(events: seq<Event>) {
    forall i :: 0 <= i < |events| ==> EventOk(events[i])
  }

  function Run(cfg: Config, v: View, events: seq<Event>): View
    requires cfg.Valid() && EventsOk(events)
    decreases |events|
  {
    if events == [] then v else Run(cfg, Apply(cfg, v, events[0]), events[1..])
  }

  // ---- What every run keeps ------------------------------------------------------------

  ghost predicate InQueue(queue: seq<IoRequest>, name: string) {
    exists i :: 0 <= i < |queue| && queue[i].name == name
  }

  ghost predicate QueueOk(v: View) {
    && (forall i, j :: 0 <= i < j < |v.queue| ==> v.queue[i].name != v.queue[j].name)
    && (forall i, j :: 0 <= i < j < |v.queue| ==> v.queue[i].estimated <= v.queue[j].estimated)
    && (forall i :: 0 <= i < |v.queue| ==> v.queue[i].name in v.queued)
    && (forall name :: name in v.queued ==> name in v.disk && InQueue(v.queue, name))
  }

  ghost predicate PoolOk(v: View) {
    && DistinctNames(v.pool)
    && (forall i :: 0 <= i < |v.pool| ==> v.pool[i].name in v.disk && v.pool[i].name !in v.queued)
  }

  /** The queued names are exactly those in the I/O queue and none is pinned; the usage is that of
      the pinned models and within the pool. */
  ghost predicate Ok(cfg: Config, v: View)
    requires cfg.Valid()
  {
    && QueueOk(v) && PoolOk(v)
    && v.usage == Usage(cfg, v.disk, v.pool) <= cfg.poolChunks
  }

  // ---- Sorting and removing ------------------------------------------------------------

  ghost predicate SortedByLoad(pool: seq<Pinned>) {
    forall i, j :: 0 <= i < j < |pool| ==> pool[i].loaded <= pool[j].loaded
  }

  ghost predicate SameEntries(a: seq<Pinned>, b: seq<Pinned>) {
    forall p :: p in a <==> p in b
  }

  lemma {:induction false} InsertMeans(p: Pinned, s: seq<Pinned>)
    ensures forall q :: q in Insert(p, s) <==> q == p || q in s
    ensures SortedByLoad(s) ==> SortedByLoad(Insert(p, s))
    ensures DistinctNames(s) && (forall q :: q in s ==> q.name != p.name) ==> DistinctNames(Insert(p, s))
  {
    if s != [] && !(p.loaded <= s[0].loaded) {
      InsertMeans(p, s[1..]);
      InsertTail(s);
    }
  }

  lemma InsertTail(s: seq<Pinned>)
    requires s != []
    ensures forall q :: q in s <==> q == s[0] || q in s[1..]
    ensures SortedByLoad(s) ==> SortedByLoad(s[1..]) && forall q :: q in s ==> s[0].loaded <= q.loaded
    ensures DistinctNames(s) ==> DistinctNames(s[1..]) && forall q :: q in s[1..] ==> s[0].name != q.name
  {
  }

  lemma {:induction false} SortMeans(pool: seq<Pinned>)
    ensures SortedByLoad(SortByLoad(pool)) && SameEntries(SortByLoad(pool), pool)
    ensures DistinctNames(pool) ==> DistinctNames(SortByLoad(pool))
  {
    if pool != [] {
      SortMeans(pool[1..]);
      InsertTail(pool);
      InsertMeans(pool[0], SortByLoad(pool[1..]));
    }
  }

  lemma {:induction false} RemoveMeans(cfg: Config, disk: map<string, DiskModel>, pool: seq<Pinned>, p: Pinned)
    requires cfg.Valid() && DistinctNames(pool) && p in pool
    ensures forall q :: q in Remove(pool, p.name) <==> q in pool && q != p
    ensures DistinctNames(Remove(pool, p.name))
    ensures Usage(cfg, disk, Remove(pool, p.name)) == Usage(cfg, disk, pool) - ChunksOf(cfg, disk, p.name)
  {
    InsertTail(pool);
    if pool[0] == p {
      RemoveNone(pool[1..], p.name);
      assert Remove(pool, p.name) == pool[1..];
    } else {
      RemoveMeans(cfg, disk, pool[1..], p);
      var r := Remove(pool, p.name);
      assert r[0] == pool[0] && r[1..] == Remove(pool[1..], p.name);
    }
  }

  lemma {:induction false} RemoveNone(pool: seq<Pinned>, name: string)
    requires forall p :: p in pool ==> p.name != name
    ensures Remove(pool, name) == pool
  {
    if pool != [] {
      assert pool[0] in pool;
      RemoveNone(pool[1..], name);
    }
  }

  lemma {:induction false} RemoveAllMeans(cfg: Config, disk: map<string, DiskModel>, pool: seq<Pinned>, gone: seq<Pinned>)
    requires cfg.Valid() && DistinctNames(pool) && DistinctNames(gone) && forall p :: p in gone ==> p in pool
    ensures forall q :: q in RemoveAll(pool, gone) <==> q in pool && q !in gone
    ensures DistinctNames(RemoveAll(pool, gone))
    ensures Usage(cfg, disk, RemoveAll(pool, gone)) == Usage(cfg, disk, pool) - Usage(cfg, disk, gone)
    decreases |gone|
  {
    if gone != [] {
      InsertTail(gone);
      RemoveMeans(cfg, disk, pool, gone[0]);
      RemoveAllMeans(cfg, disk, Remove(pool, gone[0].name), gone[1..]);
    }
  }

  // ---- Eviction is exact ---------------------------------------------------------------

  lemma {:induction false} VictimsMeans(cfg: Config, disk: map<string, DiskModel>, usage: int, required: nat, order: seq<Pinned>)
    requires cfg.Valid()
    ensures var k := Victims(cfg, disk, usage, required, order);
            && (usage - Usage(cfg, disk, order[..k]) + required <= cfg.poolChunks || k == |order|)
            && (k > 0 ==> usage - Usage(cfg, disk, order[..k - 1]) + required > cfg.poolChunks)
    decreases |order|
  {
    var k := Victims(cfg, disk, usage, required, order);
    if k > 0 {
      VictimsMeans(cfg, disk, usage - ChunksOf(cfg, disk, order[0].name), required, order[1..]);
      assert order[..k][1..] == order[1..][..k - 1];
      assert k > 1 ==> order[..k - 1][1..] == order[1..][..k - 2];
    }
  }

  lemma {:induction false} UsageAppend(cfg: Config, disk: map<string, DiskModel>, pool: seq<Pinned>, p: Pinned)
    requires cfg.Valid()
    ensures Usage(cfg, disk, pool + [p]) == Usage(cfg, disk, pool) + ChunksOf(cfg, disk, p.name)
  {
    if pool == [] {
      assert pool + [p] == [p];
    } else {
      UsageAppend(cfg, disk, pool[1..], p);
      assert (pool + [p])[1..] == pool[1..] + [p];
    }
  }

  lemma {:induction false} GoneMeans(cfg: Config, v: View, size: nat)
    requires cfg.Valid() && DistinctNames(v.pool)
    ensures var gone := Gone(cfg, v, size);
            && DistinctNames(gone) && (forall p :: p in gone ==> p in v.pool)
            && (forall p, q :: p in gone && q in v.pool && q !in gone ==> p.loaded <= q.loaded)
            && (v.usage - Usage(cfg, v.disk, gone) + Chunks(cfg, size) <= cfg.poolChunks || SameEntries(gone, v.pool))
            && (gone != [] ==> v.usage - Usage(cfg, v.disk, gone[..|gone| - 1]) + Chunks(cfg, size) > cfg.poolChunks)
  {
    var order, gone := SortByLoad(v.pool), Gone(cfg, v, size);
    SortMeans(v.pool);
    VictimsMeans(cfg, v.disk, v.usage, Chunks(cfg, size), order);
    assert gone != [] ==> gone[..|gone| - 1] == order[..|gone| - 1];
    assert |gone| == |order| ==> gone == order;
    forall p, q | p in gone && q in v.pool && q !in gone
      ensures p.loaded <= q.loaded
    {
      var j :| 0 <= j < |order| && order[j] == q;
      assert j >= |gone|;
    }
  }

  lemma {:induction false} EvictedShape(cfg: Config, v: View, size: nat)
    requires cfg.Valid() && Ok(cfg, v)
    ensures var e := Evicted(cfg, v, size);
            && Ok(cfg, e) && e.disk == v.disk && e.queue == v.queue && e.queued == v.queued
            && (forall p :: p in e.pool <==> p in v.pool && p !in Gone(cfg, v, size))
            && e.usage == v.usage - Usage(cfg, v.disk, Gone(cfg, v, size))
  {
    GoneMeans(cfg, v, size);
    RemoveAllMeans(cfg, v.disk, v.pool, Gone(cfg, v, size));
    var e := Evicted(cfg, v, size);
    forall i | 0 <= i < |e.pool|
      ensures e.pool[i].name in e.disk && e.pool[i].name !in e.queued
    {
      assert e.pool[i] in v.pool;
    }
  }

  /** Eviction makes room exactly for what the whole pool could hold; it drops the models loaded
      longest ago, and without the last one dropped there would be no room. */
  lemma EvictedMeans(cfg: Config, v: View, size: nat)
    requires cfg.Valid() && Ok(cfg, v)
    ensures var e := Evicted(cfg, v, size);
            && Ok(cfg, e) && e.disk == v.disk && e.queue == v.queue && e.queued == v.queued
            && (e.usage + Chunks(cfg, size) <= cfg.poolChunks <==> Chunks(cfg, size) <= cfg.poolChunks)
            && (Chunks(cfg, size) > cfg.poolChunks ==> e.pool == [])
            && (forall p :: p in e.pool ==> p in v.pool)
            && (forall p, q :: p in v.pool && p !in e.pool && q in e.pool ==> p.loaded <= q.loaded)
            && (e.pool != v.pool ==> exists p :: p in v.pool && p !in e.pool &&
                                       e.usage + ChunksOf(cfg, v.disk, p.name) + Chunks(cfg, size) > cfg.poolChunks)
  {
    var e, gone := Evicted(cfg, v, size), Gone(cfg, v, size);
    EvictedShape(cfg, v, size);
    GoneMeans(cfg, v, size);
    NoEntries(e.pool);
    if gone != [] {
      LastGone(cfg, v.disk, gone);
    }
  }

  lemma {:induction false} LastGone(cfg: Config, disk: map<string, DiskModel>, gone: seq<Pinned>)
    requires cfg.Valid() && gone != []
    ensures var last := gone[|gone| - 1];
            last in gone && Usage(cfg, disk, gone) == Usage(cfg, disk, gone[..|gone| - 1]) + ChunksOf(cfg, disk, last.name)
  {
    assert gone == gone[..|gone| - 1] + [gone[|gone| - 1]];
    UsageAppend(cfg, disk, gone[..|gone| - 1], gone[|gone| - 1]);
  }

  lemma NoEntries(pool: seq<Pinned>)
    ensures pool == [] || exists p :: p in pool
  {
    assert pool == [] || pool[0] in pool;
  }

  // ---- Every step keeps the invariant --------------------------------------------------

  lemma {:induction false} UsageSame(cfg: Config, a: map<string, DiskModel>, b: map<string, DiskModel>, pool: seq<Pinned>)
    requires cfg.Valid() && forall i :: 0 <= i < |pool| ==> pool[i].name in a && pool[i].name in b && a[pool[i].name] == b[pool[i].name]
    ensures Usage(cfg, a, pool) == Usage(cfg, b, pool)
  {
    if pool != [] {
      UsageSame(cfg, a, b, pool[1..]);
    }
  }

  lemma InQueueAppend(queue: seq<IoRequest>, r: IoRequest, name: string)
    requires InQueue(queue, name) || r.name == name
    ensures InQueue(queue + [r], name)
  {
    if r.name == name {
      assert (queue + [r])[|queue|].name == name;
    } else {
      var i :| 0 <= i < |queue| && queue[i].name == name;
      assert (queue + [r])[i].name == name;
    }
  }

  lemma InQueueTail(queue: seq<IoRequest>, name: string)
    requires queue != [] && InQueue(queue, name) && queue[0].name != name
    ensures InQueue(queue[1..], name)
  {
    var i :| 0 <= i < |queue| && queue[i].name == name;
    assert queue[1..][i - 1].name == name;
  }

  lemma AppendedQueueOk(v: View, r: IoRequest)
    requires QueueOk(v) && r.name in v.disk && r.name !in v.queued
    requires v.queue == [] || v.queue[|v.queue| - 1].estimated <= r.estimated
    ensures QueueOk(v.(queue := v.queue + [r], queued := v.queued + {r.name}))
  {
    forall n | n in v.queued + {r.name}
      ensures InQueue(v.queue + [r], n)
    {
      InQueueAppend(v.queue, r, n);
    }
    forall i, j | 0 <= i < j < |v.queue + [r]|
      ensures (v.queue + [r])[i].name != (v.queue + [r])[j].name
      ensures (v.queue + [r])[i].estimated <= (v.queue + [r])[j].estimated
    {
      assert i < |v.queue| && (v.queue + [r])[i] == v.queue[i];
      assert v.queue[i].name in v.queued && v.queue[i].estimated <= v.queue[|v.queue| - 1].estimated;
    }
  }

  lemma RequestedOk(cfg: Config, v: View, name: string, now: real, bandwidth: real)
    requires cfg.Valid() && Ok(cfg, v) && bandwidth > 0.0
    ensures Ok(cfg, Requested(v, name, now, bandwidth))
  {
    if name in v.disk && !IsPinned(v.pool, name) && name !in v.queued {
      var r := Requested(v, name, now, bandwidth);
      AppendedQueueOk(v, r.queue[|v.queue|]);
    }
  }

  lemma PoppedQueueOk(v: View, w: View)
    requires QueueOk(v) && v.queue != [] && w.disk == v.disk
    requires w.queue == v.queue[1..] && w.queued == v.queued - {v.queue[0].name}
    ensures QueueOk(w)
  {
    forall n | n in w.queued
      ensures InQueue(w.queue, n)
    {
      InQueueTail(v.queue, n);
    }
  }

  lemma LoadedOk(cfg: Config, v: View, now: real, failing: set<string>)
    requires cfg.Valid() && Ok(cfg, v)
    ensures Ok(cfg, Loaded(cfg, v, now, failing))
  {
    if v.queue != [] {
      var m := v.disk[v.queue[0].name];
      EvictedMeans(cfg, v, m.size);
      var e := Evicted(cfg, v, m.size);
      if e.usage + Chunks(cfg, m.size) <= cfg.poolChunks {
        PoppedOk(cfg, e, LoadedPaths(m.paths, failing));
        PinnedOk(cfg, Popped(e, LoadedPaths(m.paths, failing)), e.queue[0].name, now);
      }
    }
  }

  function Popped(v: View, paths: set<string>): View
    requires v.queue != []
  {
    v.(queue := v.queue[1..], queued := v.queued - {v.queue[0].name}, resident := v.resident + paths)
  }

  lemma PoppedOk(cfg: Config, v: View, paths: set<string>)
    requires cfg.Valid() && Ok(cfg, v) && v.queue != []
    ensures Ok(cfg, Popped(v, paths))
    ensures v.queue[0].name !in Popped(v, paths).queued && !IsPinned(v.pool, v.queue[0].name)
  {
    PoppedQueueOk(v, Popped(v, paths));
  }

  lemma PinnedOk(cfg: Config, v: View, name: string, now: real)
    requires cfg.Valid() && Ok(cfg, v) && name in v.disk && name !in v.queued && !IsPinned(v.pool, name)
    requires v.usage + ChunksOf(cfg, v.disk, name) <= cfg.poolChunks
    ensures Ok(cfg, v.(pool := v.pool + [Pinned(name, now)], usage := v.usage + ChunksOf(cfg, v.disk, name)))
  {
    UsageAppend(cfg, v.disk, v.pool, Pinned(name, now));
  }

  lemma ApplyOk(cfg: Config, v: View, e: Event)
    requires cfg.Valid() && Ok(cfg, v) && EventOk(e)
    ensures Ok(cfg, Apply(cfg, v, e))
  {
    match e
    case Register(name, paths, size) =>
      UsageSame(cfg, v.disk, Apply(cfg, v, e).disk, v.pool);
    case Request(name, now, bandwidth) =>
      RequestedOk(cfg, v, name, now, bandwidth);
    case Load(now, failing) =>
      LoadedOk(cfg, v, now, failing);
  }

  /** In every state the store reaches, the usage counts exactly the pinned models and the pool is
      not exceeded. */
  lemma {:induction false} RunOk(cfg: Config, v: View, events: seq<Event>)
    requires cfg.Valid() && Ok(cfg, v) && EventsOk(events)
    ensures Ok(cfg, Run(cfg, v, events))
    decreases |events|
  {
    if events != [] {
      ApplyOk(cfg, v, events[0]);
      RunOk(cfg, Apply(cfg, v, events[0]), events[1..]);
    }
  }

  // ---- Estimates -----------------------------------------------------------------------

  ghost predicate New(v: View, name: string) {
    name in v.disk && !IsPinned(v.pool, name) && name !in v.queued
  }

  /** The time for which the disk moves exactly `size` bytes. */
  lemma LoadTimeMoves(size: nat, bandwidth: real)
    requires bandwidth > 0.0
    ensures LoadTime(size, bandwidth) * bandwidth == size as real
  {
  }

  lemma RequestQueued(v: View, name: string, now: real, bandwidth: real)
    requires bandwidth > 0.0 && New(v, name)
    ensures var r, n := Requested(v, name, now, bandwidth), |v.queue|;
            && |r.queue| == n + 1 && v.queue <= r.queue && r.queue[n].name == name && name in r.queued
            && r.queue[n].estimated - StartTime(v.queue, now) == LoadTime(v.disk[name].size, bandwidth)
  {
  }

  /** A new request goes behind all others, and its estimate leaves time for exactly its own bytes
      from when the disk is free. */
  lemma RequestEstimate(v: View, name: string, now: real, bandwidth: real)
    requires bandwidth > 0.0 && New(v, name)
    ensures var r, n := Requested(v, name, now, bandwidth), |v.queue|;
            && |r.queue| == n + 1 && v.queue <= r.queue && r.queue[n].name == name && name in r.queued
            && (r.queue[n].estimated - StartTime(v.queue, now)) * bandwidth == v.disk[name].size as real
  {
    RequestQueued(v, name, now, bandwidth);
    LoadTimeMoves(v.disk[name].size, bandwidth);
  }

  datatype Arrival = Arrival(name: string, time: real)

  function Requests(arrivals: seq<Arrival>, bandwidth: real): (events: seq<Event>)
    requires bandwidth > 0.0
    ensures EventsOk(events) && |events| == |arrivals|
  {
    if arrivals == [] then []
    else [Request(arrivals[0].name, arrivals[0].time, bandwidth)] + Requests(arrivals[1..], bandwidth)
  }

  function Bytes(disk: map<string, DiskModel>, arrivals: seq<Arrival>): nat
    requires forall i :: 0 <= i < |arrivals| ==> arrivals[i].name in disk
  {
    if arrivals == [] then 0 else disk[arrivals[0].name].size + Bytes(disk, arrivals[1..])
  }

  /** Work for the disk, with the time from which it can be done. */
  datatype Job = Job(time: real, load: real)

  function Jobs(disk: map<string, DiskModel>, arrivals: seq<Arrival>, bandwidth: real): (jobs: seq<Job>)
    requires bandwidth > 0.0 && forall i :: 0 <= i < |arrivals| ==> arrivals[i].name in disk
    ensures |jobs| == |arrivals|
    ensures forall i :: 0 <= i < |jobs| ==>
              jobs[i] == Job(arrivals[i].time, LoadTime(disk[arrivals[i].name].size, bandwidth))
  {
    if arrivals == [] then []
    else
      [Job(arrivals[0].time, LoadTime(disk[arrivals[0].name].size, bandwidth))] + Jobs(disk, arrivals[1..], bandwidth)
  }

  function TotalLoad(jobs: seq<Job>): real {
    if jobs == [] then 0.0 else jobs[0].load + TotalLoad(jobs[1..])
  }

  /** The time before which the disk is not free for a new request. */
  function Waiting(queue: seq<IoRequest>): seq<Job> {
    if queue == [] then [] else [Job(queue[|queue| - 1].estimated, 0.0)]
  }

  /** The disk can be done with `jobs`, in this order, at `end` and not earlier: from every job on
      there is time for it and those behind it, and from some job on no more than that. */
  ghost predicate DoneAt(jobs: seq<Job>, end: real) {
    && (forall i :: 0 <= i < |jobs| ==> jobs[i].time + TotalLoad(jobs[i..]) <= end)
    && (exists i :: 0 <= i < |jobs| && jobs[i].time + TotalLoad(jobs[i..]) == end)
  }

  function Done(jobs: seq<Job>): real
    requires jobs != []
  {
    var end := jobs[0].time + TotalLoad(jobs);
    if |jobs| == 1 then end else Max(end, Done(jobs[1..]))
  }

  lemma {:induction false} DoneBound(jobs: seq<Job>, i: nat)
    requires i < |jobs|
    ensures jobs[i].time + TotalLoad(jobs[i..]) <= Done(jobs)
  {
    if i == 0 {
      assert jobs[0..] == jobs;
    } else {
      DoneBound(jobs[1..], i - 1);
      assert jobs[1..][i - 1..] == jobs[i..];
    }
  }

  lemma {:induction false} DoneReached(jobs: seq<Job>) returns (i: nat)
    requires jobs != []
    ensures i < |jobs| && jobs[i].time + TotalLoad(jobs[i..]) == Done(jobs)
  {
    assert jobs[0..] == jobs;
    if Done(jobs) == jobs[0].time + TotalLoad(jobs) {
      i := 0;
    } else {
      var k := DoneReached(jobs[1..]);
      i := k + 1;
      assert jobs[1..][k..] == jobs[i..];
    }
  }

  lemma {:induction false} DoneMeans(jobs: seq<Job>)
    requires jobs != []
    ensures DoneAt(jobs, Done(jobs))
  {
    forall i | 0 <= i < |jobs|
      ensures jobs[i].time + TotalLoad(jobs[i..]) <= Done(jobs)
    {
      DoneBound(jobs, i);
    }
    var i := DoneReached(jobs);
  }

  lemma {:induction false} DoneFirst(job: Job, rest: seq<Job>)
    ensures TotalLoad([job] + rest) == job.load + TotalLoad(rest)
    ensures var end := job.time + job.load + TotalLoad(rest);
            Done([job] + rest) == if rest == [] then end else Max(end, Done(rest))
  {
    assert ([job] + rest)[1..] == rest;
  }

  /** Taking a job into the queue leaves the end as it is. */
  lemma {:induction false} DoneQueued(queue: seq<IoRequest>, r: IoRequest, job: Job, rest: seq<Job>)
    requires r.estimated == StartTime(queue, job.time) + job.load
    ensures Done(Waiting(queue + [r]) + rest) == Done(Waiting(queue) + ([job] + rest))
  {
    DoneFirst(Job(r.estimated, 0.0), rest);
    DoneFirst(job, rest);
    if queue == [] {
      assert Waiting(queue) + ([job] + rest) == [job] + rest;
    } else {
      DoneFirst(Waiting(queue)[0], [job] + rest);
    }
  }

  ghost predicate AllNew(v: View, arrivals: seq<Arrival>) {
    && (forall i :: 0 <= i < |arrivals| ==> New(v, arrivals[i].name))
    && (forall i, j :: 0 <= i < j < |arrivals| ==> arrivals[i].name != arrivals[j].name)
  }

  lemma NewAfter(v: View, arrivals: seq<Arrival>, bandwidth: real)
    requires bandwidth > 0.0 && arrivals != [] && AllNew(v, arrivals)
    ensures AllNew(Requested(v, arrivals[0].name, arrivals[0].time, bandwidth), arrivals[1..])
  {
  }

  lemma NewKnown(v: View, arrivals: seq<Arrival>)
    requires AllNew(v, arrivals)
    ensures forall i :: 0 <= i < |arrivals| ==> arrivals[i].name in v.disk
  {
  }

  /** The requests wait in `r` in the order of their arrival, behind those of `v`. */
  ghost predicate WaitInOrder(v: View, r: View, arrivals: seq<Arrival>) {
    && |r.queue| == |v.queue| + |arrivals| && v.queue <= r.queue
    && forall i :: 0 <= i < |arrivals| ==> r.queue[|v.queue| + i].name == arrivals[i].name
  }

  lemma WaitInOrderStep(v: View, next: View, r: View, arrivals: seq<Arrival>)
    requires arrivals != [] && WaitInOrder(next, r, arrivals[1..])
    requires |next.queue| == |v.queue| + 1 && v.queue <= next.queue && next.queue[|v.queue|].name == arrivals[0].name
    ensures WaitInOrder(v, r, arrivals)
  {
    var n := |v.queue|;
    forall i | 0 < i < |arrivals|
      ensures r.queue[n + i].name == arrivals[i].name
    {
      assert r.queue[n + 1 + (i - 1)].name == arrivals[1..][i - 1].name;
    }
  }

  lemma {:induction false} RequestsInOrder(cfg: Config, v: View, arrivals: seq<Arrival>, bandwidth: real)
    requires cfg.Valid() && bandwidth > 0.0 && AllNew(v, arrivals)
    ensures WaitInOrder(v, Run(cfg, v, Requests(arrivals, bandwidth)), arrivals)
    decreases |arrivals|
  {
    if arrivals != [] {
      var next := Requested(v, arrivals[0].name, arrivals[0].time, bandwidth);
      RequestQueued(v, arrivals[0].name, arrivals[0].time, bandwidth);
      NewAfter(v, arrivals, bandwidth);
      RunRequests(cfg, v, arrivals, bandwidth);
      RequestsInOrder(cfg, next, arrivals[1..], bandwidth);
      WaitInOrderStep(v, next, Run(cfg, next, Requests(arrivals[1..], bandwidth)), arrivals);
    }
  }

  lemma LastDone(queue: seq<IoRequest>)
    requires queue != []
    ensures Done(Waiting(queue)) == queue[|queue| - 1].estimated
  {
    DoneFirst(Waiting(queue)[0], []);
    assert Waiting(queue) == [Waiting(queue)[0]] + [];
  }

  lemma {:induction false} DoneAfterRequest(v: View, next: View, arrivals: seq<Arrival>, bandwidth: real)
    requires bandwidth > 0.0 && arrivals != [] && forall i :: 0 <= i < |arrivals| ==> arrivals[i].name in v.disk
    requires New(v, arrivals[0].name) && next == Requested(v, arrivals[0].name, arrivals[0].time, bandwidth)
    ensures Done(Waiting(next.queue) + Jobs(v.disk, arrivals[1..], bandwidth)) ==
            Done(Waiting(v.queue) + Jobs(v.disk, arrivals, bandwidth))
  {
    var job := Job(arrivals[0].time, LoadTime(v.disk[arrivals[0].name].size, bandwidth));
    DoneQueued(v.queue, next.queue[|v.queue|], job, Jobs(v.disk, arrivals[1..], bandwidth));
  }

  lemma {:induction false} RequestsDone(cfg: Config, v: View, arrivals: seq<Arrival>, bandwidth: real)
    requires cfg.Valid() && bandwidth > 0.0 && AllNew(v, arrivals) && (v.queue != [] || arrivals != [])
    requires forall i :: 0 <= i < |arrivals| ==> arrivals[i].name in v.disk
    ensures var r := Run(cfg, v, Requests(arrivals, bandwidth));
            && r.queue != []
            && r.queue[|r.queue| - 1].estimated == Done(Waiting(v.queue) + Jobs(v.disk, arrivals, bandwidth))
    decreases |arrivals|
  {
    if arrivals == [] {
      LastDone(v.queue);
      assert Waiting(v.queue) + Jobs(v.disk, arrivals, bandwidth) == Waiting(v.queue);
    } else {
      var next := Requested(v, arrivals[0].name, arrivals[0].time, bandwidth);
      NewAfter(v, arrivals, bandwidth);
      RunRequests(cfg, v, arrivals, bandwidth);
      DoneAfterRequest(v, next, arrivals, bandwidth);
      RequestsDone(cfg, next, arrivals[1..], bandwidth);
    }
  }

  lemma {:induction false} RunRequests(cfg: Config, v: View, arrivals: seq<Arrival>, bandwidth: real)
    requires cfg.Valid() && bandwidth > 0.0 && arrivals != []
    ensures Run(cfg, v, Requests(arrivals, bandwidth)) ==
            Run(cfg, Requested(v, arrivals[0].name, arrivals[0].time, bandwidth), Requests(arrivals[1..], bandwidth))
  {
    var events := Requests(arrivals, bandwidth);
    assert events[0] == Request(arrivals[0].name, arrivals[0].time, bandwidth);
    assert events[1..] == Requests(arrivals[1..], bandwidth);
  }

  /** New requests wait in the order of their arrival, behind those that waited before, and the
      last one is estimated to be done exactly when the disk can be. */
  lemma {:induction false} RequestsEstimate(cfg: Config, v: View, arrivals: seq<Arrival>, bandwidth: real)
    requires cfg.Valid() && bandwidth > 0.0 && AllNew(v, arrivals) && arrivals != []
    ensures forall i :: 0 <= i < |arrivals| ==> arrivals[i].name in v.disk
    ensures var r := Run(cfg, v, Requests(arrivals, bandwidth));
            && WaitInOrder(v, r, arrivals)
            && DoneAt(Waiting(v.queue) + Jobs(v.disk, arrivals, bandwidth), r.queue[|r.queue| - 1].estimated)
  {
    NewKnown(v, arrivals);
    RequestsInOrder(cfg, v, arrivals, bandwidth);
    RequestsDone(cfg, v, arrivals, bandwidth);
    DoneMeans(Waiting(v.queue) + Jobs(v.disk, arrivals, bandwidth));
  }

  lemma LoadTimeAdds(a: nat, b: nat, bandwidth: real)
    requires bandwidth > 0.0
    ensures LoadTime(a + b, bandwidth) == LoadTime(a, bandwidth) + LoadTime(b, bandwidth)
  {
  }

  lemma {:induction false} JobsMoveBytes(disk: map<string, DiskModel>, arrivals: seq<Arrival>, bandwidth: real)
    requires bandwidth > 0.0 && forall i :: 0 <= i < |arrivals| ==> arrivals[i].name in disk
    ensures TotalLoad(Jobs(disk, arrivals, bandwidth)) == LoadTime(Bytes(disk, arrivals), bandwidth)
  {
    if arrivals == [] {
      LoadTimeMoves(0, bandwidth);
    } else {
      JobsMoveBytes(disk, arrivals[1..], bandwidth);
      assert Jobs(disk, arrivals, bandwidth)[1..] == Jobs(disk, arrivals[1..], bandwidth);
      LoadTimeAdds(disk[arrivals[0].name].size, Bytes(disk, arrivals[1..]), bandwidth);
    }
  }

  /** Jobs that can all start at once are done after their loads. */
  lemma {:induction false} BurstDone(jobs: seq<Job>, now: real)
    requires jobs != [] && forall i :: 0 <= i < |jobs| ==> jobs[i].time == now && jobs[i].load >= 0.0
    ensures TotalLoad(jobs) >= 0.0 && Done(jobs) == now + TotalLoad(jobs)
  {
    if |jobs| > 1 {
      BurstDone(jobs[1..], now);
    } else {
      assert jobs[1..] == [];
    }
  }

  lemma {:induction false} BurstLoad(disk: map<string, DiskModel>, arrivals: seq<Arrival>, now: real, bandwidth: real)
    requires bandwidth > 0.0 && arrivals != []
    requires forall i :: 0 <= i < |arrivals| ==> arrivals[i].name in disk && arrivals[i].time == now
    ensures var jobs := Jobs(disk, arrivals, bandwidth); Done(jobs) == now + TotalLoad(jobs)
  {
    BurstDone(Jobs(disk, arrivals, bandwidth), now);
  }

  lemma {:induction false} BurstEnds(cfg: Config, v: View, arrivals: seq<Arrival>, bandwidth: real)
    requires cfg.Valid() && bandwidth > 0.0 && AllNew(v, arrivals) && arrivals != [] && v.queue == []
    ensures forall i :: 0 <= i < |arrivals| ==> arrivals[i].name in v.disk
    ensures var r := Run(cfg, v, Requests(arrivals, bandwidth));
            |r.queue| == |arrivals| && r.queue[|arrivals| - 1].estimated == Done(Jobs(v.disk, arrivals, bandwidth))
  {
    NewKnown(v, arrivals);
    RequestsInOrder(cfg, v, arrivals, bandwidth);
    RequestsDone(cfg, v, arrivals, bandwidth);
    assert Waiting(v.queue) + Jobs(v.disk, arrivals, bandwidth) == Jobs(v.disk, arrivals, bandwidth);
  }

  /** Requests made at one time on an empty queue: the last one is estimated to be done when the
      bytes of all of them have been moved, one model after the other. */
  lemma {:induction false} BurstEstimate(cfg: Config, v: View, arrivals: seq<Arrival>, now: real, bandwidth: real)
    requires cfg.Valid() && bandwidth > 0.0 && AllNew(v, arrivals) && arrivals != [] && v.queue == []
    requires forall i :: 0 <= i < |arrivals| ==> arrivals[i].time == now
    ensures forall i :: 0 <= i < |arrivals| ==> arrivals[i].name in v.disk
    ensures var r := Run(cfg, v, Requests(arrivals, bandwidth));
            && |r.queue| == |arrivals|
            && r.queue[|arrivals| - 1].estimated == now + LoadTime(Bytes(v.disk, arrivals), bandwidth)
  {
    BurstEnds(cfg, v, arrivals, bandwidth);
    BurstLoad(v.disk, arrivals, now, bandwidth);
    JobsMoveBytes(v.disk, arrivals, bandwidth);
  }

  lemma EmptyOk(cfg: Config)
    requires cfg.Valid()
    ensures Ok(cfg, EMPTY)
  {
  }

  // ---- The head of the queue -----------------------------------------------------------

  /** The model at the head of the I/O queue is larger than the whole pool. */
  ghost predicate Stuck(cfg: Config, v: View)
    requires cfg.Valid()
  {
    v.queue != [] && v.queue[0].name in v.disk && Chunks(cfg, v.disk[v.queue[0].name].size) > cfg.poolChunks
  }

  /** A round of the loading loop takes the head off the queue unless it is too large for the
      pool; then the round evicts everything and loads nothing. */
  lemma HeadLeaves(cfg: Config, v: View, now: real, failing: set<string>)
    requires cfg.Valid() && Ok(cfg, v) && v.queue != []
    ensures var r := Loaded(cfg, v, now, failing);
            && r.queue == (if Stuck(cfg, v) then v.queue else v.queue[1..])
            && (Stuck(cfg, v) ==> r.pool == [] && r.usage == 0)
            && (!Stuck(cfg, v) && LoadsAll(v.disk[v.queue[0].name].paths, failing) ==> Pinned(v.queue[0].name, now) in r.pool)
  {
    EvictedMeans(cfg, v, v.disk[v.queue[0].name].size);
    var e := Evicted(cfg, v, v.disk[v.queue[0].name].size);
    assert Pinned(v.queue[0].name, now) in e.pool + [Pinned(v.queue[0].name, now)];
  }

  /** Behind a head that is too large no request is ever served, whatever happens. */
  lemma {:induction false} StuckForever(cfg: Config, v: View, events: seq<Event>)
    requires cfg.Valid() && Ok(cfg, v) && Stuck(cfg, v) && EventsOk(events)
    ensures var r := Run(cfg, v, events);
            && v.queue <= r.queue && (forall p :: p in r.pool ==> p in v.pool)
            && ((exists i :: 0 <= i < |events| && events[i].Load?) ==> r.pool == [])
    decreases |events|
  {
    if events != [] {
      var next := Apply(cfg, v, events[0]);
      ApplyOk(cfg, v, events[0]);
      if events[0].Load? {
        HeadLeaves(cfg, v, events[0].now, events[0].failing);
        EvictedMeans(cfg, v, v.disk[v.queue[0].name].size);
      }
      StuckForever(cfg, next, events[1..]);
      assert forall p :: p in next.pool ==> p in v.pool;
      if !events[0].Load? && exists i :: 0 <= i < |events| && events[i].Load? {
        var i :| 0 <= i < |events| && events[i].Load?;
        assert events[1..][i - 1].Load?;
      }
      assert next.pool == [] ==> forall p :: p !in Run(cfg, v, events).pool;
      if next.pool == [] {
        NoEntries(Run(cfg, v, events).pool);
      }
    }
  }

  /** Requests and registrations leave the head, its model and the pinned models alone: a round of
      the loading loop that has read the head before them goes on as if it had read it after. */
  lemma {:induction false} HeadStays(cfg: Config, v: View, events: seq<Event>)
    requires cfg.Valid() && v.queue != [] && v.queue[0].name in v.disk && EventsOk(events)
    requires forall i :: 0 <= i < |events| ==> !events[i].Load?
    ensures var r := Run(cfg, v, events);
            && v.queue <= r.queue && v.queue[0].name in r.disk && r.disk[v.queue[0].name] == v.disk[v.queue[0].name]
            && r.pool == v.pool && r.usage == v.usage && r.resident == v.resident
    decreases |events|
  {
    if events != [] {
      HeadStays(cfg, Apply(cfg, v, events[0]), events[1..]);
    }
  }

  ghost predicate AllFit(cfg: Config, v: View)
    requires cfg.Valid()
  {
    forall i :: 0 <= i < |v.queue| ==>
      v.queue[i].name in v.disk && Chunks(cfg, v.disk[v.queue[i].name].size) <= cfg.poolChunks
  }

  /** One round for a head that fits. */
  lemma HeadServed(cfg: Config, v: View, e: Event)
    requires cfg.Valid() && Ok(cfg, v) && v.queue != [] && !Stuck(cfg, v) && e.Load?
    ensures Ok(cfg, Apply(cfg, v, e)) && Apply(cfg, v, e).queue == v.queue[1..] && Apply(cfg, v, e).disk == v.disk
    ensures e.failing == {} ==> Pinned(v.queue[0].name, e.now) in Apply(cfg, v, e).pool
  {
    LoadedOk(cfg, v, e.now, e.failing);
    HeadLeaves(cfg, v, e.now, e.failing);
    EvictedMeans(cfg, v, v.disk[v.queue[0].name].size);
  }

  lemma TailFits(cfg: Config, v: View, next: View)
    requires cfg.Valid() && v.queue != [] && AllFit(cfg, v) && next.queue == v.queue[1..] && next.disk == v.disk
    ensures AllFit(cfg, next)
  {
  }

  /** When every queued model fits the pool by itself, the loading loop serves the queue in order
      and empties it. */
  lemma {:induction false} Drain(cfg: Config, v: View, events: seq<Event>)
    requires cfg.Valid() && Ok(cfg, v) && AllFit(cfg, v) && EventsOk(events)
    requires |events| == |v.queue| && forall i :: 0 <= i < |events| ==> events[i].Load?
    ensures Run(cfg, v, events).queue == [] && Run(cfg, v, events).queued == {}
    ensures events != [] && (forall i :: 0 <= i < |events| ==> events[i].failing == {}) ==>
              Pinned(v.queue[|v.queue| - 1].name, events[|events| - 1].now) in Run(cfg, v, events).pool
    decreases |events|
  {
    if events != [] {
      var next := Apply(cfg, v, events[0]);
      HeadServed(cfg, v, events[0]);
      TailFits(cfg, v, next);
      Drain(cfg, next, events[1..]);
      if |events| == 1 {
        assert events[1..] == [];
      }
    }
  }

  /** As many rounds as there are requests empty the queue if and only if every queued model fits
      the pool by itself. */
  lemma {:induction false} DrainsIffAllFit(cfg: Config, v: View, events: seq<Event>)
    requires cfg.Valid() && Ok(cfg, v) && EventsOk(events)
    requires |events| == |v.queue| && forall i :: 0 <= i < |events| ==> events[i].Load?
    ensures Run(cfg, v, events).queue == [] <==> AllFit(cfg, v)
    decreases |events|
  {
    if AllFit(cfg, v) {
      Drain(cfg, v, events);
    } else if Stuck(cfg, v) {
      StuckForever(cfg, v, events);
    } else {
      var next := Apply(cfg, v, events[0]);
      HeadServed(cfg, v, events[0]);
      FitsWithHead(cfg, v, next);
      DrainsIffAllFit(cfg, next, events[1..]);
    }
  }

  lemma FitsWithHead(cfg: Config, v: View, next: View)
    requires cfg.Valid() && Ok(cfg, v) && v.queue != [] && !Stuck(cfg, v)
    requires next.queue == v.queue[1..] && next.disk == v.disk
    ensures AllFit(cfg, next) ==> AllFit(cfg, v)
  {
    assert forall i :: 0 < i < |v.queue| ==> v.queue[i] == next.queue[i - 1];
  }

  // ---- When eviction goes by use -------------------------------------------------------

  /** When each model was last used: loaded, or requested while it was pinned. The store keeps only
      the first of these times. */
  function Used(cfg: Config, v: View, used: map<string, real>, e: Event): map<string, real>
    requires cfg.Valid() && EventOk(e)
  {
    match e
    case Request(name, now, _) => if IsPinned(v.pool, name) then used[name := now] else used
    case Load(now, failing) =>
      if v.queue != [] && IsPinned(Apply(cfg, v, e).pool, v.queue[0].name) then used[v.queue[0].name := now] else used
    case _ => used
  }

  function Uses(cfg: Config, v: View, used: map<string, real>, events: seq<Event>): map<string, real>
    requires cfg.Valid() && EventsOk(events)
    decreases |events|
  {
    if events == [] then used else Uses(cfg, Apply(cfg, v, events[0]), Used(cfg, v, used, events[0]), events[1..])
  }

  function LastUse(used: map<string, real>, p: Pinned): real {
    if p.name in used then used[p.name] else p.loaded
  }

  /** Whatever size is to be loaded next, no model goes that was used later than one that stays. */
  ghost predicate EvictsByUse(cfg: Config, v: View, used: map<string, real>)
    requires cfg.Valid()
  {
    forall size: nat, p, q :: p in v.pool && p !in Evicted(cfg, v, size).pool && q in Evicted(cfg, v, size).pool ==>
      LastUse(used, p) <= LastUse(used, q)
  }

  /** In the order of loading no model was used later than one behind it, unless those from the
      first up to the second hold no chunks. */
  ghost predicate UsedAsLoaded(cfg: Config, v: View, used: map<string, real>)
    requires cfg.Valid()
  {
    var order := SortByLoad(v.pool);
    forall i, j :: 0 <= i < j < |order| && Usage(cfg, v.disk, order[i..j]) > 0 ==>
      LastUse(used, order[i]) <= LastUse(used, order[j])
  }

  lemma {:induction false} UsageConcat(cfg: Config, disk: map<string, DiskModel>, a: seq<Pinned>, b: seq<Pinned>)
    requires cfg.Valid()
    ensures Usage(cfg, disk, a + b) == Usage(cfg, disk, a) + Usage(cfg, disk, b)
  {
    if a == [] {
      assert a + b == b;
    } else {
      UsageConcat(cfg, disk, a[1..], b);
      assert (a + b)[1..] == a[1..] + b;
    }
  }

  lemma {:induction false} UsageInsert(cfg: Config, disk: map<string, DiskModel>, p: Pinned, s: seq<Pinned>)
    requires cfg.Valid()
    ensures Usage(cfg, disk, Insert(p, s)) == ChunksOf(cfg, disk, p.name) + Usage(cfg, disk, s)
  {
    if s != [] && !(p.loaded <= s[0].loaded) {
      UsageInsert(cfg, disk, p, s[1..]);
      assert Insert(p, s)[1..] == Insert(p, s[1..]);
    } else {
      assert Insert(p, s)[1..] == s;
    }
  }

  lemma {:induction false} UsageSorted(cfg: Config, disk: map<string, DiskModel>, pool: seq<Pinned>)
    requires cfg.Valid()
    ensures Usage(cfg, disk, SortByLoad(pool)) == Usage(cfg, disk, pool)
  {
    if pool != [] {
      UsageSorted(cfg, disk, pool[1..]);
      UsageInsert(cfg, disk, pool[0], SortByLoad(pool[1..]));
    }
  }

  lemma {:induction false} UsagePrefix(cfg: Config, disk: map<string, DiskModel>, s: seq<Pinned>, i: nat, j: nat)
    requires cfg.Valid() && i <= j <= |s|
    ensures Usage(cfg, disk, s[..j]) == Usage(cfg, disk, s[..i]) + Usage(cfg, disk, s[i..j])
    ensures Usage(cfg, disk, s[..j]) <= Usage(cfg, disk, s)
  {
    assert s[..j] == s[..i] + s[i..j] && s == s[..j] + s[j..];
    UsageConcat(cfg, disk, s[..i], s[i..j]);
    UsageConcat(cfg, disk, s[..j], s[j..]);
  }

  /** Which entries go: those in front of a position of the loading order, and none of those from
      there on. */
  lemma GoneIsPrefix(cfg: Config, v: View, size: nat, p: Pinned)
    requires cfg.Valid() && Ok(cfg, v) && p in v.pool
    ensures p !in Evicted(cfg, v, size).pool <==> p in Gone(cfg, v, size)
  {
    EvictedShape(cfg, v, size);
  }

  lemma GoneAt(cfg: Config, v: View, size: nat, i: nat)
    requires cfg.Valid() && DistinctNames(v.pool) && i < |SortByLoad(v.pool)|
    ensures SortByLoad(v.pool)[i] in Gone(cfg, v, size) <==> i < |Gone(cfg, v, size)|
  {
    SortMeans(v.pool);
    var order, gone := SortByLoad(v.pool), Gone(cfg, v, size);
    if i < |gone| {
      assert gone[i] == order[i];
    }
  }

  /** A cut behind which chunks are missed: some victim between the two positions holds chunks. */
  lemma UseOrderSuffices(cfg: Config, v: View, used: map<string, real>, size: nat, p: Pinned, q: Pinned)
    requires cfg.Valid() && Ok(cfg, v) && UsedAsLoaded(cfg, v, used)
    requires p in v.pool && p !in Evicted(cfg, v, size).pool && q in Evicted(cfg, v, size).pool
    ensures LastUse(used, p) <= LastUse(used, q)
  {
    var order, gone := SortByLoad(v.pool), Gone(cfg, v, size);
    EvictedShape(cfg, v, size);
    SortMeans(v.pool);
    var i :| 0 <= i < |order| && order[i] == p;
    var j :| 0 <= j < |order| && order[j] == q;
    GoneAt(cfg, v, size, i);
    GoneAt(cfg, v, size, j);
    GoneHolds(cfg, v, size, i, j);
  }

  lemma {:induction false} GoneHolds(cfg: Config, v: View, size: nat, i: nat, j: nat)
    requires cfg.Valid() && i < |Gone(cfg, v, size)| <= j < |SortByLoad(v.pool)|
    ensures Usage(cfg, v.disk, SortByLoad(v.pool)[i..j]) > 0
  {
    var order, k := SortByLoad(v.pool), |Gone(cfg, v, size)|;
    VictimsHold(cfg, v.disk, v.usage, Chunks(cfg, size), order, i);
    assert order[i..j] == order[i..k] + order[k..j];
    UsageConcat(cfg, v.disk, order[i..k], order[k..j]);
  }

  /** The victims from any one on hold chunks. */
  lemma {:induction false} VictimsHold(cfg: Config, disk: map<string, DiskModel>, usage: int, required: nat, order: seq<Pinned>, i: nat)
    requires cfg.Valid() && i < Victims(cfg, disk, usage, required, order) < |order|
    ensures Usage(cfg, disk, order[i..Victims(cfg, disk, usage, required, order)]) > 0
  {
    var k := Victims(cfg, disk, usage, required, order);
    VictimsMeans(cfg, disk, usage, required, order);
    UsagePrefix(cfg, disk, order, i, k);
    UsagePrefix(cfg, disk, order, i, k - 1);
  }

  /** The eviction that stops right where the chunks of `order[..j]` are gone takes `order[i]`, if
      there are chunks from there to `j`, and leaves `order[j]`. */
  lemma CutBetween(cfg: Config, v: View, i: nat, j: nat) returns (size: nat)
    requires cfg.Valid() && Ok(cfg, v) && i < j < |SortByLoad(v.pool)|
    requires Usage(cfg, v.disk, SortByLoad(v.pool)[i..j]) > 0
    ensures i < |Gone(cfg, v, size)| <= j
  {
    var order := SortByLoad(v.pool);
    UsageSorted(cfg, v.disk, v.pool);
    UsagePrefix(cfg, v.disk, order, i, j);
    var required: nat := cfg.poolChunks - v.usage + Usage(cfg, v.disk, order[..j]);
    size := required * cfg.chunkSize;
    ChunksOfMultiple(cfg, required);
    VictimsBetween(cfg, v.disk, v.usage, required, order, i, j);
  }

  lemma ChunksOfMultiple(cfg: Config, n: nat)
    requires cfg.Valid()
    ensures Chunks(cfg, n * cfg.chunkSize) == n
  {
    CeilDivLeast(n * cfg.chunkSize, n, cfg.chunkSize);
    if n > 0 {
      MulLess(n - 1, n, cfg.chunkSize);
      CeilDivMore(n * cfg.chunkSize, n - 1, cfg.chunkSize);
    }
  }

  lemma {:induction false} VictimsBetween(cfg: Config, disk: map<string, DiskModel>, usage: int, required: nat, order: seq<Pinned>, i: nat, j: nat)
    requires cfg.Valid() && i < j < |order| && Usage(cfg, disk, order[..i]) < Usage(cfg, disk, order[..j])
    requires usage - Usage(cfg, disk, order[..j]) + required == cfg.poolChunks
    ensures i < Victims(cfg, disk, usage, required, order) <= j
  {
    var k := Victims(cfg, disk, usage, required, order);
    VictimsMeans(cfg, disk, usage, required, order);
    if k <= i {
      UsagePrefix(cfg, disk, order, k, i);
    } else if k > j {
      UsagePrefix(cfg, disk, order, j, k - 1);
    }
  }

  /** Eviction goes by use, whatever is loaded next, if and only if the models were last used in
      the order in which they were loaded. */
  lemma EvictsByUseIff(cfg: Config, v: View, used: map<string, real>)
    requires cfg.Valid() && Ok(cfg, v)
    ensures EvictsByUse(cfg, v, used) <==> UsedAsLoaded(cfg, v, used)
  {
    if UsedAsLoaded(cfg, v, used) {
      forall size: nat, p, q | p in v.pool && p !in Evicted(cfg, v, size).pool && q in Evicted(cfg, v, size).pool
        ensures LastUse(used, p) <= LastUse(used, q)
      {
        UseOrderSuffices(cfg, v, used, size, p, q);
      }
    }
    if EvictsByUse(cfg, v, used) {
      var order := SortByLoad(v.pool);
      forall i, j | 0 <= i < j < |order| && Usage(cfg, v.disk, order[i..j]) > 0
        ensures LastUse(used, order[i]) <= LastUse(used, order[j])
      {
        UseOrderNeeded(cfg, v, used, i, j);
      }
    }
  }

  lemma {:induction false} UseOrderNeeded(cfg: Config, v: View, used: map<string, real>, i: nat, j: nat)
    requires cfg.Valid() && Ok(cfg, v) && EvictsByUse(cfg, v, used)
    requires i < j < |SortByLoad(v.pool)| && Usage(cfg, v.disk, SortByLoad(v.pool)[i..j]) > 0
    ensures LastUse(used, SortByLoad(v.pool)[i]) <= LastUse(used, SortByLoad(v.pool)[j])
  {
    var order := SortByLoad(v.pool);
    var size := CutBetween(cfg, v, i, j);
    SortMeans(v.pool);
    GoneAt(cfg, v, size, i);
    GoneAt(cfg, v, size, j);
    assert order[i] in v.pool && order[j] in v.pool;
    GoneIsPrefix(cfg, v, size, order[i]);
    GoneIsPrefix(cfg, v, size, order[j]);
  }

  /** No request finds its model pinned. */
  ghost predicate NoReuse(cfg: Config, v: View, events: seq<Event>)
    requires cfg.Valid() && EventsOk(events)
    decreases |events|
  {
    events == [] ||
    ((events[0].Request? ==> !IsPinned(v.pool, events[0].name)) && NoReuse(cfg, Apply(cfg, v, events[0]), events[1..]))
  }

  ghost predicate UsedWhenLoaded(v: View, used: map<string, real>) {
    forall p :: p in v.pool ==> LastUse(used, p) == p.loaded
  }

  lemma PinnedMeans(pool: seq<Pinned>, name: string)
    ensures IsPinned(pool, name) <==> exists p :: p in pool && p.name == name
  {
    if p :| p in pool && p.name == name {
      var i :| 0 <= i < |pool| && pool[i] == p;
      assert pool[i].name == name;
    }
  }

  lemma StepUsedWhenLoaded(cfg: Config, v: View, used: map<string, real>, e: Event)
    requires cfg.Valid() && Ok(cfg, v) && EventOk(e) && UsedWhenLoaded(v, used)
    requires e.Request? ==> !IsPinned(v.pool, e.name)
    ensures UsedWhenLoaded(Apply(cfg, v, e), Used(cfg, v, used, e))
  {
    if e.Load? && v.queue != [] {
      var name, next := v.queue[0].name, Apply(cfg, v, e);
      EvictedMeans(cfg, v, v.disk[name].size);
      PinnedMeans(next.pool, name);
      forall p | p in next.pool
        ensures LastUse(Used(cfg, v, used, e), p) == p.loaded
      {
        NotQueued(cfg, v, p);
      }
    }
  }

  /** The head of the queue is not pinned. */
  lemma NotQueued(cfg: Config, v: View, p: Pinned)
    requires cfg.Valid() && Ok(cfg, v) && v.queue != []
    ensures p in v.pool ==> p.name != v.queue[0].name
  {
  }

  /** As long as no pinned model is requested again, eviction goes by use. */
  lemma {:induction false} NoReuseByUse(cfg: Config, v: View, used: map<string, real>, events: seq<Event>)
    requires cfg.Valid() && Ok(cfg, v) && EventsOk(events) && UsedWhenLoaded(v, used) && NoReuse(cfg, v, events)
    ensures EvictsByUse(cfg, Run(cfg, v, events), Uses(cfg, v, used, events))
    decreases |events|
  {
    if events == [] {
      SortMeans(v.pool);
      EvictsByUseIff(cfg, v, used);
    } else {
      ApplyOk(cfg, v, events[0]);
      StepUsedWhenLoaded(cfg, v, used, events[0]);
      NoReuseByUse(cfg, Apply(cfg, v, events[0]), Used(cfg, v, used, events[0]), events[1..]);
    }
  }

  // Two chunks, three models of one chunk: the first two are loaded, the first is requested again,
  // and then the load of the third evicts it.

  datatype Three = Three(a: string, b: string, c: string) {
    predicate Distinct() {
      a != b && a != c && b != c
    }

    function Events(): seq<Event> {
      [Register(a, [], 1), Register(b, [], 1), Register(c, [], 1),
       Request(a, 0.0, 1.0), Load(1.0, {}), Request(b, 2.0, 1.0), Load(3.0, {}),
       Request(a, 4.0, 1.0), Request(c, 5.0, 1.0)]
    }

    function Disk(): map<string, DiskModel> {
      map[a := DiskModel([], 1), b := DiskModel([], 1), c := DiskModel([], 1)]
    }

    /** The state before event `k`. */
    function At(k: nat): View {
      match k
      case 0 => EMPTY
      case 1 => View(map[a := DiskModel([], 1)], [], {}, [], 0, {})
      case 2 => View(map[a := DiskModel([], 1), b := DiskModel([], 1)], [], {}, [], 0, {})
      case 3 => View(Disk(), [], {}, [], 0, {})
      case 4 => View(Disk(), [IoRequest(a, 1.0)], {a}, [], 0, {})
      case 5 => View(Disk(), [], {}, [Pinned(a, 1.0)], 1, {})
      case 6 => View(Disk(), [IoRequest(b, 3.0)], {b}, [Pinned(a, 1.0)], 1, {})
      case 7 => View(Disk(), [], {}, [Pinned(a, 1.0), Pinned(b, 3.0)], 2, {})
      case 8 => View(Disk(), [], {}, [Pinned(a, 1.0), Pinned(b, 3.0)], 2, {})
      case 9 => View(Disk(), [IoRequest(c, 6.0)], {c}, [Pinned(a, 1.0), Pinned(b, 3.0)], 2, {})
      case _ => View(Disk(), [], {}, [Pinned(b, 3.0), Pinned(c, 7.0)], 2, {})
    }

    function UsedAt(k: nat): map<string, real> {
      if k < 5 then map[]
      else if k < 7 then map[a := 1.0]
      else if k < 8 then map[a := 1.0, b := 3.0]
      else map[a := 4.0, b := 3.0]
    }
  }

  ghost predicate ReuseStep(cfg: Config, m: Three, k: nat)
    requires cfg.Valid() && k < |m.Events()|
  {
    && EventOk(m.Events()[k])
    && Apply(cfg, m.At(k), m.Events()[k]) == m.At(k + 1)
    && Used(cfg, m.At(k), m.UsedAt(k), m.Events()[k]) == m.UsedAt(k + 1)
  }

  lemma NoEviction(cfg: Config, v: View, size: nat)
    requires cfg.Valid() && v.usage + Chunks(cfg, size) <= cfg.poolChunks
    ensures Evicted(cfg, v, size) == v
  {
    assert Gone(cfg, v, size) == [];
  }

  /** A load that succeeds, of a model without paths. */
  lemma LoadSettles(cfg: Config, v: View, e: View, now: real, used: map<string, real>)
    requires cfg.Valid() && v.queue != [] && v.queue[0].name in v.disk && v.disk[v.queue[0].name].paths == []
    requires e == Evicted(cfg, v, v.disk[v.queue[0].name].size)
    requires e.usage + Chunks(cfg, v.disk[v.queue[0].name].size) <= cfg.poolChunks
    ensures Apply(cfg, v, Load(now, {})) ==
            View(e.disk, v.queue[1..], v.queued - {v.queue[0].name}, e.pool + [Pinned(v.queue[0].name, now)],
                 e.usage + Chunks(cfg, v.disk[v.queue[0].name].size), e.resident)
    ensures Used(cfg, v, used, Load(now, {})) == used[v.queue[0].name := now]
  {
    assert e.resident + {} == e.resident;
    var pool := e.pool + [Pinned(v.queue[0].name, now)];
    assert pool[|e.pool|].name == v.queue[0].name;
  }

  lemma ReuseRegisters(cfg: Config, m: Three)
    requires cfg.Valid() && m.Distinct()
    ensures ReuseStep(cfg, m, 0) && ReuseStep(cfg, m, 1) && ReuseStep(cfg, m, 2)
  {
  }

  lemma ReuseRequests(cfg: Config, m: Three)
    requires cfg.Valid() && m.Distinct()
    ensures ReuseStep(cfg, m, 3) && ReuseStep(cfg, m, 5)
  {
    assert [] + [IoRequest(m.a, 1.0)] == [IoRequest(m.a, 1.0)] && [] + [IoRequest(m.b, 3.0)] == [IoRequest(m.b, 3.0)];
  }

  lemma ReuseAgain(cfg: Config, m: Three)
    requires cfg.Valid() && m.Distinct()
    ensures ReuseStep(cfg, m, 7) && ReuseStep(cfg, m, 8)
  {
    assert m.At(7).pool[0].name == m.a && IsPinned(m.At(7).pool, m.a);
    assert [] + [IoRequest(m.c, 6.0)] == [IoRequest(m.c, 6.0)];
  }

  lemma ReuseFirstLoad(cfg: Config, m: Three)
    requires cfg.Valid() && cfg.poolChunks == 2 && Chunks(cfg, 1) == 1 && m.Distinct()
    ensures ReuseStep(cfg, m, 4)
  {
    var v := m.At(4);
    NoEviction(cfg, v, 1);
    LoadSettles(cfg, v, v, 1.0, m.UsedAt(4));
    assert v.queue[1..] == [] && v.queued - {m.a} == {} && v.pool + [Pinned(m.a, 1.0)] == [Pinned(m.a, 1.0)];
  }

  lemma ReuseSecondLoad(cfg: Config, m: Three)
    requires cfg.Valid() && cfg.poolChunks == 2 && Chunks(cfg, 1) == 1 && m.Distinct()
    ensures ReuseStep(cfg, m, 6)
  {
    var v := m.At(6);
    NoEviction(cfg, v, 1);
    LoadSettles(cfg, v, v, 3.0, m.UsedAt(6));
    assert v.queue[1..] == [] && v.queued - {m.b} == {};
    assert v.pool + [Pinned(m.b, 3.0)] == [Pinned(m.a, 1.0), Pinned(m.b, 3.0)];
  }

  lemma TwoSorted(a: Pinned, b: Pinned)
    requires a.loaded < b.loaded
    ensures SortByLoad([a, b]) == [a, b]
  {
    assert [a, b][1..] == [b] && [b][1..] == [];
    assert SortByLoad([b]) == [b];
  }

  lemma {:induction false} FirstOfTwoGoes(cfg: Config, disk: map<string, DiskModel>, a: Pinned, b: Pinned)
    requires cfg.Valid() && cfg.poolChunks == 2 && ChunksOf(cfg, disk, a.name) == 1
    ensures Victims(cfg, disk, 2, 1, [a, b]) == 1
  {
    assert [a, b][1..] == [b];
    assert Victims(cfg, disk, 1, 1, [b]) == 0;
  }

  lemma RemoveFirstOfTwo(a: Pinned, b: Pinned)
    requires a.name != b.name
    ensures RemoveAll([a, b], [a]) == [b]
  {
    assert [a, b][1..] == [b] && [b][1..] == [] && [a][1..] == [];
    assert Remove([b], a.name) == [b] && Remove([a, b], a.name) == [b];
    assert RemoveAll([b], []) == [b];
  }

  lemma FirstOfTwoEvicted(cfg: Config, v: View, a: Pinned, b: Pinned)
    requires cfg.Valid() && cfg.poolChunks == 2 && Chunks(cfg, 1) == 1 && ChunksOf(cfg, v.disk, a.name) == 1
    requires v.pool == [a, b] && a.name != b.name && a.loaded < b.loaded && v.usage == 2 && v.resident == {}
    ensures Evicted(cfg, v, 1) == v.(pool := [b], usage := 1)
  {
    TwoSorted(a, b);
    FirstOfTwoGoes(cfg, v.disk, a, b);
    RemoveFirstOfTwo(a, b);
    assert Gone(cfg, v, 1) == [a, b][..1] == [a];
    UsageAppend(cfg, v.disk, [], a);
    assert [] + [a] == [a];
    assert v.resident - AllPaths(v.disk, [a]) == {};
  }

  lemma ReuseThirdLoad(cfg: Config, m: Three)
    requires cfg.Valid() && cfg.poolChunks == 2 && Chunks(cfg, 1) == 1 && m.Distinct()
    ensures Apply(cfg, m.At(9), Load(7.0, {})) == m.At(10)
  {
    var v := m.At(9);
    FirstOfTwoEvicted(cfg, v, Pinned(m.a, 1.0), Pinned(m.b, 3.0));
    LoadSettles(cfg, v, v.(pool := [Pinned(m.b, 3.0)], usage := 1), 7.0, m.UsedAt(9));
    assert v.queue[1..] == [] && v.queued - {m.c} == {};
    assert [Pinned(m.b, 3.0)] + [Pinned(m.c, 7.0)] == [Pinned(m.b, 3.0), Pinned(m.c, 7.0)];
  }

  lemma ReuseSteps(cfg: Config, m: Three, k: nat)
    requires cfg.Valid() && cfg.poolChunks == 2 && Chunks(cfg, 1) == 1 && m.Distinct() && k < |m.Events()|
    ensures ReuseStep(cfg, m, k)
  {
    ReuseRegisters(cfg, m);
    ReuseRequests(cfg, m);
    ReuseFirstLoad(cfg, m);
    ReuseSecondLoad(cfg, m);
    ReuseAgain(cfg, m);
    assert k == 0 || k == 1 || k == 2 || k == 3 || k == 4 || k == 5 || k == 6 || k == 7 || k == 8;
  }

  lemma {:induction false} ReuseFrom(cfg: Config, m: Three, k: nat)
    requires cfg.Valid() && k <= |m.Events()| && forall i :: 0 <= i < |m.Events()| ==> ReuseStep(cfg, m, i)
    ensures EventsOk(m.Events()[k..])
    ensures Run(cfg, m.At(k), m.Events()[k..]) == m.At(|m.Events()|)
    ensures Uses(cfg, m.At(k), m.UsedAt(k), m.Events()[k..]) == m.UsedAt(|m.Events()|)
    decreases |m.Events()| - k
  {
    var events := m.Events();
    if k < |events| {
      assert ReuseStep(cfg, m, k);
      ReuseFrom(cfg, m, k + 1);
      assert events[k..][1..] == events[k + 1..] && events[k..][0] == events[k];
    }
  }

  /** A run from the empty store after which the next load evicts the model that was used last. */
  lemma {:induction false} LaterUseEvicted(cfg: Config, m: Three)
    requires cfg.Valid() && cfg.poolChunks == 2 && Chunks(cfg, 1) == 1 && m.Distinct()
    ensures EventsOk(m.Events())
    ensures var v, used := Run(cfg, EMPTY, m.Events()), Uses(cfg, EMPTY, map[], m.Events());
            var a, b, c := Pinned(m.a, 1.0), Pinned(m.b, 3.0), Pinned(m.c, 7.0);
            && v.pool == [a, b] && Apply(cfg, v, Load(7.0, {})).pool == [b, c]
            && LastUse(used, a) == 4.0 && LastUse(used, b) == 3.0
  {
    forall k | 0 <= k < |m.Events()|
      ensures ReuseStep(cfg, m, k)
    {
      ReuseSteps(cfg, m, k);
    }
    ReuseFrom(cfg, m, 0);
    ReuseThirdLoad(cfg, m);
    assert m.Events()[0..] == m.Events();
  }

  // ---- What the client holds -----------------------------------------------------------

  /** Distinct models have distinct paths. */
  ghost predicate PathsApart(disk: map<string, DiskModel>) {
    forall a, b :: a in disk && b in disk && a != b ==> PathsOf(disk, a) !! PathsOf(disk, b)
  }

  /** Every path of a pinned model is loaded. */
  ghost predicate Resident(v: View) {
    forall p :: p in v.pool ==> PathsOf(v.disk, p.name) <= v.resident
  }

  lemma {:induction false} AllPathsMeans(disk: map<string, DiskModel>, pool: seq<Pinned>, path: string)
    ensures path in AllPaths(disk, pool) <==> exists p :: p in pool && path in PathsOf(disk, p.name)
  {
    if pool != [] {
      InsertTail(pool);
      AllPathsMeans(disk, pool[1..], path);
    }
  }

  lemma {:induction false} LoadedPathsAll(paths: seq<string>, failing: set<string>)
    requires LoadsAll(paths, failing)
    ensures LoadedPaths(paths, failing) == set path | path in paths
  {
    if paths != [] {
      LoadedPathsAll(paths[1..], failing);
      assert forall path :: path in paths <==> path == paths[0] || path in paths[1..];
    }
  }

  /** Eviction takes exactly the paths of the models it drops, with all their ranks. */
  lemma EvictedPaths(cfg: Config, v: View, size: nat, path: string)
    requires cfg.Valid() && Ok(cfg, v)
    ensures var e := Evicted(cfg, v, size);
            path in e.resident <==>
            path in v.resident && forall p :: p in v.pool && p !in e.pool ==> path !in PathsOf(v.disk, p.name)
  {
    EvictedShape(cfg, v, size);
    GoneMeans(cfg, v, size);
    AllPathsMeans(v.disk, Gone(cfg, v, size), path);
  }

  lemma EvictedResident(cfg: Config, v: View, size: nat)
    requires cfg.Valid() && Ok(cfg, v) && PathsApart(v.disk) && Resident(v)
    ensures Resident(Evicted(cfg, v, size))
  {
    var e, gone := Evicted(cfg, v, size), Gone(cfg, v, size);
    EvictedShape(cfg, v, size);
    GoneMeans(cfg, v, size);
    forall p, path | p in e.pool && path in PathsOf(v.disk, p.name)
      ensures path in e.resident
    {
      AllPathsMeans(v.disk, gone, path);
      forall q | q in gone
        ensures path !in PathsOf(v.disk, q.name)
      {
        OtherName(v.pool, p, q);
      }
    }
  }

  lemma OtherName(pool: seq<Pinned>, p: Pinned, q: Pinned)
    requires DistinctNames(pool) && p in pool && q in pool && p != q
    ensures p.name != q.name
  {
  }

  lemma ApplyResident(cfg: Config, v: View, e: Event)
    requires cfg.Valid() && Ok(cfg, v) && EventOk(e) && PathsApart(v.disk) && Resident(v)
    ensures Resident(Apply(cfg, v, e))
  {
    if e.Load? && v.queue != [] {
      var m := v.disk[v.queue[0].name];
      EvictedResident(cfg, v, m.size);
      EvictedMeans(cfg, v, m.size);
      if LoadsAll(m.paths, e.failing) {
        LoadedPathsAll(m.paths, e.failing);
      }
    }
  }

  lemma ApplyGrows(cfg: Config, v: View, e: Event)
    requires cfg.Valid() && EventOk(e)
    ensures v.disk.Keys <= Apply(cfg, v, e).disk.Keys
    ensures forall name :: name in v.disk ==> Apply(cfg, v, e).disk[name] == v.disk[name]
  {
  }

  lemma {:induction false} RunGrows(cfg: Config, v: View, events: seq<Event>)
    requires cfg.Valid() && EventsOk(events)
    ensures v.disk.Keys <= Run(cfg, v, events).disk.Keys
    ensures forall name :: name in v.disk ==> Run(cfg, v, events).disk[name] == v.disk[name]
    decreases |events|
  {
    if events != [] {
      ApplyGrows(cfg, v, events[0]);
      RunGrows(cfg, Apply(cfg, v, events[0]), events[1..]);
    }
  }

  /** Whatever is requested, evicted or fails to load, a pinned model is in the node's memory with
      all its paths, provided that no two models share a path. */
  lemma {:induction false} RunResident(cfg: Config, v: View, events: seq<Event>)
    requires cfg.Valid() && Ok(cfg, v) && EventsOk(events) && Resident(v) && PathsApart(Run(cfg, v, events).disk)
    ensures Resident(Run(cfg, v, events))
    decreases |events|
  {
    if events != [] {
      RunGrows(cfg, v, events);
      ApartBefore(v.disk, Run(cfg, v, events).disk);
      ApplyOk(cfg, v, events[0]);
      ApplyResident(cfg, v, events[0]);
      RunResident(cfg, Apply(cfg, v, events[0]), events[1..]);
    }
  }

  lemma ApartBefore(a: map<string, DiskModel>, b: map<string, DiskModel>)
    requires a.Keys <= b.Keys && (forall name :: name in a ==> b[name] == a[name]) && PathsApart(b)
    ensures PathsApart(a)
  {
    forall m, n | m in a && n in a && m != n
      ensures PathsOf(a, m) !! PathsOf(a, n)
    {
      assert PathsOf(b, m) !! PathsOf(b, n);
    }
  }

  /** Nothing is loaded except the paths of pinned models. */
  ghost predicate NoLeftovers(v: View) {
    forall path :: path in v.resident ==> exists p :: p in v.pool && path in PathsOf(v.disk, p.name)
  }

  /** A load that fails behind its first rank. */
  ghost predicate FailsMidway(cfg: Config, v: View, e: Event)
    requires cfg.Valid()
  {
    && e.Load? && v.queue != [] && v.queue[0].name in v.disk && !Stuck(cfg, v)
    && var paths := v.disk[v.queue[0].name].paths;
       paths != [] && paths[0] !in e.failing && !LoadsAll(paths, e.failing)
  }

  lemma EvictedNoLeftovers(cfg: Config, v: View, size: nat)
    requires cfg.Valid() && Ok(cfg, v) && NoLeftovers(v)
    ensures NoLeftovers(Evicted(cfg, v, size))
  {
    EvictedMeans(cfg, v, size);
    var e := Evicted(cfg, v, size);
    forall path | path in e.resident
      ensures exists p :: p in e.pool && path in PathsOf(v.disk, p.name)
    {
      EvictedPaths(cfg, v, size, path);
      var p :| p in v.pool && path in PathsOf(v.disk, p.name);
    }
  }

  lemma LoadNoLeftovers(cfg: Config, v: View, e: Event)
    requires cfg.Valid() && Ok(cfg, v) && e.Load? && v.queue != [] && NoLeftovers(v) && !FailsMidway(cfg, v, e)
    ensures NoLeftovers(Apply(cfg, v, e))
  {
    var name, next := v.queue[0].name, Apply(cfg, v, e);
    var m := v.disk[name];
    EvictedMeans(cfg, v, m.size);
    EvictedNoLeftovers(cfg, v, m.size);
    var evicted := Evicted(cfg, v, m.size);
    if !Stuck(cfg, v) && LoadsAll(m.paths, e.failing) {
      LoadedPathsAll(m.paths, e.failing);
      assert next.pool == evicted.pool + [Pinned(name, e.now)];
      assert Pinned(name, e.now) in next.pool && forall p :: p in evicted.pool ==> p in next.pool;
    }
  }

  lemma MidwayLeaves(cfg: Config, v: View, e: Event)
    requires cfg.Valid() && Ok(cfg, v) && PathsApart(v.disk) && FailsMidway(cfg, v, e)
    ensures !NoLeftovers(Apply(cfg, v, e))
  {
    var name, next := v.queue[0].name, Apply(cfg, v, e);
    var path := v.disk[name].paths[0];
    EvictedMeans(cfg, v, v.disk[name].size);
    assert path in LoadedPaths(v.disk[name].paths, e.failing) && path in next.resident;
    forall p | p in next.pool
      ensures path !in PathsOf(v.disk, p.name)
    {
      NotQueued(cfg, v, p);
      assert path in PathsOf(v.disk, name);
    }
  }

  lemma RegisterNoLeftovers(v: View, w: View)
    requires NoLeftovers(v) && w.pool == v.pool && w.resident == v.resident
    requires v.disk.Keys <= w.disk.Keys && forall name :: name in v.disk ==> w.disk[name] == v.disk[name]
    ensures NoLeftovers(w)
  {
    forall path | path in w.resident
      ensures exists p :: p in w.pool && path in PathsOf(w.disk, p.name)
    {
      var p :| p in v.pool && path in PathsOf(v.disk, p.name);
    }
  }

  /** The usage counts all that is in memory, except after a load that fails behind its first rank:
      the ranks loaded before it stay, and no pinned model accounts for them. */
  lemma LeftoversIff(cfg: Config, v: View, e: Event)
    requires cfg.Valid() && Ok(cfg, v) && EventOk(e) && PathsApart(v.disk) && NoLeftovers(v)
    ensures NoLeftovers(Apply(cfg, v, e)) <==> !FailsMidway(cfg, v, e)
  {
    if FailsMidway(cfg, v, e) {
      MidwayLeaves(cfg, v, e);
    } else if e.Load? && v.queue != [] {
      LoadNoLeftovers(cfg, v, e);
    } else {
      ApplyGrows(cfg, v, e);
      RegisterNoLeftovers(v, Apply(cfg, v, e));
    }
  }

  /** What can be seen after a round of the loading loop. */
  lemma LoadShows(cfg: Config, v: View, now: real, failing: set<string>)
    requires cfg.Valid() && Ok(cfg, v) && v.queue != []
    ensures var r, name := Loaded(cfg, v, now, failing), v.queue[0].name;
            var loads := !Stuck(cfg, v) && LoadsAll(v.disk[name].paths, failing);
            && (loads ==> Pinned(name, now) in r.pool && PathsOf(r.disk, name) <= r.resident)
            && (!Stuck(cfg, v) ==> r.queue == v.queue[1..] && name !in r.queued)
            && (!loads ==> forall p :: p in r.pool ==> p in v.pool)
  {
    HeadLeaves(cfg, v, now, failing);
    EvictedMeans(cfg, v, v.disk[v.queue[0].name].size);
    if LoadsAll(v.disk[v.queue[0].name].paths, failing) {
      LoadedPathsAll(v.disk[v.queue[0].name].paths, failing);
    }
  }

  // ---- Ranks ---------------------------------------------------------------------------

  /** Chunks the node's store takes for a model whose ranks are stored separately. */
  function RankChunks(cfg: Config, sizes: seq<nat>): nat
    requires cfg.Valid()
  {
    if sizes == [] then 0 else Chunks(cfg, sizes[0]) + RankChunks(cfg, sizes[1..])
  }

  lemma ChunksAdd(cfg: Config, a: nat, b: nat)
    requires cfg.Valid()
    ensures Chunks(cfg, a + b) <= Chunks(cfg, a) + Chunks(cfg, b)
  {
    var c := cfg.chunkSize;
    CeilDivBounds(a, c);
    CeilDivBounds(b, c);
    MulAdd(Chunks(cfg, a), Chunks(cfg, b), c);
    CeilDivLeast(a + b, Chunks(cfg, a) + Chunks(cfg, b), c);
  }

  /** The usage counts a model by its total size, which is at most the chunks its ranks take
      separately; it can be less. */
  lemma {:induction false} RanksTakeMore(cfg: Config, sizes: seq<nat>)
    requires cfg.Valid()
    ensures Chunks(cfg, Sum(sizes)) <= RankChunks(cfg, sizes)
    ensures Chunks(Config(2, 9), Sum([1, 1])) < RankChunks(Config(2, 9), [1, 1])
  {
    if sizes != [] {
      RanksTakeMore(cfg, sizes[1..]);
      ChunksAdd(cfg, sizes[0], Sum(sizes[1..]));
    }
    var two := [1, 1];
    assert two[1..] == [1];
    assert Sum([1]) == 1 && RankChunks(Config(2, 9), [1]) == 1;
  }

  // ---- The eviction loop ---------------------------------------------------------------

  /** Evicting from `order` as the loop goes on from `v` ends in `target`. */
  ghost predicate Evicting(cfg: Config, v: View, order: seq<Pinned>, required: nat, target: View)
    requires cfg.Valid()
  {
    var gone := order[..Victims(cfg, v.disk, v.usage, required, order)];
    && RemoveAll(v.pool, gone) == target.pool
    && v.usage - Usage(cfg, v.disk, gone) == target.usage
    && v.resident - AllPaths(v.disk, gone) == target.resident
  }

  lemma EvictOne(cfg: Config, v: View, order: seq<Pinned>, required: nat, target: View)
    requires cfg.Valid() && order != [] && v.usage + required > cfg.poolChunks && Evicting(cfg, v, order, required, target)
    ensures var name := order[0].name;
            Evicting(cfg,
                     v.(pool := Remove(v.pool, name), usage := v.usage - ChunksOf(cfg, v.disk, name),
                        resident := v.resident - PathsOf(v.disk, name)),
                     order[1..], required, target)
  {
    var name := order[0].name;
    var k := Victims(cfg, v.disk, v.usage, required, order);
    var gone := order[..k];
    assert gone[1..] == order[1..][..k - 1] && gone[0] == order[0];
    assert v.resident - AllPaths(v.disk, gone) == v.resident - PathsOf(v.disk, name) - AllPaths(v.disk, gone[1..]);
  }

  // ---- The store -----------------------------------------------------------------------

  datatype LoadStatus = Idle | CannotLoad | FailedToLoad | LoadedToHost

  class SllmLocalStore {
    const cfg: Config
    var diskModels: map<string, DiskModel>
    var queuedModels: set<string>
    var pinnedMemoryPool: seq<Pinned>
    var pinnedMemoryPoolUsage: int
    var ioQueue: seq<IoRequest>
    var residentPaths: set<string>

    ghost function Current(): View
      reads this
    {
      View(diskModels, ioQueue, queuedModels, pinnedMemoryPool, pinnedMemoryPoolUsage, residentPaths)
    }

    ghost predicate Valid()
      reads this
    {
      cfg.Valid() && Ok(cfg, Current())
    }

    constructor (memPoolSize: nat, chunkSize: nat)
      requires chunkSize > 0
      ensures Valid() && Current() == EMPTY && cfg == Config(chunkSize, memPoolSize / chunkSize)
    {
      cfg := Config(chunkSize, memPoolSize / chunkSize);
      diskModels, queuedModels, pinnedMemoryPool := map[], {}, [];
      pinnedMemoryPoolUsage, ioQueue, residentPaths := 0, [], {};
    }

    /** `register_model` with the paths and sizes of the ranks; an already registered name is left
        as it is. */
    method RegisterModel(name: string, paths: seq<string>, sizes: seq<nat>) returns (size: nat, added: bool)
      requires Valid() && |paths| == |sizes|
      modifies this`diskModels
      ensures Valid() && Current() == Apply(cfg, old(Current()), Register(name, paths, Sum(sizes)))
      ensures added <==> name !in old(diskModels)
      ensures added ==> size == Sum(sizes)
      ensures diskModels == if added then old(diskModels)[name := DiskModel(paths, Sum(sizes))] else old(diskModels)
    {
      ApplyOk(cfg, Current(), Register(name, paths, Sum(sizes)));
      if name in diskModels {
        return 0, false;
      }
      size := 0;
      for rank := 0 to |sizes|
        invariant size + Sum(sizes[rank..]) == Sum(sizes)
      {
        size := size + sizes[rank];
        assert sizes[rank..][1..] == sizes[rank + 1..];
      }
      diskModels := diskModels[name := DiskModel(paths, size)];
      added := true;
    }

    /** `load_to_host`: queues the model unless it is pinned or queued already. A pinned model
        keeps its load time, so the eviction order is that of loads, not of uses. */
    method LoadToHost(name: string, now: real, bandwidth: real) returns (accepted: bool)
      requires Valid() && bandwidth > 0.0
      modifies this`ioQueue, this`queuedModels
      ensures Valid() && Current() == Apply(cfg, old(Current()), Request(name, now, bandwidth))
      ensures accepted <==> name in diskModels
      ensures accepted ==> IsPinned(pinnedMemoryPool, name) || name in queuedModels
      ensures var n := |old(ioQueue)|;
              if !New(old(Current()), name) then ioQueue == old(ioQueue)
              else
                && |ioQueue| == n + 1 && old(ioQueue) <= ioQueue && ioQueue[n].name == name
                && ioQueue[n].estimated - StartTime(old(ioQueue), now) == LoadTime(diskModels[name].size, bandwidth)
    {
      ApplyOk(cfg, Current(), Request(name, now, bandwidth));
      if New(Current(), name) {
        RequestQueued(Current(), name, now, bandwidth);
      }
      if name !in diskModels {
        return false;
      }
      if IsPinned(pinnedMemoryPool, name) {
        return true;
      } else if name in queuedModels {
        return true;
      }
      var start := now;
      if |ioQueue| > 0 {
        start := Max(ioQueue[|ioQueue| - 1].estimated, start);
      }
      ioQueue := ioQueue + [IoRequest(name, start + diskModels[name].size as real / bandwidth)];
      queuedModels := queuedModels + {name};
      assert Current() == Apply(cfg, old(Current()), Request(name, now, bandwidth));
      return true;
    }

    /** `get_store_info`: what is registered, what is pinned, and how long a request made now would
        wait for the disk. */
    method GetStoreInfo(now: real) returns (models: map<string, DiskModel>, pool: seq<Pinned>, delta: real)
      ensures models == diskModels && pool == pinnedMemoryPool
      ensures now + delta == StartTime(ioQueue, now)
    {
      delta := 0.0;
      if |ioQueue| > 0 {
        delta := ioQueue[|ioQueue| - 1].estimated - now;
        if delta < 0.0 {
          delta := 0.0;
        }
      }
      return diskModels, pinnedMemoryPool, delta;
    }

    method UnloadModel(name: string)
      requires cfg.Valid() && name in diskModels
      modifies this`pinnedMemoryPool, this`pinnedMemoryPoolUsage, this`residentPaths
      ensures Current() ==
              old(Current()).(pool := Remove(old(pinnedMemoryPool), name),
                              usage := old(pinnedMemoryPoolUsage) - ChunksOf(cfg, diskModels, name),
                              resident := old(residentPaths) - PathsOf(diskModels, name))
    {
      residentPaths := residentPaths - (set path | path in diskModels[name].paths);
      pinnedMemoryPool := Remove(pinnedMemoryPool, name);
      pinnedMemoryPoolUsage := pinnedMemoryPoolUsage - Chunks(cfg, diskModels[name].size);
    }

    /** Unloads the models of `sortedModels` in turn until `requiredChunks` fit. */
    method UnloadFor(requiredChunks: nat, sorted: seq<Pinned>, ghost target: View)
      requires cfg.Valid() && Evicting(cfg, Current(), sorted, requiredChunks, target)
      requires forall p :: p in sorted ==> p.name in diskModels && p.name !in queuedModels
      modifies this`pinnedMemoryPool, this`pinnedMemoryPoolUsage, this`residentPaths
      ensures pinnedMemoryPool == target.pool && pinnedMemoryPoolUsage == target.usage && residentPaths == target.resident
    {
      var sortedModels := sorted;
      while pinnedMemoryPoolUsage + requiredChunks > cfg.poolChunks && |sortedModels| > 0
        invariant Evicting(cfg, Current(), sortedModels, requiredChunks, target)
        invariant forall p :: p in sortedModels ==> p in sorted
        decreases |sortedModels|
      {
        EvictOne(cfg, Current(), sortedModels, requiredChunks, target);
        var name := sortedModels[0].name;
        assert sortedModels[0] in sorted;
        sortedModels := sortedModels[1..];
        if name !in queuedModels {
          UnloadModel(name);
        }
      }
    }

    /** `_lru_eviction`. */
    method LruEviction(size: nat) returns (fits: bool)
      requires Valid()
      modifies this`pinnedMemoryPool, this`pinnedMemoryPoolUsage, this`residentPaths
      ensures Valid() && Current() == Evicted(cfg, old(Current()), size)
      ensures fits <==> Chunks(cfg, size) <= cfg.poolChunks
      ensures fits <==> pinnedMemoryPoolUsage + Chunks(cfg, size) <= cfg.poolChunks
    {
      EvictedMeans(cfg, Current(), size);
      SortMeans(pinnedMemoryPool);
      ghost var target := Evicted(cfg, Current(), size);
      var sortedModels := SortByLoad(pinnedMemoryPool);
      var requiredChunks := Chunks(cfg, size);
      UnloadFor(requiredChunks, sortedModels, target);
      assert Current() == target;
      fits := pinnedMemoryPoolUsage + requiredChunks <= cfg.poolChunks;
    }

    /** One round of `loading_loop`: makes room for the model at the head of the queue and loads
        it. `failing` are the paths that the node's store fails to load. */
    method LoadNext(now: real, failing: set<string>) returns (status: LoadStatus)
      requires Valid()
      modifies this`ioQueue, this`queuedModels, this`pinnedMemoryPool, this`pinnedMemoryPoolUsage, this`residentPaths
      ensures Valid() && Current() == Apply(cfg, old(Current()), Load(now, failing))
      ensures status.Idle? <==> old(ioQueue) == []
      ensures status.CannotLoad? <==> Stuck(cfg, old(Current()))
      ensures status.LoadedToHost? <==>
                old(ioQueue) != [] && !Stuck(cfg, old(Current())) &&
                LoadsAll(old(diskModels)[old(ioQueue)[0].name].paths, failing)
      ensures status.LoadedToHost? ==>
                Pinned(old(ioQueue)[0].name, now) in pinnedMemoryPool && PathsOf(diskModels, old(ioQueue)[0].name) <= residentPaths
      ensures status.LoadedToHost? || status.FailedToLoad? ==>
                ioQueue == old(ioQueue)[1..] && old(ioQueue)[0].name !in queuedModels
      ensures !status.LoadedToHost? ==> forall p :: p in pinnedMemoryPool ==> p in old(pinnedMemoryPool)
    {
      ApplyOk(cfg, Current(), Load(now, failing));
      if |ioQueue| > 0 {
        LoadShows(cfg, Current(), now, failing);
      }
      if |ioQueue| == 0 {
        return Idle;
      }
      var name := ioQueue[0].name;
      var m := diskModels[name];
      var canLoad := LruEviction(m.size);
      if !canLoad {
        return CannotLoad;
      }
      var ret := LoadPaths(m.paths, failing);
      ioQueue := ioQueue[1..];
      queuedModels := queuedModels - {name};
      if !ret {
        return FailedToLoad;
      }
      pinnedMemoryPool := pinnedMemoryPool + [Pinned(name, now)];
      pinnedMemoryPoolUsage := pinnedMemoryPoolUsage + Chunks(cfg, m.size);
      assert Current() == Apply(cfg, old(Current()), Load(now, failing));
      return LoadedToHost;
    }

    /** Loads path by path; after a failure the rest is not tried. */
    method LoadPaths(paths: seq<string>, failing: set<string>) returns (ret: bool)
      modifies this`residentPaths
      ensures residentPaths == old(residentPaths) + LoadedPaths(paths, failing)
      ensures ret <==> LoadsAll(paths, failing)
    {
      ret := true;
      for i := 0 to |paths|
        invariant ret <==> LoadsAll(paths[..i], failing)
        invariant residentPaths + (if ret then LoadedPaths(paths[i..], failing) else {}) ==
                  old(residentPaths) + LoadedPaths(paths, failing)
      {
        assert paths[i..][1..] == paths[i + 1..] && paths[..i + 1] == paths[..i] + [paths[i]];
        if ret {
          if paths[i] in failing {
            assert !LoadsAll(paths[..i + 1], failing);
            ret := false;
          } else {
            residentPaths := residentPaths + {paths[i]};
          }
        }
      }
      assert paths[..|paths|] == paths;
    }
  }
}
