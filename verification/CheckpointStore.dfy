/** The store's host side: allocation, eviction and release, csrc/sllm_store/checkpoint_store.cpp
    with the memory methods of csrc/sllm_store/model.cpp. */
module CheckpointStores {
  import opened Arith
  import opened Collections
  import opened HostMemory
  import opened PinnedPool

  /** A model's memory state, with the number of I/O phases under way and of failed ones waiting
      for replicas. `pinned` stands for the `PinnedMemory` it owns; dropping it runs the
      destructor, which returns the buffers to the pool. */
  class Model {
    var size: nat
    var state: MemoryState
    var pinned: Option<seq<nat>>
    var replicas: map<string, MemoryState>
    var loaders: nat
    var interrupters: nat

    ghost function Rec(): ModelRec
      reads this
    {
      ModelRec(size, state, pinned, replicas, loaders, interrupters)
    }

    constructor ()
      ensures Rec() == ModelRec(0, UNINITIALIZED, None, map[], 0, 0)
    {
      size, state, pinned, replicas := 0, UNINITIALIZED, None, map[];
      loaders, interrupters := 0, 0;
    }

    /** Adds up the partition files found; a model without bytes is an error. */
    method Initialize(partitionSizes: seq<nat>) returns (ret: int)
      modifies this
      ensures old(state) != UNINITIALIZED ==> ret == 0 && Rec() == old(Rec())
      ensures old(state) == UNINITIALIZED && Sum(partitionSizes) == 0 ==> ret == -1 && state == UNINITIALIZED
      ensures old(state) == UNINITIALIZED && Sum(partitionSizes) > 0 ==>
                ret == 0 && Rec() == old(Rec()).(size := Sum(partitionSizes), state := UNALLOCATED)
    {
      if state != UNINITIALIZED {
        return 0;
      }
      size := 0;
      for i := 0 to |partitionSizes|
        invariant size + Sum(partitionSizes[i..]) == Sum(partitionSizes)
        invariant Rec() == old(Rec()).(size := size)
      {
        assert partitionSizes[i..][1..] == partitionSizes[i + 1..];
        size := size + partitionSizes[i];
      }
      if size == 0 {
        return -1;
      }
      state := UNALLOCATED;
      return 0;
    }

    /** Gets the chunks the model needs from the pool, or reports how many are missing. */
    method AllocatePinnedMemory(pool: PinnedMemoryPool) returns (ret: int)
      requires pool.Valid()
      modifies this, pool`freeList
      ensures pool.Valid()
      ensures old(state) == UNINITIALIZED ==> ret == -1 && Rec() == old(Rec()) && pool.freeList == old(pool.freeList)
      ensures old(state) != UNINITIALIZED && old(state) != UNALLOCATED ==> ret == 0 && Rec() == old(Rec()) && pool.freeList == old(pool.freeList)
      ensures old(state) == UNALLOCATED && old(size) > 0 ==>
                var need := CeilDiv(old(size), pool.chunkSize);
                if need > |old(pool.freeList)|
                then ret == need - |old(pool.freeList)| && Rec() == old(Rec()).(pinned := Some([])) && pool.freeList == old(pool.freeList)
                else ret == 0 && pinned.Some? && Rec() == old(Rec()).(pinned := pinned, state := ALLOCATED) &&
                     |pinned.value| == need && Distinct(pinned.value) && ToSet(pinned.value) <= old(pool.freeList) &&
                     pool.freeList == old(pool.freeList) - ToSet(pinned.value)
    {
      if state == UNINITIALIZED {
        return -1;
      }
      if state != UNALLOCATED {
        return 0;
      }
      var buffers;
      ret, buffers := pool.Allocate(size);
      pinned := Some(buffers);
      CeilDivBounds(size, pool.chunkSize);
      if ret != 0 {
        pinned := Some([]);
        return ret;
      }
      if |buffers| == 0 {
        return -1;
      }
      state := ALLOCATED;
      return 0;
    }

    /** Drops the memory: its buffers go back to the pool. */
    method ReleasePinned(pool: PinnedMemoryPool)
      requires pool.Valid() && pinned.Some? && Distinct(pinned.value)
      requires forall b :: b in pinned.value ==> b in pool.pool && b !in pool.freeList
      modifies this`pinned, pool`freeList
      ensures pool.Valid() && pinned == None
      ensures pool.freeList == old(pool.freeList) + ToSet(old(pinned.value))
    {
      OwnedReturnable(pool, pool.freeList, pinned.value);
      var ret := pool.Deallocate(pinned.value);
      pinned := None;
    }

    /** What makes dropping the memory safe in every allocated state. */
    ghost predicate Releasable(pool: PinnedMemoryPool)
      reads this, pool
    {
      Allocated(state) ==>
        && pinned.Some? && Distinct(pinned.value)
        && forall b :: b in pinned.value ==> b in pool.pool && b !in pool.freeList
    }

    /** Frees the host memory unless something is loading; never waits. */
    method TryFreeHost(pool: PinnedMemoryPool) returns (freedChunks: int)
      requires pool.Valid() && Releasable(pool) && state != CANCELLED
      modifies this, pool`freeList
      ensures pool.Valid()
      ensures (Rec(), pool.freeList, freedChunks) == TryFree(old(Rec()), old(pool.freeList))
    {
      if state == UNINITIALIZED || state == UNALLOCATED {
        return 0;
      }
      if state == LOADING {
        return -1;
      }
      if exists r :: r in replicas && replicas[r] == LOADING {
        return -1;
      }
      freedChunks := |pinned.value|;
      ReleasePinned(pool);
      state := UNALLOCATED;
    }

    /** Frees the host memory; the caller has waited until nothing is loading. */
    method FreeHostMemory(pool: PinnedMemoryPool) returns (ret: int)
      requires pool.Valid() && Releasable(pool) && state != CANCELLED
      requires state != LOADING && !Rec().ReplicaLoading()
      modifies this, pool`freeList
      ensures pool.Valid()
      ensures (Rec(), pool.freeList, ret) == FreeHost(old(Rec()), old(pool.freeList))
      ensures ret == 0 <==> old(state) != UNINITIALIZED && old(state) != UNALLOCATED
      ensures ret == 0 ==>
                state == UNALLOCATED && Rec().Held() == [] && pool.freeList == old(pool.freeList) + ToSet(old(Rec()).Held())
    {
      if state == UNINITIALIZED || state == UNALLOCATED {
        return 1;
      }
      ReleasePinned(pool);
      state := UNALLOCATED;
      return 0;
    }

    /** The start of `ToHost`, up to the point where the mutex is released for the reads.
        `filesOpen` says whether all partition files are there and can be opened. */
    method BeginToHost(filesOpen: bool) returns (ret: int)
      modifies this`state, this`loaders
      ensures old(state) == ALLOCATED && filesOpen && Rec().Held() != [] ==>
                ret == 0 && Rec() == old(Rec()).(state := LOADING, loaders := old(loaders) + 1)
      ensures old(state) == ALLOCATED && !(filesOpen && Rec().Held() != []) ==>
                Rec() == old(Rec()) && ret == if filesOpen then 1 else -1
      ensures old(state) != ALLOCATED ==> Rec() == old(Rec()) && ret == if state == LOADING || state == LOADED then 0 else -1
    {
      if state != ALLOCATED {
        return if state == LOADING || state == LOADED then 0 else -1;
      }
      if !filesOpen {
        return -1;
      }
      if pinned.None? || |pinned.value| == 0 {
        return 1;
      }
      state := LOADING;
      loaders := loaders + 1;
      return 0;
    }

    /** The end of `ToHost` after successful reads. */
    method FinishToHost()
      requires loaders > 0
      modifies this`state, this`loaders
      ensures Rec() == old(Rec()).(state := LOADED, loaders := old(loaders) - 1)
    {
      state := LOADED;
      loaders := loaders - 1;
    }

    /** The end of `ToHost` after a failed read, up to its first wait for a replica. */
    method InterruptToHost()
      requires loaders > 0
      modifies this`state, this`loaders, this`interrupters
      ensures Rec() == old(Rec()).(state := INTERRUPTED, loaders := old(loaders) - 1, interrupters := old(interrupters) + 1)
    {
      state := INTERRUPTED;
      loaders := loaders - 1;
      interrupters := interrupters + 1;
    }

    /** After the waiting, the failed load drops the memory. */
    method EndInterrupt(pool: PinnedMemoryPool)
      requires pool.Valid() && Releasable(pool) && interrupters > 0
      requires !Allocated(state) ==> Rec().Held() == []
      modifies this`state, this`pinned, this`interrupters, pool`freeList
      ensures pool.Valid()
      ensures Rec() == old(Rec()).(state := UNALLOCATED, pinned := None, interrupters := old(interrupters) - 1)
      ensures pool.freeList == old(pool.freeList) + ToSet(old(Rec()).Held())
    {
      if pinned.Some? {
        ReleasePinned(pool);
      }
      state := UNALLOCATED;
      interrupters := interrupters - 1;
    }

    method SetReplica(r: string, replica: MemoryState)
      modifies this`replicas
      ensures Rec() == old(Rec()).(replicas := old(replicas)[r := replica])
    {
      replicas := replicas[r := replica];
    }

    method EraseReplica(r: string)
      modifies this`replicas
      ensures Rec() == old(Rec()).(replicas := old(replicas) - {r})
    {
      replicas := replicas - {r};
    }

    /** One section of the model's methods that runs without the store mutex, if it is possible
        now. The release of memory by a failed load that finds the model loading again is left
        out: it is the late step of `HostMemory`. */
    method RunSection(pool: PinnedMemoryPool, step: Step)
      requires pool.Valid() && Releasable(pool) && ModelOk(Rec(), pool.chunkSize)
      modifies this, pool`freeList
      ensures pool.Valid()
      ensures SectionEnabled(old(Rec()), step) && !(step.EndInterrupt? && old(state) == LOADING) ==>
                (Rec(), pool.freeList) == Section(old(Rec()), old(pool.freeList), step)
      ensures !SectionEnabled(old(Rec()), step) || (step.EndInterrupt? && old(state) == LOADING) ==>
                Rec() == old(Rec()) && pool.freeList == old(pool.freeList)
    {
      match step
      case BeginLoad(_) =>
        var _ := BeginToHost(true);
      case FinishLoad(_) =>
        if loaders > 0 {
          FinishToHost();
        }
      case FailLoad(_) =>
        if loaders > 0 && ReplicasSettled() {
          InterruptToHost();
          EndInterrupt(pool);
        }
      case Interrupt(_) =>
        if loaders > 0 && !ReplicasSettled() {
          InterruptToHost();
        }
      case CancelReplica(_, r) =>
        if interrupters > 0 && r in replicas && replicas[r] == LOADING {
          SetReplica(r, CANCELLED);
        }
      case EndInterrupt(_) =>
        if interrupters > 0 && state != LOADING {
          EndInterrupt(pool);
        }
      case Free(_) =>
        if state != LOADING && !exists r :: r in replicas && replicas[r] == LOADING {
          var _ := FreeHostMemory(pool);
        }
      case StartGpu(_, r) =>
        if state != UNINITIALIZED && r !in replicas {
          SetReplica(r, LOADING);
        }
      case EndGpu(_, r, ok) =>
        if r in replicas && (replicas[r] == LOADING || replicas[r] == CANCELLED) {
          SetReplica(r, if ok then LOADED else INTERRUPTED);
        }
      case FreeGpu(_, r) =>
        if r in replicas && replicas[r] != LOADING {
          EraseReplica(r);
        }
      case _ =>
    }

    predicate ReplicasSettled()
      reads this
      ensures ReplicasSettled() <==> Settled(Rec())
    {
      forall r :: r in replicas ==> replicas[r] == LOADED || replicas[r] == INTERRUPTED
    }
  }

  /** One eviction attempt: the model tried, its last access, its state then, and what
      `TryFreeHost` returned. */
  datatype Attempt = Attempt(name: string, time: int, before: ModelRec, freed: int)

  /** Chunks freed by the attempts. */
  ghost function Freed(log: seq<Attempt>): int {
    if log == [] then 0
    else Freed(log[..|log| - 1]) + if log[|log| - 1].freed > 0 then log[|log| - 1].freed else 0
  }

  lemma {:induction false} FreedAppend(log: seq<Attempt>, a: Attempt)
    ensures Freed(log + [a]) == Freed(log) + if a.freed > 0 then a.freed else 0
  {
    assert (log + [a])[..|log|] == log;
  }

  /** A model is passed over only when it holds no chunks or something is loading, and what is
      evicted is not loading. */
  ghost predicate AttemptOk(a: Attempt) {
    && (a.freed > 0 ==> a.before.state != LOADING && !a.before.ReplicaLoading() && a.freed == |a.before.Held()|)
    && (a.freed == 0 ==> a.before.Held() == [])
    && (a.freed < 0 ==> a.before.state == LOADING || a.before.ReplicaLoading())
  }

  /** The attempts walk down the access order from the oldest. */
  ghost predicate LogOk(log: seq<Attempt>, order: seq<(string, int)>) {
    && |log| <= |order|
    && forall i :: 0 <= i < |log| ==> log[i].name == order[i].0 && log[i].time == order[i].1 && AttemptOk(log[i])
  }

  lemma {:induction false} LogAppend(log: seq<Attempt>, a: Attempt, order: seq<(string, int)>)
    requires LogOk(log, order) && |log| < |order| && AttemptOk(a)
    requires a.name == order[|log|].0 && a.time == order[|log|].1
    ensures LogOk(log + [a], order) && (log + [a])[..|log|] == log
    ensures Freed(log + [a]) == Freed(log) + if a.freed > 0 then a.freed else 0
  {
    FreedAppend(log, a);
    forall i | 0 <= i < |log + [a]|
      ensures (log + [a])[i].name == order[i].0 && (log + [a])[i].time == order[i].1 && AttemptOk((log + [a])[i])
    {
      assert (log + [a])[i] == if i < |log| then log[i] else a;
    }
  }

  ghost predicate SortedByTime(order: seq<(string, int)>) {
    forall i, j :: 0 <= i < j < |order| ==> order[i].1 <= order[j].1
  }

  /** The items of `access`, each once. */
  ghost predicate ItemsOf(order: seq<(string, int)>, access: map<string, int>) {
    && (forall i :: 0 <= i < |order| ==> order[i].0 in access && access[order[i].0] == order[i].1)
    && (forall n :: n in access ==> (n, access[n]) in order)
    && (forall i, j :: 0 <= i < j < |order| ==> order[i].0 != order[j].0)
  }

  /** `order` has the oldest items of `access`, and `rest` the others. */
  ghost predicate SortedSoFar(order: seq<(string, int)>, rest: map<string, int>, access: map<string, int>) {
    && (forall n :: n in rest ==> n in access && rest[n] == access[n])
    && (forall n :: n in access ==> n in rest || (n, access[n]) in order)
    && (forall i :: 0 <= i < |order| ==> order[i].0 in access && access[order[i].0] == order[i].1 && order[i].0 !in rest)
    && (forall i, n :: 0 <= i < |order| && n in rest ==> order[i].1 <= rest[n])
    && SortedByTime(order)
    && (forall i, j :: 0 <= i < j < |order| ==> order[i].0 != order[j].0)
  }

  lemma SortNext(order: seq<(string, int)>, rest: map<string, int>, access: map<string, int>, n: string)
    requires SortedSoFar(order, rest, access) && n in rest && forall k :: k in rest ==> rest[n] <= rest[k]
    ensures SortedSoFar(order + [(n, rest[n])], rest - {n}, access)
  {
    var longer := order + [(n, rest[n])];
    assert longer[|order|] == (n, rest[n]);
    forall k | k in access
      ensures k in rest - {n} || (k, access[k]) in longer
    {
      if k !in rest {
        var i :| 0 <= i < |order| && order[i] == (k, access[k]);
        assert longer[i] == (k, access[k]);
      }
    }
  }

  /** `std::sort` of the access times; the order among equal times is arbitrary. */
  method SortByTime(access: map<string, int>) returns (order: seq<(string, int)>)
    ensures SortedByTime(order) && ItemsOf(order, access)
  {
    order := [];
    var rest := access;
    while rest != map[]
      invariant SortedSoFar(order, rest, access)
      decreases rest.Keys
    {
      var n := Oldest(rest);
      SortNext(order, rest, access, n);
      order := order + [(n, rest[n])];
      rest := rest - {n};
    }
  }

  method Oldest(access: map<string, int>) returns (oldest: string)
    requires access != map[]
    ensures oldest in access && forall n :: n in access ==> access[oldest] <= access[n]
  {
    var keys := access.Keys;
    oldest :| oldest in keys;
    keys := keys - {oldest};
    while keys != {}
      invariant keys <= access.Keys && oldest in access
      invariant forall n :: n in access && n !in keys ==> access[oldest] <= access[n]
      decreases keys
    {
      var n :| n in keys;
      keys := keys - {n};
      if access[n] < access[oldest] {
        oldest := n;
      }
    }
  }

  lemma SetSame(s: StoreState, n: string)
    requires n in s.models
    ensures s.Set(n, s.models[n], s.free) == s
  {
  }

  class CheckpointStore {
    const pool: PinnedMemoryPool
    var modelMap: map<string, Model>
    var lastAccess: map<string, int>

    ghost function View(): StoreState
      reads this, pool, modelMap.Values
    {
      StoreState(pool.freeList, map n | n in modelMap :: modelMap[n].Rec(), lastAccess)
    }

    ghost predicate Valid()
      reads this, pool, modelMap.Values
    {
      && pool.Valid()
      && (forall a, b :: a in modelMap && b in modelMap && a != b ==> modelMap[a] != modelMap[b])
      && Inv(pool.pool, pool.chunkSize, View())
    }

    constructor (memoryPoolSize: nat, chunkSize: nat)
      requires 0 < chunkSize
      ensures Valid() && fresh(pool)
      ensures View() == StoreState(pool.pool, map[], map[])
      ensures pool.chunkSize == chunkSize && |pool.pool| == CeilDiv(memoryPoolSize, chunkSize)
    {
      pool := new PinnedMemoryPool(memoryPoolSize, chunkSize);
      modelMap := map[];
      lastAccess := map[];
    }

    /** Registers a model by the sizes of its partition files; returns its size. */
    method RegisterModelInfo(path: string, partitionSizes: seq<nat>) returns (ret: int)
      requires Valid()
      modifies this`modelMap
      ensures Valid()
      ensures path in old(modelMap) ==> ret == old(View()).models[path].size && View() == old(View())
      ensures path !in old(modelMap) && Sum(partitionSizes) == 0 ==> ret == -1 && View() == old(View())
      ensures path !in old(modelMap) && Sum(partitionSizes) > 0 ==>
                ret == Sum(partitionSizes) && View() == Apply(pool.chunkSize, old(View()), Register(path, Sum(partitionSizes)))
    {
      if path in modelMap {
        return modelMap[path].size;
      }
      var model := new Model();
      ret := model.Initialize(partitionSizes);
      if ret != 0 {
        return ret;
      }
      AddModel(path, model);
      return Sum(partitionSizes);
    }

    method AddModel(path: string, model: Model)
      requires Valid() && path !in modelMap && model !in modelMap.Values
      requires model.size > 0 && model.Rec() == ModelRec(model.size, UNALLOCATED, None, map[], 0, 0)
      modifies this`modelMap
      ensures Valid() && View() == Apply(pool.chunkSize, old(View()), Register(path, model.size))
    {
      StepInv(pool.pool, pool.chunkSize, View(), Register(path, model.size));
      modelMap := modelMap[path := model];
      assert View().models == old(View()).models[path := model.Rec()];
    }

    /** Changing one model object changes one entry of the view. */
    twostate lemma OneChanged(n: string)
      requires n in modelMap && modelMap == old(modelMap) && lastAccess == old(lastAccess)
      requires forall k :: k in modelMap && k != n ==> modelMap[k].Rec() == old(modelMap[k].Rec())
      ensures View() == old(View()).Set(n, modelMap[n].Rec(), pool.freeList)
    {
    }

    /** Every registered model can drop its memory, whatever state it is in. */
    lemma RegisteredReleasable(n: string)
      requires Valid() && n in modelMap
      ensures modelMap[n].Releasable(pool) && ModelOk(modelMap[n].Rec(), pool.chunkSize)
    {
      assert View().models[n] == modelMap[n].Rec();
      assert ModelOk(View().models[n], pool.chunkSize);
    }

    /** `TryFreeHost` on a registered model. */
    method TryFreeModel(n: string) returns (freed: int)
      requires Valid() && n in modelMap && n in lastAccess
      modifies pool`freeList, modelMap[n]
      ensures Valid() && modelMap[n].Rec().size == old(modelMap[n].Rec()).size
      ensures View() == Apply(pool.chunkSize, old(View()), Evict(n))
      ensures freed == TryFree(old(modelMap[n].Rec()), old(pool.freeList)).2
    {
      RegisteredReleasable(n);
      StepInv(pool.pool, pool.chunkSize, View(), Evict(n));
      freed := modelMap[n].TryFreeHost(pool);
      OneChanged(n);
    }

    /** `UnloadModelFromHost`; the caller has waited until nothing of the model is loading. An
        unknown model and one without memory give 1 and change nothing; otherwise all its chunks
        come back and it has none. */
    method UnloadModelFromHost(path: string) returns (ret: int)
      requires Valid() && (path in modelMap ==> !Busy(modelMap[path].Rec()))
      modifies pool`freeList, modelMap.Values
      ensures Valid() && (ret == 0 || ret == 1)
      ensures ret == 0 <==> path in modelMap && Allocated(old(View()).models[path].state)
      ensures ret == 1 ==> View() == old(View())
      ensures ret == 0 ==>
                && Released(old(View()).models[path], old(View()).free, View().models[path], View().free)
                && |pool.freeList| == |old(pool.freeList)| + CeilDiv(old(View()).models[path].size, pool.chunkSize)
    {
      if path !in modelMap {
        return 1;
      }
      ret := FreeModel(path);
    }

    method FreeModel(n: string) returns (ret: int)
      requires Valid() && n in modelMap && !Busy(modelMap[n].Rec())
      modifies pool`freeList, modelMap[n]
      ensures Valid() && n in old(View()).models && n in View().models && (ret == 0 || ret == 1)
      ensures ret == 0 <==> Allocated(old(View()).models[n].state)
      ensures ret == 1 ==> View() == old(View())
      ensures ret == 0 ==>
                && Released(old(View()).models[n], old(View()).free, View().models[n], View().free)
                && |pool.freeList| == |old(pool.freeList)| + CeilDiv(old(View()).models[n].size, pool.chunkSize)
    {
      RegisteredReleasable(n);
      ghost var before := View();
      assert before.models[n] == modelMap[n].Rec();
      StepInv(pool.pool, pool.chunkSize, before, Free(n));
      FreeGains(pool.pool, pool.chunkSize, before, n);
      ret := modelMap[n].FreeHostMemory(pool);
      OneChanged(n);
      SetSame(before, n);
    }

    /** `ClearMem`; the caller has waited until nothing is loading. All chunks are free again and
        no model is left, but the access times stay: what eviction relies on holds afterwards only
        if there are none. */
    method ClearMem() returns (ret: int)
      requires Valid() && forall n :: n in modelMap ==> !Busy(modelMap[n].Rec())
      modifies this`modelMap, pool`freeList, modelMap.Values
      ensures ret == 0 && pool.Valid() && modelMap == map[] && pool.freeList == pool.pool && lastAccess == old(lastAccess)
      ensures Valid() <==> lastAccess == map[]
    {
      FreeModels();
      AllFree(pool.pool, pool.chunkSize, View());
      ClearedInvIff(pool.pool, pool.chunkSize, lastAccess);
      modelMap := map[];
      assert View() == Cleared(pool.pool, lastAccess);
      return 0;
    }

    method FreeNext(n: string)
      requires Valid() && n in modelMap && !Busy(modelMap[n].Rec())
      modifies pool`freeList, modelMap[n]
      ensures Valid() && !Allocated(modelMap[n].state) && !Busy(modelMap[n].Rec())
    {
      assert View().models[n] == modelMap[n].Rec();
      var ret := FreeModel(n);
      assert View().models[n] == modelMap[n].Rec();
    }

    /** The loop of `ClearMem`, which goes on after a model that has no memory. */
    method FreeModels()
      requires Valid() && forall n :: n in modelMap ==> !Busy(modelMap[n].Rec())
      modifies pool`freeList, modelMap.Values
      ensures Valid() && forall n :: n in View().models ==> !Allocated(View().models[n].state)
    {
      var names := modelMap.Keys;
      while names != {}
        invariant Valid() && names <= modelMap.Keys
        invariant forall n :: n in names ==> !Busy(modelMap[n].Rec())
        invariant forall n :: n in modelMap && n !in names ==> !Allocated(modelMap[n].state)
        decreases names
      {
        var n :| n in names;
        names := names - {n};
        FreeNext(n);
      }
      assert forall n :: n in View().models ==> View().models[n] == modelMap[n].Rec();
    }

    /** One section that another thread runs without the store mutex, if it is possible now. */
    method EnvironmentStep(step: Step)
      requires Valid()
      modifies pool`freeList, modelMap.Values
      ensures Valid() && Rely(old(View()), View())
    {
      if !NeedsStoreMutex(step) && step.n in modelMap {
        RegisteredReleasable(step.n);
        ghost var before := View();
        assert before.models[step.n] == modelMap[step.n].Rec();
        if SectionEnabled(before.models[step.n], step) && !Late(before, step) {
          StepInv(pool.pool, pool.chunkSize, before, step);
          EnvironmentRely(pool.pool, pool.chunkSize, before, step);
        }
        modelMap[step.n].RunSection(pool, step);
        OneChanged(step.n);
        SetSame(before, step.n);
      }
    }

    /** Any number of sections of other threads. */
    method Interfere()
      requires Valid()
      modifies pool`freeList, modelMap.Values
      ensures Valid() && Rely(old(View()), View())
    {
      var sections: nat := *;
      while sections > 0
        invariant Valid() && Rely(old(View()), View())
      {
        ghost var before := View();
        var step: Step := *;
        EnvironmentStep(step);
        RelyTransitive(old(View()), before, View());
        sections := sections - 1;
      }
    }

    /** `AllocatePinnedMemory` on a registered model: it gets its memory, or the number of missing
        chunks is returned and nothing changes that others could see. */
    method AllocateModel(n: string) returns (ret: int)
      requires Valid() && n in modelMap && n in View().models
      modifies pool`freeList, modelMap[n]
      ensures Valid()
      ensures ret == if Shortage(old(View()), n, pool.chunkSize) > 0 then Shortage(old(View()), n, pool.chunkSize) else 0
      ensures ret == 0 ==> Allocated(modelMap[n].state)
      ensures ret > 0 ==> Rely(old(View()), View()) && pool.freeList == old(pool.freeList)
    {
      RegisteredReleasable(n);
      ghost var before := View();
      assert before.models[n] == modelMap[n].Rec() && ModelOk(before.models[n], pool.chunkSize);
      ret := modelMap[n].AllocatePinnedMemory(pool);
      OneChanged(n);
      AllocationInv(pool.pool, pool.chunkSize, before, n, modelMap[n].Rec(), pool.freeList, ret);
    }

    /** One round of the eviction loop, with other threads running before it. */
    method EvictNext(name: string, time: int, needed: int) returns (remaining: int, ghost attempt: Attempt)
      requires Valid() && name in lastAccess
      modifies pool`freeList, modelMap.Values
      ensures Valid() && Rely(old(View()), View())
      ensures attempt.name == name && attempt.time == time && AttemptOk(attempt)
      ensures remaining == needed - if attempt.freed > 0 then attempt.freed else 0
      ensures |pool.freeList| >= |old(pool.freeList)| + if attempt.freed > 0 then attempt.freed else 0
    {
      Interfere();
      ghost var before := View();
      assert name in before.models;
      EvictGains(pool.pool, pool.chunkSize, before, name);
      EvictRely(pool.chunkSize, before, name);
      SubsetSize(old(pool.freeList), before.free);
      var freedChunks := TryFreeModel(name);
      RelyTransitive(old(View()), before, View());
      attempt := Attempt(name, time, before.models[name], freedChunks);
      remaining := if freedChunks > 0 then needed - freedChunks else needed;
    }

    /** Sorts the access times; then, from the least recently used model on, frees models until
        `needed` chunks have been freed, while other threads run. */
    method EvictFor(needed: int) returns (remaining: int, ghost order: seq<(string, int)>, ghost log: seq<Attempt>)
      requires Valid() && needed > 0
      modifies pool`freeList, modelMap.Values
      ensures Valid() && Rely(old(View()), View())
      ensures |pool.freeList| >= |old(pool.freeList)| + Freed(log)
      ensures SortedByTime(order) && ItemsOf(order, lastAccess)
      ensures LogOk(log, order) && remaining == needed - Freed(log)
      ensures remaining > 0 ==> |log| == |order|
      ensures remaining <= 0 ==> log != [] && log[|log| - 1].freed > 0 && Freed(log[..|log| - 1]) < needed
    {
      var accessOrder := SortByTime(lastAccess);
      order := accessOrder;
      remaining, log := EvictInOrder(needed, accessOrder);
    }

    method EvictInOrder(needed: int, order: seq<(string, int)>) returns (remaining: int, ghost log: seq<Attempt>)
      requires Valid() && needed > 0 && ItemsOf(order, lastAccess)
      modifies pool`freeList, modelMap.Values
      ensures Valid() && Rely(old(View()), View())
      ensures |pool.freeList| >= |old(pool.freeList)| + Freed(log)
      ensures LogOk(log, order) && remaining == needed - Freed(log)
      ensures remaining > 0 ==> |log| == |order|
      ensures remaining <= 0 ==> log != [] && log[|log| - 1].freed > 0 && Freed(log[..|log| - 1]) < needed
    {
      remaining, log := needed, [];
      var i := 0;
      while i < |order|
        invariant 0 <= i <= |order| && |log| == i
        invariant Valid() && Rely(old(View()), View())
        invariant |pool.freeList| >= |old(pool.freeList)| + Freed(log)
        invariant LogOk(log, order) && remaining == needed - Freed(log) && remaining > 0
      {
        ghost var before := View();
        ghost var attempt;
        remaining, attempt := EvictNext(order[i].0, order[i].1, remaining);
        RelyTransitive(old(View()), before, View());
        LogAppend(log, attempt, order);
        log := log + [attempt];
        i := i + 1;
        if remaining <= 0 {
          return;
        }
      }
    }

    /** What a load under the store mutex has done to cover `shortage` chunks: nothing when there is
        no shortage; otherwise it has tried models from the least recently used one on, and stopped
        at the first that covered the shortage or, without success, behind the last. */
    ghost predicate Covered(shortage: int, ret: int, access: map<string, int>, order: seq<(string, int)>, log: seq<Attempt>) {
      && (shortage <= 0 ==> ret == 0 && log == [])
      && (shortage > 0 ==> SortedByTime(order) && ItemsOf(order, access) && LogOk(log, order))
      && (shortage > 0 && ret == 0 ==> log != [] && Freed(log[..|log| - 1]) < shortage <= Freed(log))
      && (shortage > 0 && ret != 0 ==> |log| == |order| && Freed(log) < shortage)
    }

    /** The part of `LoadModelFromDisk` under the store mutex. Success means the model has its
        memory: when the eviction covers the shortage, the second allocation cannot come up short,
        although its positive result is not checked. */
    method AllocateForLoad(path: string, now: int) returns (ret: int, ghost order: seq<(string, int)>, ghost log: seq<Attempt>)
      requires Valid()
      modifies this`lastAccess, pool`freeList, modelMap.Values
      ensures Valid()
      ensures ret == 0 || ret == -1
      ensures path !in modelMap ==> ret == -1 && log == []
      ensures ret == 0 ==> path in modelMap && Allocated(modelMap[path].state) && lastAccess == old(lastAccess)[path := now]
      ensures ret != 0 ==> lastAccess == old(lastAccess)
      ensures path in old(View()).models ==>
                Covered(Shortage(old(View()), path, pool.chunkSize), ret, old(lastAccess), order, log)
    {
      order, log := [], [];
      if path !in modelMap {
        return -1, order, log;
      }
      ret, order, log := AllocateOrEvict(path);
      if ret == 0 {
        RecordAccess(path, now);
      }
    }

    /** Both allocations, with the eviction between them. */
    method AllocateOrEvict(path: string) returns (ret: int, ghost order: seq<(string, int)>, ghost log: seq<Attempt>)
      requires Valid() && path in modelMap && path in View().models
      modifies pool`freeList, modelMap.Values
      ensures Valid()
      ensures ret == 0 || ret == -1
      ensures ret == 0 ==> Allocated(modelMap[path].state)
      ensures Covered(Shortage(old(View()), path, pool.chunkSize), ret, lastAccess, order, log)
    {
      order, log := [], [];
      var remainingSize := AllocateModel(path);
      if remainingSize > 0 {
        ret, order, log := EvictAndAllocate(path, remainingSize);
      } else {
        ret := 0;
      }
    }

    method RecordAccess(path: string, now: int)
      requires Valid() && path in modelMap
      modifies this`lastAccess
      ensures Valid() && lastAccess == old(lastAccess)[path := now]
    {
      assert path in View().models;
      StepInv(pool.pool, pool.chunkSize, View(), Touch(path, now));
      lastAccess := lastAccess[path := now];
      assert View() == Apply(pool.chunkSize, old(View()), Touch(path, now));
    }

    /** The branch of `LoadModelFromDisk` that evicts and allocates again, with other threads
        running before each attempt and between the last one and the allocation. */
    method EvictAndAllocate(path: string, needed: int) returns (ret: int, ghost order: seq<(string, int)>, ghost log: seq<Attempt>)
      requires Valid() && path in modelMap && path in View().models
      requires needed > 0 && needed == Shortage(View(), path, pool.chunkSize)
      modifies pool`freeList, modelMap.Values
      ensures Valid() && (ret == 0 || ret == -1)
      ensures ret == 0 ==> Allocated(modelMap[path].state)
      ensures Covered(needed, ret, lastAccess, order, log)
    {
      var remaining;
      remaining, order, log := EvictFor(needed);
      if remaining > 0 {
        return -1, order, log;
      }
      AllocateAgain(path, old(View()));
      return 0, order, log;
    }

    /** The second allocation, with other threads running before it. */
    method AllocateAgain(path: string, ghost first: StoreState)
      requires Valid() && path in modelMap && path in first.models && Rely(first, View())
      requires Shortage(first, path, pool.chunkSize) > 0
      requires |View().free| >= |first.free| + Shortage(first, path, pool.chunkSize)
      modifies pool`freeList, modelMap.Values
      ensures Valid() && Allocated(modelMap[path].state)
    {
      ghost var before := View();
      Interfere();
      RelyTransitive(first, before, View());
      ShortageCovered(first, before, View(), path, pool.chunkSize);
      var remainingSize := AllocateModel(path);
      assert remainingSize == 0;
    }
  }

  /** How many chunks a model without memory misses; 0 when it has memory. */
  ghost function Shortage(s: StoreState, n: string, chunk: nat): int
    requires chunk > 0 && n in s.models
  {
    if s.models[n].state != UNALLOCATED then 0 else CeilDiv(s.models[n].size, chunk) - |s.free|
  }

  /** What `AllocatePinnedMemory` does to a model, the free list and its result. */
  ghost predicate AllocationDone(chunk: nat, m: ModelRec, free: set<nat>, m': ModelRec, free': set<nat>, ret: int)
    requires chunk > 0
  {
    var need := CeilDiv(m.size, chunk);
    if m.state != UNALLOCATED then ret == 0 && m' == m && free' == free
    else if need > |free| then ret == need - |free| && m' == m.(pinned := Some([])) && free' == free
    else
      && ret == 0 && m'.pinned.Some? && m' == m.(pinned := m'.pinned, state := ALLOCATED)
      && |m'.pinned.value| == need && Distinct(m'.pinned.value) && ToSet(m'.pinned.value) <= free
      && free' == free - ToSet(m'.pinned.value)
  }

  lemma AllocationInv(pool: set<nat>, chunk: nat, s: StoreState, n: string, m: ModelRec, free: set<nat>, ret: int)
    requires chunk > 0 && Inv(pool, chunk, s) && n in s.models && AllocationDone(chunk, s.models[n], s.free, m, free, ret)
    ensures Inv(pool, chunk, s.Set(n, m, free))
    ensures ret == if Shortage(s, n, chunk) > 0 then Shortage(s, n, chunk) else 0
    ensures ret == 0 ==> Allocated(m.state)
    ensures ret > 0 ==> Rely(s, s.Set(n, m, free)) && free == s.free
  {
    assert ModelOk(s.models[n], chunk);
    if s.models[n].state != UNALLOCATED {
      SetSame(s, n);
    } else if ret > 0 {
      StepInv(pool, chunk, s, AllocateShort(n));
    } else {
      StepInv(pool, chunk, s, Allocate(n, m.pinned.value));
    }
  }

  /** Chunks that cover a shortage stay there while other threads run. */
  lemma ShortageCovered(first: StoreState, s: StoreState, last: StoreState, n: string, chunk: nat)
    requires chunk > 0 && n in first.models && Rely(first, s) && Rely(s, last) && Rely(first, last)
    requires Shortage(first, n, chunk) > 0 && |s.free| >= |first.free| + Shortage(first, n, chunk)
    ensures n in last.models && last.models[n].state == UNALLOCATED && Shortage(last, n, chunk) <= 0
  {
    SubsetSize(s.free, last.free);
  }
}
