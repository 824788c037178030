/** Ownership of the pinned chunks by the models of a store, as a state machine over the
    sections that `Model` and `CheckpointStore` run under their mutexes
    (csrc/sllm_store/model.cpp, csrc/sllm_store/checkpoint_store.cpp). */
module HostMemory {
  import opened Arith
  import opened Collections

  datatype MemoryState = UNINITIALIZED | UNALLOCATED | ALLOCATED | LOADING | LOADED | CANCELLED | INTERRUPTED

  /** The fields of a `Model` that matter for its memory. `pinned` is the owned `PinnedMemory`
      (`None` for a null pointer), `loaders` counts I/O phases of `ToHost` under way and
      `interrupters` failed ones that still wait for replicas. */
  datatype ModelRec = ModelRec(size: nat, state: MemoryState, pinned: Option<seq<nat>>, replicas: map<string, MemoryState>, loaders: nat, interrupters: nat) {
    function Held(): seq<nat> {
      if pinned.Some? then pinned.value else []
    }

    predicate ReplicaLoading() {
      exists r :: r in replicas && replicas[r] == LOADING
    }
  }

  predicate Allocated(state: MemoryState) {
    state == ALLOCATED || state == LOADING || state == LOADED || state == INTERRUPTED
  }

  /** A model whose state says it has memory holds exactly the chunks its size needs, any other
      holds none, and it is LOADING exactly while an I/O phase is under way. */
  ghost predicate ModelOk(m: ModelRec, chunk: nat)
    requires chunk > 0
  {
    && m.size > 0 && m.state != CANCELLED && m.state != UNINITIALIZED
    && Distinct(m.Held())
    && (Allocated(m.state) ==> m.pinned.Some? && |m.Held()| == CeilDiv(m.size, chunk))
    && (!Allocated(m.state) ==> m.Held() == [])
    && m.loaders == if m.state == LOADING then 1 else 0
  }

  /** The store: free list, registered models, last access times. */
  datatype StoreState = StoreState(free: set<nat>, models: map<string, ModelRec>, access: map<string, int>) {
    function Set(n: string, m: ModelRec, free': set<nat>): StoreState {
      this.(models := models[n := m], free := free')
    }
  }

  /** The free list and the chunks of the models are pairwise disjoint and make up the pool. */
  ghost predicate Partition(pool: set<nat>, s: StoreState) {
    && s.free <= pool
    && (forall n, b :: n in s.models && b in s.models[n].Held() ==> b in pool && b !in s.free)
    && (forall n, n', b :: n in s.models && n' in s.models && n != n' && b in s.models[n].Held() ==> b !in s.models[n'].Held())
    && (forall b :: b in pool ==> b in s.free || exists n :: n in s.models && b in s.models[n].Held())
  }

  ghost predicate Inv(pool: set<nat>, chunk: nat, s: StoreState)
    requires chunk > 0
  {
    && (forall n :: n in s.models ==> ModelOk(s.models[n], chunk))
    && (forall n :: n in s.access ==> n in s.models)
    && Partition(pool, s)
  }

  // ---- Sections run under a model's mutex ----------------------------------------------

  /** `TryFreeHost`: the model, the free list and the result afterwards. */
  ghost function TryFree(m: ModelRec, free: set<nat>): (ModelRec, set<nat>, int) {
    if m.state == UNINITIALIZED || m.state == UNALLOCATED then (m, free, 0)
    else if m.state == LOADING || m.ReplicaLoading() then (m, free, -1)
    else (m.(pinned := None, state := UNALLOCATED), free + ToSet(m.Held()), |m.Held()|)
  }

  /** `FreeHost`, entered when nothing is loading. */
  ghost function FreeHost(m: ModelRec, free: set<nat>): (ModelRec, set<nat>, int) {
    if m.state == UNINITIALIZED || m.state == UNALLOCATED then (m, free, 1)
    else (m.(pinned := None, state := UNALLOCATED), free + ToSet(m.Held()), 0)
  }

  /** The steps. Those of the first line run with the store mutex held. */
  datatype Step =
    | Register(n: string, size: nat) | Allocate(n: string, bufs: seq<nat>) | AllocateShort(n: string) | Evict(n: string) | Touch(n: string, time: int)
    | BeginLoad(n: string) | FinishLoad(n: string) | FailLoad(n: string)
    | Interrupt(n: string) | CancelReplica(n: string, r: string) | EndInterrupt(n: string)
    | Free(n: string)
    | StartGpu(n: string, r: string) | EndGpu(n: string, r: string, ok: bool) | FreeGpu(n: string, r: string)

  predicate NeedsStoreMutex(step: Step) {
    step.Register? || step.Allocate? || step.AllocateShort? || step.Evict? || step.Touch?
  }

  ghost predicate Settled(m: ModelRec) {
    forall r :: r in m.replicas ==> m.replicas[r] == LOADED || m.replicas[r] == INTERRUPTED
  }

  /** When a section that needs no store mutex can run on a model. */
  ghost predicate SectionEnabled(m: ModelRec, step: Step) {
    match step
    case BeginLoad(_) => m.state == ALLOCATED
    case FinishLoad(_) => m.loaders > 0
    case FailLoad(_) => m.loaders > 0 && Settled(m)
    case Interrupt(_) => m.loaders > 0 && !Settled(m)
    case CancelReplica(_, r) => m.interrupters > 0 && r in m.replicas && m.replicas[r] == LOADING
    case EndInterrupt(_) => m.interrupters > 0
    case Free(_) => m.state != LOADING && !m.ReplicaLoading()
    case StartGpu(_, r) => m.state != UNINITIALIZED && r !in m.replicas
    case EndGpu(_, r, _) => r in m.replicas && (m.replicas[r] == LOADING || m.replicas[r] == CANCELLED)
    case FreeGpu(_, r) => r in m.replicas && m.replicas[r] != LOADING
    case _ => false
  }

  /** What it does to the model and the free list. */
  ghost function Section(m: ModelRec, free: set<nat>, step: Step): (ModelRec, set<nat>)
    requires SectionEnabled(m, step)
  {
    match step
    case BeginLoad(_) => (m.(state := LOADING, loaders := m.loaders + 1), free)
    case FinishLoad(_) => (m.(state := LOADED, loaders := m.loaders - 1), free)
    case FailLoad(_) => (m.(state := UNALLOCATED, pinned := None, loaders := m.loaders - 1), free + ToSet(m.Held()))
    case Interrupt(_) => (m.(state := INTERRUPTED, loaders := m.loaders - 1, interrupters := m.interrupters + 1), free)
    case CancelReplica(_, r) => (m.(replicas := m.replicas[r := CANCELLED]), free)
    case EndInterrupt(_) => (m.(state := UNALLOCATED, pinned := None, interrupters := m.interrupters - 1), free + ToSet(m.Held()))
    case Free(_) => var (m', free', _) := FreeHost(m, free); (m', free')
    case StartGpu(_, r) => (m.(replicas := m.replicas[r := LOADING]), free)
    case EndGpu(_, r, ok) => (m.(replicas := m.replicas[r := if ok then LOADED else INTERRUPTED]), free)
    case FreeGpu(_, r) => (m.(replicas := m.replicas - {r}), free)
  }

  ghost predicate Enabled(chunk: nat, s: StoreState, step: Step)
    requires chunk > 0
  {
    match step
    case Register(n, size) => n !in s.models && size > 0
    case Allocate(n, bufs) =>
      && n in s.models && s.models[n].state == UNALLOCATED
      && Distinct(bufs) && ToSet(bufs) <= s.free && |bufs| == CeilDiv(s.models[n].size, chunk)
    case AllocateShort(n) =>
      n in s.models && s.models[n].state == UNALLOCATED && CeilDiv(s.models[n].size, chunk) > |s.free|
    case Evict(n) => n in s.access && n in s.models
    case Touch(n, time) => n in s.models
    case _ => step.n in s.models && SectionEnabled(s.models[step.n], step)
  }

  ghost function Apply(chunk: nat, s: StoreState, step: Step): StoreState
    requires chunk > 0 && Enabled(chunk, s, step)
  {
    match step
    case Register(n, size) => s.Set(n, ModelRec(size, UNALLOCATED, None, map[], 0, 0), s.free)
    case Allocate(n, bufs) => s.Set(n, s.models[n].(pinned := Some(bufs), state := ALLOCATED), s.free - ToSet(bufs))
    case AllocateShort(n) => s.Set(n, s.models[n].(pinned := Some([])), s.free)
    case Evict(n) => var (m, free, _) := TryFree(s.models[n], s.free); s.Set(n, m, free)
    case Touch(n, time) => s.(access := s.access[n := time])
    case _ => var (m, free) := Section(s.models[step.n], s.free, step); s.Set(step.n, m, free)
  }

  // ---- Every step ----------------------------------------------------------------------

  /** Changing one model keeps the partition when what it holds and what is free change into
      each other. */
  lemma SetPartition(pool: set<nat>, s: StoreState, n: string, m: ModelRec, free: set<nat>)
    requires Partition(pool, s)
    requires forall b :: b in m.Held() ==> b !in free
    requires forall b :: (b in free || b in m.Held()) <==> (b in s.free || (n in s.models && b in s.models[n].Held()))
    ensures Partition(pool, s.Set(n, m, free))
  {
    var s' := s.Set(n, m, free);
    forall b | b in pool
      ensures b in s'.free || exists k :: k in s'.models && b in s'.models[k].Held()
    {
      if b !in s.free && !(n in s.models && b in s.models[n].Held()) {
        var k :| k in s.models && b in s.models[k].Held();
        assert k in s'.models && b in s'.models[k].Held();
      } else if b !in free {
        assert n in s'.models && b in s'.models[n].Held();
      }
    }
  }

  /** The one step that can break the invariant: a failed load that has waited for its replicas
      releases the memory of whatever load is under way by then. */
  predicate Late(s: StoreState, step: Step) {
    step.EndInterrupt? && step.n in s.models && s.models[step.n].state == LOADING
  }

  lemma SectionModel(chunk: nat, m: ModelRec, free: set<nat>, step: Step)
    requires chunk > 0 && ModelOk(m, chunk) && SectionEnabled(m, step)
    ensures ModelOk(Section(m, free, step).0, chunk) <==> !(step.EndInterrupt? && m.state == LOADING)
  {
  }

  /** What the model holds and what is free change into each other. */
  lemma SectionExchange(chunk: nat, m: ModelRec, free: set<nat>, step: Step)
    requires chunk > 0 && ModelOk(m, chunk) && SectionEnabled(m, step) && forall b :: b in m.Held() ==> b !in free
    ensures var (m', free') := Section(m, free, step);
            && (forall b :: b in m'.Held() ==> b !in free')
            && (forall b :: b in free' || b in m'.Held() <==> b in free || b in m.Held())
  {
  }

  lemma StepModel(chunk: nat, s: StoreState, step: Step)
    requires chunk > 0 && Enabled(chunk, s, step) && !step.Touch?
    requires step.n in s.models ==> ModelOk(s.models[step.n], chunk)
    ensures step.n in Apply(chunk, s, step).models
    ensures ModelOk(Apply(chunk, s, step).models[step.n], chunk) <==> !Late(s, step)
  {
    if !NeedsStoreMutex(step) {
      SectionModel(chunk, s.models[step.n], s.free, step);
    }
  }

  lemma StepExchange(pool: set<nat>, chunk: nat, s: StoreState, step: Step)
    requires chunk > 0 && Partition(pool, s) && Enabled(chunk, s, step) && !step.Touch?
    requires step.n in s.models ==> ModelOk(s.models[step.n], chunk)
    ensures var s' := Apply(chunk, s, step);
            && s' == s.Set(step.n, s'.models[step.n], s'.free)
            && (forall b :: b in s'.models[step.n].Held() ==> b !in s'.free)
            && (forall b :: (b in s'.free || b in s'.models[step.n].Held())
                  <==> (b in s.free || (step.n in s.models && b in s.models[step.n].Held())))
  {
    if !NeedsStoreMutex(step) {
      SectionExchange(chunk, s.models[step.n], s.free, step);
    }
  }

  /** Each step keeps the invariant, except a late one, which breaks it. */
  lemma StepInv(pool: set<nat>, chunk: nat, s: StoreState, step: Step)
    requires chunk > 0 && Inv(pool, chunk, s) && Enabled(chunk, s, step)
    ensures Inv(pool, chunk, Apply(chunk, s, step)) <==> !Late(s, step)
  {
    if !step.Touch? {
      var s' := Apply(chunk, s, step);
      StepModel(chunk, s, step);
      StepExchange(pool, chunk, s, step);
      SetPartition(pool, s, step.n, s'.models[step.n], s'.free);
      SetInv(pool, chunk, s, step.n, s'.models[step.n], s'.free);
    }
  }

  lemma SetInv(pool: set<nat>, chunk: nat, s: StoreState, n: string, m: ModelRec, free: set<nat>)
    requires chunk > 0 && Inv(pool, chunk, s) && Partition(pool, s.Set(n, m, free))
    ensures Inv(pool, chunk, s.Set(n, m, free)) <==> ModelOk(m, chunk)
  {
    assert s.Set(n, m, free).models[n] == m;
  }

  // ---- All runs ------------------------------------------------------------------------

  /** The run goes through `states` by `steps`, from a store without models. */
  ghost predicate IsRun(pool: set<nat>, chunk: nat, states: seq<StoreState>, steps: seq<Step>)
    requires chunk > 0
  {
    && |states| == |steps| + 1
    && states[0] == StoreState(pool, map[], map[])
    && forall k :: 0 <= k < |steps| ==> Enabled(chunk, states[k], steps[k]) && states[k + 1] == Apply(chunk, states[k], steps[k])
  }

  /** In every state reached without a late step the chunks are accounted for; the first late
      step, if any, leaves a model that is loading without memory. */
  lemma {:induction false} RunInv(pool: set<nat>, chunk: nat, states: seq<StoreState>, steps: seq<Step>, k: nat)
    requires chunk > 0 && IsRun(pool, chunk, states, steps) && k <= |steps|
    requires forall j :: 0 <= j < k - 1 ==> !Late(states[j], steps[j])
    ensures Inv(pool, chunk, states[k]) <==> k == 0 || !Late(states[k - 1], steps[k - 1])
  {
    if k > 0 {
      RunInv(pool, chunk, states, steps, k - 1);
      StepInv(pool, chunk, states[k - 1], steps[k - 1]);
    }
  }

  // ---- Memory in use is kept -----------------------------------------------------------

  /** Something is reading into the model's chunks or copying out of them. */
  predicate Busy(m: ModelRec) {
    m.state == LOADING || m.ReplicaLoading()
  }

  /** A load of the model gives up its memory. */
  predicate GivesUp(step: Step, n: string) {
    step.n == n && (step.FailLoad? || step.EndInterrupt?)
  }

  /** A step leaves a busy model its chunks unless it is the end of a failed load of the model. */
  lemma BusyKeepsIff(pool: set<nat>, chunk: nat, s: StoreState, step: Step, n: string)
    requires chunk > 0 && Inv(pool, chunk, s) && Enabled(chunk, s, step)
    requires n in s.models && Busy(s.models[n]) && s.models[n].Held() != []
    ensures n in Apply(chunk, s, step).models
    ensures Apply(chunk, s, step).models[n].Held() == s.models[n].Held() <==> !GivesUp(step, n)
  {
    assert ModelOk(s.models[n], chunk);
  }

  ghost predicate NoFailure(steps: seq<Step>) {
    forall k :: 0 <= k < |steps| ==> !steps[k].FailLoad? && !steps[k].Interrupt?
  }

  lemma StepInterrupters(chunk: nat, s: StoreState, step: Step)
    requires chunk > 0 && Enabled(chunk, s, step) && !step.FailLoad? && !step.Interrupt?
    requires forall n :: n in s.models ==> s.models[n].interrupters == 0
    ensures forall n :: n in Apply(chunk, s, step).models ==> Apply(chunk, s, step).models[n].interrupters == 0
    ensures !Late(s, step)
  {
  }

  lemma {:induction false} NoInterrupters(pool: set<nat>, chunk: nat, states: seq<StoreState>, steps: seq<Step>, k: nat)
    requires chunk > 0 && IsRun(pool, chunk, states, steps) && NoFailure(steps) && k <= |steps|
    ensures forall n :: n in states[k].models ==> states[k].models[n].interrupters == 0
    ensures Inv(pool, chunk, states[k])
  {
    if k > 0 {
      NoInterrupters(pool, chunk, states, steps, k - 1);
      StepInterrupters(chunk, states[k - 1], steps[k - 1]);
      StepInv(pool, chunk, states[k - 1], steps[k - 1]);
    } else {
      RunInv(pool, chunk, states, steps, 0);
    }
  }

  lemma BusyKeepsNext(pool: set<nat>, chunk: nat, states: seq<StoreState>, steps: seq<Step>, k: nat, n: string)
    requires chunk > 0 && IsRun(pool, chunk, states, steps) && NoFailure(steps) && k < |steps|
    requires n in states[k].models && Busy(states[k].models[n]) && states[k].models[n].Held() != []
    ensures n in states[k + 1].models && states[k + 1].models[n].Held() == states[k].models[n].Held()
  {
    NoInterrupters(pool, chunk, states, steps, k);
    BusyKeepsIff(pool, chunk, states[k], steps[k], n);
    assert !GivesUp(steps[k], n);
  }

  /** While no load fails, a model keeps the very chunks it has for as long as it is loading or
      copied from: what the interleaved threads of a load read and write stays theirs. */
  lemma {:induction false} BusyKeepsChunks(pool: set<nat>, chunk: nat, states: seq<StoreState>, steps: seq<Step>, i: nat, k: nat, n: string)
    requires chunk > 0 && IsRun(pool, chunk, states, steps) && NoFailure(steps) && i <= k <= |steps|
    requires forall j :: i <= j < k ==> n in states[j].models && Busy(states[j].models[n])
    requires n in states[i].models && states[i].models[n].Held() != []
    ensures n in states[k].models && states[k].models[n].Held() == states[i].models[n].Held()
    decreases k - i
  {
    if i < k {
      BusyKeepsChunks(pool, chunk, states, steps, i, k - 1, n);
      assert Busy(states[k - 1].models[n]);
      BusyKeepsNext(pool, chunk, states, steps, k - 1, n);
    }
  }

  // One model, one chunk, one replica: the failed load waits for the replica, the model is
  // unloaded and loaded again meanwhile, and then loses its chunk.

  datatype Race = Race(n: string, size: nat, r: string, b: nat) {
    function StepAt(k: nat): Step {
      match k
      case 0 => Register(n, size)
      case 1 => Allocate(n, [b])
      case 2 => Touch(n, 0)
      case 3 => BeginLoad(n)
      case 4 => StartGpu(n, r)
      case 5 => Interrupt(n)
      case 6 => CancelReplica(n, r)
      case 7 => Free(n)
      case 8 => Allocate(n, [b])
      case 9 => Touch(n, 1)
      case 10 => BeginLoad(n)
      case 11 => EndGpu(n, r, true)
      case 12 => EndInterrupt(n)
      case _ => FinishLoad(n)
    }

    /** The model before step `k`. */
    function ModelAt(k: nat): ModelRec {
      match k
      case 1 => ModelRec(size, UNALLOCATED, None, map[], 0, 0)
      case 2 => ModelRec(size, ALLOCATED, Some([b]), map[], 0, 0)
      case 3 => ModelRec(size, ALLOCATED, Some([b]), map[], 0, 0)
      case 4 => ModelRec(size, LOADING, Some([b]), map[], 1, 0)
      case 5 => ModelRec(size, LOADING, Some([b]), map[r := LOADING], 1, 0)
      case 6 => ModelRec(size, INTERRUPTED, Some([b]), map[r := LOADING], 0, 1)
      case 7 => ModelRec(size, INTERRUPTED, Some([b]), map[r := CANCELLED], 0, 1)
      case 8 => ModelRec(size, UNALLOCATED, None, map[r := CANCELLED], 0, 1)
      case 9 => ModelRec(size, ALLOCATED, Some([b]), map[r := CANCELLED], 0, 1)
      case 10 => ModelRec(size, ALLOCATED, Some([b]), map[r := CANCELLED], 0, 1)
      case 11 => ModelRec(size, LOADING, Some([b]), map[r := CANCELLED], 1, 1)
      case 12 => ModelRec(size, LOADING, Some([b]), map[r := LOADED], 1, 1)
      case 13 => ModelRec(size, UNALLOCATED, None, map[r := LOADED], 1, 0)
      case _ => ModelRec(size, LOADED, None, map[r := LOADED], 0, 0)
    }

    function StateAt(k: nat): StoreState {
      StoreState(if k <= 1 || k == 8 || k >= 13 then {b} else {},
                 if k == 0 then map[] else map[n := ModelAt(k)],
                 if k <= 2 then map[] else if k <= 9 then map[n := 0] else map[n := 1])
    }

    ghost predicate NextAt(chunk: nat, k: nat)
      requires chunk > 0
    {
      Enabled(chunk, StateAt(k), StepAt(k)) && StateAt(k + 1) == Apply(chunk, StateAt(k), StepAt(k))
    }

    lemma Loading(chunk: nat)
      requires chunk > 0 && size > 0 && CeilDiv(size, chunk) == 1
      ensures NextAt(chunk, 0) && NextAt(chunk, 2) && NextAt(chunk, 3) && NextAt(chunk, 9) && NextAt(chunk, 10)
    {
    }

    lemma Allocating(chunk: nat, k: nat)
      requires chunk > 0 && CeilDiv(size, chunk) == 1 && (k == 1 || k == 8)
      ensures NextAt(chunk, k)
    {
      assert ToSet([b]) == {b};
    }

    lemma Failing(chunk: nat)
      requires chunk > 0
      ensures NextAt(chunk, 4) && NextAt(chunk, 5)
    {
      assert r in ModelAt(5).replicas && !Settled(ModelAt(5));
    }

    lemma Cancelling(chunk: nat)
      requires chunk > 0
      ensures NextAt(chunk, 6)
    {
      assert ModelAt(6).replicas[r := CANCELLED] == ModelAt(7).replicas;
    }

    lemma Unloading(chunk: nat)
      requires chunk > 0
      ensures NextAt(chunk, 7)
    {
      assert ToSet([b]) == {b};
    }

    lemma Releasing(chunk: nat)
      requires chunk > 0
      ensures NextAt(chunk, 12)
    {
      assert ToSet([b]) == {b};
    }

    lemma Ending(chunk: nat)
      requires chunk > 0
      ensures NextAt(chunk, 11) && NextAt(chunk, 13)
    {
      assert ModelAt(11).replicas[r := LOADED] == ModelAt(12).replicas;
    }

    lemma AllSteps(chunk: nat, k: nat)
      requires chunk > 0 && size > 0 && CeilDiv(size, chunk) == 1 && k < 14
      ensures NextAt(chunk, k)
    {
      if k == 1 || k == 8 {
        Allocating(chunk, k);
      } else if k == 7 {
        Unloading(chunk);
      } else if k == 4 || k == 5 {
        Failing(chunk);
      } else if k == 6 {
        Cancelling(chunk);
      } else if k == 12 {
        Releasing(chunk);
      } else if k >= 11 {
        Ending(chunk);
      } else {
        Loading(chunk);
      }
    }
  }

  /** Late steps do happen: on a pool of one chunk and a model that fits it, this run of loads, a
      replica and an unload ends with the model in state LOADED and its memory pointer null. */
  lemma LateReleaseRun(race: Race, chunk: nat) returns (states: seq<StoreState>, steps: seq<Step>)
    requires chunk > 0 && race.size > 0 && CeilDiv(race.size, chunk) == 1
    ensures IsRun({race.b}, chunk, states, steps)
    ensures forall k :: 0 <= k < |steps| ==> !steps[k].Evict?
    ensures race.n in states[|steps|].models && states[|steps|].models[race.n].state == LOADED
    ensures states[|steps|].models[race.n].pinned == None
  {
    steps := seq(14, k requires 0 <= k < 14 => race.StepAt(k));
    states := seq(15, k requires 0 <= k < 15 => race.StateAt(k));
    forall k | 0 <= k < 14
      ensures Enabled(chunk, states[k], steps[k]) && states[k + 1] == Apply(chunk, states[k], steps[k])
    {
      race.AllSteps(chunk, k);
      assert race.NextAt(chunk, k);
    }
  }

  // ---- What other threads can do while the store mutex is held -------------------------

  /** Chunks only come back, no model appears, disappears or changes size, and a model without
      memory does not get any. */
  ghost predicate Rely(s: StoreState, s': StoreState) {
    && s.free <= s'.free && s'.models.Keys == s.models.Keys && s'.access == s.access
    && forall n :: n in s.models ==>
         && s'.models[n].size == s.models[n].size
         && (s.models[n].state == UNALLOCATED ==> s'.models[n].state == UNALLOCATED)
  }

  lemma EnvironmentRely(pool: set<nat>, chunk: nat, s: StoreState, step: Step)
    requires chunk > 0 && Inv(pool, chunk, s) && Enabled(chunk, s, step) && !NeedsStoreMutex(step)
    ensures Rely(s, Apply(chunk, s, step))
  {
    SectionRely(chunk, s.models[step.n], s.free, step);
  }

  lemma SectionRely(chunk: nat, m: ModelRec, free: set<nat>, step: Step)
    requires chunk > 0 && ModelOk(m, chunk) && SectionEnabled(m, step)
    ensures var (m', free') := Section(m, free, step);
            free <= free' && m'.size == m.size && (m.state == UNALLOCATED ==> m'.state == UNALLOCATED)
  {
  }

  lemma RelyTransitive(a: StoreState, b: StoreState, c: StoreState)
    requires Rely(a, b) && Rely(b, c)
    ensures Rely(a, c)
  {
  }

  /** An eviction too only brings chunks back. */
  lemma EvictRely(chunk: nat, s: StoreState, n: string)
    requires chunk > 0 && Enabled(chunk, s, Evict(n))
    ensures Rely(s, Apply(chunk, s, Evict(n)))
  {
  }

  /** An eviction returns exactly as many chunks to the free list as it reports. */
  lemma EvictGains(pool: set<nat>, chunk: nat, s: StoreState, n: string)
    requires chunk > 0 && Inv(pool, chunk, s) && n in s.models
    ensures var (m, free, freed) := TryFree(s.models[n], s.free);
            && s.free <= free
            && |free| == |s.free| + (if freed > 0 then freed else 0)
            && (freed > 0 <==> Allocated(s.models[n].state) && s.models[n].state != LOADING && !s.models[n].ReplicaLoading())
            && (freed == 0 <==> s.models[n].state == UNALLOCATED)
            && (freed == 0 ==> s.models[n].Held() == [])
            && (freed > 0 ==> m.state == UNALLOCATED)
  {
    var m := s.models[n];
    assert ModelOk(m, chunk);
    DistinctCount(m.Held());
    CeilDivBounds(m.size, chunk);
    assert s.free !! ToSet(m.Held());
  }

  /** A release returns exactly the chunks held: afterwards the model has no memory. */
  ghost predicate Released(m: ModelRec, free: set<nat>, m': ModelRec, free': set<nat>) {
    && m'.state == UNALLOCATED && m'.Held() == [] && m'.pinned == None
    && m'.size == m.size && m'.replicas == m.replicas
    && free' == free + ToSet(m.Held()) && |free'| == |free| + |m.Held()|
  }

  lemma {:induction false} ReleaseGains(m: ModelRec, free: set<nat>, m': ModelRec, free': set<nat>)
    requires Distinct(m.Held()) && (forall b :: b in m.Held() ==> b !in free)
    requires m'.state == UNALLOCATED && m'.pinned == None && m'.size == m.size && m'.replicas == m.replicas
    requires free' == free + ToSet(m.Held())
    ensures Released(m, free, m', free')
  {
    DistinctCount(m.Held());
    assert free !! ToSet(m.Held());
  }

  /** Unloading a model with nothing loading: it succeeds if and only if the model has memory, and
      then every chunk it held is free and none is left to it; otherwise nothing changes. */
  lemma {:induction false} FreeGains(pool: set<nat>, chunk: nat, s: StoreState, n: string)
    requires chunk > 0 && Inv(pool, chunk, s) && n in s.models && !Busy(s.models[n])
    ensures var m := s.models[n];
            var (m', free', ret) := FreeHost(m, s.free);
            && (ret == 0 <==> Allocated(m.state)) && (ret == 0 || ret == 1)
            && (ret == 0 ==> Released(m, s.free, m', free') && |m.Held()| == CeilDiv(m.size, chunk) > 0)
            && (ret == 1 ==> m' == m && free' == s.free && m.Held() == [])
  {
    var m := s.models[n];
    assert ModelOk(m, chunk);
    if Allocated(m.state) {
      CeilDivBounds(m.size, chunk);
      var (m', free', _) := FreeHost(m, s.free);
      ReleaseGains(m, s.free, m', free');
    }
  }

  /** A load takes a model from ALLOCATED through LOADING to LOADED on the same chunks, and one that
      fails gives all of them back, at once or after waiting for its replicas. */
  lemma {:induction false} LoadLife(chunk: nat, m: ModelRec, free: set<nat>, step: Step)
    requires chunk > 0 && ModelOk(m, chunk) && SectionEnabled(m, step) && forall b :: b in m.Held() ==> b !in free
    ensures var (m', free') := Section(m, free, step);
            && (step.BeginLoad? ==> m.state == ALLOCATED && m'.state == LOADING && m'.Held() == m.Held() && free' == free)
            && (step.FinishLoad? && m.state == LOADING ==> m'.state == LOADED && m'.Held() == m.Held() && free' == free)
            && (step.Interrupt? ==> m'.state == INTERRUPTED && m'.Held() == m.Held() && free' == free)
            && (step.FailLoad? || step.EndInterrupt? ==> Released(m, free, m', free'))
  {
    var (m', free') := Section(m, free, step);
    if step.FailLoad? || step.EndInterrupt? {
      ReleaseGains(m, free, m', free');
    }
  }

  /** A replica starts LOADING and ends LOADED or, after a failed copy, INTERRUPTED; it goes only
      when it is not loading. The host side and the other replicas stay as they are. */
  lemma {:induction false} ReplicaLife(m: ModelRec, free: set<nat>, step: Step)
    requires SectionEnabled(m, step)
    requires step.StartGpu? || step.CancelReplica? || step.EndGpu? || step.FreeGpu?
    ensures var (m', free') := Section(m, free, step);
            && (step.StartGpu? ==> step.r !in m.replicas && step.r in m'.replicas && m'.replicas[step.r] == LOADING)
            && (step.CancelReplica? ==> m.replicas[step.r] == LOADING && step.r in m'.replicas && m'.replicas[step.r] == CANCELLED)
            && (step.EndGpu? ==> step.r in m'.replicas && (m'.replicas[step.r] == LOADED <==> step.ok) &&
                                 (m'.replicas[step.r] == INTERRUPTED <==> !step.ok))
            && (step.FreeGpu? ==> m.replicas[step.r] != LOADING && step.r !in m'.replicas)
            && (forall q :: q != step.r ==> (q in m'.replicas <==> q in m.replicas) && (q in m.replicas ==> m'.replicas[q] == m.replicas[q]))
            && m' == m.(replicas := m'.replicas) && free' == free
  {
  }

  // ---- Clearing the store --------------------------------------------------------------

  /** When no model has memory, the whole pool is free. */
  lemma AllFree(pool: set<nat>, chunk: nat, s: StoreState)
    requires chunk > 0 && Inv(pool, chunk, s) && forall n :: n in s.models ==> !Allocated(s.models[n].state)
    ensures s.free == pool
  {
    assert forall n :: n in s.models ==> s.models[n].Held() == [];
  }

  /** What clearing leaves: all chunks free and no model, but the access times. */
  function Cleared(pool: set<nat>, access: map<string, int>): StoreState {
    StoreState(pool, map[], access)
  }

  lemma ClearedInvIff(pool: set<nat>, chunk: nat, access: map<string, int>)
    requires chunk > 0
    ensures Inv(pool, chunk, Cleared(pool, access)) <==> access == map[]
  {
    assert access != map[] ==> exists n :: n in access;
  }

  ghost predicate Continues(chunk: nat, states: seq<StoreState>, steps: seq<Step>)
    requires chunk > 0
  {
    && |states| == |steps| + 1
    && forall k :: 0 <= k < |steps| ==> Enabled(chunk, states[k], steps[k]) && states[k + 1] == Apply(chunk, states[k], steps[k])
  }

  lemma StepNames(chunk: nat, s: StoreState, step: Step, n: string)
    requires chunk > 0 && Enabled(chunk, s, step)
    ensures n in Apply(chunk, s, step).models <==> n in s.models || (step.Register? && step.n == n)
    ensures n in s.access ==> n in Apply(chunk, s, step).access
  {
  }

  /** After clearing, a model that had an access time is still in the order of eviction, but there
      is no model behind its name until it is registered again. */
  lemma {:induction false} StaleUntilRegistered(pool: set<nat>, chunk: nat, access: map<string, int>, states: seq<StoreState>, steps: seq<Step>, k: nat, n: string)
    requires chunk > 0 && Continues(chunk, states, steps) && states[0] == Cleared(pool, access) && k <= |steps| && n in access
    ensures n in states[k].access
    ensures n in states[k].models <==> exists j :: 0 <= j < k && steps[j].Register? && steps[j].n == n
  {
    if k > 0 {
      StaleUntilRegistered(pool, chunk, access, states, steps, k - 1, n);
      StepNames(chunk, states[k - 1], steps[k - 1], n);
      if steps[k - 1].Register? && steps[k - 1].n == n {
        assert 0 <= k - 1 < k && steps[k - 1].Register? && steps[k - 1].n == n;
      }
    }
  }
}
